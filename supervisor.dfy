/**
 * The supervisor's state machine FORKED -> RUNNING -> DIED, as values: what
 * check_wstatus and the tail of check_child do to a handle's state, exit code
 * and terminating signal, and what a whole run of reaps does to them.
 */
module Supervisor {
  import opened Outcomes
  import opened Sys

  datatype State = Forked | Running | Died

  /** The supervised part of a handle: state_, exit_code_ and term_signal_. */
  datatype Proc = Proc(state: State, exitCode: Option<int>, termSignal: Option<int>)
  {
    /** An exit code or a terminating signal is only ever recorded for a dead child. */
    predicate Valid() { (exitCode.Some? || termSignal.Some?) ==> state == Died }
  }

  /** The handle after one reap, and whether that reap raised. */
  datatype Step = Step(proc: Proc, outcome: Outcome)

  /** check_wstatus: record how the child ended, or ignore a stop/continue report. */
  function Wstatus(p: Proc, st: WaitStatus): (q: Proc)
    ensures st.Terminal() ==> q.state == Died
    ensures !st.Terminal() ==> q == p
    ensures st.Exited? ==> q.exitCode == Some(st.code) && q.termSignal == p.termSignal
    ensures st.Signaled? ==> q.termSignal == Some(st.signal) && q.exitCode == p.exitCode
    ensures !(q.exitCode != p.exitCode && q.termSignal != p.termSignal)
    ensures p.Valid() ==> q.Valid()
  {
    match st
    case Exited(code) => p.(exitCode := Some(code), state := Died)
    case Signaled(signal) => p.(termSignal := Some(signal), state := Died)
    case _ => p
  }

  /**
   * What check_child does with the first waitpid answer that was not
   * interrupted.
   */
  function Reap(p: Proc, r: WaitReply): (s: Step)
    requires !r.Interrupted()
    ensures s.outcome.Fail? <==> r.Failed? && r.errno == EINVAL
    ensures s.outcome.Fail? ==> s == Step(p, Fail(WaitpidInvalid))
    ensures r.NoStatus? ==> s == Step(p, Pass)
    ensures r.Changed? ==> s == Step(Wstatus(p, r.status), Pass)
    ensures r.Failed? && r.errno != EINVAL ==>
      s.outcome == Pass && s.proc.state == Died &&
      s.proc.exitCode == p.exitCode && s.proc.termSignal == p.termSignal
    ensures s.proc.state == p.state || s.proc.state == Died
    ensures s.proc.state != Died ==> s.proc == p
    ensures !(r.Changed? && r.status.Terminal()) ==>
      s.proc.exitCode == p.exitCode && s.proc.termSignal == p.termSignal
    ensures p.Valid() ==> s.proc.Valid()
  {
    match r
    case Failed(errno) =>
      if errno == EINVAL then Step(p, Fail(WaitpidInvalid))
      else Step(p.(state := Died), Pass)
    case NoStatus => Step(p, Pass)
    case Changed(st) => Step(Wstatus(p, st), Pass)
  }

  /** None of the answers is an interrupted call. */
  predicate Settled(rs: seq<WaitReply>)
  {
    forall i :: 0 <= i < |rs| ==> !rs[i].Interrupted()
  }

  /** Successive reaps of one handle, stopping at the first one that raises. */
  function ReapAll(p: Proc, rs: seq<WaitReply>): (s: Step)
    requires Settled(rs)
    decreases |rs|
  {
    if rs == [] then Step(p, Pass)
    else
      var s := Reap(p, rs[0]);
      if s.outcome.Fail? then s else ReapAll(s.proc, rs[1..])
  }

  /** The number of answers that report the child gone. */
  function Terminals(rs: seq<WaitReply>): (k: nat)
  {
    if rs == [] then 0
    else (if rs[0].Changed? && rs[0].status.Terminal() then 1 else 0) + Terminals(rs[1..])
  }

  /** DIED is absorbing: no run of reaps brings a dead child back. */
  lemma {:induction false} DiedIsAbsorbing(p: Proc, rs: seq<WaitReply>)
    requires Settled(rs) && p.state == Died
    ensures ReapAll(p, rs).proc.state == Died
    decreases |rs|
  {
    if rs != [] {
      var s := Reap(p, rs[0]);
      if s.outcome.Pass? {
        DiedIsAbsorbing(s.proc, rs[1..]);
      }
    }
  }

  /** Reaping only ever moves a handle to DIED. */
  lemma {:induction false} ReapsOnlyKill(p: Proc, rs: seq<WaitReply>)
    requires Settled(rs)
    ensures ReapAll(p, rs).proc.state in {p.state, Died}
    decreases |rs|
  {
    if rs != [] {
      var s := Reap(p, rs[0]);
      if s.outcome.Pass? {
        ReapsOnlyKill(s.proc, rs[1..]);
        if s.proc.state == Died {
          DiedIsAbsorbing(s.proc, rs[1..]);
        }
      }
    }
  }

  /** No run of reaps records a code or a signal for a child that is not dead. */
  lemma {:induction false} ReapAllKeepsValid(p: Proc, rs: seq<WaitReply>)
    requires Settled(rs) && p.Valid()
    ensures ReapAll(p, rs).proc.Valid()
    decreases |rs|
  {
    if rs != [] {
      var s := Reap(p, rs[0]);
      if s.outcome.Pass? {
        ReapAllKeepsValid(s.proc, rs[1..]);
      }
    }
  }

  /** Without a terminal status the exit code and signal stay as they were. */
  lemma {:induction false} CodesNeedATerminalStatus(p: Proc, rs: seq<WaitReply>)
    requires Settled(rs) && Terminals(rs) == 0
    ensures ReapAll(p, rs).proc.exitCode == p.exitCode
    ensures ReapAll(p, rs).proc.termSignal == p.termSignal
    decreases |rs|
  {
    if rs != [] {
      var s := Reap(p, rs[0]);
      if s.outcome.Pass? {
        CodesNeedATerminalStatus(s.proc, rs[1..]);
      }
    }
  }

  /**
   * When the kernel reports the child gone at most once (a reaped pid cannot
   * be reaped again), a handle ends with at most one of an exit code and a
   * terminating signal.
   */
  lemma {:induction false} AtMostOneCause(p: Proc, rs: seq<WaitReply>)
    requires Settled(rs) && Terminals(rs) <= 1
    requires p.exitCode.None? && p.termSignal.None?
    ensures !(ReapAll(p, rs).proc.exitCode.Some? && ReapAll(p, rs).proc.termSignal.Some?)
    decreases |rs|
  {
    if rs != [] {
      var s := Reap(p, rs[0]);
      if s.outcome.Pass? {
        if rs[0].Changed? && rs[0].status.Terminal() {
          CodesNeedATerminalStatus(s.proc, rs[1..]);
        } else {
          AtMostOneCause(s.proc, rs[1..]);
        }
      }
    }
  }
}
