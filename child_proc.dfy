/**
 * ChildProc: the handle on a launched child.  It holds the child's pid and the
 * write end of the gate pipe, and supervises the state FORKED -> RUNNING ->
 * DIED through the kernel's waitpid answers.
 */
module ChildProcess {
  import opened Outcomes
  import opened Sys
  import opened Supervisor
  import opened Command

  /** The byte that releases the child from the gate. */
  const ChildGo: char := 'g'

  /** The signal terminate sends: SIGKILL when forced, SIGTERM otherwise. */
  function KillSignal(force: bool): (signal: int)
  {
    if force then SIGKILL else SIGTERM
  }

  /** n waitpid calls on pid with the same blocking mode. */
  function Waits(pid: int, block: bool, n: nat): (calls: seq<Syscall>)
  {
    seq(n, _ => SysWait(pid, block))
  }

  /** A call logged after position b is also logged after any earlier position a. */
  lemma InLaterSuffix(log: seq<Syscall>, a: nat, b: nat, c: Syscall)
    requires a <= b <= |log| && c in log[b..]
    ensures c in log[a..]
  {
    var i :| b <= i < |log| && log[i] == c;
    assert log[a..][i - a] == c;
  }

  class ChildProc {
    const os: Kernel
    const childPid: int
    const childPipe: int
    var state: State
    var exitCode: Option<int>
    var termSignal: Option<int>

    /** The supervised fields as a value. */
    function Snapshot(): Proc
      reads this
    {
      Proc(state, exitCode, termSignal)
    }

    ghost predicate Valid()
      reads this
    {
      os.Fair() && Snapshot().Valid()
    }

    /** The tail of the constructor: the child exists and waits at the gate. */
    constructor (os: Kernel, pid: int, pipe: int)
      requires os.Fair()
      ensures Valid() && this.os == os && childPid == pid && childPipe == pipe
      ensures Snapshot() == Proc(Forked, None, None)
    {
      this.os, childPid, childPipe := os, pid, pipe;
      state, exitCode, termSignal := Forked, None, None;
    }

    /** check_wstatus: record a decoded wait status. */
    method CheckWstatus(st: WaitStatus)
      requires Valid()
      modifies this
      ensures Valid() && Snapshot() == Wstatus(old(Snapshot()), st)
      ensures old(state) == Died ==> state == Died
    {
      if st.Exited? {
        exitCode := Some(st.code);
      } else if st.Signaled? {
        termSignal := Some(st.signal);
      } else {
        // stop and continue reports are ignored
        return;
      }
      state := Died;
    }

    /**
     * check_child: call waitpid (retrying while it is interrupted) and act on
     * the first answer that is not.  n is the number of calls made.
     */
    method CheckChild(block: bool) returns (o: Outcome, ghost n: nat)
      requires Valid()
      modifies this, os`log, os`waits
      ensures Valid()
      ensures os.SettledAt(old(os.waits), n) && os.waits == old(os.waits) + n
      ensures os.log == old(os.log) + Waits(childPid, block, n)
      ensures Step(Snapshot(), o) == Reap(old(Snapshot()), os.waitReply(os.waits - 1))
      ensures state == old(state) || state == Died
    {
      ghost var from := os.waits;
      assert os.AnswersFrom(from);
      ghost var k: nat :| from <= k && !os.waitReply(k).Interrupted();
      var ret := os.Waitpid(childPid, block);
      n := 1;
      while ret.Interrupted()
        invariant os.waits == from + n && 1 <= n && from + n - 1 <= k
        invariant ret == os.waitReply(from + n - 1)
        invariant forall i: nat :: from <= i < from + n - 1 ==> os.waitReply(i).Interrupted()
        invariant os.log == old(os.log) + Waits(childPid, block, n)
        invariant Snapshot() == old(Snapshot())
        decreases k - (from + n - 1)
      {
        ret := os.Waitpid(childPid, block);
        n := n + 1;
      }
      if ret.Failed? {
        if ret.errno == EINVAL {
          return Fail(WaitpidInvalid), n;
        }
        // any other error: assume the child is dead rather than risk a hang
        state := Died;
        return Pass, n;
      }
      if ret.NoStatus? {
        return Pass, n;
      }
      CheckWstatus(ret.status);
      o := Pass;
    }

    /** is_alive: reap without blocking unless already known dead. */
    method IsAlive() returns (r: Result<bool>, ghost n: nat)
      requires Valid()
      modifies this, os`log, os`waits
      ensures Valid()
      ensures os.waits == old(os.waits) + n && os.log == old(os.log) + Waits(childPid, false, n)
      ensures old(state) == Died ==> n == 0 && r == Ok(false) && Snapshot() == old(Snapshot())
      ensures old(state) != Died ==> os.SettledAt(old(os.waits), n)
      ensures old(state) != Died ==>
        var s := Reap(old(Snapshot()), os.waitReply(os.waits - 1));
        Snapshot() == s.proc &&
        r == if s.outcome.Pass? then Ok(s.proc.state != Died) else Err(s.outcome.error)
      ensures r.Ok? ==> r.value == (state != Died)
      ensures r.Ok? && r.value ==> Snapshot() == old(Snapshot())
      ensures state == old(state) || state == Died
    {
      n := 0;
      if state != Died {
        var o;
        o, n := CheckChild(false);
        if o.Fail? {
          return Err(o.error), n;
        }
      }
      r := Ok(state != Died);
    }

    /**
     * What terminate(force) does to a handle whose supervised fields were p,
     * with w0 waitpid answers used and log0 logged before the call: a
     * non-blocking reap of n1 calls; then, unless that raised, found the child
     * dead or found the pid implausible, one kill and a reap of n2 calls that
     * blocks iff forced.  end is the resulting fields and outcome.
     */
    ghost predicate Terminated(p: Proc, w0: nat, log0: seq<Syscall>, force: bool, n1: nat, n2: nat, end: Step)
      reads this, os
    {
      os.SettledAt(w0, n1) &&
      Snapshot() == end.proc &&
      var first := Reap(p, os.waitReply(w0 + n1 - 1));
      var signalled := first.outcome.Pass? && first.proc.state != Died && childPid > 1;
      (!signalled ==>
        os.waits == w0 + n1 && os.log == log0 + Waits(childPid, false, n1) &&
        end == Step(first.proc, if first.outcome.Pass? && first.proc.state != Died then Fail(ChildPidBug) else first.outcome)) &&
      (signalled ==>
        os.SettledAt(w0 + n1, n2) && os.waits == w0 + n1 + n2 &&
        os.log == log0 + Waits(childPid, false, n1) + [SysKill(childPid, KillSignal(force))] + Waits(childPid, force, n2) &&
        end == Reap(first.proc, os.waitReply(os.waits - 1)))
    }

    /**
     * terminate: reap once without blocking; unless the child is then known
     * dead, send SIGKILL (force) or SIGTERM and reap again, blocking only when
     * forced.  n1 and n2 count the waitpid calls of the two reaps.
     */
    method Terminate(force: bool) returns (o: Outcome, ghost n1: nat, ghost n2: nat)
      requires Valid()
      modifies this, os`log, os`waits
      ensures Valid()
      ensures Terminated(old(Snapshot()), old(os.waits), old(os.log), force, n1, n2, Step(Snapshot(), o))
      ensures state == old(state) || state == Died
      ensures old(state) == Died ==>
        state == Died && os.log == old(os.log) + Waits(childPid, false, n1)
      ensures o.Fail? ==> o.error in {WaitpidInvalid, ChildPidBug}
      ensures o.Pass? ==> state == Died || SysKill(childPid, KillSignal(force)) in os.log[|old(os.log)|..]
    {
      n2 := 0;
      o, n1 := CheckChild(false);
      if o.Fail? || state == Died {
        return;
      }
      if childPid <= 1 {
        o := Fail(ChildPidBug);
        return;
      }
      os.Kill(childPid, KillSignal(force));
      o, n2 := CheckChild(force);
      assert os.log[|old(os.log)| + n1] == SysKill(childPid, KillSignal(force));
    }

    /**
     * run: release the child from the gate.  The child must still be alive
     * and FORKED; the "go" byte is written once and the write end closed.
     * n counts the waitpid calls of the liveness check, t1 and t2 those of
     * the forced terminate after a failed write.
     */
    method Run() returns (o: Outcome, ghost n: nat, ghost t1: nat, ghost t2: nat)
      requires Valid()
      modifies this, os`log, os`waits, os`writes
      ensures Valid()
      ensures old(state) == Died ==>
        n == 0 && o == Fail(ChildDied) && os.log == old(os.log) && os.waits == old(os.waits) &&
        os.writes == old(os.writes) && Snapshot() == old(Snapshot())
      ensures old(state) != Died ==> os.SettledAt(old(os.waits), n)
      ensures old(state) != Died ==>
        var s := Reap(old(Snapshot()), os.waitReply(old(os.waits) + n - 1));
        var checked := old(os.log) + Waits(childPid, false, n);
        (s.outcome.Fail? || s.proc.state != Forked ==>
          os.writes == old(os.writes) && os.waits == old(os.waits) + n &&
          os.log == checked && Snapshot() == s.proc) &&
        (s.outcome.Fail? ==> o == s.outcome) &&
        (s.outcome.Pass? && s.proc.state == Died ==> o == Fail(ChildDied)) &&
        (s.outcome.Pass? && s.proc.state == Running ==> o == Fail(AssertionFailed)) &&
        (s.outcome.Pass? && s.proc.state == Forked ==>
          os.writes == old(os.writes) + 1 &&
          (os.writeReply(old(os.writes)) >= 0 ==>
            o == Pass && os.waits == old(os.waits) + n &&
            Snapshot() == s.proc.(state := Running) &&
            os.log == checked + [SysWrite(childPipe, ChildGo), SysClose(childPipe)]) &&
          (os.writeReply(old(os.writes)) < 0 ==>
            o.Fail? &&
            Terminated(s.proc, old(os.waits) + n, checked + [SysWrite(childPipe, ChildGo)], true, t1, t2,
                       Step(Snapshot(), if o == Fail(WriteFailed) then Pass else o))))
      ensures state == old(state) || state == Died || (old(state) == Forked && state == Running)
      ensures o.Pass? <==> os.writes == old(os.writes) + 1 && os.writeReply(old(os.writes)) >= 0
      ensures old(state) == Running ==> o.Fail?
      ensures |old(os.log)| <= |os.log|
      ensures o == Fail(WriteFailed) ==>
        state == Died || SysKill(childPid, SIGKILL) in os.log[|old(os.log)|..]
    {
      t1, t2 := 0, 0;
      var alive;
      alive, n := IsAlive();
      if alive.Err? {
        return Fail(alive.error), n, t1, t2;
      }
      if !alive.value {
        return Fail(ChildDied), n, t1, t2;
      }
      if state != Forked {
        return Fail(AssertionFailed), n, t1, t2;
      }
      var ret := os.Write(childPipe, ChildGo);
      if ret < 0 {
        ghost var afterWrite := os.log;
        var t;
        t, t1, t2 := Terminate(true);
        if t.Fail? {
          return t, n, t1, t2;
        }
        assert afterWrite <= os.log;
        if state != Died {
          InLaterSuffix(os.log, |old(os.log)|, |afterWrite|, SysKill(childPid, SIGKILL));
        }
        return Fail(WriteFailed), n, t1, t2;
      }
      state := Running;
      os.Close(childPipe);
      o := Pass;
    }

    /**
     * The destructor: close the write end, then force-terminate the child if
     * it is still alive.  n counts the waitpid calls of the liveness check,
     * t1 and t2 those of the forced terminate.
     */
    method Dispose() returns (o: Outcome, ghost n: nat, ghost t1: nat, ghost t2: nat)
      requires Valid()
      modifies this, os`log, os`waits
      ensures Valid()
      ensures |os.log| > |old(os.log)| && os.log[|old(os.log)|] == SysClose(childPipe)
      ensures old(state) == Died ==>
        n == 0 && o == Pass && os.log == old(os.log) + [SysClose(childPipe)] &&
        os.waits == old(os.waits) && Snapshot() == old(Snapshot())
      ensures old(state) != Died ==> os.SettledAt(old(os.waits), n)
      ensures old(state) != Died ==>
        var s := Reap(old(Snapshot()), os.waitReply(old(os.waits) + n - 1));
        var checked := old(os.log) + [SysClose(childPipe)] + Waits(childPid, false, n);
        (s.outcome.Fail? || s.proc.state == Died ==>
          o == s.outcome && Snapshot() == s.proc && os.log == checked && os.waits == old(os.waits) + n) &&
        (s.outcome.Pass? && s.proc.state != Died ==>
          Terminated(s.proc, old(os.waits) + n, checked, true, t1, t2, Step(Snapshot(), o)))
      ensures o.Fail? ==> o.error in {WaitpidInvalid, ChildPidBug}
      ensures state == old(state) || state == Died
      ensures o.Pass? ==> state == Died || SysKill(childPid, SIGKILL) in os.log[|old(os.log)|..]
    {
      t1, t2 := 0, 0;
      os.Close(childPipe);
      var alive;
      alive, n := IsAlive();
      if alive.Err? {
        return Fail(alive.error), n, t1, t2;
      }
      if alive.value {
        ghost var beforeKill := os.log;
        o, t1, t2 := Terminate(true);
        assert beforeKill <= os.log;
        if o.Pass? && state != Died {
          InLaterSuffix(os.log, |old(os.log)|, |beforeKill|, SysKill(childPid, SIGKILL));
        }
      } else {
        o := Pass;
      }
    }
  }

  /**
   * The ChildProc constructor: split command tokens and resolver matches come
   * in as inputs; validate, create the gate pipe, clone the child with the
   * validated command and the gate's read end, and keep the write end.
   */
  method Launch(os: Kernel, tokens: seq<string>, paths: seq<string>) returns (r: Result<ChildProc>)
    requires os.Fair() && |tokens| > 0
    modifies os`log, os`pipes, os`clones
    ensures var v := Validated(tokens, paths);
      v.Err? ==> r == Err(v.error) && os.log == old(os.log) &&
                 os.pipes == old(os.pipes) && os.clones == old(os.clones)
    ensures var v := Validated(tokens, paths);
      var pipe := os.pipeReply(old(os.pipes));
      var pid := os.cloneReply(old(os.clones));
      v.Ok? ==>
        os.pipes == old(os.pipes) + 1 && os.clones == old(os.clones) + 1 &&
        (pid <= 0 ==>
          r == Err(CloneFailed) &&
          os.log == old(os.log) + [SysPipe2, SysClone(v.value, pipe.readFd), SysClose(pipe.readFd), SysClose(pipe.writeFd)]) &&
        (pid > 0 ==>
          r.Ok? &&
          os.log == old(os.log) + [SysPipe2, SysClone(v.value, pipe.readFd), SysClose(pipe.readFd)])
    ensures r.Ok? ==>
      fresh(r.value) && r.value.Valid() && r.value.os == os &&
      r.value.childPid == os.cloneReply(old(os.clones)) && r.value.childPid > 0 &&
      r.value.childPipe == os.pipeReply(old(os.pipes)).writeFd &&
      r.value.Snapshot() == Proc(Forked, None, None)
  {
    var cmd := new string[|tokens|](i requires 0 <= i < |tokens| => tokens[i]);
    assert cmd[..] == tokens;
    var checked := ValidateCmd(cmd, paths);
    if checked.Fail? {
      return Err(checked.error);
    }
    // A failing pipe2 only builds an error that is never thrown: the launch
    // goes on with whatever descriptors the call left behind.
    var pipe := os.Pipe2();
    var pid := os.Clone(cmd[..], pipe.readFd);
    if pid <= 0 {
      os.Close(pipe.readFd);
      os.Close(pipe.writeFd);
      return Err(CloneFailed);
    }
    var child := new ChildProc(os, pid, pipe.writeFd);
    os.Close(pipe.readFd);
    r := Ok(child);
  }
}
