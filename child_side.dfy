/**
 * The entry function of the new process (childfn): it asks for SIGTERM on
 * parent death, builds the null-terminated argv, waits for the one-byte "go"
 * on the gate pipe and replaces its image.  Its failures can only be seen by
 * the parent as reserved exit statuses.
 */
module ChildSide {
  import opened Outcomes
  import opened Sys
  import opened Command

  /** The three ways the new process can fail before its image is replaced. */
  datatype ChildFailure = DeathSignalSetup | GateRead | ImageReplace

  /** The reserved exit status of each failure. */
  function ExitStatus(f: ChildFailure): (status: int)
    ensures 10 <= status <= 12
  {
    match f
    case DeathSignalSetup => 10
    case GateRead => 11
    case ImageReplace => 12
  }

  /** The failure a reaped exit status stands for, if it is a reserved one. */
  function FailureOf(status: int): (f: Option<ChildFailure>)
    ensures f.Some? <==> 10 <= status <= 12
  {
    if status == 10 then Some(DeathSignalSetup)
    else if status == 11 then Some(GateRead)
    else if status == 12 then Some(ImageReplace)
    else None
  }

  /** The reserved statuses identify the failure: decoding undoes ExitStatus. */
  lemma ExitStatusDecodes(f: ChildFailure)
    ensures FailureOf(ExitStatus(f)) == Some(f)
  {
  }

  /** ... and every reserved status is the code of exactly the failure it decodes to. */
  lemma FailureOfEncodes(status: int)
    requires FailureOf(status).Some?
    ensures ExitStatus(FailureOf(status).value) == status
  {
  }

  /** An argv slot: a C string or the null pointer. */
  datatype CStr = Null | Str(s: string)

  /** The argument vector execve must see: the command's strings in order, then one null. */
  function ArgvOf(cmd: seq<string>): (argv: seq<CStr>)
  {
    seq(|cmd|, i requires 0 <= i < |cmd| => Str(cmd[i])) + [Null]
  }

  /**
   * The argv loop of childfn: the command strings are copied into a fresh
   * 256-slot array and a null is stored after the last one.  Slots past the
   * terminator are left uninitialised, as in the source.
   */
  method BuildArgv(cmd: seq<string>) returns (argv: array<CStr>)
    requires |cmd| < MaxArgs
    ensures argv.Length == MaxArgs
    ensures forall i :: 0 <= i < |cmd| ==> argv[i] == Str(cmd[i])
    ensures argv[|cmd|] == Null
    ensures argv[..|cmd| + 1] == ArgvOf(cmd)
  {
    argv := new CStr[MaxArgs];
    var idx := 0;
    while idx < |cmd|
      invariant 0 <= idx <= |cmd|
      invariant forall i :: 0 <= i < idx ==> argv[i] == Str(cmd[i])
    {
      argv[idx] := Str(cmd[idx]);
      idx := idx + 1;
    }
    argv[idx] := Null;
    assert argv[..|cmd| + 1] == ArgvOf(cmd);
  }

  /** One system call made by the new process. */
  datatype ChildCall =
    | SetDeathSignal(signal: int)
    | ReadGate(fd: int)
    | CloseGate(fd: int)
    | Execve(path: CStr, argv: seq<CStr>)

  /** How the new process's entry function ends. */
  datatype ChildEnd = ImageReplaced | Exit(status: int)

  /**
   * childfn, with the answers of prctl, read and execve as oracle inputs.  It
   * returns how the process ends and the calls it made, in order.
   */
  method ChildMain(cmd: seq<string>, gateFd: int, prctlRet: int, readRet: int, execveReturns: bool)
    returns (end: ChildEnd, trace: seq<ChildCall>)
    requires |cmd| < MaxArgs
    ensures prctlRet != 0 ==>
      end == Exit(ExitStatus(DeathSignalSetup)) && trace == [SetDeathSignal(SIGTERM)]
    ensures prctlRet == 0 && readRet != 1 ==>
      end == Exit(ExitStatus(GateRead)) && trace == [SetDeathSignal(SIGTERM), ReadGate(gateFd)]
    ensures prctlRet == 0 && readRet == 1 ==>
      trace == [SetDeathSignal(SIGTERM), ReadGate(gateFd), CloseGate(gateFd), Execve(ArgvOf(cmd)[0], ArgvOf(cmd))]
    ensures prctlRet == 0 && readRet == 1 ==>
      end == if execveReturns then Exit(ExitStatus(ImageReplace)) else ImageReplaced
    ensures end.Exit? ==> FailureOf(end.status).Some?
  {
    trace := [SetDeathSignal(SIGTERM)];
    if prctlRet != 0 {
      return Exit(10), trace;
    }
    var argv := BuildArgv(cmd);
    trace := trace + [ReadGate(gateFd)];
    if readRet != 1 {
      return Exit(11), trace;
    }
    trace := trace + [CloseGate(gateFd)];
    trace := trace + [Execve(argv[0], argv[..|cmd| + 1])];
    if execveReturns {
      return Exit(12), trace;
    }
    end := ImageReplaced;
  }
}
