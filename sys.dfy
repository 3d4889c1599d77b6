/**
 * The operating system as seen by the launcher: every system call is an
 * oracle.  A Kernel holds, for each kind of call, the stream of answers it
 * will give (the n-th call gets the n-th answer) and a log of the calls made,
 * so that a caller's contract can say which calls happened and in what order.
 */
module Sys {

  // Linux values of the signal and errno constants used by the launcher.
  const SIGKILL: int := 9
  const SIGTERM: int := 15
  const EINTR: int := 4
  const EINVAL: int := 22

  /** A decoded wait status (the bit layout behind WIFEXITED and friends is not modelled). */
  datatype WaitStatus = Exited(code: int) | Signaled(signal: int) | Stopped(signal: int) | Continued
  {
    /** The status reports that the process is gone. */
    predicate Terminal() { Exited? || Signaled? }
  }

  /** What one waitpid call returns: 0, a pid with a status, or -1 with errno. */
  datatype WaitReply = NoStatus | Changed(status: WaitStatus) | Failed(errno: int)
  {
    predicate Interrupted() { Failed? && errno == EINTR }
  }

  /** What pipe2 returns, and the two descriptors it leaves in the array. */
  datatype PipeReply = PipeReply(ret: int, readFd: int, writeFd: int)

  /** One system call made by the launching process. */
  datatype Syscall =
    | SysPipe2
    | SysClone(cmd: seq<string>, gateFd: int)
    | SysClose(fd: int)
    | SysKill(pid: int, signal: int)
    | SysWait(pid: int, block: bool)
    | SysWrite(fd: int, byte: char)

  class Kernel {
    const pipeReply: nat -> PipeReply
    const cloneReply: nat -> int
    const writeReply: nat -> int
    const waitReply: nat -> WaitReply

    var log: seq<Syscall>
    var pipes: nat
    var clones: nat
    var writes: nat
    var waits: nat

    constructor (pipeReply: nat -> PipeReply, cloneReply: nat -> int,
                 writeReply: nat -> int, waitReply: nat -> WaitReply)
      ensures this.pipeReply == pipeReply && this.cloneReply == cloneReply
      ensures this.writeReply == writeReply && this.waitReply == waitReply
      ensures log == [] && pipes == 0 && clones == 0 && writes == 0 && waits == 0
    {
      this.pipeReply, this.cloneReply := pipeReply, cloneReply;
      this.writeReply, this.waitReply := writeReply, waitReply;
      log, pipes, clones, writes, waits := [], 0, 0, 0, 0;
    }

    /** Some waitpid call from the from-th on is not interrupted. */
    ghost predicate AnswersFrom(from: nat)
    {
      exists k: nat :: from <= k && !waitReply(k).Interrupted()
    }

    /** waitpid is never interrupted forever. */
    ghost predicate Fair()
    {
      forall from: nat :: AnswersFrom(from)
    }

    /**
     * The n calls starting at the from-th are a retry run: all but the last
     * were interrupted and the last was not.
     */
    ghost predicate SettledAt(from: nat, n: nat)
    {
      1 <= n &&
      (forall i: nat :: from <= i < from + n - 1 ==> waitReply(i).Interrupted()) &&
      !waitReply(from + n - 1).Interrupted()
    }

    method Pipe2() returns (r: PipeReply)
      modifies this`log, this`pipes
      ensures r == pipeReply(old(pipes)) && pipes == old(pipes) + 1
      ensures log == old(log) + [SysPipe2]
    {
      r := pipeReply(pipes);
      pipes := pipes + 1;
      log := log + [SysPipe2];
    }

    method Clone(cmd: seq<string>, gateFd: int) returns (pid: int)
      modifies this`log, this`clones
      ensures pid == cloneReply(old(clones)) && clones == old(clones) + 1
      ensures log == old(log) + [SysClone(cmd, gateFd)]
    {
      pid := cloneReply(clones);
      clones := clones + 1;
      log := log + [SysClone(cmd, gateFd)];
    }

    method Close(fd: int)
      modifies this`log
      ensures log == old(log) + [SysClose(fd)]
    {
      log := log + [SysClose(fd)];
    }

    method Kill(pid: int, signal: int)
      modifies this`log
      ensures log == old(log) + [SysKill(pid, signal)]
    {
      log := log + [SysKill(pid, signal)];
    }

    method Write(fd: int, byte: char) returns (ret: int)
      modifies this`log, this`writes
      ensures ret == writeReply(old(writes)) && writes == old(writes) + 1
      ensures log == old(log) + [SysWrite(fd, byte)]
    {
      ret := writeReply(writes);
      writes := writes + 1;
      log := log + [SysWrite(fd, byte)];
    }

    method Waitpid(pid: int, block: bool) returns (r: WaitReply)
      modifies this`log, this`waits
      ensures r == waitReply(old(waits)) && waits == old(waits) + 1
      ensures log == old(log) + [SysWait(pid, block)]
    {
      r := waitReply(waits);
      waits := waits + 1;
      log := log + [SysWait(pid, block)];
    }
  }
}
