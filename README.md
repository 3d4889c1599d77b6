# bpftrace child process launcher, modelled in Dafny

This project models `ChildProc` from bpftrace's `src/child.cpp`: the code that starts a
traced command as a child process, holds it behind a one-byte "go" gate until the tracer
is ready, and then supervises it until it dies.

The model has six modules:

- `Outcomes`: the exceptions of the C++ code become values. `Outcome` is a normal return or
  a raised `Error`; `Result<T>` is a value or an `Error`.
- `Sys`: the operating system as an oracle. A `Kernel` object holds, for `pipe2`, `clone`,
  `write` and `waitpid`, the stream of answers those calls will give. It also keeps a log of
  every call made (`pipe2`, `clone`, `close`, `kill`, `waitpid`, `write`), so contracts can
  say which calls happen and in what order. A `waitpid` answer is one of: no status, a
  decoded status (exited, signalled, stopped, continued), or an errno.
- `Command`: `validate_cmd`. It rewrites element 0 of the command array in place. The
  function `Validated` states what validation accepts and produces.
- `ChildSide`: the entry function of the new process. It asks for a death signal, fills
  the 256-slot `argv` array, reads the gate byte and calls `execve`. The answers of
  `prctl`, `read` and `execve` are inputs. The function returns how the process ends and
  the calls it made. The failures map to the reserved exit statuses 10, 11 and 12.
- `Supervisor`: the state machine FORKED -> RUNNING -> DIED as pure functions.
  `Wstatus` is `check_wstatus` and `Reap` is the tail of `check_child`. There are lemmas
  about any run of reaps on one handle.
- `ChildProcess`: the class `ChildProc`, with the fields `state`, `exitCode` and
  `termSignal`, and the methods `CheckWstatus`, `CheckChild`, `IsAlive`, `Terminate`,
  `Run` and `Dispose` (the destructor). `Launch` is the throwing constructor: it returns
  either a fresh handle in state FORKED or the error.

Every `ChildProc` method states its whole new state and the exact calls it appends to the
kernel log. Each reap is described by `Reap`, applied to the first `waitpid` answer that was
not interrupted. `Terminated` describes what a `terminate` call does, and `Run` and `Dispose`
use it for the forced terminate they may make. The properties follow from these contracts:

- DIED is absorbing.
- `is_alive` on a dead handle makes no `waitpid` call.
- `terminate` sends no signal to a handle that is DIED or found dead by its first reap. It
  still makes that reap, as the source does.
- Otherwise `terminate` sends SIGKILL or SIGTERM according to `force`, and blocks only after
  a forced kill.
- `run` releases a live FORKED child: the go byte is written exactly once, and only from
  FORKED.
- The destructor closes the write end and makes a non-blocking reap. A child still alive then
  goes through `terminate(true)`. The destructor raises only what those reaps or the pid check
  raise. On a normal return the handle is known dead or has been sent SIGKILL.

Notes on the code as written:

- The destructor closes the gate's write end even when `run` has already closed it. The
  model logs both closes.
- Nothing in the source decodes an exit status: `check_wstatus` only records it. `FailureOf`
  is a specification device showing that the three reserved statuses are distinct. A launched
  program that itself exits with 10, 11 or 12 cannot be told apart from a child-side failure.
- The argument bound rejects a command of 255 elements. Such a command would still fit the
  256-slot `argv` array with its terminator, so the bound is one element stricter than the
  array needs. The model keeps the source's bound.

## Model

| member | source | states |
|---|---|---|
| `Command.Validated` | src/child.cpp:66-90 | Accepts exactly when the resolver returned one path and the command has fewer than 255 elements. No match raises NotFound and several matches raise Ambiguous with their count; a unique match with too many elements raises TooManyArguments. An accepted command has the same length, the resolved path at 0 and the other elements unchanged. |
| `Command.ValidateCmd` | src/child.cpp:66-90 | The in-place command array ends up as `Validated` says. It is untouched when the match is not unique. Element 0 is already replaced when the length check then fails. |
| `Command.AcceptedFitsArgv` | src/child.cpp:84-89 | An accepted command has at most 254 elements. Its strings and the null terminator fit the 256-slot argv array. |
| `ChildSide.ExitStatus` | src/child.cpp:29-64 | Each child-side failure exits with a status in the reserved range 10..12. |
| `ChildSide.FailureOf` | src/child.cpp:29-64 | Exactly the statuses 10..12 decode to a child-side failure. |
| `ChildSide.ExitStatusDecodes` | src/child.cpp:34-63 | Decoding the exit status of a failure gives back that failure, so the three reserved statuses are distinct from each other. They are not distinct from a launched program's own exit with 10, 11 or 12. |
| `ChildSide.FailureOfEncodes` | src/child.cpp:34-63 | Every reserved status is the exit status of the failure it decodes to. |
| `ChildSide.BuildArgv` | src/child.cpp:40-47 | The 256-slot array holds the command strings in order at 0..\|cmd\|-1, then exactly one null at index \|cmd\|. |
| `ChildSide.ChildMain` | src/child.cpp:29-64 | A prctl failure exits with 10 after that single call and never reads the gate. A read that does not return exactly 1 exits with 11 before any close or execve. Otherwise the gate is closed and execve gets argv[0] and the null-terminated argv. If execve returns, the exit status is 12. Every exit status it produces is a reserved one. |
| `Supervisor.Wstatus` | src/child.cpp:176-187 | A normal exit records the exit code and moves to DIED. A signal termination records the signal and moves to DIED. A stop or continue report changes nothing. One call never changes both the exit code and the signal. It keeps "codes only when DIED". |
| `Supervisor.Reap` | src/child.cpp:200-218 | Raises exactly on EINVAL, with nothing changed. No status leaves the handle unchanged. A status goes through `Wstatus`. Any other error moves to DIED and leaves the exit code and signal alone. The state can only stay or become DIED. A handle still alive afterwards is unchanged. Only a terminal status touches the code or the signal. |
| `Supervisor.DiedIsAbsorbing` | src/child.cpp:176-219 | After any run of reaps, a dead handle is still DIED. |
| `Supervisor.ReapsOnlyKill` | src/child.cpp:189-219 | After any run of reaps, the state is either the starting one or DIED. |
| `Supervisor.ReapAllKeepsValid` | src/child.cpp:176-187 | No run of reaps records an exit code or signal for a handle that is not DIED. |
| `Supervisor.CodesNeedATerminalStatus` | src/child.cpp:176-187 | Without an exited or signalled report, the exit code and signal stay as they were. |
| `Supervisor.AtMostOneCause` | src/child.cpp:176-187 | Suppose the kernel reports the child gone at most once. Then a fresh handle ends with at most one of an exit code and a terminating signal. |
| `ChildProcess.ChildProc.constructor` | src/child.cpp:120-122 | A new handle is FORKED with no exit code or signal. It keeps the pid and the write end of the pipe. |
| `ChildProcess.ChildProc.CheckWstatus` | src/child.cpp:176-187 | The fields change exactly as `Wstatus` says. A dead handle stays DIED. |
| `ChildProcess.ChildProc.CheckChild` | src/child.cpp:189-219 | Calls waitpid with one blocking mode until an answer is not EINTR. Every earlier answer was EINTR, and the log gains exactly those calls. The new fields and the raised error are `Reap` of that answer. |
| `ChildProcess.ChildProc.IsAlive` | src/child.cpp:133-138 | A DIED handle returns false with no waitpid call and no change. Otherwise it makes one non-blocking reap and returns whether the handle is still not DIED, or raises what the reap raised. |
| `ChildProcess.ChildProc.Terminate` | src/child.cpp:140-154 | First reaps without blocking; a DIED handle is still reaped but gets no signal. If that reap raises, or finds the child dead, nothing more happens. A pid <= 1 raises ChildPidBug. Otherwise it appends exactly one kill (SIGKILL if forced, else SIGTERM), then a reap that blocks iff forced. The whole effect is `Terminated`. It raises only WaitpidInvalid or ChildPidBug. A normal return leaves the child DIED or signalled. |
| `ChildProcess.ChildProc.Run` | src/child.cpp:156-173 | A DIED handle raises ChildDied with no calls. Otherwise one non-blocking reap comes first, and a raising reap passes its error on. A child found dead raises ChildDied, and a RUNNING child raises AssertionFailed; neither writes anything. A live FORKED child gets exactly one go byte. A non-negative write sets RUNNING and closes the write end. A negative write is followed by exactly `terminate(true)` (`Terminated`), whose state and log result; the outcome is terminate's error, or WriteFailed. A second release always raises. |
| `ChildProcess.ChildProc.Dispose` | src/child.cpp:125-131 | Closes the write end first. A DIED handle makes no further call. Otherwise one non-blocking reap follows: if it raises or finds the child dead, that is the result. A child still alive goes through exactly `terminate(true)` (`Terminated`). It raises only WaitpidInvalid or ChildPidBug. On a normal return the child is DIED or has been sent SIGKILL. |
| `ChildProcess.Launch` | src/child.cpp:92-123 | A command that fails validation raises that error with no system call. Otherwise it calls pipe2 and then clone with the validated command and the gate's read end. A clone result <= 0 closes both ends and raises CloneFailed. A positive pid gives a fresh FORKED handle holding that pid and the write end, and the read end is closed. |

## Left out

- System calls are oracles: their answers are inputs, not operating-system behaviour. This
  covers clone with its 64 KiB stack, pipe2 with O_CLOEXEC, read, write, close, prctl, kill
  and waitpid. Their errno values are not carried into the raised errors.
- The bit layout behind WIFEXITED, WEXITSTATUS and WTERMSIG is not modelled. A wait status
  is already decoded.
- `split_string` and `resolve_binary_path` (utils.h) are not part of this model. Their
  results are the `tokens` and `paths` inputs of `Launch`. The tokens must not be empty,
  because the source indexes `cmd[0]`.
- `execve` is given no environment. The inherited `environ` is not modelled.
- Error-message text, `perror` and the `std::cerr` report of an unexpected waitpid error are
  not modelled.
- Cross-process concurrency and the shared memory before exec are not modelled. The child
  side is a separate method whose oracle answers are independent of the parent's.
- The unused `pause` parameter of `run` is not modelled.
- A failing pipe2 has no effect, as in the source (the error is built but never thrown).
  The launch goes on with the descriptors the oracle gives.
- The declarations in child.h are not part of this model. `exit_code_` and `term_signal_`
  are optional integers, and a state before FORKED is not modelled, because no handle is
  ever observed in it.
- The `assert(state_ == FORKED)` in `run` is modelled as raising AssertionFailed, which is
  the debug-build abort. A release build would go on and write to the closed descriptor.
- Exceptions escaping the destructor, which terminate the program in C++, are returned as
  `Dispose`'s outcome.
- ChildProcess.ChildProc.CheckChild: termination assumes the kernel does not answer EINTR
  forever (`Kernel.Fair`). Under an endless run of EINTR the source would spin forever.
- Supervisor.AtMostOneCause: the source's "at most one of exit code and signal" is proved
  only for kernels that report a child gone at most once. It is not a class invariant,
  because an arbitrary oracle could report two terminal statuses.
