/** Result types shared by the model: the C++ exceptions of the launcher become values. */
module Outcomes {

  datatype Option<+T> = None | Some(value: T)

  /** Every exception the launcher or the supervisor can raise. */
  datatype Error =
    | NotFound(path: string)                 // the resolver found no executable
    | Ambiguous(path: string, matched: nat)  // the resolver found several executables
    | TooManyArguments(count: nat)           // the command does not fit the argv array
    | CloneFailed                            // the child process could not be created
    | ChildDied                              // release attempted on a dead child
    | WriteFailed                            // the "go" byte could not be written
    | ChildPidBug                            // terminate with a tracked pid <= 1
    | WaitpidInvalid                         // waitpid reported EINVAL
    | AssertionFailed                        // run on a handle that is not FORKED

  /** A value, or the exception raised instead of returning it. */
  datatype Result<+T> = Ok(value: T) | Err(error: Error)

  /** Normal return, or the exception raised. */
  datatype Outcome = Pass | Fail(error: Error)
}
