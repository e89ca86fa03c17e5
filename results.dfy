/** Shared optional values, results and the error values of the library.
    Go's `error` is modelled by `Error`: the library's own failures get a
    constructor each, errors of the engine or of foreign code are carried as
    opaque `Failure` values, and `fmt.Errorf("...: %w", err)` wrapping is
    `Wrapped(op, cause)`, naming the operation that failed. */
module Results {

  datatype Option<+T> = None | Some(value: T) {
    function GetOr(default: T): T {
      match this
      case Some(v) => v
      case None => default
    }
  }

  datatype Result<+T> = Ok(value: T) | Err(error: Error)

  /** An `io.Writer` handed to the library: `io.Discard` or one of the
      caller's writers, told apart by an identity. A nil writer is `None`
      where a field may hold one. */
  datatype Output = Discard | Output(id: nat)

  /** An `io.Reader` handed to the library, told apart by an identity. */
  datatype Input = Input(id: nat)

  /** The step whose failure an error message names. */
  datatype Op =
    | RunCreate | RunAttach | RunStart | RunInspect | RunHasImage | RunPull
    | ExecOption | ExecInspect | ExecCreate | ExecAttach
    | PidInspect | PidSleep | ExecPidInspect | WaitInspect
    | RefreshInspect | NetworkCreateCall | NetworkInspectCall
    | SessionOption | DeviceSyntax

  datatype Error =
    | Failure(reason: string)                  // an error from the engine or foreign code
    | Wrapped(op: Op, cause: Error)            // fmt.Errorf("...: %w", cause)
    | InvalidLabel(given: string)
    | InvalidAutoCleaningLabel(given: string)
    | InvalidIpamOption(option: string)
    | InvalidBuildArg(barg: string)
    | NotStructPointer
    | TooManyFields
    | CannotSetField(field: string)
    | FieldNotString(field: string)
    | EmptyDeviceHostPath
    | ContextDone                              // ctx.Err() of a cancelled context
    | AlreadyTerminated                        // "command has already terminated"
    | StillAlive                               // "command execution still alive ..."
    | TerminalState(status: string)            // PID gave up on a dead container
    | IndexPanic                               // a Go slice expression out of range
}
