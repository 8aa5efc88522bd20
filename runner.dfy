/**
  The shell runner of run-command-service.go (`executeCommand`): it builds the
  child `<shell> -c <command>`, creates its stdout and stderr pipes, starts it
  and waits for it. Creating pipes, starting and waiting are process I/O; the
  model takes what they report as inputs.
 */
module Runner {
  import opened Wrappers

  /** A child process that was started: its argument vector is `[shell, "-c", command]`. */
  datatype Launch = Launch(shell: string, command: string)

  /** What setting up and starting the child reported; `detail` is the library's error text. */
  datatype SpawnOutcome =
    | Started
    | StdoutPipeFailed(detail: string)
    | StderrPipeFailed(detail: string)
    | StartFailed(detail: string)

  /**
    What waiting for a started child reported: no error, an exit error carrying
    the child's exit code (any integer the platform reports), or some other error.
   */
  datatype WaitResult = NoError | ExitError(code: int) | OtherError(detail: string)

  /** The error `executeCommand` returns: a setup error with its message, or the wait error as is. */
  datatype CommandError = SetupError(message: string) | WaitError(cause: WaitResult)

  /** What one call of the runner did: the child it started, if any, and the error it returned, if any. */
  datatype Report = Report(launched: Option<Launch>, error: Option<CommandError>)

  /**
    Runs `command` with `shell`. The setup steps are tried in order (stdout pipe,
    stderr pipe, start); the first failure is returned with its message and
    nothing is started. Once started, the result of waiting is returned
    unchanged: a child that exits non-zero is an error value, not a crash.
   */
  function ExecuteCommand(shell: string, command: string, spawn: SpawnOutcome, wait: WaitResult): (r: Report)
    ensures r.launched.Some? <==> spawn.Started?
    ensures r.launched.Some? ==> r.launched.value == Launch(shell, command)
    ensures r.error.None? <==> spawn.Started? && wait.NoError?
    ensures spawn.Started? && !wait.NoError? ==> r.error == Some(WaitError(wait))
    ensures spawn.StdoutPipeFailed? ==> r.error == Some(SetupError("error creating stdout pipe: " + spawn.detail))
    ensures spawn.StderrPipeFailed? ==> r.error == Some(SetupError("error creating stderr pipe: " + spawn.detail))
    ensures spawn.StartFailed? ==> r.error == Some(SetupError("error starting command: " + spawn.detail))
  {
    match spawn
    case StdoutPipeFailed(d) => Report(None, Some(SetupError("error creating stdout pipe: " + d)))
    case StderrPipeFailed(d) => Report(None, Some(SetupError("error creating stderr pipe: " + d)))
    case StartFailed(d) => Report(None, Some(SetupError("error starting command: " + d)))
    case Started =>
      Report(Some(Launch(shell, command)), if wait.NoError? then None else Some(WaitError(wait)))
  }
}
