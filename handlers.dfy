/**
  The two HTTP handlers of run-command-service.go. `executeHandler` runs under
  the service's one mutex from the conflict check to its last write, so each
  call is one serialized step; it is modelled as a function from the state it
  reads (the configuration, the secret, the shell path and the `isRunning`
  flag) and the request to the response, the new flag and the child started.
 */
module Handlers {
  import opened Wrappers
  import opened Runner
  import opened Startup

  const MethodGet := "GET"
  const MethodPost := "POST"

  const StatusOK := 200
  const StatusUnauthorized := 401
  const StatusMethodNotAllowed := 405
  const StatusConflict := 409
  const StatusInternalServerError := 500

  const ProcessSpawned := "Process spawned successfully"
  const JobStillRunning := "job still running in background"

  /** An inbound request: its method (`verb`) and its `x-secret` header, if present. */
  datatype Request = Request(verb: string, secretHeader: Option<string>)

  /** A response body: plain error text, a JSON `status` object, or a JSON `exit_code` object. */
  datatype Body = ErrorText(message: string) | StatusJson(status: string) | ExitCodeJson(exitCode: int)

  datatype Response = Response(status: int, body: Body)

  /** One step of the execute handler: the response, the new `isRunning` and the child started, if any. */
  datatype Step = Step(response: Response, running: bool, launched: Option<Launch>)

  /** The header value as the handler reads it: a missing header reads as the empty string. */
  function HeaderSecret(req: Request): (h: string)
    ensures req.secretHeader.None? ==> h == ""
    ensures req.secretHeader.Some? ==> h == req.secretHeader.value
  {
    req.secretHeader.GetOr("")
  }

  /** A request that passes the method and the secret checks. */
  predicate Authorised(req: Request, secret: string) {
    req.verb == MethodPost && HeaderSecret(req) == secret
  }

  /** The readiness handler: 200 with status "ok" for GET, 405 for every other method. */
  function ReadyHandler(verb: string): (r: Response)
    ensures r.status == StatusOK <==> verb == MethodGet
    ensures r.status == StatusOK ==> r.body == StatusJson("ok")
    ensures r.status != StatusOK ==> r == Response(StatusMethodNotAllowed, ErrorText("Method not allowed"))
  {
    if verb != MethodGet then Response(StatusMethodNotAllowed, ErrorText("Method not allowed"))
    else Response(StatusOK, StatusJson("ok"))
  }

  /** The exit code a foreground trigger reports for what waiting returned. */
  function ExitCode(w: WaitResult): (r: int)
    ensures w.NoError? ==> r == 0
    ensures w.ExitError? ==> r == w.code
    ensures w.OtherError? ==> r == 1
  {
    match w
    case NoError => 0
    case ExitError(c) => c
    case OtherError(_) => 1
  }

  /** The status of a foreground response: OK for exit code 0 and an internal error otherwise. */
  function StatusFor(exitCode: int): (s: int)
    ensures s == StatusOK || s == StatusInternalServerError
    ensures s == StatusOK <==> exitCode == 0
  {
    if exitCode != 0 then StatusInternalServerError else StatusOK
  }

  /** A step that rejects the request: nothing is started and the flag is left alone. */
  function Reject(running: bool, status: int, body: Body): Step {
    Step(Response(status, body), running, None)
  }

  /**
    The execute handler. The checks come in a fixed order: the method, then the
    secret, then (in background mode only) a job already in flight, then the
    setup and start of the child, and last the background or foreground branch.
    `expand` is the environment expansion of the command at the time of this
    request; `spawn` and `wait` are what the runner reports for it.
   */
  function HandleExecute(cfg: Config, secret: string, shell: string, running: bool, req: Request,
                         expand: string -> string, spawn: SpawnOutcome, wait: WaitResult): (o: Step)
    // the method is looked at first
    ensures o.response.status == StatusMethodNotAllowed <==> req.verb != MethodPost
    ensures req.verb != MethodPost ==> o.response.body == ErrorText("Method not allowed")
    // then the secret; a missing header reads as ""
    ensures o.response.status == StatusUnauthorized <==> req.verb == MethodPost && HeaderSecret(req) != secret
    ensures o.response.status == StatusUnauthorized ==> o.response.body == ErrorText("Unauthorized")
    // then the conflict, and only in background mode
    ensures o.response.status == StatusConflict <==> Authorised(req, secret) && running && cfg.runInBackground
    ensures o.response.status == StatusConflict ==> o.response.body == StatusJson(JobStillRunning)
    // a child is started exactly when every check passed and the start succeeded
    ensures o.launched.Some? <==> Authorised(req, secret) && !(running && cfg.runInBackground) && spawn.Started?
    ensures o.launched.Some? ==> o.launched.value == Launch(shell, expand(cfg.command))
    // a failed setup or start is an internal error with a text body
    ensures Authorised(req, secret) && !(running && cfg.runInBackground) && !spawn.Started? ==>
              o.response.status == StatusInternalServerError && o.launched.None? && o.running == running
    ensures Authorised(req, secret) && !(running && cfg.runInBackground) && spawn.StdoutPipeFailed? ==>
              o.response.body == ErrorText("Error creating stdout pipe: " + spawn.detail)
    ensures Authorised(req, secret) && !(running && cfg.runInBackground) && spawn.StderrPipeFailed? ==>
              o.response.body == ErrorText("Error creating stderr pipe: " + spawn.detail)
    ensures Authorised(req, secret) && !(running && cfg.runInBackground) && spawn.StartFailed? ==>
              o.response.body == ErrorText("Error starting command: " + spawn.detail)
    // the flag is raised only by a background child that started, and never lowered here
    ensures o.running <==> running || (cfg.runInBackground && o.launched.Some?)
    ensures cfg.runInBackground && o.launched.Some? ==> o.response == Response(StatusOK, StatusJson(ProcessSpawned))
    ensures !cfg.runInBackground && o.launched.Some? ==>
              o.response.body == ExitCodeJson(ExitCode(wait)) && o.response.status == StatusFor(ExitCode(wait))
  {
    if req.verb != MethodPost then
      Reject(running, StatusMethodNotAllowed, ErrorText("Method not allowed"))
    else if HeaderSecret(req) != secret then
      Reject(running, StatusUnauthorized, ErrorText("Unauthorized"))
    else if running && cfg.runInBackground then
      Reject(running, StatusConflict, StatusJson(JobStillRunning))
    else
      match spawn
      case StdoutPipeFailed(d) =>
        Reject(running, StatusInternalServerError, ErrorText("Error creating stdout pipe: " + d))
      case StderrPipeFailed(d) =>
        Reject(running, StatusInternalServerError, ErrorText("Error creating stderr pipe: " + d))
      case StartFailed(d) =>
        Reject(running, StatusInternalServerError, ErrorText("Error starting command: " + d))
      case Started =>
        var launch := Launch(shell, expand(cfg.command));
        if cfg.runInBackground then
          Step(Response(StatusOK, StatusJson(ProcessSpawned)), true, Some(launch))
        else
          var code := ExitCode(wait);
          Step(Response(StatusFor(code), ExitCodeJson(code)), running, Some(launch))
  }

  /** A rejected request (no child started) leaves `isRunning` as it was, in every mode. */
  lemma RejectionChangesNothing(cfg: Config, secret: string, shell: string, running: bool, req: Request,
                                expand: string -> string, spawn: SpawnOutcome, wait: WaitResult)
    ensures var o := HandleExecute(cfg, secret, shell, running, req, expand, spawn, wait);
      o.launched.None? ==> o.running == running
  {
  }

  /** A request that fails authentication starts nothing, whatever the mode, the flag or the runner would do. */
  lemma AuthenticationPrecedesExecution(cfg: Config, secret: string, shell: string, running: bool, req: Request,
                                        expand: string -> string, spawn: SpawnOutcome, wait: WaitResult)
    requires req.verb == MethodPost && HeaderSecret(req) != secret
    ensures HandleExecute(cfg, secret, shell, running, req, expand, spawn, wait)
              == Reject(running, StatusUnauthorized, ErrorText("Unauthorized"))
  {
  }

  /**
    In foreground mode the handler reads `isRunning` in the conflict check, but
    the response and the child started do not depend on it, and it is never written.
   */
  lemma ForegroundIgnoresFlag(cfg: Config, secret: string, shell: string, req: Request,
                              expand: string -> string, spawn: SpawnOutcome, wait: WaitResult)
    requires !cfg.runInBackground
    ensures var busy := HandleExecute(cfg, secret, shell, true, req, expand, spawn, wait);
            var idle := HandleExecute(cfg, secret, shell, false, req, expand, spawn, wait);
      busy.response == idle.response && busy.launched == idle.launched && busy.running && !idle.running
  {
  }

  /**
    A foreground trigger whose child started reports the normalised exit code:
    0 when waiting returned nothing, the carried code for an exit error, 1 for
    any other error; the status is 500 exactly when that code is not 0.
   */
  lemma ForegroundReportsExitCode(cfg: Config, secret: string, shell: string, running: bool, req: Request,
                                  expand: string -> string, wait: WaitResult)
    requires !cfg.runInBackground && Authorised(req, secret)
    ensures var o := HandleExecute(cfg, secret, shell, running, req, expand, Started, wait);
      && o.response.body == ExitCodeJson(ExitCode(wait))
      && (wait.NoError? ==> ExitCode(wait) == 0)
      && (wait.ExitError? ==> ExitCode(wait) == wait.code)
      && (wait.OtherError? ==> ExitCode(wait) == 1)
      && (o.response.status == StatusInternalServerError <==> ExitCode(wait) != 0)
      && (o.response.status == StatusOK <==> ExitCode(wait) == 0)
  {
  }

  /**
    Run-once and foreground triggers agree on success: when one run of the
    command succeeds, a foreground trigger meeting the same runner answers 200
    with exit code 0; when the trigger answers 200 and waiting did not report an
    exit error, the run-once result is success too.
   */
  lemma RunOnceAgreesWithForeground(cfg: Config, secret: string, shell: string, running: bool, req: Request,
                                    expand: string -> string, spawn: SpawnOutcome, wait: WaitResult)
    requires !cfg.runInBackground && Authorised(req, secret)
    ensures var once := ExecuteCommand(shell, expand(cfg.command), spawn, wait);
            var o := HandleExecute(cfg, secret, shell, running, req, expand, spawn, wait);
      && (once.error.None? ==> o.response == Response(StatusOK, ExitCodeJson(0)))
      && (o.response.status == StatusOK && !wait.ExitError? ==> once.error.None?)
      && once.launched == o.launched
  {
  }

  /** Once startup decides to serve, a request without an `x-secret` header is always rejected with 401. */
  lemma MissingHeaderRejected(cfg: Config, secretEnv: string, shellEnv: string, portEnv: string,
                              expand: string -> string, spawn: SpawnOutcome, wait: WaitResult,
                              running: bool, trigger: SpawnOutcome, result: WaitResult)
    requires Decide(cfg, secretEnv, shellEnv, portEnv, expand, spawn, wait).Serve?
    ensures var s := Decide(cfg, secretEnv, shellEnv, portEnv, expand, spawn, wait).settings;
            var o := HandleExecute(cfg, s.secret, s.shellPath, running, Request(MethodPost, None), expand, trigger, result);
      o.response.status == StatusUnauthorized && o.launched.None? && o.running == running
  {
  }
}
