/**
  The service's process-wide state as one object: the package variables
  `config`, `executeSecret`, `shellPath`, `listenPort` and `isRunning` of
  run-command-service.go become fields. The mutex is not a field: each method
  is one step taken under it (the execute handler holds it from the conflict
  check on, the completion continuation for its one write; the checks before the
  lock read only values fixed at startup).
 */
module Service {
  import opened Wrappers
  import opened Runner
  import opened Startup
  import opened Handlers

  class CommandService {
    var config: Config
    var executeSecret: string
    var shellPath: string
    var listenPort: string
    var isRunning: bool
    /** The background children whose completion continuation has not yet run. */
    ghost var inFlight: nat

    /** At most one background child is in flight, exactly while the flag is set, and never in foreground mode. */
    ghost predicate Valid()
      reads this
    {
      inFlight <= 1 && (isRunning <==> inFlight == 1) && (!config.runInBackground ==> inFlight == 0)
    }

    /** The process starts with every package variable at its zero value. */
    constructor ()
      ensures Valid()
      ensures config == Config("", false, false) && executeSecret == "" && shellPath == "" && listenPort == ""
      ensures !isRunning && inFlight == 0
    {
      config := Config("", false, false);
      executeSecret, shellPath, listenPort := "", "", "";
      isRunning := false;
      inFlight := 0;
    }

    /**
      `run` from the parsed configuration on: it stores the configuration,
      checks the modes, then reads and defaults the environment values one
      after another, stopping at the first error. It is called once, before
      any request is served.
     */
    method Run(cfg: Config, secretEnv: string, shellEnv: string, portEnv: string,
               expand: string -> string, spawn: SpawnOutcome, wait: WaitResult) returns (o: Outcome)
      requires Valid() && inFlight == 0
      modifies this
      ensures Valid() && inFlight == 0 && isRunning == old(isRunning)
      ensures o == Decide(cfg, secretEnv, shellEnv, portEnv, expand, spawn, wait)
      ensures config == cfg
      ensures o.ConfigError? ==>
                executeSecret == old(executeSecret) && shellPath == old(shellPath) && listenPort == old(listenPort)
      ensures o.MissingSecret? ==>
                executeSecret == "" && shellPath == old(shellPath) && listenPort == old(listenPort)
      ensures (o.RanOnce? || o.Serve?) ==>
                Settings(executeSecret, shellPath, listenPort) == Resolve(secretEnv, shellEnv, portEnv)
    {
      config := cfg;
      if config.runOnce && config.runInBackground {
        return ConfigError(ExclusiveModesMessage);
      }
      executeSecret := secretEnv;
      if executeSecret == "" {
        return MissingSecret(MissingSecretMessage);
      }
      shellPath := shellEnv;
      if shellPath == "" {
        shellPath := DefaultShellPath;
      }
      listenPort := portEnv;
      if listenPort == "" {
        listenPort := DefaultListenPort;
      }
      var expandedCommand := expand(config.command);
      if config.runOnce {
        return RanOnce(ExecuteCommand(shellPath, expandedCommand, spawn, wait));
      }
      return Serve(Settings(executeSecret, shellPath, listenPort));
    }

    /**
      `executeHandler`: one trigger, with what the environment expansion and the
      runner report for it. It returns the response and the child it started.
     */
    method ExecuteHandler(req: Request, expand: string -> string, spawn: SpawnOutcome, wait: WaitResult)
      returns (resp: Response, launched: Option<Launch>)
      requires Valid()
      modifies this
      ensures Valid()
      ensures var o := HandleExecute(config, executeSecret, shellPath, old(isRunning), req, expand, spawn, wait);
        resp == o.response && launched == o.launched && isRunning == o.running
      ensures config == old(config) && executeSecret == old(executeSecret)
      ensures shellPath == old(shellPath) && listenPort == old(listenPort)
      ensures inFlight == old(inFlight) + (if config.runInBackground && launched.Some? then 1 else 0)
    {
      launched := None;
      if req.verb != MethodPost {
        resp := Response(StatusMethodNotAllowed, ErrorText("Method not allowed"));
        return;
      }
      var secret := HeaderSecret(req);
      if secret != executeSecret {
        resp := Response(StatusUnauthorized, ErrorText("Unauthorized"));
        return;
      }
      if isRunning && config.runInBackground {
        resp := Response(StatusConflict, StatusJson(JobStillRunning));
        return;
      }
      var expandedCommand := expand(config.command);
      match spawn {
        case StdoutPipeFailed(d) =>
          resp := Response(StatusInternalServerError, ErrorText("Error creating stdout pipe: " + d));
          return;
        case StderrPipeFailed(d) =>
          resp := Response(StatusInternalServerError, ErrorText("Error creating stderr pipe: " + d));
          return;
        case StartFailed(d) =>
          resp := Response(StatusInternalServerError, ErrorText("Error starting command: " + d));
          return;
        case Started =>
      }
      launched := Some(Launch(shellPath, expandedCommand));
      if config.runInBackground {
        isRunning := true;
        inFlight := inFlight + 1;
        resp := Response(StatusOK, StatusJson(ProcessSpawned));
        return;
      }
      var exitCode := 0;
      if !wait.NoError? {
        if wait.ExitError? {
          exitCode := wait.code;
        } else {
          exitCode := 1;
        }
      }
      var status: int;
      if exitCode != 0 {
        status := StatusInternalServerError;
      } else {
        status := StatusOK;
      }
      resp := Response(status, ExitCodeJson(exitCode));
    }

    /** The completion continuation of a background child: after the child exits, it clears the flag. */
    method Complete()
      requires Valid() && inFlight > 0
      modifies this
      ensures Valid() && !isRunning && inFlight == old(inFlight) - 1
      ensures config == old(config) && executeSecret == old(executeSecret)
      ensures shellPath == old(shellPath) && listenPort == old(listenPort)
    {
      isRunning := false;
      inFlight := inFlight - 1;
    }
  }

  /**
    A client of the object: in background mode a second trigger while the
    first child runs is refused, and after its completion the next is accepted.
   */
  method BackgroundRun(expand: string -> string)
  {
    var s := new CommandService();
    var o := s.Run(Config("sleep 2", true, false), "test-secret", "", "", expand, Started, NoError);
    assert o == Serve(Settings("test-secret", "/bin/sh", "8080"));
    var req := Request(MethodPost, Some("test-secret"));
    var r1, l1 := s.ExecuteHandler(req, expand, Started, NoError);
    assert r1 == Response(StatusOK, StatusJson(ProcessSpawned)) && l1 == Some(Launch("/bin/sh", expand("sleep 2")));
    var r2, l2 := s.ExecuteHandler(req, expand, Started, NoError);
    assert r2 == Response(StatusConflict, StatusJson(JobStillRunning)) && l2 == None;
    var r3, l3 := s.ExecuteHandler(Request(MethodPost, Some("wrong")), expand, Started, NoError);
    assert r3.status == StatusUnauthorized && l3 == None;
    s.Complete();
    var r4, l4 := s.ExecuteHandler(req, expand, Started, NoError);
    assert r4 == Response(StatusOK, StatusJson(ProcessSpawned)) && l4.Some?;
  }

  /**
    A client in foreground mode: exit code 3 is reported with 500, a wrong
    method with 405, and the flag is never set; both modes at once never serve.
   */
  method ForegroundRun(expand: string -> string)
  {
    var s := new CommandService();
    var bad := s.Run(Config("echo test", true, true), "test-secret", "", "", expand, Started, NoError);
    assert bad == ConfigError(ExclusiveModesMessage);
    var o := s.Run(Config("exit 3", false, false), "test-secret", "/bin/bash", "9000", expand, Started, NoError);
    assert o == Serve(Settings("test-secret", "/bin/bash", "9000"));
    var r1, _ := s.ExecuteHandler(Request(MethodPost, Some("test-secret")), expand, Started, ExitError(3));
    assert r1 == Response(StatusInternalServerError, ExitCodeJson(3)) && !s.isRunning;
    var r2, l2 := s.ExecuteHandler(Request(MethodGet, Some("test-secret")), expand, Started, NoError);
    assert r2.status == StatusMethodNotAllowed && l2 == None && !s.isRunning;
  }
}
