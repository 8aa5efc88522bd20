/**
  The startup decision of `run` in run-command-service.go, after the
  configuration file has been read and parsed: the mode-exclusivity check, the
  required secret, the defaults for the shell and the port, then either one run
  of the command or serving.
 */
module Startup {
  import opened Wrappers
  import opened Runner

  /** The parsed configuration file. */
  datatype Config = Config(command: string, runInBackground: bool, runOnce: bool)

  /** The values read from the environment once the defaults are applied. */
  datatype Settings = Settings(secret: string, shellPath: string, listenPort: string) {

    /** Every setting is non-empty: the secret is required and the other two have defaults. */
    predicate Resolved() {
      secret != "" && shellPath != "" && listenPort != ""
    }

    /** The address the server listens on. */
    function Address(): (a: string)
      ensures |a| == |listenPort| + 1 && a[0] == ':' && a[1..] == listenPort
    {
      ":" + listenPort
    }
  }

  /** How `run` ends: a configuration error, a missing secret, the one run's result, or serving. */
  datatype Outcome =
    | ConfigError(message: string)
    | MissingSecret(message: string)
    | RanOnce(report: Report)
    | Serve(settings: Settings)

  const ExclusiveModesMessage := "runOnce and runInBackground cannot both be set to true"
  const MissingSecretMessage := "EXECUTE_SECRET environment variable is not set"
  const DefaultShellPath := "/bin/sh"
  const DefaultListenPort := "8080"

  /** `value`, or `fallback` when the variable is unset or empty. */
  function OrDefault(value: string, fallback: string): string {
    if value == "" then fallback else value
  }

  /**
    The settings taken from `EXECUTE_SECRET`, `SHELL_PATH` and `LISTEN_PORT`:
    the secret as it is, an empty shell path or port replaced by its default and
    a non-empty one kept.
   */
  function Resolve(secretEnv: string, shellEnv: string, portEnv: string): (s: Settings)
    ensures s.secret == secretEnv
    ensures shellEnv != "" ==> s.shellPath == shellEnv
    ensures shellEnv == "" ==> s.shellPath == DefaultShellPath
    ensures portEnv != "" ==> s.listenPort == portEnv
    ensures portEnv == "" ==> s.listenPort == DefaultListenPort
    ensures secretEnv != "" ==> s.Resolved()
  {
    Settings(secretEnv, OrDefault(shellEnv, DefaultShellPath), OrDefault(portEnv, DefaultListenPort))
  }

  /**
    The decision `run` takes. `expand` is the environment expansion of the
    command at that moment; `spawn` and `wait` are what the runner would report
    if the command were run once.
   */
  function Decide(cfg: Config, secretEnv: string, shellEnv: string, portEnv: string,
                  expand: string -> string, spawn: SpawnOutcome, wait: WaitResult): (o: Outcome)
    // the exclusivity check comes first, before the secret is looked at
    ensures o.ConfigError? <==> cfg.runOnce && cfg.runInBackground
    ensures o.ConfigError? ==> o.message == ExclusiveModesMessage
    // an empty secret is fatal in every remaining mode, run-once included
    ensures o.MissingSecret? <==> !(cfg.runOnce && cfg.runInBackground) && secretEnv == ""
    ensures o.MissingSecret? ==> o.message == MissingSecretMessage
    // run-once runs the expanded command with the resolved shell and returns its result;
    // the three clauses after the first are corollaries of it and the runner's contract
    ensures o.RanOnce? <==> cfg.runOnce && !cfg.runInBackground && secretEnv != ""
    ensures o.RanOnce? ==>
              o.report == ExecuteCommand(Resolve(secretEnv, shellEnv, portEnv).shellPath, expand(cfg.command), spawn, wait)
    ensures o.RanOnce? ==> (o.report.error.None? <==> spawn.Started? && wait.NoError?)
    ensures o.RanOnce? ==> (o.report.launched.Some? <==> spawn.Started?)
    ensures o.RanOnce? && spawn.Started? ==>
              o.report.launched.value == Launch(Resolve(secretEnv, shellEnv, portEnv).shellPath, expand(cfg.command))
    // serving only with a non-empty secret and the defaulted settings
    ensures o.Serve? <==> !cfg.runOnce && secretEnv != ""
    ensures o.Serve? ==> o.settings == Resolve(secretEnv, shellEnv, portEnv) && o.settings.Resolved()
    // the server listens on the configured port, or on 8080 when none is set
    ensures o.Serve? && portEnv == "" ==> o.settings.Address() == ":8080"
    ensures o.Serve? && portEnv != "" ==> o.settings.Address() == ":" + portEnv
  {
    if cfg.runOnce && cfg.runInBackground then ConfigError(ExclusiveModesMessage)
    else if secretEnv == "" then MissingSecret(MissingSecretMessage)
    else
      var settings := Resolve(secretEnv, shellEnv, portEnv);
      if cfg.runOnce then RanOnce(ExecuteCommand(settings.shellPath, expand(cfg.command), spawn, wait))
      else Serve(settings)
  }

  /**
    `run` returns no error exactly when the mode is run-once and the child was
    started and exited cleanly; serving only ends with an error.
   */
  lemma RunOnceSucceedsOnlyOnCleanExit(cfg: Config, secretEnv: string, shellEnv: string, portEnv: string,
                                       expand: string -> string, spawn: SpawnOutcome, wait: WaitResult)
    ensures var o := Decide(cfg, secretEnv, shellEnv, portEnv, expand, spawn, wait);
      (o.RanOnce? && o.report.error.None?) <==>
      (cfg.runOnce && !cfg.runInBackground && secretEnv != "" && spawn.Started? && wait.NoError?)
  {
  }
}
