# run-command-service: the decision layer, in Dafny

run-command-service is a sidecar HTTP service that exposes one configured shell
command. A caller triggers it with `POST /execute` and a shared secret in the
`x-secret` header. There are three modes. Run-once executes the command once at
startup and returns its result. Foreground runs the command on every trigger and
reports its exit code. Background spawns the command and answers at once, and
refuses new triggers while that child is in flight (single flight).

This project models the decision logic of `run-command-service.go`:

- `Runner` — `executeCommand`: the setup steps in order (stdout pipe, stderr pipe,
  start) and the wait. What the operating system reports is an input.
- `Startup` — `run` after the configuration file is parsed. It checks that
  run-once and background are not both set, requires `EXECUTE_SECRET`, defaults
  `SHELL_PATH` to `/bin/sh` and `LISTEN_PORT` to `8080`, then either runs the
  command once or serves.
- `Handlers` — `readyHandler`, and `executeHandler` as a pure step function. It
  takes the state the handler reads plus the request. It gives back the response,
  the new `isRunning` flag and the child started, if any. This module also holds
  the exit-code normalisation and the choice of status.
- `Trace` — sequences of trigger and completion steps, serialized by the
  service's mutex, replayed from the initial state. The single-flight invariant
  is proved over every such sequence.
- `Service` — the package globals (`config`, `executeSecret`, `shellPath`,
  `listenPort`, `isRunning`) as the fields of a class. `Run`, `ExecuteHandler` and
  `Complete` update them step by step, and each method is tied to the pure
  functions above. Two client methods walk through example runs of the object.

On these points the model follows the code as written:

- `isRunning` is set only after the child has started (line 243). A start that
  fails leaves the flag false.
- A child killed by a signal yields an `ExitError`. Its code is passed through
  as an unconstrained integer. Only a wait error that is not an `ExitError`
  becomes 1 (line 270).
- The method check (405) comes before the secret check (401).
- In foreground mode the handler holds the mutex from line 206 through the
  wait at line 262. The flag is read at line 210, but the outcome does not
  depend on it, and it is never written.

## Model

| member | source | states |
|---|---|---|
| Runner.ExecuteCommand | run-command-service.go:120-141 | The child is started only when both pipes and the start succeed, and it is `<shell> -c <command>`. The first setup failure is returned as an error ("error creating stdout pipe: ", "error creating stderr pipe: " or "error starting command: " followed by the library's text) and nothing starts. Once started, the result is no error exactly when waiting reported none; otherwise it is the wait error unchanged. |
| Startup.Resolve | run-command-service.go:80-98 | The secret is taken as it is. An empty shell path becomes `/bin/sh` and an empty port becomes `8080`; non-empty values are kept. With a non-empty secret, every setting is non-empty. |
| Startup.Settings.Address | run-command-service.go:116-117 | The listen address is `:` followed by the port. |
| Startup.Decide | run-command-service.go:76-117 | Both modes set gives the exclusivity error, before the secret is examined. Otherwise an empty secret gives the missing-secret error, in run-once mode too. Run-once returns exactly the runner's report for the expanded command and the resolved shell; it succeeds exactly when the child started and exited cleanly. Serving happens exactly when run-once is off and the secret is set, with the resolved settings, listening on `:` and the port (`:8080` by default). |
| Startup.RunOnceSucceedsOnlyOnCleanExit | run-command-service.go:107-110 | `run` ends without error exactly in run-once mode with a secret set, a child that started and a wait that reported nothing. |
| Handlers.HeaderSecret | run-command-service.go:199-201 | A missing `x-secret` header reads as the empty string. A present one reads as its value. |
| Handlers.ReadyHandler | run-command-service.go:180-190 | GET gives 200 with status "ok". Every other method gives 405 "Method not allowed". |
| Handlers.ExitCode | run-command-service.go:265-272 | The exit code of a foreground run is 0 when waiting reported no error, the carried code for an `ExitError` (any integer), and 1 for any other error. |
| Handlers.StatusFor | run-command-service.go:274-279 | The foreground status is 200 or 500, and 200 exactly when the exit code is 0. |
| Handlers.HandleExecute | run-command-service.go:193-283 | 405 "Method not allowed" exactly for a non-POST. 401 "Unauthorized" exactly for a POST whose header differs from the secret. 409 with "job still running in background" exactly for an authorised trigger in background mode with the flag set. A child starts exactly when all checks pass and the start succeeds, and it is the shell with the expanded command. A failed setup or start is a 500 that starts nothing and leaves the flag alone; its body is "Error creating stdout pipe: ", "Error creating stderr pipe: " or "Error starting command: " followed by the library's error text. The flag becomes true only through a background child that started, and is never cleared here. A background start answers 200 "Process spawned successfully". A foreground start answers with the normalised exit code and its status. |
| Handlers.RejectionChangesNothing | run-command-service.go:194-214 | A trigger that starts no child leaves `isRunning` unchanged, in every mode. |
| Handlers.AuthenticationPrecedesExecution | run-command-service.go:199-204 | A POST with a wrong or missing secret gets 401 "Unauthorized" and changes nothing, whatever the mode, the flag or the runner would report. |
| Handlers.ForegroundIgnoresFlag | run-command-service.go:209-214 | In foreground mode, the response and the child started do not depend on `isRunning`, and the flag is left as it was. |
| Handlers.ForegroundReportsExitCode | run-command-service.go:262-282 | A foreground child that started reports `{"exit_code": c}`. Here c is 0 for no wait error, the carried code for an `ExitError`, and 1 for any other error. The status is 500 exactly when c is not 0. |
| Handlers.RunOnceAgreesWithForeground | run-command-service.go:258-282 | A run-once success means a foreground trigger with the same runner answers 200 with exit code 0. Conversely, a foreground 200 without an `ExitError` means a run-once success. Both start the same child. |
| Handlers.MissingHeaderRejected | run-command-service.go:81-84 | Once startup decides to serve, the secret is non-empty. So a POST without the header always gets 401 and starts nothing. |
| Trace.Apply | run-command-service.go:244-251 | A completion clears the flag and counts one completion. A trigger counts at most one accepted background child. |
| Trace.SingleFlight | run-command-service.go:209-251 | Take any sequence of triggers and completions in which a completion only follows a child in flight. Accepted background triggers minus completions is then 0 or 1, and it is 1 exactly when `isRunning` is set. |
| Trace.ForegroundNeverRuns | run-command-service.go:241-262 | In foreground mode no sequence sets the flag or leaves a child running. |
| Trace.ConflictWhileInFlight | run-command-service.go:209-214 | While a background child is in flight, an authorised trigger gets 409, starts nothing and keeps the flag set. |
| Trace.AcceptedAfterCompletion | run-command-service.go:241-251 | Right after a completion, an authorised background trigger whose start succeeds is accepted: 200 "Process spawned successfully", with the flag set. |
| Trace.AcceptedWhenIdle | run-command-service.go:209-251 | On any feasible run in background mode where every accepted child has completed (the initial state, after a completion, or after rejected triggers since), an authorised trigger whose start succeeds is accepted: 200 "Process spawned successfully", the shell with the expanded command started, and the flag set. |
| Trace.RejectedTriggerKeepsTally | run-command-service.go:193-239 | A trigger that starts nothing leaves the whole state unchanged. |
| Service.CommandService.constructor | run-command-service.go:26-33 | The globals start at their zero values, with no child in flight. |
| Service.CommandService.Run | run-command-service.go:76-110 | It returns exactly `Startup.Decide`. It stores the configuration. After the exclusivity error no setting is touched. After the missing-secret error only the (empty) secret was stored. Otherwise the three settings are the resolved ones. |
| Service.CommandService.ExecuteHandler | run-command-service.go:193-283 | The response, the child started and the new flag are those of `Handlers.HandleExecute` on the old state. The other globals are unchanged. The object invariant holds: at most one background child is in flight, exactly while the flag is set, and none in foreground mode. |
| Service.CommandService.Complete | run-command-service.go:244-251 | The completion of an in-flight background child clears the flag, and the invariant is kept. |

## Left out

- Configuration loading is left out: `CONFIG_FILE_PATH`, the executable's directory, reading the file and YAML parsing (lines 55-74). These are foreign calls, so the parsed `Config` is an input.
- `main`, flag parsing, `printHelp` and logging are left out (lines 35-49, 144-178). So is the process exit status set by `log.Fatal`: the model stops at what `run` returns.
- HTTP routing, `ListenAndServe`, header canonicalisation and JSON and text encoding are left out. Responses are a datatype. The trailing newline that `http.Error` adds is not modelled.
- `exec.Command`, the pipes, `Start`, the `io.Copy` goroutines and `Wait` are process I/O. What they report is an input: a `SpawnOutcome` and a `WaitResult`. Error texts from the library are opaque strings.
- Output relaying to the service's own stdout and stderr is left out, because it is I/O with no effect on any decision.
- `os.ExpandEnv` is left out. It is an opaque function, passed in for each call, because the environment may change between triggers.
- The mutex and the goroutines are left out as concurrency primitives. Each handler call and each completion is one atomic step, in the order the mutex serializes them. The lock is taken after the method and secret checks (line 206); those checks read only values fixed at startup, so treating the whole handler call as one step loses nothing.
- Service.CommandService.Complete: the goroutine exists only after a background child has started. So the method requires a child in flight (a ghost counter), and the model has no unmatched completion.
- The test file sets `RCS_`-prefixed environment variables, while the code reads unprefixed names. The model follows the code.
