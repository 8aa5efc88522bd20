/**
  Runs of the execute handler and of the background completion continuation,
  one serialized step after another as the service's mutex orders them, from
  the initial state (`isRunning` false). The tally counts the background
  children left running by a trigger ("accepted") and the completions.
 */
module Trace {
  import opened Wrappers
  import opened Runner
  import opened Startup
  import opened Handlers

  /** A trigger with what the environment and the runner report for it, or the completion of a background child. */
  datatype Event =
    | Trigger(req: Request, expand: string -> string, spawn: SpawnOutcome, wait: WaitResult)
    | Complete

  datatype Tally = Tally(running: bool, accepted: nat, completed: nat)

  /** A trigger step left a child running after the handler returned: only in background mode. */
  predicate Detached(cfg: Config, o: Step) {
    cfg.runInBackground && o.launched.Some?
  }

  /** One serialized step. The completion continuation clears the flag unconditionally. */
  function Apply(cfg: Config, secret: string, shell: string, t: Tally, e: Event): (u: Tally)
    ensures e.Complete? ==> !u.running && u.accepted == t.accepted && u.completed == t.completed + 1
    ensures e.Trigger? ==> u.completed == t.completed && t.accepted <= u.accepted <= t.accepted + 1
  {
    match e
    case Complete => Tally(false, t.accepted, t.completed + 1)
    case Trigger(req, expand, spawn, wait) =>
      var o := HandleExecute(cfg, secret, shell, t.running, req, expand, spawn, wait);
      Tally(o.running, t.accepted + (if Detached(cfg, o) then 1 else 0), t.completed)
  }

  /** The tally after the events, applied in order from the initial state. */
  function Replay(cfg: Config, secret: string, shell: string, evs: seq<Event>): Tally
    decreases |evs|
  {
    if |evs| == 0 then Tally(false, 0, 0)
    else Apply(cfg, secret, shell, Replay(cfg, secret, shell, evs[..|evs| - 1]), evs[|evs| - 1])
  }

  /** Every completion belongs to a background child still in flight, as only such a child runs the continuation. */
  predicate Feasible(cfg: Config, secret: string, shell: string, evs: seq<Event>)
    decreases |evs|
  {
    |evs| == 0 ||
    (Feasible(cfg, secret, shell, evs[..|evs| - 1]) &&
     (evs[|evs| - 1].Complete? ==>
        var t := Replay(cfg, secret, shell, evs[..|evs| - 1]);
        t.completed < t.accepted))
  }

  /**
    Single flight: along any feasible run, in every mode, accepted triggers
    minus completions is 0 or 1, and it is 1 exactly when `isRunning` is set.
   */
  lemma {:induction false} SingleFlight(cfg: Config, secret: string, shell: string, evs: seq<Event>)
    requires Feasible(cfg, secret, shell, evs)
    ensures var t := Replay(cfg, secret, shell, evs);
      t.completed <= t.accepted <= t.completed + 1 && (t.running <==> t.accepted == t.completed + 1)
    decreases |evs|
  {
    if |evs| > 0 {
      var init := evs[..|evs| - 1];
      SingleFlight(cfg, secret, shell, init);
    }
  }

  /** In foreground mode no run ever sets the flag or leaves a child running. */
  lemma {:induction false} ForegroundNeverRuns(cfg: Config, secret: string, shell: string, evs: seq<Event>)
    requires !cfg.runInBackground && Feasible(cfg, secret, shell, evs)
    ensures var t := Replay(cfg, secret, shell, evs);
      !t.running && t.accepted == 0 && t.completed == 0
    decreases |evs|
  {
    if |evs| > 0 {
      ForegroundNeverRuns(cfg, secret, shell, evs[..|evs| - 1]);
    }
  }

  /**
    While a background child is in flight, an authorised trigger gets 409 with
    "job still running in background", starts nothing and leaves the flag set.
   */
  lemma ConflictWhileInFlight(cfg: Config, secret: string, shell: string, evs: seq<Event>,
                              req: Request, expand: string -> string, spawn: SpawnOutcome, wait: WaitResult)
    requires cfg.runInBackground && Feasible(cfg, secret, shell, evs) && Authorised(req, secret)
    requires Replay(cfg, secret, shell, evs).completed < Replay(cfg, secret, shell, evs).accepted
    ensures var o := HandleExecute(cfg, secret, shell, Replay(cfg, secret, shell, evs).running, req, expand, spawn, wait);
      o == Step(Response(StatusConflict, StatusJson(JobStillRunning)), true, None)
  {
    SingleFlight(cfg, secret, shell, evs);
  }

  /**
    Right after a completion, an authorised background trigger whose child
    starts is accepted: 200 with "Process spawned successfully", flag set.
   */
  lemma AcceptedAfterCompletion(cfg: Config, secret: string, shell: string, evs: seq<Event>,
                                req: Request, expand: string -> string, wait: WaitResult)
    requires cfg.runInBackground && Authorised(req, secret)
    requires |evs| > 0 && evs[|evs| - 1].Complete?
    ensures var o := HandleExecute(cfg, secret, shell, Replay(cfg, secret, shell, evs).running, req, expand, Started, wait);
      o == Step(Response(StatusOK, StatusJson(ProcessSpawned)), true, Some(Launch(shell, expand(cfg.command))))
  {
  }

  /**
    Whenever no background child is in flight (at the start, after a completion,
    or after any rejected triggers since), an authorised background trigger
    whose child starts is accepted: 200 with "Process spawned successfully", flag set.
   */
  lemma AcceptedWhenIdle(cfg: Config, secret: string, shell: string, evs: seq<Event>,
                         req: Request, expand: string -> string, wait: WaitResult)
    requires cfg.runInBackground && Feasible(cfg, secret, shell, evs) && Authorised(req, secret)
    requires Replay(cfg, secret, shell, evs).completed == Replay(cfg, secret, shell, evs).accepted
    ensures var o := HandleExecute(cfg, secret, shell, Replay(cfg, secret, shell, evs).running, req, expand, Started, wait);
      o == Step(Response(StatusOK, StatusJson(ProcessSpawned)), true, Some(Launch(shell, expand(cfg.command))))
  {
    SingleFlight(cfg, secret, shell, evs);
  }

  /** A trigger that started nothing leaves the tally unchanged: rejections have no side effect on the state. */
  lemma RejectedTriggerKeepsTally(cfg: Config, secret: string, shell: string, t: Tally,
                                  req: Request, expand: string -> string, spawn: SpawnOutcome, wait: WaitResult)
    requires HandleExecute(cfg, secret, shell, t.running, req, expand, spawn, wait).launched.None?
    ensures Apply(cfg, secret, shell, t, Trigger(req, expand, spawn, wait)) == t
  {
  }
}
