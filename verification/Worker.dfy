/** The worker host over a fetch intent: one turn of its loop at a time, any stage of which may fail. */
module Worker {
  import opened Wrappers
  import opened Store
  import opened Planner

  /** A deterministic fetcher, the planner, and the host's settings. */
  datatype Config = Config(planner: Planner, fetch: string -> seq<Record>, exhausted: Directive, failureLimit: Option<nat>)

  /**
    What befalls a turn.  A persist may fail after any number of records; a save may fail before
    or after the new checkpoint is durable.
  */
  datatype Fault =
    | NoFault
    | PlanIdles
    | PlanFails
    | FetchFails
    | OutputFails
    | PersistFails(records: nat)
    | SaveFails
    | SaveFailsLate

  /** `dies`: the process is killed after what the fault let happen, and is started again. */
  datatype Turn = Turn(fault: Fault, dies: bool)

  /** One call of persist: for which ref, and whether the whole batch went in. */
  datatype Touch = Touch(ref: string, whole: bool)

  /**
    `durable` and `store` survive the process; `memory` and the counters belong to the run.
    `stopped` is the normal end of a run, `raised` its end at the failure limit.
  */
  datatype Host = Host(
    durable: Option<Cursor>, store: Dict, memory: Option<Cursor>, stopped: bool, raised: bool,
    completed: nat, failures: nat, consecutive: nat, idlePlans: nat, stopPlans: nat, iterations: nat,
    touches: seq<Touch>)

  function Start(durable: Option<Cursor>, store: Dict, touches: seq<Touch>): Host {
    Host(durable, store, durable, false, false, 0, 0, 0, 0, 0, 0, touches)
  }

  /** A new run of the worker. */
  function Restart(h: Host): Host {
    Start(h.durable, h.store, h.touches)
  }

  function Failed(cfg: Config, h: Host): Host {
    h.(failures := h.failures + 1, consecutive := h.consecutive + 1,
       raised := cfg.failureLimit.Some? && h.consecutive + 1 >= cfg.failureLimit.value)
  }

  /** Persist the first `n` records, or as many as the store takes. */
  function Persisted(h: Host, ref: string, batch: seq<Record>, n: nat): Host {
    var most := if n < Usable(batch) then n else Usable(batch);
    h.(store := PutAll(h.store, batch[..most]), touches := h.touches + [Touch(ref, most == |batch|)])
  }

  function Iterate(cfg: Config, h: Host, fault: Fault): Host {
    var h := h.(iterations := h.iterations + 1);
    if fault.PlanFails? then Failed(cfg, h)
    else if fault.PlanIdles? then h.(consecutive := 0, idlePlans := h.idlePlans + 1)
    else
      match Plan(cfg.planner, h.memory)
      case Invalid => Failed(cfg, h)
      case Stops => h.(consecutive := 0, stopPlans := h.stopPlans + 1, stopped := true)
      case Fetches(plan) => if fault.FetchFails? then Failed(cfg, h) else Deliver(cfg, h, plan, cfg.fetch(plan.ref), fault)
  }

  /** From the payload to the checkpoint. */
  function Deliver(cfg: Config, h: Host, plan: FetchPlan, payload: seq<Record>, fault: Fault): Host {
    var output := Output(cfg.planner, cfg.exhausted, payload, plan);
    if fault.OutputFails? || output.None? then Failed(cfg, h)
    else if fault.PersistFails? then Failed(cfg, Persisted(h, plan.ref, payload, fault.records))
    else
      var h := Persisted(h, plan.ref, payload, |payload|);
      if Usable(payload) < |payload| || fault.SaveFails? then Failed(cfg, h)
      else
        var (next, directive) := output.value;
        var h := h.(durable := Some(next));
        if fault.SaveFailsLate? then Failed(cfg, h)
        else h.(memory := Some(next), completed := h.completed + 1, consecutive := 0, stopped := directive.Stop?)
  }

  /** A turn; a run that has ended is followed by a new one. */
  function Take(cfg: Config, h: Host, t: Turn): Host {
    var h := Iterate(cfg, if h.stopped || h.raised then Restart(h) else h, t.fault);
    if t.dies then Restart(h) else h
  }

  function Run(cfg: Config, h: Host, turns: seq<Turn>): Host {
    if turns == [] then h
    else Take(cfg, Run(cfg, h, turns[..|turns| - 1]), turns[|turns| - 1])
  }

  // ---------------------------------------------------------------------
  // Accounting
  // ---------------------------------------------------------------------

  ghost predicate Accounted(h: Host) {
    h.iterations == h.completed + h.failures + h.idlePlans + h.stopPlans
  }

  lemma TakeAccounted(cfg: Config, h: Host, t: Turn)
    requires Accounted(h)
    ensures Accounted(Take(cfg, h, t))
  {
    hide Plan, Output, PutAll, Usable;
  }

  /** Every iteration of a run is a completion, a failure, an idle plan or the plan that stopped it. */
  lemma {:induction false} IterationsAccounted(cfg: Config, durable: Option<Cursor>, store: Dict, turns: seq<Turn>)
    ensures Accounted(Run(cfg, Start(durable, store, []), turns))
  {
    if turns != [] {
      hide Take;
      IterationsAccounted(cfg, durable, store, turns[..|turns| - 1]);
      TakeAccounted(cfg, Run(cfg, Start(durable, store, []), turns[..|turns| - 1]), turns[|turns| - 1]);
    }
  }
}
