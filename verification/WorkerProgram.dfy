/** The worker host as the loop it is, over a checkpoint cell and a store updated in place. */
module WorkerProgram {
  import opened Wrappers
  import opened Store
  import opened Planner
  import opened Worker
  import opened WorkerFailures

  class CheckpointStore {
    var checkpoint: Option<Cursor>

    constructor ()
      ensures checkpoint == None
    {
      checkpoint := None;
    }

    /** A save may fail before or after the new checkpoint is durable. */
    method Save(next: Cursor, fault: Fault) returns (ok: bool)
      modifies this
      ensures ok <==> !fault.SaveFails? && !fault.SaveFailsLate?
      ensures checkpoint == if fault.SaveFails? then old(checkpoint) else Some(next)
    {
      if fault.SaveFails? {
        return false;
      }
      checkpoint := Some(next);
      return !fault.SaveFailsLate?;
    }
  }

  /** How the guarded part of an iteration ended. */
  datatype Ending = Raised | IdlePlan | StopPlan | Completed(next: Cursor, directive: Directive)

  datatype RunResult = BadBound | GaveUp | Returned(checkpoint: Option<Cursor>, completed: nat, failures: nat, iterations: nat)

  /** What the loop makes of an ending. */
  function Counted(cfg: Config, h: Host, e: Ending): Host {
    match e
    case Raised => Failed(cfg, h)
    case IdlePlan => h.(consecutive := 0, idlePlans := h.idlePlans + 1)
    case StopPlan => h.(consecutive := 0, stopPlans := h.stopPlans + 1, stopped := true)
    case Completed(next, directive) =>
      h.(memory := Some(next), completed := h.completed + 1, consecutive := 0, stopped := directive.Stop?)
  }

  lemma {:induction false} UsablePrefix(batch: seq<Record>, n: nat)
    requires n <= |batch|
    ensures Usable(batch[..n]) == if n < Usable(batch) then n else Usable(batch)
  {
    if n > 0 && batch[0].id.Some? {
      UsablePrefix(batch[1..], n - 1);
      assert batch[..n][1..] == batch[1..][..n - 1];
    }
  }

  class WorkerHost {
    const cfg: Config
    const checkpoints: CheckpointStore
    const sink: InMemoryStore
    ghost var touches: seq<Touch>

    constructor (cfg: Config, checkpoints: CheckpointStore, sink: InMemoryStore)
      ensures this.cfg == cfg && this.checkpoints == checkpoints && this.sink == sink && touches == []
    {
      this.cfg, this.checkpoints, this.sink, touches := cfg, checkpoints, sink, [];
    }

    /** The disk, the store and the history as the host `h` has them now. */
    ghost function Outside(h: Host): Host
      reads this, checkpoints, sink
    {
      h.(durable := checkpoints.checkpoint, store := sink.records, touches := touches)
    }

    /** The consumer's persist: it upserts the payload, or fails on the way. */
    method Persist(ref: string, payload: seq<Record>, fault: Fault, ghost h: Host) returns (ok: bool)
      requires Outside(h) == h
      modifies sink, this`touches
      ensures var n := if fault.PersistFails? then fault.records else |payload|;
        Outside(h) == Persisted(h, ref, payload, n)
      ensures ok <==> !fault.PersistFails? && Usable(payload) == |payload|
    {
      var n := if fault.PersistFails? && fault.records < |payload| then fault.records else |payload|;
      UsablePrefix(payload, n);
      assert payload[..n][..Usable(payload[..n])] == payload[..Usable(payload[..n])];
      var upserted := sink.Upsert(payload[..n]);
      touches := touches + [Touch(ref, Usable(payload[..n]) == |payload|)];
      return upserted.Some? && !fault.PersistFails?;
    }

    /** From the payload to the checkpoint. */
    method Deliver(plan: FetchPlan, payload: seq<Record>, fault: Fault, ghost h: Host) returns (e: Ending)
      requires Outside(h) == h
      modifies checkpoints, sink, this`touches
      ensures Worker.Deliver(cfg, h, plan, payload, fault) == Counted(cfg, Outside(h), e)
    {
      hide PutAll, Usable;
      var output := Output(cfg.planner, cfg.exhausted, payload, plan);
      hide Output;
      if fault.OutputFails? || output.None? {
        return Raised;
      }
      var persisted := Persist(plan.ref, payload, fault, h);
      hide Persisted;
      if !persisted {
        return Raised;
      }
      var saved := checkpoints.Save(output.value.0, fault);
      return if saved then Completed(output.value.0, output.value.1) else Raised;
    }

    /** The guarded part of one iteration; any raise leaves what was done before it. */
    method Attempt(memory: Option<Cursor>, fault: Fault, ghost h: Host) returns (e: Ending)
      requires Outside(h) == h && h.memory == memory
      modifies checkpoints, sink, this`touches
      ensures Iterate(cfg, h, fault) == Counted(cfg, Outside(h.(iterations := h.iterations + 1)), e)
    {
      hide PutAll, Usable, Worker.Deliver, Failed;
      ghost var h1 := h.(iterations := h.iterations + 1);
      if fault.PlanFails? {
        return Raised;
      }
      if fault.PlanIdles? {
        return IdlePlan;
      }
      var decision := Plan(cfg.planner, memory);
      hide Plan;
      if decision.Stops? {
        return StopPlan;
      }
      if decision.Invalid? || fault.FetchFails? {
        return Raised;
      }
      e := Deliver(decision.plan, cfg.fetch(decision.plan.ref), fault, h1);
    }

    /**
      One run: turn by turn until a stop, the failure limit, the bound, or a stop request once the
      turns are used up.  It gives up at the first turn that completes a row of failing turns as long
      as the limit, and what it returns and leaves is what its turns say.
    */
    method Run(turns: seq<Turn>, maxIterations: Option<int>) returns (result: RunResult, used: nat)
      requires forall t :: t in turns ==> !t.dies
      modifies checkpoints, sink, this`touches
      ensures used <= |turns| && (result.BadBound? <==> maxIterations.Some? && maxIterations.value < 0)
      ensures result.BadBound? ==> used == 0
      ensures !result.BadBound? && maxIterations.Some? ==> used <= maxIterations.value
      ensures var loaded := old(checkpoints.checkpoint);
        && GoesOn(cfg, loaded, turns, used)
        && (result.GaveUp? <==> AtLimit(cfg, loaded, turns, used))
        && (result.Returned? ==> Ended(cfg, loaded, turns, used) || used == |turns| || maxIterations == Some(used))
        && (result.Returned? ==> result == Returned(Held(cfg, loaded, turns, used),
             |CompletedTurns(cfg, loaded, turns, used)|, |FailedTurns(cfg, loaded, turns, used)|, used))
        && checkpoints.checkpoint == OnDisk(cfg, loaded, turns, used)
        && sink.records == PutAll(old(sink.records), AllUpserted(cfg, loaded, turns, used))
      ensures Outside(Worker.Run(cfg, old(Outside(Start(checkpoints.checkpoint, sink.records, touches))), turns[..used]))
        == Worker.Run(cfg, old(Outside(Start(checkpoints.checkpoint, sink.records, touches))), turns[..used])
    {
      ghost var start := Outside(Start(checkpoints.checkpoint, sink.records, touches));
      used := 0;
      assert Worker.Run(cfg, start, turns[..0]) == start;
      NotAtStart(cfg, start.durable, turns);
      hide Iterate, PutAll, Usable, Worker.Run, GoesOn, AtLimit, Ended, Held, OnDisk, AllUpserted, FailingSuffix, FailedTurns, CompletedTurns;
      if maxIterations.Some? && maxIterations.value < 0 {
        RunReadOff(cfg, start, turns, 0);
        return BadBound, 0;
      }
      var checkpoint := checkpoints.checkpoint;
      var completed, failures, consecutive, iterations := 0, 0, 0, 0;
      var stopped, raised := false, false;
      ghost var h := start;
      while !stopped && !raised && used < |turns| && (maxIterations.None? || iterations < maxIterations.value)
        invariant used <= |turns| && h == Worker.Run(cfg, start, turns[..used]) && Outside(h) == h
        invariant h.memory == checkpoint && h.completed == completed && h.failures == failures
        invariant h.consecutive == consecutive && h.iterations == iterations == used
        invariant h.stopped == stopped && h.raised == raised
        invariant maxIterations.Some? ==> iterations <= maxIterations.value
        invariant GoesOn(cfg, start.durable, turns, used)
        decreases |turns| - used
      {
        assert turns[used] in turns;
        RunReadOff(cfg, start, turns, used);
        GoesFurther(cfg, start.durable, turns, used);
        TurnTaken(cfg, start, turns, used);
        var e := Attempt(checkpoint, turns[used].fault, h);
        h := Counted(cfg, Outside(h.(iterations := h.iterations + 1)), e);
        used, iterations := used + 1, iterations + 1;
        match e {
          case Raised =>
            failures, consecutive := failures + 1, consecutive + 1;
            raised := cfg.failureLimit.Some? && consecutive >= cfg.failureLimit.value;
          case IdlePlan => consecutive := 0;
          case StopPlan => consecutive, stopped := 0, true;
          case Completed(next, directive) =>
            checkpoint, completed, consecutive := Some(next), completed + 1, 0;
            stopped := directive.Stop?;
        }
      }
      RunReadOff(cfg, start, turns, used);
      if raised {
        return GaveUp, used;
      }
      return Returned(checkpoint, completed, failures, iterations), used;
    }
  }

  lemma NotAtStart(cfg: Config, loaded: Option<Cursor>, turns: seq<Turn>)
    ensures !AtLimit(cfg, loaded, turns, 0) && GoesOn(cfg, loaded, turns, 0)
  {
  }

  lemma GoesFurther(cfg: Config, loaded: Option<Cursor>, turns: seq<Turn>, n: nat)
    requires n < |turns| && GoesOn(cfg, loaded, turns, n) && !AtLimit(cfg, loaded, turns, n) && !Ended(cfg, loaded, turns, n)
    ensures GoesOn(cfg, loaded, turns, n + 1)
  {
    hide AtLimit, Ended;
  }
}
