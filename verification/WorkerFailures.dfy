/** What one run of the worker is, read off its turns alone: which of them fail, what they leave, and where the run ends. */
module WorkerFailures {
  import opened Wrappers
  import opened Store
  import opened Planner
  import opened Worker

  // ---------------------------------------------------------------------
  // One turn
  // ---------------------------------------------------------------------

  /** The plan a turn fetches; None when planning raises, idles, stops or refuses the checkpoint. */
  ghost function Planned(cfg: Config, memory: Option<Cursor>, fault: Fault): Option<FetchPlan> {
    if fault.PlanFails? || fault.PlanIdles? || !Plan(cfg.planner, memory).Fetches? then None
    else Some(Plan(cfg.planner, memory).plan)
  }

  /** The batch that reaches the consumer's persist, with what is to be saved after it. */
  ghost function Delivery(cfg: Config, memory: Option<Cursor>, fault: Fault): Option<(seq<Record>, Cursor, Directive)> {
    var plan := Planned(cfg, memory, fault);
    if plan.None? || fault.FetchFails? || fault.OutputFails? then None
    else
      var batch := cfg.fetch(plan.value.ref);
      var output := Output(cfg.planner, cfg.exhausted, batch, plan.value);
      if output.None? then None else Some((batch, output.value.0, output.value.1))
  }

  /** Every record of the batch can be upserted. */
  ghost predicate Identified(batch: seq<Record>) {
    forall r :: r in batch ==> r.id.Some?
  }

  /** A stage of the turn raises. */
  ghost predicate Fails(cfg: Config, memory: Option<Cursor>, fault: Fault) {
    || fault.PlanFails?
    || (!fault.PlanIdles? && Plan(cfg.planner, memory).Invalid?)
    || (Planned(cfg, memory, fault).Some? && fault != NoFault)
    || (Planned(cfg, memory, fault).Some? && Delivery(cfg, memory, fault).None?)
    || (Delivery(cfg, memory, fault).Some? && !Identified(Delivery(cfg, memory, fault).value.0))
  }

  /** The new checkpoint becomes durable. */
  ghost predicate Saves(cfg: Config, memory: Option<Cursor>, fault: Fault) {
    && Delivery(cfg, memory, fault).Some? && Identified(Delivery(cfg, memory, fault).value.0)
    && (fault.NoFault? || fault.SaveFailsLate?)
  }

  ghost predicate Completes(cfg: Config, memory: Option<Cursor>, fault: Fault) {
    Saves(cfg, memory, fault) && fault.NoFault?
  }

  ghost predicate PlansStop(cfg: Config, memory: Option<Cursor>, fault: Fault) {
    !fault.PlanFails? && !fault.PlanIdles? && Plan(cfg.planner, memory).Stops?
  }

  /** The turn is the normal end of its run. */
  ghost predicate EndsRun(cfg: Config, memory: Option<Cursor>, fault: Fault) {
    || PlansStop(cfg, memory, fault)
    || (Completes(cfg, memory, fault) && Delivery(cfg, memory, fault).value.2.Stop?)
  }

  /** What the turn puts into the store: the batch up to the fault, and never past a record without an id. */
  ghost function Upserted(cfg: Config, memory: Option<Cursor>, fault: Fault): seq<Record> {
    var delivery := Delivery(cfg, memory, fault);
    if delivery.None? then []
    else
      var batch := delivery.value.0;
      if fault.PersistFails? && fault.records < Usable(batch) then batch[..fault.records] else batch[..Usable(batch)]
  }

  // ---------------------------------------------------------------------
  // The first n turns of one run
  // ---------------------------------------------------------------------

  /** The checkpoint the run holds: the one saved by its last completed turn, or the one it loaded. */
  ghost function Held(cfg: Config, loaded: Option<Cursor>, turns: seq<Turn>, n: nat): Option<Cursor>
    requires n <= |turns|
  {
    if n == 0 then loaded
    else
      var memory := Held(cfg, loaded, turns, n - 1);
      if Completes(cfg, memory, turns[n - 1].fault) then Some(Delivery(cfg, memory, turns[n - 1].fault).value.1) else memory
  }

  /** The checkpoint on disk: the last one that became durable, whether or not its save then raised. */
  ghost function OnDisk(cfg: Config, loaded: Option<Cursor>, turns: seq<Turn>, n: nat): Option<Cursor>
    requires n <= |turns|
  {
    if n == 0 then loaded
    else
      var memory := Held(cfg, loaded, turns, n - 1);
      if Saves(cfg, memory, turns[n - 1].fault) then Some(Delivery(cfg, memory, turns[n - 1].fault).value.1)
      else OnDisk(cfg, loaded, turns, n - 1)
  }

  /** Every record put into the store so far, in order. */
  ghost function AllUpserted(cfg: Config, loaded: Option<Cursor>, turns: seq<Turn>, n: nat): seq<Record>
    requires n <= |turns|
  {
    if n == 0 then []
    else AllUpserted(cfg, loaded, turns, n - 1) + Upserted(cfg, Held(cfg, loaded, turns, n - 1), turns[n - 1].fault)
  }

  ghost predicate FailsAt(cfg: Config, loaded: Option<Cursor>, turns: seq<Turn>, i: nat)
    requires i < |turns|
  {
    Fails(cfg, Held(cfg, loaded, turns, i), turns[i].fault)
  }

  ghost predicate CompletesAt(cfg: Config, loaded: Option<Cursor>, turns: seq<Turn>, i: nat)
    requires i < |turns|
  {
    Completes(cfg, Held(cfg, loaded, turns, i), turns[i].fault)
  }

  ghost predicate EndsAt(cfg: Config, loaded: Option<Cursor>, turns: seq<Turn>, i: nat)
    requires i < |turns|
  {
    EndsRun(cfg, Held(cfg, loaded, turns, i), turns[i].fault)
  }

  /** The latest `c` of the first `n` turns failed, and the one before them, if any, did not. */
  ghost predicate FailingSuffix(cfg: Config, loaded: Option<Cursor>, turns: seq<Turn>, n: nat, c: nat)
    requires n <= |turns|
  {
    && c <= n && (forall i :: n - c <= i < n ==> FailsAt(cfg, loaded, turns, i))
    && (c < n ==> !FailsAt(cfg, loaded, turns, n - c - 1))
  }

  /** The last turn failed, and so did as many in a row, up to it, as the limit allows. */
  ghost predicate AtLimit(cfg: Config, loaded: Option<Cursor>, turns: seq<Turn>, n: nat)
    requires n <= |turns|
  {
    && n > 0 && FailsAt(cfg, loaded, turns, n - 1)
    && cfg.failureLimit.Some? && cfg.failureLimit.value <= n
    && forall i :: n - cfg.failureLimit.value <= i < n ==> FailsAt(cfg, loaded, turns, i)
  }

  ghost predicate Ended(cfg: Config, loaded: Option<Cursor>, turns: seq<Turn>, n: nat)
    requires n <= |turns|
  {
    n > 0 && EndsAt(cfg, loaded, turns, n - 1)
  }

  /** Neither the limit nor a normal end is reached before the `n`th turn has been taken. */
  ghost predicate GoesOn(cfg: Config, loaded: Option<Cursor>, turns: seq<Turn>, n: nat)
    requires n <= |turns|
  {
    forall m :: 0 <= m < n ==> !AtLimit(cfg, loaded, turns, m) && !Ended(cfg, loaded, turns, m)
  }

  ghost function FailedTurns(cfg: Config, loaded: Option<Cursor>, turns: seq<Turn>, n: nat): set<nat>
    requires n <= |turns|
  {
    set i: nat | i < n && FailsAt(cfg, loaded, turns, i)
  }

  ghost function CompletedTurns(cfg: Config, loaded: Option<Cursor>, turns: seq<Turn>, n: nat): set<nat>
    requires n <= |turns|
  {
    set i: nat | i < n && CompletesAt(cfg, loaded, turns, i)
  }

  /** The host after the first `n` turns of the run that began as `start` is what the turns say. */
  ghost predicate ReadOff(cfg: Config, start: Host, turns: seq<Turn>, n: nat, h: Host)
    requires n <= |turns|
  {
    && h.memory == Held(cfg, start.durable, turns, n)
    && h.durable == OnDisk(cfg, start.durable, turns, n)
    && h.store == PutAll(start.store, AllUpserted(cfg, start.durable, turns, n))
    && FailingSuffix(cfg, start.durable, turns, n, h.consecutive)
    && (h.raised <==> AtLimit(cfg, start.durable, turns, n))
    && (h.stopped <==> Ended(cfg, start.durable, turns, n))
    && h.failures == |FailedTurns(cfg, start.durable, turns, n)|
    && h.completed == |CompletedTurns(cfg, start.durable, turns, n)|
    && h.iterations == n
  }

  // ---------------------------------------------------------------------
  // The machine's turn is that turn
  // ---------------------------------------------------------------------

  lemma IdentifiedUsable(batch: seq<Record>)
    ensures Identified(batch) <==> Usable(batch) == |batch|
  {
    if Usable(batch) < |batch| {
      assert batch[Usable(batch)] in batch;
    }
  }

  lemma NothingPut(d: Dict)
    ensures PutAll(d, []) == d
  {
  }

  /** What an iteration does to a host, in the terms above. */
  ghost predicate TurnDone(cfg: Config, h: Host, fault: Fault, h': Host) {
    var fails := Fails(cfg, h.memory, fault);
    var completes := Completes(cfg, h.memory, fault);
    && h'.memory == (if completes then Some(Delivery(cfg, h.memory, fault).value.1) else h.memory)
    && h'.durable == (if Saves(cfg, h.memory, fault) then Some(Delivery(cfg, h.memory, fault).value.1) else h.durable)
    && h'.store == PutAll(h.store, Upserted(cfg, h.memory, fault))
    && h'.consecutive == (if fails then h.consecutive + 1 else 0)
    && (h'.raised <==> fails && cfg.failureLimit.Some? && h.consecutive + 1 >= cfg.failureLimit.value)
    && (h'.stopped <==> EndsRun(cfg, h.memory, fault))
    && h'.failures == h.failures + (if fails then 1 else 0)
    && h'.completed == h.completed + (if completes then 1 else 0)
    && h'.iterations == h.iterations + 1
  }

  lemma IterateDone(cfg: Config, h: Host, fault: Fault)
    requires !h.stopped && !h.raised
    ensures TurnDone(cfg, h, fault, Iterate(cfg, h, fault))
  {
    hide Plan, Output, PutAll;
    NothingPut(h.store);
    if Planned(cfg, h.memory, fault).Some? && !fault.FetchFails? {
      DeliverDone(cfg, h, fault);
    } else {
      hide Deliver, Usable;
    }
  }

  lemma DeliverDone(cfg: Config, h: Host, fault: Fault)
    requires !h.stopped && !h.raised && Planned(cfg, h.memory, fault).Some? && !fault.FetchFails?
    ensures var plan := Planned(cfg, h.memory, fault).value;
      TurnDone(cfg, h, fault, Deliver(cfg, h.(iterations := h.iterations + 1), plan, cfg.fetch(plan.ref), fault))
  {
    hide Plan, Output, PutAll, Usable, Identified;
    var batch := cfg.fetch(Planned(cfg, h.memory, fault).value.ref);
    IdentifiedUsable(batch);
    NothingPut(h.store);
    assert batch[..|batch|] == batch;
  }

  /** A turn of a run that goes on is one iteration. */
  lemma TurnTaken(cfg: Config, start: Host, turns: seq<Turn>, used: nat)
    requires used < |turns| && !turns[used].dies
    requires !Run(cfg, start, turns[..used]).stopped && !Run(cfg, start, turns[..used]).raised
    ensures Run(cfg, start, turns[..used + 1]) == Iterate(cfg, Run(cfg, start, turns[..used]), turns[used].fault)
  {
    hide Iterate;
    assert turns[..used + 1][..used] == turns[..used];
  }

  lemma TurnCounted(cfg: Config, loaded: Option<Cursor>, turns: seq<Turn>, n: nat)
    requires n < |turns|
    ensures |FailedTurns(cfg, loaded, turns, n + 1)| == |FailedTurns(cfg, loaded, turns, n)| + if FailsAt(cfg, loaded, turns, n) then 1 else 0
    ensures |CompletedTurns(cfg, loaded, turns, n + 1)| == |CompletedTurns(cfg, loaded, turns, n)| + if CompletesAt(cfg, loaded, turns, n) then 1 else 0
  {
    hide FailsAt, CompletesAt;
    var failed, completed := FailedTurns(cfg, loaded, turns, n), CompletedTurns(cfg, loaded, turns, n);
    assert FailedTurns(cfg, loaded, turns, n + 1) == if FailsAt(cfg, loaded, turns, n) then failed + {n} else failed;
    assert CompletedTurns(cfg, loaded, turns, n + 1) == if CompletesAt(cfg, loaded, turns, n) then completed + {n} else completed;
  }

  lemma TurnSuffix(cfg: Config, loaded: Option<Cursor>, turns: seq<Turn>, n: nat, c: nat)
    requires n < |turns| && FailingSuffix(cfg, loaded, turns, n, c)
    ensures FailingSuffix(cfg, loaded, turns, n + 1, if FailsAt(cfg, loaded, turns, n) then c + 1 else 0)
    ensures AtLimit(cfg, loaded, turns, n + 1) <==>
      FailsAt(cfg, loaded, turns, n) && cfg.failureLimit.Some? && c + 1 >= cfg.failureLimit.value
  {
    hide FailsAt;
  }

  lemma TurnReadOff(cfg: Config, start: Host, turns: seq<Turn>, n: nat, h: Host, h': Host)
    requires n < |turns| && ReadOff(cfg, start, turns, n, h) && TurnDone(cfg, h, turns[n].fault, h')
    ensures ReadOff(cfg, start, turns, n + 1, h')
  {
    hide Fails, Completes, Saves, EndsRun, Delivery, Upserted, PutAll, FailingSuffix, AtLimit, FailedTurns, CompletedTurns;
    TurnCounted(cfg, start.durable, turns, n);
    TurnSuffix(cfg, start.durable, turns, n, h.consecutive);
    PutAllConcat(start.store, AllUpserted(cfg, start.durable, turns, n), Upserted(cfg, h.memory, turns[n].fault));
  }

  /**
    The counters of a run mean what they say: its count of consecutive failures is the length of the
    longest row of failing turns up to now, it is given up at the turn at which such a row first
    reaches the limit, and checkpoint, disk, store and totals are those its turns make.
  */
  lemma {:induction false} RunReadOff(cfg: Config, start: Host, turns: seq<Turn>, n: nat)
    requires n <= |turns| && (forall t :: t in turns ==> !t.dies)
    requires start == Start(start.durable, start.store, start.touches) && GoesOn(cfg, start.durable, turns, n)
    ensures ReadOff(cfg, start, turns, n, Run(cfg, start, turns[..n]))
  {
    hide TurnDone, Iterate, PutAll;
    if n == 0 {
      NothingPut(start.store);
      assert turns[..0] == [];
    } else {
      RunReadOff(cfg, start, turns, n - 1);
      var h := Run(cfg, start, turns[..n - 1]);
      hide ReadOff;
      assert !h.raised && !h.stopped by { NotEnded(cfg, start, turns, n - 1, h); }
      assert turns[n - 1] in turns;
      TurnTaken(cfg, start, turns, n - 1);
      IterateDone(cfg, h, turns[n - 1].fault);
      TurnReadOff(cfg, start, turns, n - 1, h, Iterate(cfg, h, turns[n - 1].fault));
    }
  }

  lemma NotEnded(cfg: Config, start: Host, turns: seq<Turn>, n: nat, h: Host)
    requires n < |turns| && ReadOff(cfg, start, turns, n, h) && GoesOn(cfg, start.durable, turns, n + 1)
    ensures !h.raised && !h.stopped
  {
  }
}
