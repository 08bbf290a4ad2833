/** At-least-once turns over an idempotent store have the effect of a failure-free run. */
module WorkerWalk {
  import opened Wrappers
  import opened Store
  import opened Planner
  import opened Worker

  // ---------------------------------------------------------------------
  // The units of work and the cursors that stand for them
  // ---------------------------------------------------------------------

  /**
    The refs to fetch, in order, and the cursor of each.  A checkpoint names the unit completed
    last, or, when `sticky`, the unit to fetch next, which after the last one is the last again.
  */
  datatype Track = Track(cfg: Config, refs: seq<string>, names: seq<Cursor>, sticky: bool)
  {
    function Next(q: nat): nat {
      if sticky && q + 1 >= |refs| then q else q + 1
    }

    function Batch(q: nat): seq<Record>
      requires q < |refs|
    {
      cfg.fetch(refs[q])
    }
  }

  /** The position after the last unit. */
  function End(tr: Track): nat {
    if tr.sticky && |tr.refs| > 0 then |tr.refs| - 1 else |tr.refs|
  }

  /** The checkpoint `c` stands for the position with `q` as the next unit. */
  ghost predicate Denotes(tr: Track, c: Option<Cursor>, q: nat) {
    if tr.sticky then q < |tr.names| && ((q == 0 && c.None?) || c == Some(tr.names[q]))
    else q <= |tr.names| && if q == 0 then c.None? else c == Some(tr.names[q - 1])
  }

  ghost predicate Plans(tr: Track, c: Option<Cursor>, q: nat)
    requires |tr.refs| == |tr.names|
  {
    Plan(tr.cfg.planner, c) == if q < |tr.refs| then Fetches(FetchPlan(tr.refs[q], tr.names[q])) else Stops
  }

  ghost predicate Advances(tr: Track, q: nat)
    requires |tr.refs| == |tr.names| && q < |tr.refs|
  {
    var output := Output(tr.cfg.planner, tr.cfg.exhausted, tr.Batch(q), FetchPlan(tr.refs[q], tr.names[q]));
    && output.Some? && Denotes(tr, Some(output.value.0), tr.Next(q))
    && output.value.1 == if q + 1 == |tr.refs| then tr.cfg.exhausted else Continue
  }

  ghost predicate Walks(tr: Track) {
    && |tr.refs| == |tr.names| && (tr.sticky ==> |tr.refs| > 0) && !tr.cfg.exhausted.Continue?
    && (forall c, q: nat :: Denotes(tr, c, q) ==> Plans(tr, c, q))
    && (forall q: nat :: q < |tr.refs| ==> Advances(tr, q))
  }

  // ---------------------------------------------------------------------
  // The failure-free store
  // ---------------------------------------------------------------------

  function FoldTo(tr: Track, d: Dict, n: nat): Dict
    requires n <= |tr.refs|
  {
    if n == 0 then d else PutAll(FoldTo(tr, d, n - 1), tr.Batch(n - 1))
  }

  function LaterIds(tr: Track, q: nat): set<string>
    decreases |tr.refs| - q
  {
    if q >= |tr.refs| then {} else Ids(tr.Batch(q)) + LaterIds(tr, q + 1)
  }

  lemma {:induction false} FoldValid(tr: Track, d: Dict, n: nat)
    requires d.Valid() && n <= |tr.refs|
    ensures FoldTo(tr, d, n).Valid()
  {
    hide PutAll, Dict.Valid;
    if n > 0 {
      FoldValid(tr, d, n - 1);
      PutAllRows(FoldTo(tr, d, n - 1), tr.Batch(n - 1));
    }
  }

  /** Persisting the unit at `q` now would make up for everything that happened to it. */
  ghost predicate Heals(tr: Track, d: Dict, store: Dict, q: nat)
    requires q <= |tr.refs|
  {
    if q == |tr.refs| then store == FoldTo(tr, d, q)
    else Agree(PutAll(store, tr.Batch(q)), FoldTo(tr, d, q + 1), LaterIds(tr, q + 1))
  }

  /** The units before `q` are in, up to what the units from `q` on will write anyway. */
  ghost predicate Settled(tr: Track, d: Dict, store: Dict, q: nat)
    requires q <= |tr.refs|
  {
    Agree(store, FoldTo(tr, d, q), LaterIds(tr, q))
  }

  lemma SettledHeals(tr: Track, d: Dict, store: Dict, q: nat)
    requires q <= |tr.refs| && Settled(tr, d, store, q)
    ensures Heals(tr, d, store, q)
  {
    if q < |tr.refs| {
      BatchAgree(store, FoldTo(tr, d, q), tr.Batch(q), LaterIds(tr, q));
      AgreeWeaken(PutAll(store, tr.Batch(q)), FoldTo(tr, d, q + 1), LaterIds(tr, q) - Ids(tr.Batch(q)), LaterIds(tr, q + 1));
    }
  }

  lemma PersistSettles(tr: Track, d: Dict, store: Dict, q: nat)
    requires q < |tr.refs| && Heals(tr, d, store, q)
    ensures Settled(tr, d, PutAll(store, tr.Batch(q)), q + 1)
  {
  }

  lemma PartHeals(tr: Track, d: Dict, store: Dict, q: nat, n: nat)
    requires store.Valid() && q < |tr.refs| && n <= |tr.Batch(q)| && Heals(tr, d, store, q)
    ensures Heals(tr, d, PutAll(store, tr.Batch(q)[..n]), q)
  {
    Absorbed(store, tr.Batch(q), n);
  }

  lemma RepeatSettles(tr: Track, d: Dict, store: Dict, p: nat)
    requires d.Valid() && p < |tr.refs| && Settled(tr, d, store, p + 1)
    ensures Settled(tr, d, PutAll(store, tr.Batch(p)), p + 1)
  {
    FoldValid(tr, d, p);
    Idempotent(FoldTo(tr, d, p), tr.Batch(p));
    BatchAgree(store, FoldTo(tr, d, p + 1), tr.Batch(p), LaterIds(tr, p + 1));
    AgreeWeaken(PutAll(store, tr.Batch(p)), FoldTo(tr, d, p + 1), LaterIds(tr, p + 1) - Ids(tr.Batch(p)), LaterIds(tr, p + 1));
  }

  // ---------------------------------------------------------------------
  // When a whole unit may be upserted again in part
  // ---------------------------------------------------------------------

  /** Every record of the unit is the last of its batch for its id, or its id comes again in a later unit. */
  ghost predicate ReplayableUnit(tr: Track, u: nat)
    requires u < |tr.refs|
  {
    forall i :: 0 <= i < |tr.Batch(u)| && tr.Batch(u)[i].id.Some? ==>
      tr.Batch(u)[i].id.value in LaterIds(tr, u + 1) || tr.Batch(u)[i] == LastOf(tr.Batch(u), tr.Batch(u)[i].id.value)
  }

  ghost predicate Replayable(tr: Track) {
    forall u: nat :: u < End(tr) ==> ReplayableUnit(tr, u)
  }

  /** The first failure ends the run, so memory never falls behind the disk. */
  predicate GivesUpAtOnce(cfg: Config) {
    cfg.failureLimit.Some? && cfg.failureLimit.value <= 1
  }

  predicate NoLateSave(turns: seq<Turn>) {
    forall t :: t in turns ==> !t.fault.SaveFailsLate?
  }

  lemma PartSettles(tr: Track, d: Dict, store: Dict, p: nat, n: nat)
    requires d.Valid() && store.Valid() && p < |tr.refs| && n <= |tr.Batch(p)|
    requires Settled(tr, d, store, p + 1) && ReplayableUnit(tr, p)
    ensures Settled(tr, d, PutAll(store, tr.Batch(p)[..n]), p + 1)
  {
    FoldValid(tr, d, p);
    ReplayAgree(store, FoldTo(tr, d, p), tr.Batch(p), n, LaterIds(tr, p + 1));
  }

  // ---------------------------------------------------------------------
  // The invariant: what memory, disk and store say about each other
  // ---------------------------------------------------------------------

  /**
    Memory is at `p` and disk at `q`.  They are at the same unit, or the disk is one ahead after a
    save that failed late, and then the unit at `p` is in already.
  */
  ghost predicate Placed(tr: Track, d: Dict, h: Host, p: nat, q: nat)
    requires |tr.refs| == |tr.names|
  {
    && h.store.Valid() && Denotes(tr, h.memory, p) && Denotes(tr, h.durable, q)
    && (h.stopped ==> h.store == FoldTo(tr, d, |tr.refs|))
    && ((p == q && Heals(tr, d, h.store, q)) || (q == p + 1 && Settled(tr, d, h.store, q)))
  }

  lemma RestartPlaced(tr: Track, d: Dict, h: Host, p: nat, q: nat)
    requires Walks(tr) && Placed(tr, d, h, p, q)
    ensures Placed(tr, d, Restart(h), q, q)
  {
    if q == p + 1 {
      SettledHeals(tr, d, h.store, q);
    }
    hide Heals, Settled, Denotes, Walks;
  }

  lemma FailedPlaced(tr: Track, d: Dict, h: Host, p: nat, q: nat)
    requires |tr.refs| == |tr.names| && Placed(tr, d, h, p, q)
    ensures Placed(tr, d, Failed(tr.cfg, h), p, q)
  {
    hide Heals, Settled, Denotes;
  }

  /** Some of the batch goes in, and the turn goes no further. */
  lemma PartPlaced(tr: Track, d: Dict, h: Host, p: nat, q: nat, n: nat)
    requires Walks(tr) && d.Valid() && Placed(tr, d, h, p, q) && !h.stopped && p < |tr.refs|
    requires p == q || ReplayableUnit(tr, p)
    ensures Placed(tr, d, Persisted(h, tr.refs[p], tr.Batch(p), n), p, q)
  {
    hide Denotes, Walks;
    var most := if n < Usable(tr.Batch(p)) then n else Usable(tr.Batch(p));
    PutAllRows(h.store, tr.Batch(p)[..most]);
    if p == q {
      PartHeals(tr, d, h.store, p, most);
    } else {
      PartSettles(tr, d, h.store, p, most);
    }
    hide Heals, Settled, PutAll, Ids, ReplayableUnit;
  }

  /** The whole batch goes in. */
  lemma WholePlaced(tr: Track, d: Dict, h: Host, p: nat, q: nat)
    requires Walks(tr) && d.Valid() && Placed(tr, d, h, p, q) && !h.stopped && p < |tr.refs|
    requires Usable(tr.Batch(p)) == |tr.Batch(p)|
    ensures var h' := Persisted(h, tr.refs[p], tr.Batch(p), |tr.Batch(p)|);
      Placed(tr, d, h', p, q) && Settled(tr, d, h'.store, p + 1)
  {
    hide Denotes, Walks;
    var b := tr.Batch(p);
    assert b[..|b|] == b;
    PutAllRows(h.store, b);
    if p == q {
      PartHeals(tr, d, h.store, p, |b|);
      PersistSettles(tr, d, h.store, p);
    } else {
      RepeatSettles(tr, d, h.store, p);
    }
    hide Heals, Settled, PutAll, Ids;
  }

  /** After the last unit the store is the failure-free one. */
  lemma SettledAtEnd(tr: Track, d: Dict, store: Dict)
    requires Settled(tr, d, store, |tr.refs|)
    ensures store == FoldTo(tr, d, |tr.refs|)
  {
    SettledHeals(tr, d, store, |tr.refs|);
  }

  /** The save: the disk moves on, and memory with it unless the save failed late. */
  lemma SavedPlaced(tr: Track, d: Dict, h: Host, p: nat, q: nat, next: Cursor, late: bool)
    requires Walks(tr) && d.Valid() && Placed(tr, d, h, p, q) && !h.stopped && p < |tr.refs|
    requires Settled(tr, d, h.store, p + 1) && Denotes(tr, Some(next), tr.Next(p))
    ensures var saved := h.(durable := Some(next));
      if late then Placed(tr, d, saved, p, tr.Next(p)) else Placed(tr, d, saved.(memory := Some(next)), tr.Next(p), tr.Next(p))
  {
    hide Walks;
    SettledHeals(tr, d, h.store, p + 1);
    if tr.Next(p) == p {
      SettledAtEnd(tr, d, h.store);
      RepeatSettles(tr, d, h.store, p);
      assert Heals(tr, d, h.store, p);
    }
    hide Heals, Settled;
  }

  /** The persist, the save and the directive. */
  lemma DeliverPlaced(tr: Track, d: Dict, h: Host, p: nat, q: nat, fault: Fault)
      returns (p': nat, q': nat)
    requires Walks(tr) && d.Valid() && Placed(tr, d, h, p, q) && !h.stopped && p < |tr.refs|
    requires p == q || Replayable(tr)
    ensures var plan := FetchPlan(tr.refs[p], tr.names[p]);
      Placed(tr, d, Deliver(tr.cfg, h, plan, tr.Batch(p), fault), p', q')
    ensures !fault.SaveFailsLate? || GivesUpAtOnce(tr.cfg) ==>
      p' == q' || (p' == p && q' == q)
      || Deliver(tr.cfg, h, FetchPlan(tr.refs[p], tr.names[p]), tr.Batch(p), fault).raised
  {
    hide Settled, Heals, Denotes, Replayable;
    p', q' := p, q;
    ReplayableAt(tr, h.durable, p, q);
    hide Placed;
    assert Advances(tr, p);
    hide Walks;
    var b, ref := tr.Batch(p), tr.refs[p];
    var output := Output(tr.cfg.planner, tr.cfg.exhausted, b, FetchPlan(ref, tr.names[p]));
    hide Output;
    if fault.OutputFails? {
      FailedPlaced(tr, d, h, p, q);
    } else if fault.PersistFails? {
      PartPlaced(tr, d, h, p, q, fault.records);
      FailedPlaced(tr, d, Persisted(h, ref, b, fault.records), p, q);
    } else {
      var h1 := Persisted(h, ref, b, |b|);
      if Usable(b) < |b| {
        PartPlaced(tr, d, h, p, q, |b|);
        FailedPlaced(tr, d, h1, p, q);
      } else {
        WholePlaced(tr, d, h, p, q);
        if fault.SaveFails? {
          FailedPlaced(tr, d, h1, p, q);
        } else {
          var (next, directive) := output.value;
          SavedPlaced(tr, d, h1, p, q, next, fault.SaveFailsLate?);
          q' := tr.Next(p);
          if fault.SaveFailsLate? {
            FailedPlaced(tr, d, h1.(durable := Some(next)), p, q');
          } else {
            p' := tr.Next(p);
            CompletedPlaced(tr, d, h1.(durable := Some(next), memory := Some(next)), p', p + 1, directive.Stop?);
          }
        }
      }
    }
  }

  lemma ReplayableAt(tr: Track, c: Option<Cursor>, p: nat, q: nat)
    requires Walks(tr) && p < |tr.refs| && (p == q || (Replayable(tr) && q == p + 1 && Denotes(tr, c, q)))
    ensures p == q || ReplayableUnit(tr, p)
  {
  }

  lemma CompletedPlaced(tr: Track, d: Dict, h: Host, p: nat, done: nat, stop: bool)
    requires |tr.refs| == |tr.names| && Placed(tr, d, h, p, p) && done <= |tr.refs| && Settled(tr, d, h.store, done)
    requires stop ==> done == |tr.refs|
    ensures Placed(tr, d, h.(completed := h.completed + 1, consecutive := 0, stopped := stop), p, p)
  {
    hide Heals, Denotes;
    if stop {
      SettledAtEnd(tr, d, h.store);
    }
  }

  lemma IdlePlaced(tr: Track, d: Dict, h: Host, p: nat, q: nat)
    requires |tr.refs| == |tr.names| && Placed(tr, d, h, p, q)
    ensures Placed(tr, d, h.(consecutive := 0, idlePlans := h.idlePlans + 1), p, q)
  {
    hide Heals, Settled, Denotes;
  }

  /** A plan that stops has nothing left to fetch. */
  lemma StopPlaced(tr: Track, d: Dict, h: Host, p: nat, q: nat)
    requires |tr.refs| == |tr.names| && Placed(tr, d, h, p, q) && p >= |tr.refs|
    ensures Placed(tr, d, h.(consecutive := 0, stopPlans := h.stopPlans + 1, stopped := true), p, q)
  {
    hide Settled, FoldTo;
    assert q <= |tr.refs|;
  }

  lemma IteratePlaced(tr: Track, d: Dict, h: Host, p: nat, q: nat, fault: Fault)
      returns (p': nat, q': nat)
    requires Walks(tr) && d.Valid() && Placed(tr, d, h, p, q) && !h.stopped
    requires p == q || Replayable(tr)
    ensures Placed(tr, d, Iterate(tr.cfg, h, fault), p', q')
    ensures !fault.SaveFailsLate? || GivesUpAtOnce(tr.cfg) ==>
      p' == q' || (p' == p && q' == q) || Iterate(tr.cfg, h, fault).raised
  {
    hide Settled, Replayable, Deliver, Denotes;
    var h1 := h.(iterations := h.iterations + 1);
    p', q' := p, q;
    assert Plans(tr, h.memory, p);
    FailedPlaced(tr, d, h1, p, q);
    IdlePlaced(tr, d, h1, p, q);
    if p >= |tr.refs| {
      StopPlaced(tr, d, h1, p, q);
    }
    hide Plan, Placed;
    if p < |tr.refs| && !fault.PlanFails? && !fault.PlanIdles? && !fault.FetchFails? {
      p', q' := DeliverPlaced(tr, d, h1, p, q, fault);
    }
    hide Walks;
  }

  lemma TakePlaced(tr: Track, d: Dict, h: Host, p: nat, q: nat, t: Turn)
      returns (p': nat, q': nat)
    requires Walks(tr) && d.Valid() && Placed(tr, d, h, p, q)
    requires Replayable(tr) || p == q || h.raised
    ensures Placed(tr, d, Take(tr.cfg, h, t), p', q')
    ensures (p == q || h.raised) && (!t.fault.SaveFailsLate? || GivesUpAtOnce(tr.cfg)) ==> p' == q' || Take(tr.cfg, h, t).raised
  {
    hide Walks, Placed, Iterate, Replayable;
    RestartPlaced(tr, d, h, p, q);
    if h.stopped || h.raised {
      p', q' := IteratePlaced(tr, d, Restart(h), q, q, t.fault);
    } else {
      p', q' := IteratePlaced(tr, d, h, p, q, t.fault);
    }
    if t.dies {
      RestartPlaced(tr, d, Iterate(tr.cfg, if h.stopped || h.raised then Restart(h) else h, t.fault), p', q');
      p' := q';
    }
  }

  lemma {:induction false} RunPlaced(tr: Track, d: Dict, h: Host, turns: seq<Turn>, q0: nat)
      returns (p: nat, q: nat)
    requires Walks(tr) && d.Valid() && Placed(tr, d, h, q0, q0)
    requires Replayable(tr) || NoLateSave(turns) || GivesUpAtOnce(tr.cfg)
    ensures Placed(tr, d, Run(tr.cfg, h, turns), p, q)
    ensures NoLateSave(turns) || GivesUpAtOnce(tr.cfg) ==> p == q || Run(tr.cfg, h, turns).raised
    decreases |turns|
  {
    hide Walks, Placed, Take, Replayable;
    if turns == [] {
      p, q := q0, q0;
    } else {
      var rest := turns[..|turns| - 1];
      p, q := RunPlaced(tr, d, h, rest, q0);
      assert turns[|turns| - 1] in turns;
      p, q := TakePlaced(tr, d, Run(tr.cfg, h, rest), p, q, turns[|turns| - 1]);
    }
  }

  lemma StartPlaced(tr: Track, d: Dict)
    requires Walks(tr) && d.Valid()
    ensures Placed(tr, d, Start(None, d, []), 0, 0)
  {
    assert Settled(tr, d, d, 0);
    SettledHeals(tr, d, d, 0);
  }

  /**
    The effect is exactly once: under any schedule of stage failures, partial persists, failed
    saves and restarts, whenever a run has stopped normally the store is the one every batch
    upserted once, in order, would leave.
  */
  lemma ExactlyOnceEffect(tr: Track, d: Dict, turns: seq<Turn>)
    requires Walks(tr) && d.Valid() && (Replayable(tr) || NoLateSave(turns) || GivesUpAtOnce(tr.cfg))
    ensures Run(tr.cfg, Start(None, d, []), turns).stopped ==>
      Run(tr.cfg, Start(None, d, []), turns).store == FoldTo(tr, d, |tr.refs|)
  {
    hide Walks, Run, Replayable;
    StartPlaced(tr, d);
    var p, q := RunPlaced(tr, d, Start(None, d, []), turns, 0);
  }
}
