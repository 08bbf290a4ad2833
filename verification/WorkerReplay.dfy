/** Exactly which sources are safe from a save that fails after the checkpoint is durable. */
module WorkerReplay {
  import opened Wrappers
  import opened Store
  import opened Planner
  import opened Worker
  import opened WorkerWalk
  import opened WorkerTheorems

  const CLEAN := Turn(NoFault, false)

  /** A host between turns, memory and disk both at `p`. */
  ghost predicate Standing(tr: Track, h: Host, p: nat) {
    Denotes(tr, h.memory, p) && Denotes(tr, h.durable, p) && !h.stopped && !h.raised && h.consecutive == 0 && h.store.Valid()
  }

  lemma CleanTurn(tr: Track, h: Host, p: nat)
    requires Walks(tr) && AllUsable(tr) && Standing(tr, h, p) && p < |tr.refs|
    ensures var h' := Take(tr.cfg, h, CLEAN);
      && h'.store == PutAll(h.store, tr.Batch(p)) && h'.store.Valid()
      && (h'.stopped <==> p + 1 == |tr.refs| && tr.cfg.exhausted.Stop?)
      && (!h'.stopped ==> Standing(tr, h', tr.Next(p)))
  {
    assert Plans(tr, h.memory, p) && Advances(tr, p) && Usable(tr.Batch(p)) == |tr.Batch(p)|;
    assert tr.Batch(p)[..|tr.Batch(p)|] == tr.Batch(p);
    PutAllRows(h.store, tr.Batch(p));
    NotContinue(tr);
    hide Denotes, PutAll, Plan, Output, Walks, AllUsable, Ids;
  }

  lemma NotContinue(tr: Track)
    requires Walks(tr)
    ensures tr.cfg.exhausted.Stop? || tr.cfg.exhausted.Idle?
  {
  }

  /** Only a resume planner that idles when exhausted polls its last page for ever. */
  predicate Ends(tr: Track) {
    tr.cfg.exhausted.Stop? || !tr.sticky
  }

  /** Clean turns from the start bring the units before `u` in. */
  lemma {:induction false} CleanHead(tr: Track, d: Dict, u: nat) returns (turns: seq<Turn>)
    requires Walks(tr) && AllUsable(tr) && d.Valid() && u < |tr.refs|
    ensures Standing(tr, Run(tr.cfg, Start(None, d, []), turns), u)
    ensures Run(tr.cfg, Start(None, d, []), turns).store == FoldTo(tr, d, u)
    ensures |turns| == u && forall t :: t in turns ==> t == CLEAN
  {
    if u == 0 {
      turns := [];
    } else {
      hide Take, Walks, AllUsable, Standing;
      turns := CleanHead(tr, d, u - 1);
      CleanTurn(tr, Run(tr.cfg, Start(None, d, []), turns), u - 1);
      RunMore(tr.cfg, Start(None, d, []), turns, CLEAN);
      turns := turns + [CLEAN];
    }
  }

  lemma RunMore(cfg: Config, h: Host, turns: seq<Turn>, t: Turn)
    ensures Run(cfg, h, turns + [t]) == Take(cfg, Run(cfg, h, turns), t)
  {
    hide Take;
    assert (turns + [t])[..|turns|] == turns;
  }

  /** The failure-free run: one turn a unit, every batch upserted once, and a last plan if exhaustion only idles. */
  lemma FailureFreeRun(tr: Track, d: Dict) returns (turns: seq<Turn>)
    requires Walks(tr) && AllUsable(tr) && Ends(tr) && d.Valid() && |tr.refs| > 0
    ensures |turns| == |tr.refs| + (if tr.cfg.exhausted.Stop? then 0 else 1) && forall t :: t in turns ==> t == CLEAN
    ensures Run(tr.cfg, Start(None, d, []), turns).stopped
    ensures Run(tr.cfg, Start(None, d, []), turns).store == FoldTo(tr, d, |tr.refs|)
  {
    hide Take, Walks, AllUsable, Standing;
    var m := |tr.refs|;
    turns := CleanHead(tr, d, m - 1);
    CleanTurn(tr, Run(tr.cfg, Start(None, d, []), turns), m - 1);
    RunMore(tr.cfg, Start(None, d, []), turns, CLEAN);
    turns := turns + [CLEAN];
    if !tr.cfg.exhausted.Stop? {
      LastPlan(tr, Run(tr.cfg, Start(None, d, []), turns));
      RunMore(tr.cfg, Start(None, d, []), turns, CLEAN);
      turns := turns + [CLEAN];
    }
  }

  /** Clean turns to the end leave the record of an id that does not come again. */
  lemma {:induction false} CleanTail(tr: Track, h: Host, p: nat, k: string) returns (turns: seq<Turn>)
    requires Walks(tr) && AllUsable(tr) && Ends(tr) && Standing(tr, h, p) && p <= |tr.refs|
    requires k in h.store.rows && k !in LaterIds(tr, p)
    ensures Run(tr.cfg, h, turns).stopped
    ensures k in Run(tr.cfg, h, turns).store.rows && Run(tr.cfg, h, turns).store.rows[k] == h.store.rows[k]
    decreases |tr.refs| - p
  {
    hide Take, Walks, AllUsable, Standing, Dict.Valid;
    RunMore(tr.cfg, h, [], CLEAN);
    assert [] + [CLEAN] == [CLEAN] && Run(tr.cfg, h, []) == h;
    var h1 := Take(tr.cfg, h, CLEAN);
    if p == |tr.refs| {
      LastPlan(tr, h);
      turns := [CLEAN];
    } else {
      CleanTurn(tr, h, p);
      KeepsRecord(tr, h, p, k);
      if h1.stopped {
        turns := [CLEAN];
      } else {
        var rest := CleanTail(tr, h1, p + 1, k);
        RunConcat(tr.cfg, h, [CLEAN], rest);
        turns := [CLEAN] + rest;
      }
    }
  }

  lemma KeepsRecord(tr: Track, h: Host, p: nat, k: string)
    requires Standing(tr, h, p) && p < |tr.refs| && k in h.store.rows && k !in LaterIds(tr, p)
    ensures k in PutAll(h.store, tr.Batch(p)).rows && PutAll(h.store, tr.Batch(p)).rows[k] == h.store.rows[k]
    ensures k !in LaterIds(tr, p + 1)
  {
    PutAllRows(h.store, tr.Batch(p));
  }

  lemma LastPlan(tr: Track, h: Host)
    requires Walks(tr) && Standing(tr, h, |tr.refs|)
    ensures Take(tr.cfg, h, CLEAN).stopped && Take(tr.cfg, h, CLEAN).store == h.store
  {
    assert Plans(tr, h.memory, |tr.refs|);
    hide Plan, Walks, Denotes;
  }

  /** The failure-free store has the last record of the last unit with the id. */
  lemma {:induction false} FoldKeeps(tr: Track, d: Dict, u: nat, n: nat, k: string)
    requires d.Valid() && u < n <= |tr.refs| && k in Ids(tr.Batch(u)) && k !in LaterIds(tr, u + 1)
    ensures k in FoldTo(tr, d, n).rows && FoldTo(tr, d, n).rows[k] == LastOf(tr.Batch(u), k)
    decreases n
  {
    hide Ids, PutAll, LastOf, LaterIds, Dict.Valid;
    FoldValid(tr, d, n - 1);
    PutAllRows(FoldTo(tr, d, n - 1), tr.Batch(n - 1));
    if n > u + 1 {
      FoldKeeps(tr, d, u, n - 1, k);
      LaterContains(tr, u + 1, n - 1);
    }
  }

  lemma {:induction false} LaterContains(tr: Track, q: nat, u: nat)
    requires q <= u < |tr.refs|
    ensures Ids(tr.Batch(u)) <= LaterIds(tr, q)
    decreases u - q
  {
    hide Ids;
    if q < u {
      LaterContains(tr, q + 1, u);
    }
  }

  /** A late save: the unit is in and the disk says so, memory does not. */
  ghost predicate Behind(tr: Track, h: Host, u: nat) {
    Denotes(tr, h.memory, u) && Denotes(tr, h.durable, u + 1) && !h.stopped && !h.raised && h.store.Valid()
  }

  lemma LateSave(tr: Track, h: Host, u: nat)
    requires Walks(tr) && AllUsable(tr) && !GivesUpAtOnce(tr.cfg) && Standing(tr, h, u) && u < End(tr)
    ensures var h1 := Take(tr.cfg, h, Turn(SaveFailsLate, false));
      Behind(tr, h1, u) && h1.store == PutAll(h.store, tr.Batch(u))
  {
    assert Plans(tr, h.memory, u) && Advances(tr, u) && Usable(tr.Batch(u)) == |tr.Batch(u)|;
    assert tr.Batch(u)[..|tr.Batch(u)|] == tr.Batch(u);
    PutAllRows(h.store, tr.Batch(u));
    assert tr.Next(u) == u + 1;
    hide Denotes, PutAll, Plan, Output, Walks, AllUsable, Ids;
  }

  lemma PartThenKill(tr: Track, h: Host, u: nat, i: nat)
    requires Walks(tr) && AllUsable(tr) && Behind(tr, h, u) && u < End(tr) && i < |tr.Batch(u)|
    ensures var h2 := Take(tr.cfg, h, Turn(PersistFails(i + 1), true));
      Standing(tr, h2, u + 1) && h2.store == PutAll(h.store, tr.Batch(u)[..i + 1])
  {
    assert Plans(tr, h.memory, u) && Advances(tr, u) && Usable(tr.Batch(u)) == |tr.Batch(u)|;
    PutAllRows(h.store, tr.Batch(u)[..i + 1]);
    hide Denotes, PutAll, Plan, Output, Walks, AllUsable, Ids;
  }

  /** A record that is not the last for its id comes back, and nothing later overwrites it. */
  lemma LateSaveHarms(tr: Track, d: Dict, u: nat, i: nat) returns (turns: seq<Turn>)
    requires Walks(tr) && AllUsable(tr) && Ends(tr) && d.Valid() && !GivesUpAtOnce(tr.cfg)
    requires u < End(tr) && i < |tr.Batch(u)| && tr.Batch(u)[i].id.Some?
    requires tr.Batch(u)[i].id.value !in LaterIds(tr, u + 1)
    requires tr.Batch(u)[i] != LastOf(tr.Batch(u), tr.Batch(u)[i].id.value)
    ensures Run(tr.cfg, Start(None, d, []), turns).stopped
    ensures Run(tr.cfg, Start(None, d, []), turns).store != FoldTo(tr, d, |tr.refs|)
  {
    hide Take, Walks, AllUsable, Standing, Behind, LaterIds, Run, GivesUpAtOnce;
    var start, cfg := Start(None, d, []), tr.cfg;
    var late, part := Turn(SaveFailsLate, false), Turn(PersistFails(i + 1), true);
    turns := CleanHead(tr, d, u);
    var h := Run(cfg, start, turns);
    LateSave(tr, h, u);
    PartThenKill(tr, Take(cfg, h, late), u, i);
    RunMore(cfg, start, turns, late);
    RunMore(cfg, start, turns + [late], part);
    turns := turns + [late] + [part];
    var back := Run(cfg, start, turns);
    var b, k := tr.Batch(u), tr.Batch(u)[i].id.value;
    LastOfPart(b, i);
    FoldValid(tr, d, u);
    PutAllRows(h.store, b);
    PutAllRows(PutAll(h.store, b), b[..i + 1]);
    assert back.store.rows[k] == b[i];
    var tail := CleanTail(tr, back, u + 1, k);
    RunConcat(cfg, start, turns, tail);
    turns := turns + tail;
    FoldKeeps(tr, d, u, |tr.refs|, k);
  }

  lemma LastOfPart(batch: seq<Record>, i: nat)
    requires i < |batch| && batch[i].id.Some?
    ensures batch[i].id.value in Ids(batch[..i + 1]) && LastOf(batch[..i + 1], batch[i].id.value) == batch[i]
    ensures batch[i].id.value in Ids(batch)
  {
    assert batch[..i + 1][i] == batch[i];
  }

  /** Whatever fails, however often, a run that stops normally leaves the failure-free store. */
  ghost predicate AlwaysExact(tr: Track, d: Dict) {
    forall turns :: Run(tr.cfg, Start(None, d, []), turns).stopped ==>
      Run(tr.cfg, Start(None, d, []), turns).store == FoldTo(tr, d, |tr.refs|)
  }

  /** A resume planner that idles when exhausted has no normal stop. */
  lemma TakeNeverStops(tr: Track, h: Host, p: nat, q: nat, n: nat, t: Turn)
    requires Walks(tr) && !Ends(tr) && Walked(tr, h, p, q, n) && !h.stopped
    ensures !Take(tr.cfg, h, t).stopped
  {
    assert Plans(tr, h.memory, p) && Plans(tr, h.durable, q) && p < |tr.refs| && q < |tr.refs|;
    assert Advances(tr, p) && Advances(tr, q);
    hide Denotes, Stutters, PutAll, Plan, Output, Walks;
  }

  lemma {:induction false} NeverStops(tr: Track, d: Dict, turns: seq<Turn>)
    requires Walks(tr) && !Ends(tr)
    ensures !Run(tr.cfg, Start(None, d, []), turns).stopped
  {
    if turns != [] {
      hide Walks, Take, Stutters, Denotes, Ends;
      var rest := turns[..|turns| - 1];
      NeverStops(tr, d, rest);
      NothingTouched(tr.refs);
      StartsAtFirst(tr, d);
      var p, q, n := RunWalked(tr, Start(None, d, []), rest, 0, 0);
      TakeNeverStops(tr, Run(tr.cfg, Start(None, d, []), rest), p, q, n, turns[|turns| - 1]);
    }
  }

  /** A unit with a record that has no id is never completed, so the walk does not get past it. */
  lemma BlockedDeliver(tr: Track, h: Host, p: nat, q: nat, u: nat, fault: Fault) returns (p': nat, q': nat)
    requires Walks(tr) && u < |tr.refs| && Usable(tr.Batch(u)) < |tr.Batch(u)|
    requires Denotes(tr, h.memory, p) && Denotes(tr, h.durable, q) && p <= u && q <= u && !h.stopped
    ensures var h' := Deliver(tr.cfg, h, FetchPlan(tr.refs[p], tr.names[p]), tr.Batch(p), fault);
      Denotes(tr, h'.memory, p') && Denotes(tr, h'.durable, q') && p' <= u && q' <= u && !h'.stopped
  {
    assert Advances(tr, p);
    p', q' := p, q;
    if p < u && !fault.OutputFails? && !fault.PersistFails? && Usable(tr.Batch(p)) == |tr.Batch(p)| && !fault.SaveFails? {
      q' := p + 1;
      p' := if fault.SaveFailsLate? then p else p + 1;
    }
    hide Denotes, PutAll, Output, Walks, Usable;
  }

  lemma BlockedTake(tr: Track, h: Host, p: nat, q: nat, u: nat, t: Turn) returns (p': nat, q': nat)
    requires Walks(tr) && u < |tr.refs| && Usable(tr.Batch(u)) < |tr.Batch(u)|
    requires Denotes(tr, h.memory, p) && Denotes(tr, h.durable, q) && p <= u && q <= u && !h.stopped
    ensures var h' := Take(tr.cfg, h, t);
      Denotes(tr, h'.memory, p') && Denotes(tr, h'.durable, q') && p' <= u && q' <= u && !h'.stopped
  {
    hide Denotes, Deliver, Usable;
    var h0 := if h.raised then Restart(h) else h;
    p', q' := if h.raised then q else p, q;
    var h1 := h0.(iterations := h0.iterations + 1);
    assert Plans(tr, h1.memory, p');
    if !t.fault.PlanFails? && !t.fault.PlanIdles? && !t.fault.FetchFails? {
      p', q' := BlockedDeliver(tr, h1, p', q', u, t.fault);
    }
    if t.dies {
      p' := q';
    }
    hide Plan, Walks;
  }

  lemma {:induction false} BlockedRun(tr: Track, d: Dict, u: nat, turns: seq<Turn>) returns (p: nat, q: nat)
    requires Walks(tr) && u < |tr.refs| && Usable(tr.Batch(u)) < |tr.Batch(u)|
    ensures var h := Run(tr.cfg, Start(None, d, []), turns);
      Denotes(tr, h.memory, p) && Denotes(tr, h.durable, q) && p <= u && q <= u && !h.stopped
    decreases |turns|
  {
    if turns == [] {
      StartsAtFirst(tr, d);
      p, q := 0, 0;
    } else {
      hide Walks, Take, Denotes, Usable;
      p, q := BlockedRun(tr, d, u, turns[..|turns| - 1]);
      p, q := BlockedTake(tr, Run(tr.cfg, Start(None, d, []), turns[..|turns| - 1]), p, q, u, turns[|turns| - 1]);
    }
  }

  /** A run over a source in which some record has no id has no normal end either. */
  lemma UnusableNeverStops(tr: Track, d: Dict, turns: seq<Turn>)
    requires Walks(tr) && !AllUsable(tr)
    ensures !Run(tr.cfg, Start(None, d, []), turns).stopped
  {
    hide Walks, Run, Denotes;
    var u: nat :| u < |tr.refs| && Usable(tr.Batch(u)) != |tr.Batch(u)|;
    var p, q := BlockedRun(tr, d, u, turns);
  }

  /**
    With saves that may fail after the checkpoint is durable, the effect is exactly once for every
    schedule if and only if every unit may be upserted again in part, or the first failure ends
    the run, or the run has no normal end: a resume planner polls for ever, or a record has no id.
  */
  lemma ExactlyOnceIff(tr: Track, d: Dict)
    requires Walks(tr) && d.Valid()
    ensures AlwaysExact(tr, d) <==> Replayable(tr) || GivesUpAtOnce(tr.cfg) || !Ends(tr) || !AllUsable(tr)
  {
    hide Walks, AllUsable, Run, GivesUpAtOnce, Ends;
    if !Ends(tr) {
      forall turns
        ensures !Run(tr.cfg, Start(None, d, []), turns).stopped
      {
        NeverStops(tr, d, turns);
      }
    } else if !AllUsable(tr) {
      forall turns
        ensures !Run(tr.cfg, Start(None, d, []), turns).stopped
      {
        UnusableNeverStops(tr, d, turns);
      }
    } else if Replayable(tr) || GivesUpAtOnce(tr.cfg) {
      forall turns
        ensures Run(tr.cfg, Start(None, d, []), turns).stopped ==>
          Run(tr.cfg, Start(None, d, []), turns).store == FoldTo(tr, d, |tr.refs|)
      {
        ExactlyOnceEffect(tr, d, turns);
      }
    } else {
      var u: nat :| u < End(tr) && !ReplayableUnit(tr, u);
      var i :| 0 <= i < |tr.Batch(u)| && tr.Batch(u)[i].id.Some?
        && tr.Batch(u)[i].id.value !in LaterIds(tr, u + 1)
        && tr.Batch(u)[i] != LastOf(tr.Batch(u), tr.Batch(u)[i].id.value);
      var turns := LateSaveHarms(tr, d, u, i);
    }
  }
}
