/** The planners walk their units, in order, without skipping, and a run ends after as many turns as it must. */
module WorkerTheorems {
  import opened Wrappers
  import opened Store
  import opened Planner
  import opened Worker
  import opened WorkerWalk

  // ---------------------------------------------------------------------
  // Both planners are walks
  // ---------------------------------------------------------------------

  function SequenceNames(p: Planner): seq<Cursor>
    requires p.Sequence?
  {
    seq(|p.units|, i requires 0 <= i < |p.units| => Cursor(p.kind, p.encode(p.units[i])))
  }

  /** A sequence planner, once built, walks its units in the chosen order. */
  lemma SequenceWalks(cfg: Config)
    requires cfg.planner.Sequence? && !cfg.exhausted.Continue?
    requires Indexed(cfg.planner.encode, cfg.planner.units, cfg.planner.index, |cfg.planner.units|)
    ensures Walks(Track(cfg, cfg.planner.units, SequenceNames(cfg.planner), false))
  {
    var p := cfg.planner;
    var tr := Track(cfg, p.units, SequenceNames(p), false);
    forall c, q: nat | Denotes(tr, c, q)
      ensures Plans(tr, c, q)
    {
      assert q > 0 ==> p.index[p.encode(p.units[q - 1])] == q - 1;
    }
    forall q: nat | q < |tr.refs|
      ensures Advances(tr, q)
    {
      assert p.index[p.encode(p.units[q])] == q;
    }
  }

  /** The pages a resume planner is led through: each names the next, the last names none. */
  ghost predicate Pages(cfg: Config, names: seq<Cursor>) {
    && cfg.planner.Resume? && |names| > 0 && names[0] == Cursor(cfg.planner.kind, cfg.planner.start)
    && (forall i :: 0 <= i < |names| ==> names[i].kind == cfg.planner.kind)
    && (forall i :: 0 <= i < |names| ==> Leads(cfg, names, i))
  }

  ghost predicate Leads(cfg: Config, names: seq<Cursor>, i: nat)
    requires cfg.planner.Resume? && i < |names|
  {
    cfg.planner.advance(cfg.fetch(names[i].value), FetchPlan(names[i].value, names[i]))
      == if i + 1 < |names| then Onward(names[i + 1]) else Done
  }

  function Values(names: seq<Cursor>): seq<string> {
    seq(|names|, i requires 0 <= i < |names| => names[i].value)
  }

  lemma ResumeWalks(cfg: Config, names: seq<Cursor>)
    requires Pages(cfg, names) && !cfg.exhausted.Continue?
    ensures Walks(Track(cfg, Values(names), names, true))
  {
    var tr := Track(cfg, Values(names), names, true);
    forall q: nat | q < |tr.refs|
      ensures Advances(tr, q)
    {
      assert Leads(cfg, names, q);
    }
    forall c, q: nat | Denotes(tr, c, q)
      ensures Plans(tr, c, q)
    {
    }
  }

  // ---------------------------------------------------------------------
  // A stuttering walk
  // ---------------------------------------------------------------------

  /** The touches went through the units in order, each time to the next one or the same again; `n` are in whole. */
  ghost predicate Stutters(refs: seq<string>, touches: seq<Touch>, n: nat)
    requires n <= |refs|
    decreases |touches|
  {
    if touches == [] then n == 0
    else
      var rest, last := touches[..|touches| - 1], touches[|touches| - 1];
      if last.whole then n > 0 && last.ref == refs[n - 1] && (Stutters(refs, rest, n - 1) || Stutters(refs, rest, n))
      else Stutters(refs, rest, n) && ((n < |refs| && last.ref == refs[n]) || (n > 0 && last.ref == refs[n - 1]))
  }

  /** So every unit before the `n`th has been persisted whole, and nothing beyond the `n`th was touched. */
  lemma {:induction false} StuttersMeans(refs: seq<string>, touches: seq<Touch>, n: nat)
    requires n <= |refs| && Stutters(refs, touches, n)
    ensures forall i :: 0 <= i < n ==> Touch(refs[i], true) in touches
    ensures forall t :: t in touches ==> exists i :: 0 <= i <= n && i < |refs| && t.ref == refs[i]
    decreases |touches|
  {
    if touches != [] {
      var rest, last := touches[..|touches| - 1], touches[|touches| - 1];
      assert touches == rest + [last];
      if last.whole && Stutters(refs, rest, n - 1) {
        StuttersMeans(refs, rest, n - 1);
      } else {
        StuttersMeans(refs, rest, n);
      }
    }
  }

  /** Memory at `p`, disk at `q`, and `n` units in: the disk never runs ahead of the store, nor the store beyond the unit at hand. */
  ghost predicate Walked(tr: Track, h: Host, p: nat, q: nat, n: nat)
    requires |tr.refs| == |tr.names|
  {
    && Denotes(tr, h.memory, p) && Denotes(tr, h.durable, q)
    && p <= q <= n <= p + 1 && n <= |tr.refs| && Stutters(tr.refs, h.touches, n)
    && (h.stopped ==> p == q == End(tr))
  }

  lemma TouchWalked(tr: Track, h: Host, p: nat, q: nat, n: nat, batch: seq<Record>, k: nat)
    requires |tr.refs| == |tr.names| && Walked(tr, h, p, q, n) && p < |tr.refs|
    ensures var h' := Persisted(h, tr.refs[p], batch, k);
      Walked(tr, h', p, q, if h'.touches[|h'.touches| - 1].whole then p + 1 else n)
  {
    hide Denotes, PutAll;
    var h' := Persisted(h, tr.refs[p], batch, k);
    assert h'.touches[..|h'.touches| - 1] == h.touches;
  }

  lemma DeliverWalked(tr: Track, h: Host, p: nat, q: nat, n: nat, fault: Fault)
      returns (p': nat, q': nat, n': nat)
    requires Walks(tr) && Walked(tr, h, p, q, n) && p < |tr.refs| && !h.stopped
    ensures Walked(tr, Deliver(tr.cfg, h, FetchPlan(tr.refs[p], tr.names[p]), tr.Batch(p), fault), p', q', n')
  {
    assert Advances(tr, p);
    var b := tr.Batch(p);
    p', q', n' := p, q, n;
    var output := Output(tr.cfg.planner, tr.cfg.exhausted, b, FetchPlan(tr.refs[p], tr.names[p]));
    if !fault.OutputFails? {
      var k := if fault.PersistFails? then fault.records else |b|;
      TouchWalked(tr, h, p, q, n, b, k);
      var h' := Persisted(h, tr.refs[p], b, k);
      n' := if h'.touches[|h'.touches| - 1].whole then p + 1 else n;
      if !fault.PersistFails? && Usable(b) == |b| && !fault.SaveFails? {
        q' := tr.Next(p);
        p' := if fault.SaveFailsLate? then p else q';
      }
    }
    hide Denotes, Stutters, Output, PutAll, Walks;
  }

  lemma NothingLeft(tr: Track, c: Option<Cursor>, q: nat)
    requires Walks(tr) && Denotes(tr, c, q) && q >= |tr.refs|
    ensures q == |tr.refs| == End(tr)
  {
  }

  lemma TakeWalked(tr: Track, h: Host, p: nat, q: nat, n: nat, t: Turn)
      returns (p': nat, q': nat, n': nat)
    requires Walks(tr) && Walked(tr, h, p, q, n)
    ensures Walked(tr, Take(tr.cfg, h, t), p', q', n')
  {
    hide Stutters, Deliver, Denotes;
    var h0 := if h.stopped || h.raised then Restart(h) else h;
    p', q', n' := if h.stopped || h.raised then q else p, q, n;
    var h1 := h0.(iterations := h0.iterations + 1);
    assert Plans(tr, h1.memory, p');
    if p' >= |tr.refs| {
      NothingLeft(tr, h1.memory, p');
    }
    if p' < |tr.refs| && !t.fault.PlanFails? && !t.fault.PlanIdles? && !t.fault.FetchFails? {
      p', q', n' := DeliverWalked(tr, h1, p', q, n, t.fault);
    }
    if t.dies {
      p' := q';
    }
    hide Plan, Walks;
  }

  lemma {:induction false} RunWalked(tr: Track, h: Host, turns: seq<Turn>, q0: nat, n0: nat)
      returns (p: nat, q: nat, n: nat)
    requires Walks(tr) && Walked(tr, h, q0, q0, n0)
    ensures Walked(tr, Run(tr.cfg, h, turns), p, q, n)
    decreases |turns|
  {
    if turns == [] {
      p, q, n := q0, q0, n0;
    } else {
      hide Walks, Walked, Take;
      p, q, n := RunWalked(tr, h, turns[..|turns| - 1], q0, n0);
      p, q, n := TakeWalked(tr, Run(tr.cfg, h, turns[..|turns| - 1]), p, q, n, turns[|turns| - 1]);
    }
  }

  /**
    At every moment of every schedule the persisted units are a stuttering walk of the order; when
    the durable checkpoint stands at unit `q`, all units before it are in, and at most unit `q`
    besides.
  */
  lemma NeverSkips(tr: Track, d: Dict, turns: seq<Turn>)
      returns (q: nat, n: nat)
    requires Walks(tr)
    ensures var h := Run(tr.cfg, Start(None, d, []), turns);
      && Denotes(tr, h.durable, q) && q <= n <= q + 1 && n <= |tr.refs| && Stutters(tr.refs, h.touches, n)
  {
    hide Walks, Run, Stutters;
    var p;
    assert Stutters(tr.refs, [], 0) by { NothingTouched(tr.refs); }
    StartsAtFirst(tr, d);
    p, q, n := RunWalked(tr, Start(None, d, []), turns, 0, 0);
  }

  lemma NothingTouched(refs: seq<string>)
    ensures Stutters(refs, [], 0)
  {
  }

  lemma StartsAtFirst(tr: Track, d: Dict)
    requires Walks(tr)
    ensures |tr.refs| == |tr.names| && Denotes(tr, Start(None, d, []).durable, 0)
  {
  }

  // ---------------------------------------------------------------------
  // Reruns
  // ---------------------------------------------------------------------

  ghost predicate OnlyLast(tr: Track, before: seq<Touch>, after: seq<Touch>) {
    && before <= after
    && forall i :: |before| <= i < |after| ==> tr.sticky && |tr.refs| > 0 && after[i].ref == tr.refs[|tr.refs| - 1]
  }

  ghost predicate AtEnd(tr: Track, h: Host) {
    Denotes(tr, h.memory, End(tr)) && Denotes(tr, h.durable, End(tr))
  }

  lemma DeliverAtEnd(tr: Track, h: Host, fault: Fault)
    requires Walks(tr) && AtEnd(tr, h) && tr.sticky
    ensures var q := |tr.refs| - 1;
      var h' := Deliver(tr.cfg, h, FetchPlan(tr.refs[q], tr.names[q]), tr.Batch(q), fault);
      AtEnd(tr, h') && OnlyLast(tr, h.touches, h'.touches)
  {
    assert Advances(tr, |tr.refs| - 1);
    hide Denotes, PutAll, Usable, Walks, Output;
  }

  lemma TakeAtEnd(tr: Track, h: Host, t: Turn)
    requires Walks(tr) && AtEnd(tr, h)
    ensures AtEnd(tr, Take(tr.cfg, h, t)) && OnlyLast(tr, h.touches, Take(tr.cfg, h, t).touches)
  {
    hide Denotes, Deliver;
    var h1 := (if h.stopped || h.raised then Restart(h) else h);
    h1 := h1.(iterations := h1.iterations + 1);
    assert Plans(tr, h1.memory, End(tr));
    if tr.sticky {
      DeliverAtEnd(tr, h1, t.fault);
    }
    hide Plan, Walks;
  }

  lemma {:induction false} RunAtEnd(tr: Track, h: Host, turns: seq<Turn>)
    requires Walks(tr) && AtEnd(tr, h)
    ensures AtEnd(tr, Run(tr.cfg, h, turns)) && OnlyLast(tr, h.touches, Run(tr.cfg, h, turns).touches)
    decreases |turns|
  {
    if turns != [] {
      hide Walks, AtEnd, Take;
      RunAtEnd(tr, h, turns[..|turns| - 1]);
      TakeAtEnd(tr, Run(tr.cfg, h, turns[..|turns| - 1]), turns[|turns| - 1]);
    }
  }

  /**
    Restarted after a run that stopped normally, however often and whatever fails, a resume planner
    persists its last page again and nothing else, and a sequence planner persists nothing.
  */
  lemma RerunsRepeatOnlyLast(tr: Track, d: Dict, turns: seq<Turn>, more: seq<Turn>)
    requires Walks(tr) && Run(tr.cfg, Start(None, d, []), turns).stopped
    ensures OnlyLast(tr, Run(tr.cfg, Start(None, d, []), turns).touches, Run(tr.cfg, Start(None, d, []), turns + more).touches)
  {
    hide Walks, Run, Stutters, Denotes;
    var h := Run(tr.cfg, Start(None, d, []), turns);
    NothingTouched(tr.refs);
    StartsAtFirst(tr, d);
    var p, q, n := RunWalked(tr, Start(None, d, []), turns, 0, 0);
    RunAtEnd(tr, h, more);
    RunConcat(tr.cfg, Start(None, d, []), turns, more);
  }

  lemma {:induction false} RunConcat(cfg: Config, h: Host, a: seq<Turn>, b: seq<Turn>)
    ensures Run(cfg, h, a + b) == Run(cfg, Run(cfg, h, a), b)
  {
    hide Take;
    if b == [] {
      assert a + b == a;
    } else {
      RunConcat(cfg, h, a, b[..|b| - 1]);
      assert (a + b)[..|a + b| - 1] == a + b[..|b| - 1];
    }
  }

  // ---------------------------------------------------------------------
  // How long a run takes
  // ---------------------------------------------------------------------

  function Clean(turns: seq<Turn>): nat {
    if turns == [] then 0
    else Clean(turns[..|turns| - 1]) + if turns[|turns| - 1].fault.NoFault? then 1 else 0
  }

  predicate Survives(turns: seq<Turn>) {
    forall t :: t in turns ==> !t.dies
  }

  ghost predicate AllUsable(tr: Track) {
    forall u: nat :: u < |tr.refs| ==> Usable(tr.Batch(u)) == |tr.Batch(u)|
  }

  lemma TakeProgress(tr: Track, h: Host, p: nat, t: Turn)
    requires Walks(tr) && AllUsable(tr) && tr.cfg.failureLimit.None? && tr.cfg.exhausted.Stop?
    requires Denotes(tr, h.memory, p) && p < |tr.refs| && !h.stopped && !h.raised && !t.dies
    ensures var h' := Take(tr.cfg, h, t);
      && h'.iterations == h.iterations + 1 && !h'.raised
      && h'.completed == h.completed + (if t.fault.NoFault? then 1 else 0)
      && (h'.stopped <==> t.fault.NoFault? && p + 1 == |tr.refs|)
      && (!h'.stopped ==> Denotes(tr, h'.memory, if t.fault.NoFault? then p + 1 else p))
  {
    assert Plans(tr, h.memory, p) && Advances(tr, p) && Usable(tr.Batch(p)) == |tr.Batch(p)|;
    hide Denotes, PutAll, Plan, Output, Walks, AllUsable;
  }

  /**
    One run from position `p`, without a failure limit and without a kill: it stops at the turn
    that completes the last unit and not before, whatever fails in between.
  */
  lemma {:induction false} StopsExactlyWhenDone(tr: Track, h: Host, p: nat, turns: seq<Turn>)
    requires Walks(tr) && AllUsable(tr) && tr.cfg.failureLimit.None? && tr.cfg.exhausted.Stop?
    requires Denotes(tr, h.memory, p) && p < |tr.refs| && h == Restart(h)
    requires Survives(turns) && (turns != [] ==> Clean(turns[..|turns| - 1]) < |tr.refs| - p)
    ensures var h' := Run(tr.cfg, h, turns);
      && h'.iterations == |turns| && h'.completed == Clean(turns) && !h'.raised
      && (h'.stopped <==> Clean(turns) == |tr.refs| - p)
      && (!h'.stopped ==> Denotes(tr, h'.memory, p + Clean(turns)))
    decreases |turns|
  {
    hide Walks, AllUsable, Denotes, Take, Clean;
    if turns == [] {
      NothingClean();
    } else {
      var rest, last := turns[..|turns| - 1], turns[|turns| - 1];
      CleanLast(turns);
      SurvivesSplit(turns);
      if rest != [] {
        CleanGrows(rest);
      }
      StopsExactlyWhenDone(tr, h, p, rest);
      hide Survives;
      TakeProgress(tr, Run(tr.cfg, h, rest), p + Clean(rest), last);
    }
  }

  lemma NothingClean()
    ensures Clean([]) == 0
  {
  }

  lemma CleanLast(turns: seq<Turn>)
    requires turns != []
    ensures Clean(turns) == Clean(turns[..|turns| - 1]) + if turns[|turns| - 1].fault.NoFault? then 1 else 0
  {
  }

  lemma SurvivesSplit(turns: seq<Turn>)
    requires turns != [] && Survives(turns)
    ensures Survives(turns[..|turns| - 1]) && !turns[|turns| - 1].dies
  {
    assert turns[|turns| - 1] in turns;
  }

  lemma CleanGrows(turns: seq<Turn>)
    requires turns != []
    ensures Clean(turns[..|turns| - 1]) <= Clean(turns)
  {
  }

  /** So with `m` units left and `f` failing turns, the run stops after exactly `m + f` iterations. */
  lemma IterationsToTheEnd(tr: Track, h: Host, p: nat, turns: seq<Turn>)
    requires Walks(tr) && AllUsable(tr) && tr.cfg.failureLimit.None? && tr.cfg.exhausted.Stop?
    requires Denotes(tr, h.memory, p) && p < |tr.refs| && h == Restart(h)
    requires Survives(turns) && turns != [] && turns[|turns| - 1].fault.NoFault?
    requires Clean(turns) == |tr.refs| - p && forall t :: t in turns ==> !t.fault.PlanIdles?
    ensures var h' := Run(tr.cfg, h, turns);
      && h'.stopped && h'.completed == |tr.refs| - p && h'.iterations == |tr.refs| - p + h'.failures
      && !Run(tr.cfg, h, turns[..|turns| - 1]).stopped
  {
    hide Walks, AllUsable, Denotes, Run;
    var rest := turns[..|turns| - 1];
    StopsExactlyWhenDone(tr, h, p, turns);
    if rest != [] {
      CleanGrows(rest);
    }
    StopsExactlyWhenDone(tr, h, p, rest);
    FailuresCounted(tr, h, p, turns);
  }

  lemma {:induction false} FailuresCounted(tr: Track, h: Host, p: nat, turns: seq<Turn>)
    requires Walks(tr) && AllUsable(tr) && tr.cfg.failureLimit.None? && tr.cfg.exhausted.Stop?
    requires Denotes(tr, h.memory, p) && p < |tr.refs| && h == Restart(h)
    requires Survives(turns) && (turns != [] ==> Clean(turns[..|turns| - 1]) < |tr.refs| - p)
    requires forall t :: t in turns ==> !t.fault.PlanIdles?
    ensures Run(tr.cfg, h, turns).failures == |turns| - Clean(turns)
    decreases |turns|
  {
    if turns != [] {
      hide Walks, AllUsable, Denotes, Take;
      var rest, last := turns[..|turns| - 1], turns[|turns| - 1];
      assert last in turns;
      if rest != [] {
        CleanGrows(rest);
      }
      FailuresCounted(tr, h, p, rest);
      StopsExactlyWhenDone(tr, h, p, rest);
      TakeFails(tr, Run(tr.cfg, h, rest), p + Clean(rest), last);
    }
  }

  lemma TakeFails(tr: Track, h: Host, p: nat, t: Turn)
    requires Walks(tr) && AllUsable(tr) && Denotes(tr, h.memory, p) && p < |tr.refs|
    requires !h.stopped && !h.raised && !t.dies && !t.fault.PlanIdles?
    ensures Take(tr.cfg, h, t).failures == h.failures + if t.fault.NoFault? then 0 else 1
  {
    assert Plans(tr, h.memory, p) && Advances(tr, p) && Usable(tr.Batch(p)) == |tr.Batch(p)|;
    hide Denotes, PutAll, Plan, Output, Walks, AllUsable;
  }
}
