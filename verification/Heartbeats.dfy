/** Heartbeats carry no authority: every run goes the same way without them. */
module Heartbeats {
  import opened Wrappers
  import Gate
  import opened Launch

  // ---------------------------------------------------------------------
  // Core keys
  // ---------------------------------------------------------------------

  /** The filter of the merge: whatever a heartbeat carries, it writes no core key. */
  lemma MergeWritesNoCore(s: Dict, heartbeat: Dict)
    ensures MergeHeartbeat(s, heartbeat).Some? ==> SameCore(MergeHeartbeat(s, heartbeat).value, s)
  {
    hide Accepts;
  }

  lemma PutSame(d: Dict, e: Dict, k: Key, v: Value)
    requires SameCore(d, e)
    ensures SameCore(d[k := v], e[k := v])
  {
  }

  /** The file's core keys settle those of the loaded state. */
  lemma BackfillSame(schema: int, unit: string, d: Dict, e: Dict)
    requires SameCore(d, e)
    ensures SameCore(Backfilled(schema, unit, d), Backfilled(schema, unit, e))
  {
  }

  lemma BackfillTwice(schema: int, unit: string, d: Dict)
    ensures SameCore(Backfilled(schema, unit, Backfilled(schema, unit, d)), Backfilled(schema, unit, d))
  {
  }

  lemma SameReads(d: Dict, e: Dict)
    requires SameCore(d, e)
    ensures Get(d, Desired) == Get(e, Desired) && Get(d, Actual) == Get(e, Actual) && Get(d, Pid) == Get(e, Pid)
    ensures GenerationOf(d) == GenerationOf(e) && HonorDesired(d) == HonorDesired(e)
  {
    hide IntOf;
  }

  lemma BlockedSame(d: Dict, e: Dict)
    requires SameCore(d, e)
    ensures SameCore(Blocked(d), Blocked(e)) && SameCore(Refused(d), Refused(e))
  {
    hide SameCore;
    PutSame(d, e, Actual, RUNNING);
    PutSame(d[Actual := RUNNING], e[Actual := RUNNING], DegradedReason, REASON);
    PutSame(d[Actual := RUNNING][DegradedReason := REASON], e[Actual := RUNNING][DegradedReason := REASON], VerificationRequired, Flag(true));
    PutSame(d, e, Actual, UNKNOWN);
    PutSame(d[Actual := UNKNOWN], e[Actual := UNKNOWN], DegradedReason, REASON);
    PutSame(d[Actual := UNKNOWN][DegradedReason := REASON], e[Actual := UNKNOWN][DegradedReason := REASON], VerificationRequired, Flag(true));
  }

  lemma LaunchedSame(d: Dict, e: Dict, generation: int, token: nat, pid: int, alive: bool, owned: bool)
    requires SameCore(d, e)
    ensures SameCore(Launched(d, generation, token, pid, alive, owned), Launched(e, generation, token, pid, alive, owned))
  {
  }

  // ---------------------------------------------------------------------
  // Runs that differ in other keys only
  // ---------------------------------------------------------------------

  /** A policy that looks at nothing but core keys, as the default one does. */
  ghost predicate CoreOnly(policy: Dict -> bool) {
    forall d, e :: SameCore(d, e) ==> policy(d) == policy(e)
  }

  lemma HonorsCoreOnly()
    ensures CoreOnly(HonorDesired)
  {
    forall d, e | SameCore(d, e)
      ensures HonorDesired(d) == HonorDesired(e)
    {
      SameReads(d, e);
    }
  }

  /** The two worlds agree on everything but the other keys of the state on disk and of the one loaded. */
  ghost predicate Alike(w: World, v: World) {
    && v == w.(disk := v.disk, loaded := v.loaded)
    && SameCore(w.State(), v.State()) && SameCore(w.loaded, v.loaded)
  }

  lemma HeartbeatAlike(policy: Dict -> bool, w: World, v: World, payload: Dict)
    requires Alike(w, v)
    ensures Alike(Apply(policy, w, Heartbeat(payload)), v)
  {
    var merged := MergeHeartbeat(w.State(), payload);
    if merged.Some? {
      MergeWritesNoCore(w.State(), payload);
      hide MergeHeartbeat;
      BackfillSame(w.schema, w.unit, merged.value, w.State());
      BackfillTwice(w.schema, w.unit, w.disk);
      hide Backfilled;
    }
  }

  lemma SavedAlike(w: World, v: World, d: Dict, e: Dict)
    requires Alike(w, v) && SameCore(d, e)
    ensures Alike(w.(disk := d), v.(disk := e))
  {
    BackfillSame(w.schema, w.unit, d, e);
    hide Backfilled, SameCore;
  }

  lemma FinishAlike(w: World, v: World, d: Dict, e: Dict, act: Act, pid: Option<int>, alive: bool, degraded: bool)
    requires Alike(w, v) && SameCore(d, e)
    ensures Alike(Finish(w, d, act, pid, alive, degraded), Finish(v, e, act, pid, alive, degraded))
  {
    SavedAlike(w, v, d, e);
    SameReads(d, e);
    hide SameCore, Backfilled, Get, GenerationOf;
  }

  lemma SetDesiredAlike(policy: Dict -> bool, w: World, v: World, desired: string)
    requires Alike(w, v)
    ensures Alike(Apply(policy, w, SetDesired(desired)), Apply(policy, v, SetDesired(desired)))
  {
    hide SameCore, World.State;
    PutSame(w.State(), v.State(), Desired, Text(desired));
    SavedAlike(w, v, w.State()[Desired := Text(desired)], v.State()[Desired := Text(desired)]);
    hide Alike;
  }

  lemma BeginLoads(policy: Dict -> bool, w: World, v: World)
    requires Alike(w, v) && CoreOnly(policy)
    ensures policy(w.State()) == policy(v.State()) && SameCore(BeginPass(policy, w).loaded, BeginPass(policy, v).loaded)
  {
    assert policy(w.State()) == policy(v.State());
    PutSame(w.State(), v.State(), Actual, STOPPED);
    BlockedSame(w.State(), v.State());
    hide Blocked, CoreOnly, SameCore, World.State;
  }

  lemma BeginAlike(policy: Dict -> bool, w: World, v: World)
    requires Alike(w, v) && CoreOnly(policy)
    ensures Alike(BeginPass(policy, w), BeginPass(policy, v))
  {
    BeginLoads(policy, w, v);
    hide Blocked, CoreOnly, SameCore, World.State;
    LoadedAlike(w, BeginPass(policy, w), v, BeginPass(policy, v));
  }

  lemma LoadedAlike(w: World, w': World, v: World, v': World)
    requires Alike(w, v) && w'.disk == w.disk && v'.disk == v.disk && w'.schema == w.schema && w'.unit == w.unit
    requires v' == w'.(disk := v.disk, loaded := v'.loaded) && SameCore(w'.loaded, v'.loaded)
    ensures Alike(w', v')
  {
    hide SameCore, Backfilled;
  }

  lemma StopAlike(w: World, v: World)
    requires Alike(w, v)
    ensures Stop(v).1 == Stop(w).1 && Stop(v).0 == Stop(w).0.(disk := v.disk, loaded := v.loaded)
    ensures Stop(w).0.disk == w.disk && Stop(w).0.loaded == w.loaded && Stop(w).0.schema == w.schema && Stop(w).0.unit == w.unit
    ensures Alike(Stop(w).0, Stop(v).0)
  {
    hide SameCore, Backfilled;
  }

  lemma StoppingAlike(w: World, v: World, bytes: nat, pid: int)
    requires Alike(w, v) && w.phase.Stopping?
    ensures Alike(TickStep(w, bytes, pid), TickStep(v, bytes, pid))
  {
    StopAlike(w, v);
    PutSame(w.loaded, v.loaded, StopNoted, Flag(true));
    hide Stop, SameCore, World.State;
    LoadedAlike(w, TickStep(w, bytes, pid), v, TickStep(v, bytes, pid));
  }

  lemma SavingAlike(w: World, v: World, bytes: nat, pid: int)
    requires Alike(w, v) && (w.phase.SavingBlocked? || w.phase.SavingStopped? || w.phase.SavingRefused?)
    ensures Alike(TickStep(w, bytes, pid), TickStep(v, bytes, pid))
  {
    SameReads(w.loaded, v.loaded);
    BlockedSame(w.loaded, v.loaded);
    hide SameCore, Refused, Finish, World.State;
    match w.phase
    case SavingBlocked => FinishAlike(w, v, w.loaded, v.loaded, Noop, IntOf(Get(w.loaded, Pid)), true, true);
    case SavingStopped => FinishAlike(w, v, w.loaded, v.loaded, Noop, None, false, false);
    case SavingRefused => FinishAlike(w, v, Refused(w.loaded), Refused(v.loaded), Noop, None, false, true);
  }

  lemma ReportedAlike(w: World, v: World, k: nat, pid: int, alive: bool, owned: bool)
    requires Alike(w, v)
    ensures Alike(Reported(w, k, pid, alive, owned), Reported(v, k, pid, alive, owned))
  {
    SameReads(w.loaded, v.loaded);
    var g := NextGeneration(w);
    LaunchedSame(w.loaded, v.loaded, g, k, pid, alive, owned);
    LostAlike(w, v);
    assert NextGeneration(v) == g;
    hide SameCore, Launched, Finish, World.State, GenerationOf, Alike, Get;
    var d, e := Launched(w.loaded, g, k, pid, alive, owned), Launched(v.loaded, g, k, pid, alive, owned);
    assert Reported(w, k, pid, alive, owned) == Finish(w.(lost := false), d, Spawned, Some(pid), alive, !alive);
    assert Reported(v, k, pid, alive, owned) == Finish(v.(lost := false), e, Spawned, Some(pid), alive, !alive);
    hide Reported;
    FinishAlike(w.(lost := false), v.(lost := false), d, e, Spawned, Some(pid), alive, !alive);
  }

  lemma SavingLaunchAlike(w: World, v: World, bytes: nat, pid: int)
    requires Alike(w, v) && w.phase.SavingLaunch?
    ensures Alike(TickStep(w, bytes, pid), TickStep(v, bytes, pid))
  {
    LostAlike(w, v);
    ReportedAlike(w, v, w.phase.token, w.phase.pid, w.phase.alive, w.phase.owned);
    hide Reported, Alike;
  }

  lemma LostAlike(w: World, v: World)
    requires Alike(w, v)
    ensures Alike(w.(lost := false), v.(lost := false)) && v.phase == w.phase
  {
    hide SameCore, World.State;
    LoadedAlike(w, w.(lost := false), v, v.(lost := false));
  }

  // The steps of a launch before its report look only at the generation, and write no state.

  lemma FencingAlike(w: World, v: World, bytes: nat, pid: int)
    requires Alike(w, v) && w.phase.Fencing? && TickEnabled(w, bytes)
    ensures Alike(TickStep(w, bytes, pid), TickStep(v, bytes, pid))
  {
    hide SameCore, World.State, GenerationOf, Finish, Stop, Launched, Refused;
    LoadedAlike(w, TickStep(w, bytes, pid), v, TickStep(v, bytes, pid));
  }

  lemma WritingAlike(w: World, v: World, bytes: nat, pid: int)
    requires Alike(w, v) && (w.phase.Writing? || w.phase.Starting?) && TickEnabled(w, bytes)
    ensures Alike(TickStep(w, bytes, pid), TickStep(v, bytes, pid))
  {
    SameReads(w.loaded, v.loaded);
    hide SameCore, World.State, GenerationOf, Finish, Stop, Launched, Refused;
    LoadedAlike(w, TickStep(w, bytes, pid), v, TickStep(v, bytes, pid));
  }

  lemma PersistingAlike(w: World, v: World, bytes: nat, pid: int)
    requires Alike(w, v) && (w.phase.Persisting? || w.phase.Owning?) && TickEnabled(w, bytes)
    ensures Alike(TickStep(w, bytes, pid), TickStep(v, bytes, pid))
  {
    SameReads(w.loaded, v.loaded);
    hide SameCore, World.State, GenerationOf, Finish, Stop, Launched, Refused;
    LoadedAlike(w, TickStep(w, bytes, pid), v, TickStep(v, bytes, pid));
  }

  lemma CloseAlike(w: World, v: World, k: Option<nat>, ph: Phase)
    requires Alike(w, v)
    ensures Alike(CloseChannel(w, k).(phase := ph), CloseChannel(v, k).(phase := ph))
  {
    hide SameCore, World.State;
    LoadedAlike(w, CloseChannel(w, k).(phase := ph), v, CloseChannel(v, k).(phase := ph));
  }

  lemma AwaitingAlike(w: World, v: World, bytes: nat, pid: int)
    requires Alike(w, v) && w.phase.Awaiting? && TickEnabled(w, bytes)
    ensures Alike(TickStep(w, bytes, pid), TickStep(v, bytes, pid))
  {
    hide SameCore, World.State, GenerationOf, Finish, Stop;
    var k := w.phase.token;
    CloseAlike(w, v, Some(k), SavingLaunch(k, w.children[k].pid, false, false));
    LoadedAlike(w, w.(phase := Persisting(k)), v, v.(phase := Persisting(k)));
    hide CloseChannel;
  }

  lemma ProbingAlike(w: World, v: World, bytes: nat, pid: int)
    requires Alike(w, v) && w.phase.Probing? && TickEnabled(w, bytes)
    ensures Alike(TickStep(w, bytes, pid), TickStep(v, bytes, pid))
  {
    hide SameCore, World.State, GenerationOf, Finish, Stop, Launched, Refused;
    LoadedAlike(w, TickStep(w, bytes, pid), v, TickStep(v, bytes, pid));
  }

  lemma ChildrenAlike(w: World, v: World, children: map<nat, Child>, ph: Phase)
    requires Alike(w, v)
    ensures Alike(w.(children := children, phase := ph), v.(children := children, phase := ph))
  {
    hide SameCore, World.State;
    LoadedAlike(w, w.(children := children, phase := ph), v, v.(children := children, phase := ph));
  }

  lemma AckAlike(w: World, v: World, bytes: nat, pid: int)
    requires Alike(w, v) && w.phase.Acking? && TickEnabled(w, bytes)
    ensures Alike(TickStep(w, bytes, pid), TickStep(v, bytes, pid))
  {
    hide SameCore, World.State, GenerationOf, Finish, Stop;
    var k, sent := w.phase.token, w.phase.sent;
    var children := w.children[k := w.children[k].(inbox := w.children[k].inbox + Gate.ACK[sent..sent + bytes])];
    ChildrenAlike(w, v, children, Acking(k, sent + bytes));
    ChildrenAlike(w, v, children, w.phase);
    assert w.(children := children) == w.(children := children, phase := w.phase);
    assert v.(children := children) == v.(children := children, phase := w.phase);
    hide CloseChannel, Alike;
    CloseAlike(w.(children := children), v.(children := children), Some(k), Probing(k));
  }

  lemma TickAlike(w: World, v: World, bytes: nat, pid: int)
    requires Alike(w, v) && TickEnabled(w, bytes)
    ensures TickEnabled(v, bytes) && Alike(TickStep(w, bytes, pid), TickStep(v, bytes, pid))
  {
    match w.phase {
      case Stopping => StoppingAlike(w, v, bytes, pid);
      case SavingBlocked => SavingAlike(w, v, bytes, pid);
      case SavingStopped => SavingAlike(w, v, bytes, pid);
      case SavingRefused => SavingAlike(w, v, bytes, pid);
      case SavingLaunch(_, _, _, _) => SavingLaunchAlike(w, v, bytes, pid);
      case Fencing(_) => FencingAlike(w, v, bytes, pid);
      case Writing(_) => WritingAlike(w, v, bytes, pid);
      case Starting(_) => WritingAlike(w, v, bytes, pid);
      case Awaiting(_) => AwaitingAlike(w, v, bytes, pid);
      case Persisting(_) => PersistingAlike(w, v, bytes, pid);
      case Owning(_) => PersistingAlike(w, v, bytes, pid);
      case Acking(_, _) => AckAlike(w, v, bytes, pid);
      case Probing(_) => ProbingAlike(w, v, bytes, pid);
    }
    hide TickStep, SameCore, World.State;
  }

  lemma AbandonAlike(w: World, v: World)
    requires Alike(w, v)
    ensures Alike(Abandon(w), Abandon(v))
  {
    hide SameCore, World.State;
    LoadedAlike(w, Abandon(w), v, Abandon(v));
  }

  lemma ChildActionAlike(policy: Dict -> bool, w: World, v: World, a: Action)
    requires Alike(w, v) && (a.ChildReady? || a.ChildRead? || a.ChildEof? || a.ChildEnd?)
    ensures Alike(Apply(policy, w, a), Apply(policy, v, a))
  {
    hide SameCore, World.State, ReadChild;
    LoadedAlike(w, Apply(policy, w, a), v, Apply(policy, v, a));
  }

  lemma ClearAlike(policy: Dict -> bool, w: World, v: World, a: Action)
    requires Alike(w, v) && a.Clear?
    ensures Alike(Apply(policy, w, a), Apply(policy, v, a))
  {
    hide SameCore, World.State;
    LoadedAlike(w, Apply(policy, w, a), v, Apply(policy, v, a));
  }

  lemma FailAlike(policy: Dict -> bool, w: World, v: World, a: Action)
    requires Alike(w, v) && (a.Fail? || a.Die?)
    ensures Alike(Apply(policy, w, a), Apply(policy, v, a))
  {
    AbandonAlike(w, v);
    hide Abandon, SameCore, World.State;
  }

  /** Apart from a heartbeat, every action does the same to both. */
  lemma ActionAlike(policy: Dict -> bool, w: World, v: World, a: Action)
    requires Alike(w, v) && CoreOnly(policy) && !a.Heartbeat?
    ensures Alike(Apply(policy, w, a), Apply(policy, v, a))
  {
    hide CoreOnly, SameCore, World.State;
    match a
    case Tick(bytes, pid) =>
      if TickEnabled(w, bytes) {
        TickAlike(w, v, bytes, pid);
      }
      hide TickStep;
    case SetDesired(d) =>
      SetDesiredAlike(policy, w, v, d);
      hide Apply;
    case DirectStop => StopAlike(w, v);
    case Begin =>
      if w.phase.Idle? {
        BeginAlike(policy, w, v);
      }
      hide BeginPass;
    case Fail => FailAlike(policy, w, v, a);
    case Die => FailAlike(policy, w, v, a);
    case Clear(_, _, _) => ClearAlike(policy, w, v, a);
    case _ =>
      ChildActionAlike(policy, w, v, a);
      hide Apply;
  }

  // ---------------------------------------------------------------------
  // Erasure
  // ---------------------------------------------------------------------

  function WithoutHeartbeats(actions: seq<Action>): seq<Action> {
    if actions == [] then []
    else
      var last := actions[|actions| - 1];
      WithoutHeartbeats(actions[..|actions| - 1]) + if last.Heartbeat? then [] else [last]
  }

  /**
    Deleting every heartbeat from a run, for any policy over core keys, leaves the core keys of the
    state, the tombstone, every stop and launch, and all outcomes as they were, at every step.
  */
  lemma {:induction false} HeartbeatsErased(policy: Dict -> bool, w: World, actions: seq<Action>)
    requires CoreOnly(policy)
    ensures Alike(Run(policy, w, actions), Run(policy, w, WithoutHeartbeats(actions)))
  {
    hide CoreOnly, Apply;
    if actions == [] {
      hide World.State;
    } else {
      var rest, a := actions[..|actions| - 1], actions[|actions| - 1];
      HeartbeatsErased(policy, w, rest);
      hide Alike;
      var full, bare := Run(policy, w, rest), Run(policy, w, WithoutHeartbeats(rest));
      if a.Heartbeat? {
        HeartbeatAlike(policy, full, bare, a.payload);
        assert WithoutHeartbeats(actions) == WithoutHeartbeats(rest);
      } else {
        ActionAlike(policy, full, bare, a);
        assert WithoutHeartbeats(actions)[..|WithoutHeartbeats(actions)| - 1] == WithoutHeartbeats(rest);
      }
    }
  }

  /** In particular the default policy decides alike, and the same things were reported and started. */
  lemma SameDecisions(w: World, actions: seq<Action>)
    ensures var full, bare := Run(HonorDesired, w, actions), Run(HonorDesired, w, WithoutHeartbeats(actions));
      && SameCore(full.State(), bare.State()) && full.outcomes == bare.outcomes
      && full.children == bare.children && full.pidFile == bare.pidFile && full.handles == bare.handles
      && full.phase == bare.phase && HonorDesired(full.State()) == HonorDesired(bare.State())
      && (HonorDesired(full.State()) <==> Get(bare.State(), Desired) in {Text("enabled"), Text("paused")})
  {
    hide Apply, Run, WithoutHeartbeats, World.State;
    HonorsCoreOnly();
    HeartbeatsErased(HonorDesired, w, actions);
    SameReads(Run(HonorDesired, w, actions).State(), Run(HonorDesired, w, WithoutHeartbeats(actions)).State());
  }
}
