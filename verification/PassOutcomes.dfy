/** What a pass decides, reports and saves, case by case, whatever is done around it and wherever it breaks off. */
module PassOutcomes {
  import opened Wrappers
  import Gate
  import opened Launch
  import opened LaunchTheorems
  import opened LaunchSafety
  import opened Pass

  // ---------------------------------------------------------------------
  // What is decided
  // ---------------------------------------------------------------------

  /**
    Under the default policy the label decides: without pid.json a launch is fenced exactly for
    "enabled" and "paused", and over pid.json a stop is requested exactly for "disabled".
  */
  lemma LabelDecides(w: World, desired: string)
    requires w.phase.Idle? && desired in {"enabled", "disabled", "paused"}
    ensures var begun := Apply(HonorDesired, Apply(HonorDesired, w, SetDesired(desired)), Begin);
      if w.pidFile.Absent?
      then begun.phase == if desired in {"enabled", "paused"} then Fencing(w.nextToken) else SavingStopped
      else begun.phase == if desired == "disabled" then Stopping else SavingBlocked
  {
    hide GenerationOf;
    var s := w.State()[Desired := Text(desired)];
    assert Backfilled(w.schema, w.unit, s)[Desired] == Text(desired);
  }

  // ---------------------------------------------------------------------
  // What is saved
  // ---------------------------------------------------------------------

  /** The two states read alike but for these keys. */
  ghost predicate AlikeBut(s: Dict, d: Dict, keys: set<Key>) {
    forall k :: k !in keys ==> Get(d, k) == Get(s, k)
  }

  /** Saved over a tombstone; `noted` says that a TERM was sent. */
  ghost predicate SavedBlocked(s: Dict, d: Dict, noted: bool) {
    && Get(d, Actual) == Text("running")
    && Get(d, DegradedReason) == Text("process_tombstone_operator_verification_required")
    && Get(d, VerificationRequired) == Flag(true)
    && Get(d, StopNoted) == (if noted then Flag(true) else Get(s, StopNoted))
    && AlikeBut(s, d, {Actual, DegradedReason, VerificationRequired, StopNoted})
  }

  ghost predicate SavedStopped(s: Dict, d: Dict) {
    Get(d, Actual) == Text("stopped") && AlikeBut(s, d, {Actual})
  }

  /** Saved after a launch; `recorded` says that the child's pid is in pid.json. */
  ghost predicate SavedLaunch(s: Dict, d: Dict, generation: int, token: nat, pid: int, alive: bool, recorded: bool) {
    && Get(d, Generation) == Num(generation) && Get(d, Pid) == Num(pid)
    && Get(d, Actual) == Text(if alive then "running" else "unknown")
    && Get(d, ProcessToken) == (if recorded then Token(token) else Null)
    && Get(d, VerificationRequired) == Flag(!alive)
    && Get(d, DegradedReason) == (if alive then Get(s, DegradedReason) else Text("leader_exited_operator_verification_required"))
    && AlikeBut(s, d, {Generation, Pid, Actual, ProcessToken, VerificationRequired, DegradedReason})
  }

  /** pid.json is about launch `k`, with this generation and pid. */
  ghost predicate Provenance(w: World, k: nat, generation: int, pid: Option<int>) {
    w.pidFile.Present? && w.pidFile.token == k && w.pidFile.generation == generation && w.pidFile.pid == pid
  }

  /** The report of a pass that began in `w` and has ended in `done`, with what it saved. */
  ghost predicate Reports(wanted: bool, w: World, done: World, o: Outcome) {
    var s, desired, generation := w.State(), Get(w.State(), Desired), GenerationOf(w.State());
    if w.pidFile != Absent then
      && o == Outcome(Noop, desired, Text("running"), generation, IntOf(Get(s, Pid)), true, true)
      && (SavedBlocked(s, done.disk, false) || (!wanted && SavedBlocked(s, done.disk, true)))
    else if !wanted then
      o == Outcome(Noop, desired, Text("stopped"), generation, None, false, false) && SavedStopped(s, done.disk)
    else
      var k := w.nextToken;
      && k in done.children && done.pidFile.Present? && Provenance(done, k, generation + 1, done.pidFile.pid)
      && var pid := done.children[k].pid;
         && o == Outcome(Spawned, desired, Text(if o.alive then "running" else "unknown"), generation + 1, Some(pid), o.alive, !o.alive)
         && (done.pidFile.pid == Some(pid) || (done.pidFile.pid == None && !o.alive))
         && SavedLaunch(s, done.disk, generation + 1, k, pid, o.alive, done.pidFile.pid.Some?)
  }

  // ---------------------------------------------------------------------
  // A pass on its way
  // ---------------------------------------------------------------------

  ghost predicate LaunchUnderway(w0: World, w: World) {
    var k, g := w0.nextToken, GenerationOf(w0.State()) + 1;
    && w.loaded == w0.State()[Actual := Text("stopped")]
    && match w.phase
       case Fencing(j) => j == k && w.pidFile.Absent?
       case Writing(j) => j == k
       case Starting(j) => j == k && Provenance(w, k, g, None)
       case Awaiting(j) => j == k && Provenance(w, k, g, None) && k in w.children
       case Persisting(j) => j == k && Provenance(w, k, g, None) && k in w.children
       case Owning(j) => j == k && k in w.children && Provenance(w, k, g, Some(w.children[k].pid))
       case Acking(j, _) => j == k && k in w.children && Provenance(w, k, g, Some(w.children[k].pid))
       case Probing(j) => j == k && k in w.children && Provenance(w, k, g, Some(w.children[k].pid))
       case SavingLaunch(j, p, alive, owned) =>
         && j == k && k in w.children && p == w.children[k].pid && (alive ==> owned)
         && Provenance(w, k, g, if owned then Some(p) else None)
       case _ => false
  }

  ghost predicate Underway(wanted: bool, w0: World, w: World) {
    var s := w0.State();
    && w.outcomes == w0.outcomes
    && match w.phase
       case Idle => true
       case Stopping => !wanted && w0.pidFile != Absent && SavedBlocked(s, w.loaded, false)
       case SavingBlocked =>
         w0.pidFile != Absent && (SavedBlocked(s, w.loaded, false) || (!wanted && SavedBlocked(s, w.loaded, true)))
       case SavingStopped => w0.pidFile == Absent && !wanted && w.loaded == s[Actual := Text("stopped")]
       case _ => wanted && w0.pidFile == Absent && LaunchUnderway(w0, w)
  }

  lemma BeginsUnderway(policy: Dict -> bool, w: World)
    requires w.phase.Idle?
    ensures Underway(policy(w.State()), w, Apply(policy, w, Begin))
  {
    hide Backfilled, GenerationOf;
  }

  /** What others may do to a pass on its way. */
  ghost predicate SamePass(w: World, w': World) {
    && w'.phase == w.phase && w'.loaded == w.loaded && w'.outcomes == w.outcomes
    && w'.children.Keys == w.children.Keys && (forall k :: k in w.children ==> w'.children[k].pid == w.children[k].pid)
    && (w'.pidFile == w.pidFile || (w.pidFile.Present? && w'.pidFile == w.pidFile.(stopRequested := true)))
  }

  lemma UnlockedSame(policy: Dict -> bool, w: World, a: Action)
    requires Unlocked(a)
    ensures SamePass(w, Apply(policy, w, a))
  {
    if OfChild(a) && Possible(w, a) {
      ChildActionApplies(policy, w, a);
    }
    hide MergeHeartbeat, World.State;
  }

  lemma {:induction false} UnlockedRunSame(policy: Dict -> bool, w: World, actions: seq<Action>)
    requires forall a :: a in actions ==> Unlocked(a)
    ensures SamePass(w, Run(policy, w, actions))
  {
    if actions != [] {
      hide Apply;
      var m := |actions| - 1;
      UnlockedRunSame(policy, w, actions[..m]);
      assert actions[m] in actions;
      UnlockedSame(policy, Run(policy, w, actions[..m]), actions[m]);
    }
  }

  lemma SameUnderway(wanted: bool, w0: World, w: World, w': World)
    requires Underway(wanted, w0, w) && SamePass(w, w')
    ensures Underway(wanted, w0, w')
  {
    hide SavedBlocked, GenerationOf, World.State, AlikeBut;
  }

  // ---------------------------------------------------------------------
  // One effect
  // ---------------------------------------------------------------------

  /** Where an effect leaves a pass: further on, broken off, or ended with its report. */
  ghost predicate Leads(wanted: bool, w0: World, w: World) {
    || Underway(wanted, w0, w)
    || (w.phase.Idle? && |w.outcomes| == |w0.outcomes| + 1 && w.outcomes[..|w0.outcomes|] == w0.outcomes
        && Reports(wanted, w0, w, w.outcomes[|w0.outcomes|]))
  }

  lemma Snoc<T>(s: seq<T>, x: T)
    ensures (s + [x])[..|s|] == s && (s + [x])[|s|] == x
  {
  }

  lemma StopLeads(wanted: bool, w0: World, w: World)
    requires Underway(wanted, w0, w) && w.phase.Stopping?
    ensures Underway(wanted, w0, TickStep(w, 0, 0))
  {
    hide GenerationOf, World.State;
  }

  lemma BlockedLeads(wanted: bool, w0: World, w: World)
    requires Underway(wanted, w0, w) && w.phase.SavingBlocked?
    ensures Leads(wanted, w0, TickStep(w, 0, 0))
  {
    hide World.State, Underway;
    Snoc(w.outcomes, TickStep(w, 0, 0).outcomes[|w.outcomes|]);
    BlockedFacts(wanted, w0, w);
  }

  lemma BlockedFacts(wanted: bool, w0: World, w: World)
    requires Underway(wanted, w0, w) && w.phase.SavingBlocked?
    ensures w.outcomes == w0.outcomes && w0.pidFile != Absent
    ensures SavedBlocked(w0.State(), w.loaded, false) || (!wanted && SavedBlocked(w0.State(), w.loaded, true))
    ensures Get(w.loaded, Desired) == Get(w0.State(), Desired) && Get(w.loaded, Actual) == Text("running")
    ensures GenerationOf(w.loaded) == GenerationOf(w0.State()) && Get(w.loaded, Pid) == Get(w0.State(), Pid)
  {
    hide World.State;
  }

  lemma StoppedLeads(wanted: bool, w0: World, w: World)
    requires Underway(wanted, w0, w) && w.phase.SavingStopped?
    ensures Leads(wanted, w0, TickStep(w, 0, 0))
  {
    hide World.State;
    Snoc(w.outcomes, TickStep(w, 0, 0).outcomes[|w.outcomes|]);
  }

  lemma IntentLeads(wanted: bool, w0: World, w: World, bytes: nat, pid: int)
    requires Underway(wanted, w0, w) && TickEnabled(w, bytes)
    requires w.phase.Fencing? || w.phase.SavingRefused? || w.phase.Writing? || w.phase.Starting?
    ensures Underway(wanted, w0, TickStep(w, bytes, pid))
  {
    hide World.State;
    LoadedGeneration(w0, w);
    hide GenerationOf;
  }

  lemma ChannelLeads(wanted: bool, w0: World, w: World, bytes: nat, pid: int)
    requires Underway(wanted, w0, w) && TickEnabled(w, bytes) && (w.phase.Awaiting? || w.phase.Acking?)
    ensures Underway(wanted, w0, TickStep(w, bytes, pid))
  {
    hide World.State, GenerationOf;
  }

  lemma RecordLeads(wanted: bool, w0: World, w: World, bytes: nat, pid: int)
    requires Underway(wanted, w0, w) && TickEnabled(w, bytes)
    requires w.phase.Persisting? || w.phase.Owning? || w.phase.Probing?
    ensures Underway(wanted, w0, TickStep(w, bytes, pid))
  {
    hide World.State;
    LoadedGeneration(w0, w);
    hide GenerationOf;
  }

  lemma LoadedGeneration(w0: World, w: World)
    requires w.loaded == w0.State()[Actual := Text("stopped")]
    ensures GenerationOf(w.loaded) == GenerationOf(w0.State()) && Get(w.loaded, Desired) == Get(w0.State(), Desired)
  {
    hide World.State;
  }

  lemma LaunchedLeads(wanted: bool, w0: World, w: World)
    requires Underway(wanted, w0, w) && w.phase.SavingLaunch?
    ensures Leads(wanted, w0, TickStep(w, 0, 0))
  {
    hide World.State;
    LoadedGeneration(w0, w);
    Snoc(w.outcomes, TickStep(w, 0, 0).outcomes[|w.outcomes|]);
  }

  lemma TickLeads(wanted: bool, w0: World, w: World, bytes: nat, pid: int)
    requires Underway(wanted, w0, w) && TickEnabled(w, bytes)
    ensures Leads(wanted, w0, TickStep(w, bytes, pid))
  {
    if w.phase.Stopping? {
      StopLeads(wanted, w0, w);
    } else if w.phase.SavingBlocked? {
      BlockedLeads(wanted, w0, w);
    } else if w.phase.SavingStopped? {
      StoppedLeads(wanted, w0, w);
    } else if w.phase.SavingLaunch? {
      LaunchedLeads(wanted, w0, w);
    } else if w.phase.Fencing? || w.phase.SavingRefused? || w.phase.Writing? || w.phase.Starting? {
      IntentLeads(wanted, w0, w, bytes, pid);
    } else if w.phase.Awaiting? || w.phase.Acking? {
      ChannelLeads(wanted, w0, w, bytes, pid);
    } else {
      RecordLeads(wanted, w0, w, bytes, pid);
    }
    hide Underway, Reports, Stop, Finish, Refused, Launched, GenerationOf, Get;
  }

  lemma BreakLeads(policy: Dict -> bool, wanted: bool, w0: World, w: World, a: Action)
    requires Underway(wanted, w0, w) && !w.phase.Idle? && (a.Fail? || a.Die?)
    ensures Leads(wanted, w0, Apply(policy, w, a))
  {
    hide LaunchUnderway, SavedBlocked, Reports, Stamped, Launching;
  }

  lemma NextLeads(policy: Dict -> bool, wanted: bool, w0: World, w: World, env: Env, i: nat)
    requires env.Fair() && Underway(wanted, w0, w) && !w.phase.Idle?
    ensures Leads(wanted, w0, Next(policy, w, env, i))
  {
    var w1 := Run(policy, w, env.between(i));
    UnlockedRunSame(policy, w, env.between(i));
    SameUnderway(wanted, w0, w, w1);
    assert !w1.phase.Idle?;
    hide Run, TickStep, Apply, TickEnabled, Underway, Leads;
    if env.mishap(i).Smooth? && TickEnabled(w1, env.bytes(i)) {
      NextTick(policy, w, env, i);
      TickLeads(wanted, w0, w1, env.bytes(i), env.pid);
    } else {
      BreakLeads(policy, wanted, w0, w1, Effect(w1, env, i));
    }
  }

  lemma {:induction false} CompleteLeads(policy: Dict -> bool, wanted: bool, w0: World, w: World, env: Env, i: nat)
    requires env.Fair() && Leads(wanted, w0, w)
    ensures Complete(policy, w, env, i).phase.Idle? && Leads(wanted, w0, Complete(policy, w, env, i))
    decreases Remaining(w.phase)
  {
    if !w.phase.Idle? {
      NextAdvances(policy, w, env, i);
      NextLeads(policy, wanted, w0, w, env, i);
      CompleteLeads(policy, wanted, w0, Next(policy, w, env, i), env, i + 1);
    }
    hide Leads, Next, Remaining, Env.Fair;
  }

  /**
    Whatever heartbeats, labels, stops and children do in between, and wherever it breaks off, a pass
    reports nothing or exactly once, and then what it decided: over a tombstone it is blocked and starts
    nothing, an unwanted unit without one is stopped, and a wanted one has been launched, under the next
    generation and with the pid on record of any child reported alive.
  */
  lemma PassReports(policy: Dict -> bool, w: World, env: Env)
    requires env.Fair() && w.phase.Idle?
    ensures var done := Complete(policy, Apply(policy, w, Begin), env, 0);
      && done.phase.Idle?
      && (done.outcomes == w.outcomes
          || (|done.outcomes| == |w.outcomes| + 1 && done.outcomes[..|w.outcomes|] == w.outcomes
              && Reports(policy(w.State()), w, done, done.outcomes[|w.outcomes|])))
  {
    BeginsUnderway(policy, w);
    CompleteLeads(policy, policy(w.State()), w, Apply(policy, w, Begin), env, 0);
    hide Reports, Complete, LaunchUnderway, SavedBlocked, Apply;
  }

  // ---------------------------------------------------------------------
  // Undisturbed passes
  // ---------------------------------------------------------------------

  /** Nobody acts in between, and nothing goes wrong. */
  ghost predicate Undisturbed(env: Env) {
    forall i: nat :: env.between(i) == [] && env.mishap(i).Smooth?
  }

  lemma QuietNext(policy: Dict -> bool, w: World, env: Env, i: nat)
    requires env.between(i) == [] && env.mishap(i).Smooth? && TickEnabled(w, env.bytes(i))
    ensures Next(policy, w, env, i) == TickStep(w, env.bytes(i), env.pid)
  {
    NextTick(policy, w, env, i);
    assert Run(policy, w, []) == w;
    hide TickStep, TickEnabled;
  }

  /** The tombstone is about a child this supervisor has the handle of. */
  predicate Owned(w: World) {
    w.pidFile.Present? && w.pidFile.token in w.handles && w.pidFile.token in w.children
  }

  /** And the pid on record is that child's, which has not ended. */
  predicate Signals(w: World) {
    Owned(w) && w.pidFile.pid == Some(w.children[w.pidFile.token].pid) && !w.children[w.pidFile.token].gate.Gone?
  }

  /**
    A stop, exactly: a TERM is sent if and only if the handle of the recorded and still running child is
    owned; then the handle stays, and an owned handle of any other child is given up.  pid.json keeps its
    provenance and is marked.
  */
  lemma StopExactly(w: World)
    ensures var (w', signalled) := Stop(w);
      && (signalled <==> Signals(w))
      && w'.handles == (if Owned(w) && !Signals(w) then w.handles - {w.pidFile.token} else w.handles)
      && w'.pidFile == (if w.pidFile.Present? then w.pidFile.(stopRequested := true) else w.pidFile)
      && w' == w.(handles := w'.handles, pidFile := w'.pidFile)
  {
  }

  ghost predicate PassedBlocked(w: World, done: World, signalled: bool, handles: set<nat>, pidFile: PidFile) {
    && |done.outcomes| == |w.outcomes| + 1 && done.children == w.children && done.stamps == w.stamps
    && SavedBlocked(w.State(), done.disk, signalled) && done.pidFile == pidFile && done.handles == handles
  }

  lemma BlockedReads(s: Dict)
    ensures SavedBlocked(s, Blocked(s), false) && SavedBlocked(s, Blocked(s)[StopNoted := Flag(true)], true)
  {
  }

  lemma WantedBlocked(policy: Dict -> bool, w: World, env: Env)
    requires w.phase.Idle? && !w.pidFile.Absent? && Undisturbed(env) && env.Fair() && policy(w.State())
    ensures PassedBlocked(w, Complete(policy, Apply(policy, w, Begin), env, 0), false, w.handles, w.pidFile)
  {
    var begun := Apply(policy, w, Begin);
    QuietNext(policy, begun, env, 0);
    OneEffect(policy, begun, env, 0);
    hide GenerationOf, World.State, Next, Complete, Undisturbed, Stop, Env.Fair;
  }

  lemma UnwantedBlocked(policy: Dict -> bool, w: World, env: Env)
    requires w.phase.Idle? && !w.pidFile.Absent? && Undisturbed(env) && env.Fair() && !policy(w.State())
    ensures PassedBlocked(w, Complete(policy, Apply(policy, w, Begin), env, 0), Stop(w).1, Stop(w).0.handles, Stop(w).0.pidFile)
  {
    var begun := Apply(policy, w, Begin);
    BlockedReads(w.State());
    hide Blocked, SavedBlocked;
    QuietNext(policy, begun, env, 0);
    StopExactly(begun);
    StopExactly(w);
    hide Stop;
    var stopped := TickStep(begun, env.bytes(0), env.pid);
    QuietNext(policy, stopped, env, 1);
    TwoEffects(policy, begun, env, 0);
    hide GenerationOf, World.State, Next, Complete, Undisturbed, Env.Fair;
  }

  /**
    An undisturbed pass over pid.json reports, starts nothing, and stops exactly an unwanted unit: the note
    of the TERM is saved if and only if the unit is unwanted and its live child is owned.
  */
  lemma BlockedPass(policy: Dict -> bool, w: World, env: Env)
    requires w.phase.Idle? && !w.pidFile.Absent? && Undisturbed(env) && env.Fair()
    ensures var wanted, done := policy(w.State()), Complete(policy, Apply(policy, w, Begin), env, 0);
      && |done.outcomes| == |w.outcomes| + 1 && done.children == w.children && done.stamps == w.stamps
      && SavedBlocked(w.State(), done.disk, !wanted && Signals(w))
      && done.pidFile == (if !wanted && w.pidFile.Present? then w.pidFile.(stopRequested := true) else w.pidFile)
      && done.handles == (if !wanted && Owned(w) && !Signals(w) then w.handles - {w.pidFile.token} else w.handles)
  {
    StopExactly(w);
    if policy(w.State()) {
      WantedBlocked(policy, w, env);
    } else {
      UnwantedBlocked(policy, w, env);
    }
    hide World.State, Complete, Undisturbed, Env.Fair, SavedBlocked, Stop, Apply;
  }

  lemma OneEffect(policy: Dict -> bool, w: World, env: Env, i: nat)
    requires env.Fair() && !w.phase.Idle? && Next(policy, w, env, i).phase.Idle?
    ensures Complete(policy, w, env, i) == Next(policy, w, env, i)
  {
    hide Next;
  }

  lemma TwoEffects(policy: Dict -> bool, w: World, env: Env, i: nat)
    requires env.Fair() && !w.phase.Idle? && !Next(policy, w, env, i).phase.Idle?
    requires Next(policy, Next(policy, w, env, i), env, i + 1).phase.Idle?
    ensures Complete(policy, w, env, i) == Next(policy, Next(policy, w, env, i), env, i + 1)
  {
    OneEffect(policy, Next(policy, w, env, i), env, i + 1);
    hide Next;
  }

  /** An undisturbed pass of an unwanted unit without pid.json only saves and reports that it is stopped. */
  lemma StoppedPass(policy: Dict -> bool, w: World, env: Env)
    requires w.phase.Idle? && w.pidFile.Absent? && !policy(w.State()) && Undisturbed(env) && env.Fair()
    ensures var done := Complete(policy, Apply(policy, w, Begin), env, 0);
      && done == w.(disk := done.disk, loaded := done.loaded, outcomes := done.outcomes)
      && SavedStopped(w.State(), done.disk)
      && done.outcomes == w.outcomes
           + [Outcome(Noop, Get(w.State(), Desired), Text("stopped"), GenerationOf(w.State()), None, false, false)]
  {
    var begun := Apply(policy, w, Begin);
    QuietNext(policy, begun, env, 0);
    OneEffect(policy, begun, env, 0);
    LoadedGeneration(w, begun);
    hide GenerationOf, Backfilled, Next, Complete, Undisturbed, Env.Fair;
  }

  /** So a disabled unit without pid.json is not launched, and reports that it is stopped. */
  lemma DisabledPass(w: World, env: Env)
    requires w.phase.Idle? && w.pidFile.Absent? && Undisturbed(env) && env.Fair()
    ensures var asked := Apply(HonorDesired, w, SetDesired("disabled"));
      var done := Complete(HonorDesired, Apply(HonorDesired, asked, Begin), env, 0);
      && done.pidFile.Absent? && done.children == w.children && done.stamps == w.stamps
      && done.outcomes == w.outcomes
           + [Outcome(Noop, Text("disabled"), Text("stopped"), GenerationOf(asked.State()), None, false, false)]
  {
    var asked := Apply(HonorDesired, w, SetDesired("disabled"));
    assert Get(asked.State(), Desired) == Text("disabled");
    StoppedPass(HonorDesired, asked, env);
    hide GenerationOf, World.State, Complete, Undisturbed, Env.Fair, SavedStopped;
  }

  // ---------------------------------------------------------------------
  // A launch that goes well
  // ---------------------------------------------------------------------

  /** The child announces itself before the receive, which takes the whole line, and the acknowledgement goes out at once. */
  ghost predicate Helpful(env: Env, k: nat) {
    && (forall i: nat :: env.mishap(i).Smooth? && env.between(i) == if i == 3 then [ChildReady(k)] else [])
    && env.bytes(3) == 6 && env.bytes(6) == 4
  }

  /** A step of the pass when nobody acts before it. */
  lemma QuietStep(policy: Dict -> bool, w: World, env: Env, i: nat, next: World)
    requires env.Fair() && env.between(i) == [] && env.mishap(i).Smooth? && TickEnabled(w, env.bytes(i))
    requires next == TickStep(w, env.bytes(i), env.pid)
    ensures Complete(policy, w, env, i) == Complete(policy, next, env, i + 1)
  {
    QuietNext(policy, w, env, i);
    hide Next, TickStep;
  }

  /** The world of a launch in progress that nobody disturbs. */
  function LaunchWorld(w: World, ph: Phase, pidFile: PidFile): World {
    w.(phase := ph, nextToken := w.nextToken + 1, loaded := w.State()[Actual := Text("stopped")], pidFile := pidFile)
  }

  lemma FencePart(policy: Dict -> bool, w: World, env: Env)
    requires w.phase.Idle? && w.pidFile.Absent? && policy(w.State()) && Helpful(env, w.nextToken) && env.Fair()
    ensures Complete(policy, Apply(policy, w, Begin), env, 0)
      == Complete(policy, LaunchWorld(w, Writing(w.nextToken), Garbled), env, 1)
  {
    hide GenerationOf, World.State;
    var begun := LaunchWorld(w, Fencing(w.nextToken), Absent);
    assert begun == Apply(policy, w, Begin);
    QuietStep(policy, begun, env, 0, LaunchWorld(w, Writing(w.nextToken), Garbled));
  }

  /** Started, with the intent in pid.json. */
  function StartedWorld(w: World, pid: int, gate: GateState, ready: bool): World {
    var k, g := w.nextToken, GenerationOf(w.State()) + 1;
    LaunchWorld(w, Awaiting(k), Present(None, g, k, false)).(
      stamps := w.stamps + [g], children := w.children[k := Child(pid, g, w.epoch, gate, ready, "", false, false)])
  }

  lemma IntentPart(policy: Dict -> bool, w: World, env: Env)
    requires Helpful(env, w.nextToken) && env.Fair()
    ensures var k, g := w.nextToken, GenerationOf(w.State()) + 1;
      Complete(policy, LaunchWorld(w, Writing(k), Garbled), env, 1)
        == Complete(policy, LaunchWorld(w, Starting(k), Present(None, g, k, false)).(stamps := w.stamps + [g]), env, 2)
  {
    var k, g := w.nextToken, GenerationOf(w.State()) + 1;
    LoadedGeneration(w, LaunchWorld(w, Writing(k), Garbled));
    hide GenerationOf, World.State, Complete;
    QuietStep(policy, LaunchWorld(w, Writing(k), Garbled), env, 1,
      LaunchWorld(w, Starting(k), Present(None, g, k, false)).(stamps := w.stamps + [g]));
  }

  lemma StartPart(policy: Dict -> bool, w: World, env: Env)
    requires Helpful(env, w.nextToken) && env.Fair()
    ensures var k, g := w.nextToken, GenerationOf(w.State()) + 1;
      Complete(policy, LaunchWorld(w, Starting(k), Present(None, g, k, false)).(stamps := w.stamps + [g]), env, 2)
        == Complete(policy, StartedWorld(w, env.pid, Booting, false), env, 3)
  {
    var k, g := w.nextToken, GenerationOf(w.State()) + 1;
    var starting := LaunchWorld(w, Starting(k), Present(None, g, k, false)).(stamps := w.stamps + [g]);
    LoadedGeneration(w, starting);
    hide GenerationOf, World.State, Complete;
    QuietStep(policy, starting, env, 2, StartedWorld(w, env.pid, Booting, false));
  }

  /** Recorded and owned. */
  function RecordedWorld(w: World, pid: int, ph: Phase, inbox: string): World {
    var k, g := w.nextToken, GenerationOf(w.State()) + 1;
    LaunchWorld(w, ph, Present(Some(pid), g, k, false)).(
      stamps := w.stamps + [g], persisted := w.persisted + {k}, handles := w.handles + {k},
      children := w.children[k := Child(pid, g, w.epoch, Reading(""), true, inbox, inbox != "", false)])
  }

  lemma ReadyPart(policy: Dict -> bool, w: World, env: Env)
    requires Helpful(env, w.nextToken) && env.Fair()
    ensures Complete(policy, StartedWorld(w, env.pid, Booting, false), env, 3)
      == Complete(policy, StartedWorld(w, env.pid, Reading(""), true).(phase := Persisting(w.nextToken)), env, 4)
  {
    hide GenerationOf, World.State;
    var k, started := w.nextToken, StartedWorld(w, env.pid, Booting, false);
    var announced := StartedWorld(w, env.pid, Reading(""), true);
    assert Apply(policy, started, ChildReady(k)) == announced;
    assert env.between(3) == [] + [ChildReady(k)];
    assert Run(policy, started, []) == started;
    RunSnoc(policy, started, [], ChildReady(k));
    NextTick(policy, started, env, 3);
    hide Next, Run;
  }

  lemma RecordPart(policy: Dict -> bool, w: World, env: Env)
    requires Helpful(env, w.nextToken) && env.Fair()
    ensures Complete(policy, StartedWorld(w, env.pid, Reading(""), true).(phase := Persisting(w.nextToken)), env, 4)
      == Complete(policy, RecordedWorld(w, env.pid, Owning(w.nextToken), "").(handles := w.handles), env, 5)
  {
    LoadedGeneration(w, StartedWorld(w, env.pid, Reading(""), true));
    hide GenerationOf, World.State, Complete;
    QuietStep(policy, StartedWorld(w, env.pid, Reading(""), true).(phase := Persisting(w.nextToken)), env, 4,
      RecordedWorld(w, env.pid, Owning(w.nextToken), "").(handles := w.handles));
  }

  lemma OwnPart(policy: Dict -> bool, w: World, env: Env)
    requires Helpful(env, w.nextToken) && env.Fair()
    ensures Complete(policy, RecordedWorld(w, env.pid, Owning(w.nextToken), "").(handles := w.handles), env, 5)
      == Complete(policy, RecordedWorld(w, env.pid, Acking(w.nextToken, 0), ""), env, 6)
  {
    hide GenerationOf, World.State, Complete;
    QuietStep(policy, RecordedWorld(w, env.pid, Owning(w.nextToken), "").(handles := w.handles), env, 5,
      RecordedWorld(w, env.pid, Acking(w.nextToken, 0), ""));
  }

  lemma AckPart(policy: Dict -> bool, w: World, env: Env)
    requires Helpful(env, w.nextToken) && env.Fair()
    ensures Complete(policy, RecordedWorld(w, env.pid, Acking(w.nextToken, 0), ""), env, 6)
      == Complete(policy, RecordedWorld(w, env.pid, Probing(w.nextToken), "ACK\n"), env, 7)
  {
    hide GenerationOf, World.State, Complete;
    assert Gate.ACK[0..4] == "ACK\n" && "" + Gate.ACK[0..4] == Gate.ACK[0..4];
    QuietStep(policy, RecordedWorld(w, env.pid, Acking(w.nextToken, 0), ""), env, 6,
      RecordedWorld(w, env.pid, Probing(w.nextToken), "ACK\n"));
  }

  lemma ProbePart(policy: Dict -> bool, w: World, env: Env)
    requires Helpful(env, w.nextToken) && env.Fair()
    ensures Complete(policy, RecordedWorld(w, env.pid, Probing(w.nextToken), "ACK\n"), env, 7)
      == Complete(policy, RecordedWorld(w, env.pid, SavingLaunch(w.nextToken, env.pid, true, true), "ACK\n"), env, 8)
  {
    hide GenerationOf, World.State, Complete;
    QuietStep(policy, RecordedWorld(w, env.pid, Probing(w.nextToken), "ACK\n"), env, 7,
      RecordedWorld(w, env.pid, SavingLaunch(w.nextToken, env.pid, true, true), "ACK\n"));
  }

  /**
    A launch nothing goes wrong with: one child, owned, with the whole acknowledgement in its closed
    channel; pid.json with its pid, the next generation and its token; and the state and the report say
    that it runs. As soon as the child reads, it runs the consumer.
  */
  lemma LaunchPass(policy: Dict -> bool, w: World, env: Env)
    requires w.phase.Idle? && w.pidFile.Absent? && policy(w.State()) && Helpful(env, w.nextToken) && env.Fair()
    ensures var k, g := w.nextToken, GenerationOf(w.State()) + 1;
      var done := Complete(policy, Apply(policy, w, Begin), env, 0);
      && done.phase.Idle? && done.pidFile == Present(Some(env.pid), g, k, false) && done.handles == w.handles + {k}
      && done.children == w.children[k := Child(env.pid, g, w.epoch, Reading(""), true, "ACK\n", true, false)]
      && SavedLaunch(w.State(), done.disk, g, k, env.pid, true, true)
      && done.outcomes == w.outcomes + [Outcome(Spawned, Get(w.State(), Desired), Text("running"), g, Some(env.pid), true, false)]
      && var run := Apply(policy, done, ChildRead(k, 4)); k in run.children && run.children[k].gate.Running? && run.children[k].execd
  {
    FencePart(policy, w, env);
    IntentPart(policy, w, env);
    StartPart(policy, w, env);
    ReadyPart(policy, w, env);
    RecordPart(policy, w, env);
    OwnPart(policy, w, env);
    AckPart(policy, w, env);
    ProbePart(policy, w, env);
    SavePart(policy, w, env);
    var done := Complete(policy, Apply(policy, w, Begin), env, 0);
    hide Complete, SavedLaunch, World.State, GenerationOf, Env.Fair, Helpful, StartedWorld, RecordedWorld, LaunchWorld;
    ReadsWhole(policy, done, w.nextToken);
  }

  lemma SaveTick(w: World, k: nat, pid: int, bytes: nat, next: int)
    requires w.phase == SavingLaunch(k, pid, true, true)
    ensures var d := Launched(w.loaded, GenerationOf(w.loaded) + 1, k, pid, true, true);
      var done := TickStep(w, bytes, next);
      && done.disk == d && done.phase.Idle? && done.pidFile == w.pidFile && done.handles == w.handles && done.children == w.children
      && done.outcomes == w.outcomes + [Outcome(Spawned, Get(d, Desired), Get(d, Actual), GenerationOf(d), Some(pid), true, false)]
  {
    hide GenerationOf, Get, Launched;
  }

  lemma RecordedFields(w: World, pid: int, ph: Phase)
    ensures var k, g, r := w.nextToken, GenerationOf(w.State()) + 1, RecordedWorld(w, pid, ph, "ACK\n");
      && r.phase == ph && r.pidFile == Present(Some(pid), g, k, false) && r.handles == w.handles + {k}
      && r.children == w.children[k := Child(pid, g, w.epoch, Reading(""), true, "ACK\n", true, false)]
      && r.outcomes == w.outcomes && r.loaded == w.State()[Actual := Text("stopped")]
  {
    hide GenerationOf, World.State;
  }

  lemma SavePart(policy: Dict -> bool, w: World, env: Env)
    requires Helpful(env, w.nextToken) && env.Fair()
    ensures var k, g := w.nextToken, GenerationOf(w.State()) + 1;
      var done := Complete(policy, RecordedWorld(w, env.pid, SavingLaunch(k, env.pid, true, true), "ACK\n"), env, 8);
      && done.phase.Idle? && done.pidFile == Present(Some(env.pid), g, k, false) && done.handles == w.handles + {k}
      && done.children == w.children[k := Child(env.pid, g, w.epoch, Reading(""), true, "ACK\n", true, false)]
      && SavedLaunch(w.State(), done.disk, g, k, env.pid, true, true)
      && done.outcomes == w.outcomes + [Outcome(Spawned, Get(w.State(), Desired), Text("running"), g, Some(env.pid), true, false)]
  {
    var k := w.nextToken;
    var saving := RecordedWorld(w, env.pid, SavingLaunch(k, env.pid, true, true), "ACK\n");
    RecordedFields(w, env.pid, SavingLaunch(k, env.pid, true, true));
    LoadedGeneration(w, saving);
    LaunchedReads(w.State(), GenerationOf(w.State()) + 1, k, env.pid);
    SaveTick(saving, k, env.pid, env.bytes(8), env.pid);
    hide World.State, GenerationOf, Get, Launched, SavedLaunch, TickStep, RecordedWorld;
    QuietNext(policy, saving, env, 8);
    OneEffect(policy, saving, env, 8);
    hide Next, Complete, Env.Fair, Helpful;
  }

  lemma LaunchedReads(s: Dict, generation: int, token: nat, pid: int)
    ensures var d := Launched(s[Actual := Text("stopped")], generation, token, pid, true, true);
      && SavedLaunch(s, d, generation, token, pid, true, true)
      && Get(d, Desired) == Get(s, Desired) && Get(d, Actual) == Text("running") && GenerationOf(d) == generation
  {
  }

  lemma ReadsWhole(policy: Dict -> bool, w: World, k: nat)
    requires k in w.children && w.children[k].gate == Reading("") && w.children[k].inbox == "ACK\n"
    ensures var run := Apply(policy, w, ChildRead(k, 4)); k in run.children && run.children[k].gate.Running? && run.children[k].execd
  {
    assert w.children[k].inbox[..4] == "ACK\n" && "" + "ACK\n" == "ACK\n";
    assert Gate.EndsLine("ACK\n");
  }

  // ---------------------------------------------------------------------
  // A fence that finds pid.json
  // ---------------------------------------------------------------------

  /** A launch that finds pid.json at its fence, whoever wrote it, leaves it alone, starts nothing, and reports that it does not know. */
  lemma FenceRefuses(w: World, bytes: nat, pid: int)
    requires w.phase.Fencing? && !w.pidFile.Absent?
    ensures TickStep(w, bytes, pid) == w.(phase := SavingRefused)
    ensures var done := TickStep(TickStep(w, bytes, pid), bytes, pid);
      && done == w.(phase := Idle, disk := done.disk, outcomes := done.outcomes)
      && Get(done.disk, Actual) == Text("unknown") && Get(done.disk, VerificationRequired) == Flag(true)
      && Get(done.disk, DegradedReason) == Text("process_tombstone_operator_verification_required")
      && AlikeBut(w.loaded, done.disk, {Actual, DegradedReason, VerificationRequired})
      && done.outcomes == w.outcomes
           + [Outcome(Noop, Get(w.loaded, Desired), Text("unknown"), GenerationOf(w.loaded), None, false, true)]
  {
    assert Get(Refused(w.loaded), Generation) == Get(w.loaded, Generation);
  }
}
