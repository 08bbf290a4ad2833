/** The generation counter over whole runs: launches, tombstone stamps and heartbeat fencing. */
module Generations {
  import opened Wrappers
  import opened Launch
  import opened LaunchSafety
  import opened LaunchTheorems
  import opened LaunchClearance

  /** The launches reported so far. */
  function Launches(outcomes: seq<Outcome>): nat {
    if outcomes == [] then 0
    else Launches(outcomes[..|outcomes| - 1]) + if outcomes[|outcomes| - 1].act.Spawned? then 1 else 0
  }

  lemma LaunchesSnoc(outcomes: seq<Outcome>, o: Outcome)
    ensures Launches(outcomes + [o]) == Launches(outcomes) + if o.act.Spawned? then 1 else 0
  {
    assert (outcomes + [o])[..|outcomes|] == outcomes;
  }

  /** The stamps never fall, and are ahead of the saved generation only by a launch in progress or lost. */
  ghost predicate StampsSound(w: World) {
    var g := GenerationOf(w.disk);
    && (forall i, j :: 0 <= i < j < |w.stamps| ==> w.stamps[i] <= w.stamps[j])
    && (forall i :: 0 <= i < |w.stamps| ==> w.stamps[i] <= if Stamped(w.phase) || w.lost then g + 1 else g)
    && (Stamped(w.phase) || w.lost ==> |w.stamps| > 0 && w.stamps[|w.stamps| - 1] == g + 1)
  }

  ghost predicate TombstoneStamp(w: World) {
    w.pidFile.Present? ==>
      w.pidFile.generation == GenerationOf(w.disk) + if Stamped(w.phase) || w.lost then 1 else 0
  }

  ghost predicate GenerationSound(w: World, g0: int) {
    && GenerationOf(w.disk) == g0 + Launches(w.outcomes)
    && StampsSound(w) && TombstoneStamp(w)
  }

  lemma QuietTickGeneration(w: World, bytes: nat, pid: int, g0: int)
    requires WorldSound(w) && GenerationSound(w, g0) && TickEnabled(w, bytes)
    requires Launching(w.phase).None? || w.phase.SavingLaunch?
    ensures GenerationSound(TickStep(w, bytes, pid), g0)
  {
    if w.phase.SavingLaunch? {
      SavingTickGeneration(w, bytes, pid, g0);
    } else {
      NoopTickGeneration(w, bytes, pid, g0);
    }
    hide WorldSound, GenerationSound, TickStep;
  }

  lemma SavingTickGeneration(w: World, bytes: nat, pid: int, g0: int)
    requires WorldSound(w) && GenerationSound(w, g0) && w.phase.SavingLaunch?
    ensures GenerationSound(TickStep(w, bytes, pid), g0)
  {
    hide ChildrenSound, Launches, Blocked, Stop;
    LaunchesSnoc(w.outcomes, TickStep(w, bytes, pid).outcomes[|w.outcomes|]);
  }

  lemma NoopTickGeneration(w: World, bytes: nat, pid: int, g0: int)
    requires WorldSound(w) && GenerationSound(w, g0) && TickEnabled(w, bytes) && Launching(w.phase).None?
    ensures GenerationSound(TickStep(w, bytes, pid), g0)
  {
    hide ChildrenSound, Launches, Blocked;
    if w.phase.SavingBlocked? || w.phase.SavingStopped? || w.phase.SavingRefused? {
      LaunchesSnoc(w.outcomes, TickStep(w, bytes, pid).outcomes[|w.outcomes|]);
    }
  }

  lemma WritingTickGeneration(w: World, bytes: nat, pid: int, g0: int)
    requires WorldSound(w) && GenerationSound(w, g0) && w.phase.Writing?
    ensures GenerationSound(TickStep(w, bytes, pid), g0)
  {
    hide ChildrenSound, Launches, Finish, Stop, GenerationOf;
  }

  lemma LaunchTickGeneration(w: World, bytes: nat, pid: int, g0: int)
    requires WorldSound(w) && GenerationSound(w, g0) && TickEnabled(w, bytes)
    requires Launching(w.phase).Some? && !w.phase.SavingLaunch? && !w.phase.Writing?
    ensures GenerationSound(TickStep(w, bytes, pid), g0)
  {
    if w.phase.Starting? || w.phase.Persisting? || w.phase.Owning? {
      RecordTickGeneration(w, bytes, pid, g0);
    } else {
      ChannelTickGeneration(w, bytes, pid, g0);
    }
    hide WorldSound, GenerationSound, TickStep;
  }

  lemma RecordTickGeneration(w: World, bytes: nat, pid: int, g0: int)
    requires WorldSound(w) && GenerationSound(w, g0) && TickEnabled(w, bytes)
    requires w.phase.Starting? || w.phase.Persisting? || w.phase.Owning?
    ensures GenerationSound(TickStep(w, bytes, pid), g0)
  {
    hide ChildrenSound, Undecided, Launches, GenerationOf, Finish, Launched, Stop, CloseChannel;
  }

  lemma ChannelTickGeneration(w: World, bytes: nat, pid: int, g0: int)
    requires WorldSound(w) && GenerationSound(w, g0) && TickEnabled(w, bytes)
    requires w.phase.Awaiting? || w.phase.Acking? || w.phase.Probing?
    ensures GenerationSound(TickStep(w, bytes, pid), g0)
  {
    ChannelTickSame(w, bytes, pid);
    hide ChildrenSound, Offered, Undecided, Launches, GenerationOf, TickStep;
  }

  lemma ChannelTickSame(w: World, bytes: nat, pid: int)
    requires TickEnabled(w, bytes) && (w.phase.Awaiting? || w.phase.Acking? || w.phase.Probing?)
    ensures var w' := TickStep(w, bytes, pid);
      && w'.disk == w.disk && w'.outcomes == w.outcomes && w'.stamps == w.stamps
      && w'.pidFile == w.pidFile && w'.lost == w.lost
      && Launching(w'.phase) == Launching(w.phase) && !w'.phase.Writing?
  {
    hide GenerationOf, NextGeneration, Reported, Refused, Finish, Launched, Stop;
    if w.phase.Acking? {
      hide World.State;
    } else {
      hide Acknowledged;
    }
  }

  lemma TickGenerationSound(w: World, bytes: nat, pid: int, g0: int)
    requires WorldSound(w) && GenerationSound(w, g0) && TickEnabled(w, bytes)
    ensures GenerationSound(TickStep(w, bytes, pid), g0)
  {
    hide GenerationSound, WorldSound, TickStep;
    if Launching(w.phase).None? || w.phase.SavingLaunch? {
      QuietTickGeneration(w, bytes, pid, g0);
    } else if w.phase.Writing? {
      WritingTickGeneration(w, bytes, pid, g0);
    } else {
      LaunchTickGeneration(w, bytes, pid, g0);
    }
  }

  lemma PlainStepGeneration(policy: Dict -> bool, w: World, a: Action, g0: int)
    requires GenerationSound(w, g0) && !a.Tick? && !a.SetDesired? && !a.Heartbeat?
    ensures GenerationSound(Apply(policy, w, a), g0)
  {
    hide Launches, Blocked, ReadChild, World.State, GenerationOf;
  }

  lemma StepGenerationSound(policy: Dict -> bool, w: World, a: Action, g0: int)
    requires WorldSound(w) && GenerationSound(w, g0)
    ensures GenerationSound(Apply(policy, w, a), g0)
  {
    hide WorldSound, Launches, GenerationOf;
    match a
    case Tick(bytes, pid) =>
      if Possible(w, a) {
        TickGenerationSound(w, bytes, pid, g0);
      }
    case SetDesired(_) =>
      SavesState(policy, w, a);
      hide Apply;
    case Heartbeat(_) =>
      SavesState(policy, w, a);
      hide Apply;
    case _ => PlainStepGeneration(policy, w, a, g0);
    hide TickStep;
  }

  lemma {:induction false} RunGenerationSound(policy: Dict -> bool, w: World, actions: seq<Action>)
    requires Fresh(w)
    ensures GenerationSound(Run(policy, w, actions), GenerationOf(w.disk))
  {
    if actions != [] {
      hide Apply, GenerationSound, WorldSound;
      var m := |actions| - 1;
      RunGenerationSound(policy, w, actions[..m]);
      FreshSound(w);
      RunSound(policy, w, actions[..m]);
      StepGenerationSound(policy, Run(policy, w, actions[..m]), actions[m], GenerationOf(w.disk));
    }
  }

  /**
    In every run the saved generation counts exactly the reported launches, so it never falls and
    rises by one exactly on a "spawned" outcome; and a tombstone carries it or its successor.
  */
  lemma GenerationCountsLaunches(policy: Dict -> bool, w: World, actions: seq<Action>)
    requires Fresh(w)
    ensures var now := Run(policy, w, actions);
      && GenerationOf(now.State()) == GenerationOf(w.State()) + Launches(now.outcomes)
      && (now.pidFile.Present? ==>
            now.pidFile.generation == GenerationOf(now.State()) || now.pidFile.generation == GenerationOf(now.State()) + 1)
      && forall i, j :: 0 <= i < j < |now.stamps| ==> now.stamps[i] <= now.stamps[j]
  {
    hide Apply, Launches;
    RunGenerationSound(policy, w, actions);
  }

  // ---------------------------------------------------------------------
  // The launch after a clearance
  // ---------------------------------------------------------------------

  /** Until the next stamp nothing about the generation changes. */
  ghost predicate Unstamped(w: World, w': World) {
    && w.stamps <= w'.stamps
    && (w'.stamps == w.stamps ==>
          !Stamped(w'.phase) && GenerationOf(w'.disk) == GenerationOf(w.disk) && w'.lost == w.lost)
  }

  lemma UnstampedTick(w: World, w1: World, bytes: nat, pid: int)
    requires Unstamped(w, w1) && WorldSound(w1) && TickEnabled(w1, bytes)
    ensures Unstamped(w, TickStep(w1, bytes, pid))
  {
    hide ChildrenSound, Offered, Blocked, Refused, IntOf;
    if w1.phase.SavingRefused? {
      assert false;
    }
  }

  lemma UnstampedStep(policy: Dict -> bool, w: World, w1: World, a: Action)
    requires Unstamped(w, w1) && WorldSound(w1)
    ensures Unstamped(w, Apply(policy, w1, a))
  {
    hide WorldSound, TickStep, Blocked, ReadChild, MergeHeartbeat;
    if a.Tick? && Possible(w1, a) {
      UnstampedTick(w, w1, a.bytes, a.pid);
    } else if a.SetDesired? || a.Heartbeat? {
      SavesState(policy, w1, a);
      hide Apply;
    }
    hide GenerationOf, World.State;
  }

  lemma {:induction false} UnstampedRun(policy: Dict -> bool, w: World, actions: seq<Action>)
    requires WorldSound(w) && !Stamped(w.phase)
    ensures Unstamped(w, Run(policy, w, actions))
  {
    if actions != [] {
      hide WorldSound, Unstamped, Apply;
      var m := |actions| - 1;
      UnstampedRun(policy, w, actions[..m]);
      RunSound(policy, w, actions[..m]);
      UnstampedStep(policy, w, Run(policy, w, actions[..m]), actions[m]);
    }
  }

  lemma ClearedRun(policy: Dict -> bool, w: World, history: seq<Action>, clear: Action, actions: seq<Action>)
    ensures Run(policy, w, history + [clear] + actions)
         == Run(policy, Apply(policy, Run(policy, w, history), clear), actions)
  {
    hide Apply;
    RunSnoc(policy, w, history, clear);
    RunConcat(policy, w, history + [clear], actions);
  }

  /**
    What the operator can see at a clearance decides the next launch: it repeats the cleared
    tombstone's stamp exactly when that stamp is ahead of the saved generation, and otherwise its
    stamp is above every earlier one.
  */
  lemma StampRepeatsIff(policy: Dict -> bool, w: World, history: seq<Action>, clear: Action, actions: seq<Action>, bytes: nat, pid: int)
    requires Fresh(w) && clear.Clear? && Possible(Run(policy, w, history), clear)
    requires var later := Run(policy, Apply(policy, Run(policy, w, history), clear), actions);
      later.phase.Writing? && later.stamps == Run(policy, w, history).stamps
    ensures var now := Run(policy, w, history);
      var next := Apply(policy, Run(policy, Apply(policy, now, clear), actions), Tick(bytes, pid));
      && |next.stamps| == |now.stamps| + 1 && next.stamps[..|now.stamps|] == now.stamps
      && (next.stamps[|now.stamps|] == now.pidFile.generation <==> now.pidFile.generation > GenerationOf(now.State()))
      && ((forall i :: 0 <= i < |now.stamps| ==> now.stamps[i] < next.stamps[|now.stamps|])
          <==> now.pidFile.generation <= GenerationOf(now.State()))
  {
    hide ChildrenSound, Launches, Run, IntOf, Backfilled;
    var now := Run(policy, w, history);
    var cleared := Apply(policy, now, clear);
    var later := Run(policy, cleared, actions);
    FreshSound(w);
    RunSound(policy, w, history);
    ApplySound(policy, now, clear);
    RunSound(policy, cleared, actions);
    RunGenerationSound(policy, w, history);
    ClearedRun(policy, w, history, clear, actions);
    RunGenerationSound(policy, w, history + [clear] + actions);
    UnstampedRun(policy, cleared, actions);
    GenerationLoaded(now);
    StampOf(policy, later, bytes, pid);
    LastStamp(now, later);
  }

  lemma StampOf(policy: Dict -> bool, w: World, bytes: nat, pid: int)
    requires WorldSound(w) && w.phase.Writing?
    ensures Apply(policy, w, Tick(bytes, pid)).stamps == w.stamps + [GenerationOf(w.disk) + 1]
  {
    hide ChildrenSound;
  }

  lemma LastStamp(now: World, later: World)
    requires StampsSound(later) && TombstoneStamp(now) && now.pidFile.Present? && now.phase.Idle?
    requires later.stamps == now.stamps && later.lost == now.lost && later.phase.Writing?
    requires GenerationOf(later.disk) == GenerationOf(now.disk)
    ensures now.lost <==> now.pidFile.generation > GenerationOf(now.disk)
    ensures now.lost ==> now.pidFile.generation == GenerationOf(now.disk) + 1
    ensures (forall i :: 0 <= i < |now.stamps| ==> now.stamps[i] < GenerationOf(now.disk) + 1) <==> !now.lost
  {
    hide GenerationOf;
  }

  /**
    And so it decides the fence: once the launch after the clearance is reported, a heartbeat of
    the launch cleared away is accepted exactly when that launch's stamp was ahead of the saved
    generation at its clearance.
  */
  lemma ZombieAcceptedIff(policy: Dict -> bool, w: World, history: seq<Action>, clear: Action, actions: seq<Action>, heartbeat: Dict)
    requires Fresh(w) && clear.Clear? && Possible(Run(policy, w, history), clear)
    requires var after := Run(policy, Apply(policy, Run(policy, w, history), clear), actions);
      Launches(after.outcomes) == Launches(Run(policy, w, history).outcomes) + 1
    requires Get(heartbeat, Generation) == Num(Run(policy, w, history).pidFile.generation)
    ensures var now := Run(policy, w, history);
      Accepts(Run(policy, Apply(policy, now, clear), actions).State(), heartbeat) <==> now.pidFile.generation > GenerationOf(now.State())
  {
    hide Apply, Launches, Run, GenerationOf;
    ClearedRun(policy, w, history, clear, actions);
    GenerationCountsLaunches(policy, w, history);
    GenerationCountsLaunches(policy, w, history + [clear] + actions);
  }

  /** Every clearance of the run is taken with that care. */
  predicate Careful(care: Care, policy: Dict -> bool, w: World, actions: seq<Action>) {
    if actions == [] then true
    else
      var m := |actions| - 1;
      Careful(care, policy, w, actions[..m]) && (actions[m].Clear? ==> SparesAll(care, Run(policy, w, actions[..m])))
  }

  lemma {:induction false} NoClearCareful(care: Care, policy: Dict -> bool, w: World, actions: seq<Action>)
    requires NoClear(actions)
    ensures Careful(care, policy, w, actions)
  {
    hide Run;
    if actions != [] {
      NoClearCareful(care, policy, w, actions[..|actions| - 1]);
    }
  }

  lemma {:induction false} CarefulAppend(care: Care, policy: Dict -> bool, w: World, s: seq<Action>, t: seq<Action>)
    requires Careful(care, policy, w, s) && NoClear(t)
    ensures Careful(care, policy, w, s + t)
  {
    hide Run, SparesAll;
    if t == [] {
      assert s + t == s;
    } else {
      CarefulAppend(care, policy, w, s, t[..|t| - 1]);
      assert (s + t)[..|s + t| - 1] == s + t[..|t| - 1];
    }
  }

  lemma CarefulSnoc(care: Care, policy: Dict -> bool, w: World, s: seq<Action>, a: Action)
    requires Careful(care, policy, w, s) && (a.Clear? ==> SparesAll(care, Run(policy, w, s)))
    ensures Careful(care, policy, w, s + [a])
  {
    hide Run, SparesAll;
    assert (s + [a])[..|s|] == s;
  }

  lemma DiesBeforeReport(w: World, w1: World)
    requires Consuming(w, w1) && w.children == map[]
    ensures var k := w.nextToken;
      var w2 := Apply(HonorDesired, Apply(HonorDesired, w1, Die), ChildEnd(k));
      && w2.phase.Idle? && Marked(w, w2, k) && w2.children.Keys == {k} && w2.children[k].gate.Gone? && w2.children[k].execd
  {
    hide GenerationOf;
    var k := w.nextToken;
    var c := w1.children[k].(closed := true);
    assert Apply(HonorDesired, w1, Die) == w1.(children := w1.children[k := c], phase := Idle, lost := true, handles := {});
  }

  /** The supervisor dies after the consumer started and before the report; the consumer ends; the operator clears. */
  lemma LostAndCleared(w: World) returns (actions: seq<Action>)
    requires Fresh(w)
    ensures Careful(NotLive, HonorDesired, w, actions)
    ensures var w' := Run(HonorDesired, w, actions);
      && w'.phase.Idle? && w'.pidFile.Absent? && w'.outcomes == [] && w'.stamps == [GenerationOf(w.disk) + 1]
      && GenerationOf(w'.disk) == GenerationOf(w.disk) && w'.nextToken == w.nextToken + 1
      && w.nextToken in w'.children && w'.children[w.nextToken].execd
  {
    hide Run, Careful, Consuming, GenerationOf;
    var k := w.nextToken;
    actions := Relaunch(w);
    DiesBeforeReport(w, Run(HonorDesired, w, actions));
    hide Apply;
    NoClearCareful(NotLive, HonorDesired, w, actions);
    RunSnoc(HonorDesired, w, actions, Die);
    CarefulSnoc(NotLive, HonorDesired, w, actions, Die);
    actions := actions + [Die];
    RunSnoc(HonorDesired, w, actions, ChildEnd(k));
    CarefulSnoc(NotLive, HonorDesired, w, actions, ChildEnd(k));
    actions := actions + [ChildEnd(k)];
    var clear := Clear(GenerationOf(w.disk) + 1, k, false);
    ClearsMarked(w, Run(HonorDesired, w, actions));
    RunSnoc(HonorDesired, w, actions, clear);
    CarefulSnoc(NotLive, HonorDesired, w, actions, clear);
    actions := actions + [clear];
  }

  lemma ClearsMarked(w: World, w1: World)
    requires w1.phase.Idle? && Marked(w, w1, w.nextToken)
    ensures Apply(HonorDesired, w1, Clear(GenerationOf(w.disk) + 1, w.nextToken, false))
         == w1.(pidFile := Absent, epoch := w1.epoch + 1)
  {
    hide GenerationOf;
  }

  /** The probe finds the child alive, and the launch is reported. */
  lemma Reports(w: World, w1: World)
    requires Consuming(w, w1)
    ensures var t := Tick(0, 0);
      var w2 := Apply(HonorDesired, Apply(HonorDesired, w1, t), t);
      && w2.phase.Idle? && w2.stamps == w1.stamps && w2.children == w1.children && |w2.outcomes| == |w1.outcomes| + 1
      && w2.outcomes[..|w1.outcomes|] == w1.outcomes && w2.outcomes[|w1.outcomes|].act.Spawned?
      && GenerationOf(w2.disk) == GenerationOf(w.disk) + 1
  {
    var t := Tick(0, 0);
    var k := w.nextToken;
    assert Apply(HonorDesired, w1, t) == w1.(phase := SavingLaunch(k, w1.children[k].pid, true, true));
  }

  /**
    It happens: from any unit never launched there is a run, every clearance of it taken with no
    child live, in which two launches carry one stamp, the consumer of the first was executed, and
    a heartbeat of the first is accepted after the second was reported.
  */
  lemma ZombieHeartbeat(w: World) returns (actions: seq<Action>)
    requires Fresh(w)
    ensures Careful(NotLive, HonorDesired, w, actions)
    ensures var w' := Run(HonorDesired, w, actions);
      && w'.phase.Idle? && Launches(w'.outcomes) == 1 && |w'.stamps| == 2 && w'.stamps[0] == w'.stamps[1]
      && w.nextToken in w'.children && w'.children[w.nextToken].execd
      && Accepts(w'.State(), map[Generation := Num(w'.stamps[0])])
  {
    hide Run, Careful, Fresh, Apply, Consuming;
    var t := Tick(0, 0);
    actions := LostAndCleared(w);
    var w1 := Run(HonorDesired, w, actions);
    var again := Relaunch(w1);
    var w2 := Run(HonorDesired, w1, again);
    RunConcat(HonorDesired, w, actions, again);
    CarefulAppend(NotLive, HonorDesired, w, actions, again);
    actions := actions + again;
    Reports(w1, w2);
    RunSnoc(HonorDesired, w, actions, t);
    CarefulSnoc(NotLive, HonorDesired, w, actions, t);
    actions := actions + [t];
    RunSnoc(HonorDesired, w, actions, t);
    CarefulSnoc(NotLive, HonorDesired, w, actions, t);
    actions := actions + [t];
    var w3 := Run(HonorDesired, w, actions);
    GenerationLoaded(w3);
    ConsumingShows(w1, w2);
    LaunchesSnoc([], w3.outcomes[0]);
    assert [] + [w3.outcomes[0]] == w3.outcomes;
  }

  lemma ConsumingShows(w: World, w1: World)
    requires Consuming(w, w1)
    ensures w1.stamps == w.stamps + [GenerationOf(w.disk) + 1] && w1.outcomes == w.outcomes
    ensures forall k :: k in w.children && k != w.nextToken ==> k in w1.children && w1.children[k] == w.children[k]
  {
  }

  // ---------------------------------------------------------------------
  // Runs that lose no launch
  // ---------------------------------------------------------------------

  predicate NeverLost(policy: Dict -> bool, w: World, actions: seq<Action>) {
    !Run(policy, w, actions).lost && (actions != [] ==> NeverLost(policy, w, actions[..|actions| - 1]))
  }

  ghost predicate Consecutive(w: World, g0: int) {
    && |w.stamps| == Launches(w.outcomes) + (if Stamped(w.phase) then 1 else 0)
    && forall i :: 0 <= i < |w.stamps| ==> w.stamps[i] == g0 + 1 + i
  }

  lemma QuietTickConsecutive(w: World, bytes: nat, pid: int, g0: int)
    requires WorldSound(w) && Consecutive(w, g0) && TickEnabled(w, bytes)
    requires Launching(w.phase).None? || w.phase.SavingLaunch?
    ensures Consecutive(TickStep(w, bytes, pid), g0)
  {
    hide ChildrenSound, Launches, Blocked;
    forall o: Outcome
      ensures Launches(w.outcomes + [o]) == Launches(w.outcomes) + if o.act.Spawned? then 1 else 0
    {
      LaunchesSnoc(w.outcomes, o);
    }
  }

  lemma TickConsecutive(w: World, bytes: nat, pid: int, g0: int)
    requires WorldSound(w) && GenerationSound(w, g0) && Consecutive(w, g0) && TickEnabled(w, bytes)
    ensures Consecutive(TickStep(w, bytes, pid), g0)
  {
    hide ChildrenSound, Offered, Launches, Blocked, StampsSound;
    if Launching(w.phase).None? || w.phase.SavingLaunch? {
      QuietTickConsecutive(w, bytes, pid, g0);
    } else {
      hide Finish, Launched, Stop, GenerationOf;
    }
  }

  lemma StepConsecutive(policy: Dict -> bool, w: World, a: Action, g0: int)
    requires WorldSound(w) && GenerationSound(w, g0) && Consecutive(w, g0) && !Apply(policy, w, a).lost
    ensures Consecutive(Apply(policy, w, a), g0)
  {
    hide Launches, Blocked, ReadChild, MergeHeartbeat, World.State, IntOf, GenerationOf;
    if a.Tick? && Possible(w, a) {
      TickConsecutive(w, a.bytes, a.pid, g0);
    }
    hide WorldSound, TickStep, GenerationSound;
  }

  lemma {:induction false} RunConsecutive(policy: Dict -> bool, w: World, actions: seq<Action>)
    requires Fresh(w) && NeverLost(policy, w, actions)
    ensures Consecutive(Run(policy, w, actions), GenerationOf(w.disk))
  {
    if actions != [] {
      hide Apply, GenerationSound, WorldSound, Consecutive;
      var m := |actions| - 1;
      RunConsecutive(policy, w, actions[..m]);
      FreshSound(w);
      RunSound(policy, w, actions[..m]);
      RunGenerationSound(policy, w, actions[..m]);
      StepConsecutive(policy, Run(policy, w, actions[..m]), actions[m], GenerationOf(w.disk));
    }
  }

  /**
    When no launch is lost the stamps are consecutive, and a heartbeat carrying the stamp of
    launch `i` is accepted exactly while that launch is the latest one reported.
  */
  lemma HeartbeatFencing(policy: Dict -> bool, w: World, actions: seq<Action>, i: nat, heartbeat: Dict)
    requires Fresh(w) && NeverLost(policy, w, actions) && i < |Run(policy, w, actions).stamps|
    requires Get(heartbeat, Generation) == Num(Run(policy, w, actions).stamps[i])
    ensures var now := Run(policy, w, actions);
      && now.stamps[i] == GenerationOf(w.State()) + 1 + i
      && (Accepts(now.State(), heartbeat) <==> i + 1 == Launches(now.outcomes))
  {
    hide Apply, Launches, StampsSound, TombstoneStamp, Run;
    RunConsecutive(policy, w, actions);
    RunGenerationSound(policy, w, actions);
  }
}
