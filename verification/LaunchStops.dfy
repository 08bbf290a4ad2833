/** A direct stop reads and rewrites pid.json without the unit lock: exactly when that is as good as one step. */
module LaunchStops {
  import opened Wrappers
  import opened Launch
  import opened LaunchSafety
  import opened LaunchTheorems
  import opened LaunchClearance

  /** The write of a stop that read `snapshot` some time ago; it replaces the file, whatever is there now. */
  function StopWrites(w: World, snapshot: PidFile): World
    requires snapshot.Present?
  {
    w.(pidFile := snapshot.(stopRequested := true))
  }

  /** A tombstone has a pid exactly when its child was recorded. */
  ghost predicate PidSound(w: World) {
    w.pidFile.Present? ==> (w.pidFile.pid.Some? <==> w.pidFile.token in w.persisted) && w.pidFile.token < w.nextToken
  }

  lemma QuietTickPidSound(w: World, bytes: nat, pid: int)
    requires PidSound(w) && TickEnabled(w, bytes) && (Launching(w.phase).None? || w.phase.SavingLaunch?)
    ensures PidSound(TickStep(w, bytes, pid))
  {
    hide GenerationOf, Launched, Refused;
  }

  lemma LaunchTickPidSound(w: World, bytes: nat, pid: int)
    requires WorldSound(w) && PidSound(w) && TickEnabled(w, bytes)
    requires Launching(w.phase).Some? && !w.phase.SavingLaunch?
    ensures PidSound(TickStep(w, bytes, pid))
  {
    PersistedBelow(w);
    hide ChildrenSound, GenerationOf, Stop, Finish, Undecided, CloseChannel;
  }

  lemma TickPidSound(w: World, bytes: nat, pid: int)
    requires WorldSound(w) && PidSound(w) && TickEnabled(w, bytes)
    ensures PidSound(TickStep(w, bytes, pid))
  {
    hide WorldSound, PidSound, TickStep;
    if Launching(w.phase).None? || w.phase.SavingLaunch? {
      QuietTickPidSound(w, bytes, pid);
    } else {
      LaunchTickPidSound(w, bytes, pid);
    }
  }

  lemma PersistedBelow(w: World)
    requires WorldSound(w)
    ensures forall k :: k in w.persisted ==> k in w.children && k < w.nextToken
  {
    forall k | k in w.persisted
      ensures k in w.children && k < w.nextToken
    {
      GateOf(w, k);
    }
  }

  lemma StepPidSound(policy: Dict -> bool, w: World, a: Action)
    requires WorldSound(w) && PidSound(w)
    ensures PidSound(Apply(policy, w, a))
  {
    hide WorldSound, MergeHeartbeat, World.State, ReadChild, Blocked;
    if a.Tick? && Possible(w, a) {
      TickPidSound(w, a.bytes, a.pid);
      hide TickStep;
    }
  }

  lemma {:induction false} RunPidSound(policy: Dict -> bool, w: World, actions: seq<Action>)
    requires Fresh(w)
    ensures PidSound(Run(policy, w, actions))
  {
    if actions != [] {
      hide WorldSound, PidSound, Apply;
      var m := |actions| - 1;
      RunPidSound(policy, w, actions[..m]);
      FreshSound(w);
      RunSound(policy, w, actions[..m]);
      StepPidSound(policy, Run(policy, w, actions[..m]), actions[m]);
    }
  }

  /** A token never comes back: while pid.json has it, only the record of its child changes the provenance. */
  ghost predicate Tracks(w: World, w': World)
    requires w.pidFile.Present?
  {
    var k := w.pidFile.token;
    && w.persisted <= w'.persisted && k < w'.nextToken
    && (w'.phase.Fencing? || w'.phase.Writing? ==> w'.phase.token != k)
    && (w'.pidFile.Present? && w'.pidFile.token == k ==>
          && w'.pidFile.generation == w.pidFile.generation
          && (k in w.persisted || k !in w'.persisted ==> w'.pidFile.pid == w.pidFile.pid))
  }

  lemma QuietTickTracks(w: World, w1: World, bytes: nat, pid: int)
    requires w.pidFile.Present? && Tracks(w, w1) && WorldSound(w1) && TickEnabled(w1, bytes)
    requires Launching(w1.phase).None? || w1.phase.SavingLaunch?
    ensures Tracks(w, TickStep(w1, bytes, pid))
  {
    hide ChildrenSound, GenerationOf, Launched, Refused, Blocked;
  }

  lemma LaunchTickTracks(w: World, w1: World, bytes: nat, pid: int)
    requires w.pidFile.Present? && Tracks(w, w1) && WorldSound(w1) && TickEnabled(w1, bytes)
    requires Launching(w1.phase).Some? && !w1.phase.SavingLaunch?
    ensures Tracks(w, TickStep(w1, bytes, pid))
  {
    hide ChildrenSound, GenerationOf, Undecided, Stop, Finish, Launched, Refused;
  }

  lemma TickTracks(w: World, w1: World, bytes: nat, pid: int)
    requires w.pidFile.Present? && Tracks(w, w1) && WorldSound(w1) && TickEnabled(w1, bytes)
    ensures Tracks(w, TickStep(w1, bytes, pid))
  {
    hide Tracks, WorldSound, TickStep;
    if Launching(w1.phase).None? || w1.phase.SavingLaunch? {
      QuietTickTracks(w, w1, bytes, pid);
    } else {
      LaunchTickTracks(w, w1, bytes, pid);
    }
  }

  lemma StepTracks(policy: Dict -> bool, w: World, w1: World, a: Action)
    requires w.pidFile.Present? && Tracks(w, w1) && WorldSound(w1)
    ensures Tracks(w, Apply(policy, w1, a))
  {
    hide WorldSound, MergeHeartbeat, World.State, ReadChild, Blocked;
    if a.Tick? && Possible(w1, a) {
      TickTracks(w, w1, a.bytes, a.pid);
      hide TickStep;
    }
  }

  lemma {:induction false} RunTracks(policy: Dict -> bool, w: World, actions: seq<Action>)
    requires WorldSound(w) && PidSound(w) && w.pidFile.Present?
    ensures Tracks(w, Run(policy, w, actions))
  {
    if actions == [] {
      hide ChildrenSound, GenerationOf;
    } else {
      hide WorldSound, Tracks, Apply;
      var m := |actions| - 1;
      RunTracks(policy, w, actions[..m]);
      RunSound(policy, w, actions[..m]);
      StepTracks(policy, w, Run(policy, w, actions[..m]), actions[m]);
    }
  }

  /**
    A direct stop whose write comes after whatever `second` did leaves pid.json as a stop in one
    step at that time would if and only if in between no operator cleared the tombstone and no
    pass recorded its child: otherwise it brings back a cleared tombstone, overwrites a later one,
    or takes back the record of the pid.
  */
  lemma StraddlingStopIff(policy: Dict -> bool, w: World, first: seq<Action>, second: seq<Action>)
    requires Fresh(w) && Run(policy, w, first).pidFile.Present?
    ensures var now := Run(policy, w, first);
      var later := Run(policy, now, second);
      var k := now.pidFile.token;
      StopWrites(later, now.pidFile).pidFile == Stop(later).0.pidFile <==>
        later.pidFile.Present? && later.pidFile.token == k && (k in later.persisted ==> k in now.persisted)
  {
    hide WorldSound, Run, Apply;
    var now := Run(policy, w, first);
    FreshSound(w);
    RunSound(policy, w, first);
    RunPidSound(policy, w, first);
    RunTracks(policy, now, second);
    RunConcat(policy, w, first, second);
    RunPidSound(policy, w, first + second);
  }

  // ---------------------------------------------------------------------
  // Late stops that do harm
  // ---------------------------------------------------------------------

  /** While its child waits to be recorded, the tombstone has no pid. */
  lemma UnrecordedPid(w: World)
    requires WorldSound(w) && PidSound(w) && w.phase.Awaiting?
    ensures w.pidFile.Present? && w.pidFile.token == w.phase.token && w.pidFile.pid.None?
  {
    hide ChildrenSound;
  }

  /** A child that ran its consumer and that pid.json is about is recorded there. */
  lemma RecordedPid(w: World, k: nat)
    requires WorldSound(w) && PidSound(w) && k in w.children && w.children[k].execd
    requires w.pidFile.Present? && w.pidFile.token == k
    ensures w.pidFile.pid.Some?
  {
    GateOf(w, k);
  }

  /**
    From every unit never launched: a stop that read the intent and writes after the record takes
    the record back while the consumer runs.
  */
  lemma StopTakesBackRecord(w: World) returns (first: seq<Action>, second: seq<Action>)
    requires Fresh(w)
    ensures var now := Run(HonorDesired, w, first);
      var later := Run(HonorDesired, now, second);
      && now.pidFile.Present? && later.pidFile.Present? && later.pidFile.token == now.pidFile.token
      && later.pidFile.token in later.children && later.children[later.pidFile.token].gate.Running?
      && later.pidFile.pid.Some? && StopWrites(later, now.pidFile).pidFile.pid.None?
  {
    hide Run, Apply, WorldSound, PidSound, Booted, Consuming;
    first := BootChild(w);
    var now := Run(HonorDesired, w, first);
    BootedThere(w, now);
    second := FinishLaunch(w, now);
    var later := Run(HonorDesired, now, second);
    ConsumingRuns(w, later);
    FreshSound(w);
    RunSound(HonorDesired, w, first);
    RunSound(HonorDesired, now, second);
    RunPidSound(HonorDesired, w, first);
    UnrecordedPid(now);
    RunConcat(HonorDesired, w, first, second);
    RunPidSound(HonorDesired, w, first + second);
    RecordedPid(later, w.nextToken);
  }

  lemma ConsumingRuns(w: World, w1: World)
    requires Consuming(w, w1)
    ensures var k := w.nextToken;
      && w1.pidFile.Present? && w1.pidFile.token == k
      && k in w1.children && w1.children[k].gate.Running? && w1.children[k].execd
  {
  }

  /**
    And a stop that read a tombstone and writes after its clearance brings it back, or overwrites
    the one of the launch that followed.
  */
  lemma StopBringsBackTombstone(w: World) returns (first: seq<Action>, clear: Action, second: seq<Action>)
    requires Fresh(w)
    ensures var now := Run(HonorDesired, w, first);
      var cleared := Run(HonorDesired, now, [clear]);
      var later := Run(HonorDesired, now, [clear] + second);
      && now.pidFile.Present? && clear.Clear? && Possible(now, clear) && cleared.pidFile.Absent?
      && StopWrites(cleared, now.pidFile).pidFile.Present?
      && later.pidFile.Present? && later.pidFile.token != now.pidFile.token
      && StopWrites(later, now.pidFile).pidFile.token == now.pidFile.token
  {
    hide Run, Pending, Consuming, GenerationOf, WorldSound, PidSound;
    first, clear := PendingHistory(w);
    var now := Run(HonorDesired, w, first);
    RunSnoc(HonorDesired, now, [], clear);
    RunEmpty(now);
    assert [] + [clear] == [clear];
    var cleared := Run(HonorDesired, now, [clear]);
    second := Relaunch(cleared);
    RunConcat(HonorDesired, now, [clear], second);
    ConsumingRuns(cleared, Run(HonorDesired, cleared, second));
    RunPidSound(HonorDesired, w, first);
    TokenBelow(now);
  }

  lemma TokenBelow(w: World)
    requires PidSound(w) && w.pidFile.Present?
    ensures w.pidFile.token < w.nextToken
  {
  }
}
