/** What the launch protocol guarantees over whole runs. */
module LaunchTheorems {
  import opened Wrappers
  import opened Gate
  import opened Launch
  import opened LaunchSafety

  lemma RunSnoc(policy: Dict -> bool, w: World, actions: seq<Action>, a: Action)
    ensures Run(policy, w, actions + [a]) == Apply(policy, Run(policy, w, actions), a)
  {
    hide Apply;
    assert (actions + [a])[..|actions|] == actions;
  }

  lemma {:induction false} RunConcat(policy: Dict -> bool, w: World, s: seq<Action>, t: seq<Action>)
    ensures Run(policy, w, s + t) == Run(policy, Run(policy, w, s), t)
  {
    hide Apply;
    if t == [] {
      assert s + t == s;
    } else {
      var m := |t| - 1;
      RunConcat(policy, w, s, t[..m]);
      assert (s + t)[..|s + t| - 1] == s + t[..m];
    }
  }

  // ---------------------------------------------------------------------
  // A child runs the consumer only after its pid and token were recorded
  // ---------------------------------------------------------------------

  /** pid.json names this child while its gate has not run the consumer. */
  ghost predicate RecordedAt(w: World, k: nat, pid: int) {
    && k in w.children && !w.children[k].execd && w.children[k].pid == pid
    && w.pidFile.Present? && w.pidFile.token == k && w.pidFile.pid == Some(pid)
  }

  /** Children are never forgotten, and only the persist step records one. */
  lemma ChildKept(policy: Dict -> bool, w: World, a: Action, k: nat)
    requires WorldSound(w)
    ensures k in w.children ==> k in Apply(policy, w, a).children && Follows(w.children[k], Apply(policy, w, a).children[k])
    ensures k in Apply(policy, w, a).persisted && k !in w.persisted ==> w.phase == Persisting(k) && a.Tick? && Possible(w, a)
  {
    hide ChildrenSound, Gate.Receive, MergeHeartbeat, World.State;
    if a.Tick? && Possible(w, a) {
      TickKeeps(w, a, k);
      hide TickStep;
    }
  }

  /** What a step of the pass leaves of the child `k`. */
  ghost predicate Keeps(w: World, w': World, k: nat) {
    && w'.epoch == w.epoch
    && (k in w.children ==> k in w'.children && KeepsChild(w.children[k], w'.children[k]))
    && (k in w'.children && k !in w.children ==> w'.children[k].epoch == w.epoch)
    && (k in w'.persisted && k !in w.persisted ==> w.phase == Persisting(k))
  }

  ghost predicate KeepsChild(c: Child, c': Child) {
    && Follows(c, c') && c'.execd == c.execd && c'.gate == c.gate
    && (c.closed ==> c'.closed && c'.inbox == c.inbox)
  }

  lemma TickKeeps(w: World, a: Action, k: nat)
    requires WorldSound(w) && a.Tick? && Possible(w, a)
    ensures Keeps(w, TickStep(w, a.bytes, a.pid), k)
  {
    hide WorldSound, Keeps, TickStep;
    if Launching(w.phase).None? {
      QuietTickKeeps(w, a, k);
    } else if w.phase.Awaiting? || w.phase.Acking? {
      ChannelTickKeeps(w, a, k);
    } else {
      LaunchTickKeeps(w, a, k);
    }
  }

  lemma ChannelTickKeeps(w: World, a: Action, k: nat)
    requires WorldSound(w) && a.Tick? && Possible(w, a) && (w.phase.Awaiting? || w.phase.Acking?)
    ensures Keeps(w, TickStep(w, a.bytes, a.pid), k)
  {
    hide ChildrenSound, Stop, Finish;
  }

  lemma LaunchTickKeeps(w: World, a: Action, k: nat)
    requires WorldSound(w) && a.Tick? && Possible(w, a)
    requires Launching(w.phase).Some? && !w.phase.Awaiting? && !w.phase.Acking?
    ensures Keeps(w, TickStep(w, a.bytes, a.pid), k)
  {
    hide ChildrenSound, Stop, GenerationOf, CloseChannel;
  }

  lemma QuietTickKeeps(w: World, a: Action, k: nat)
    requires a.Tick? && Possible(w, a) && Launching(w.phase).None?
    ensures Keeps(w, TickStep(w, a.bytes, a.pid), k)
  {
  }

  lemma {:induction false} RecordedEarlier(policy: Dict -> bool, w: World, actions: seq<Action>, k: nat)
    requires Fresh(w) && k in Run(policy, w, actions).persisted
    ensures k in Run(policy, w, actions).children
    ensures exists n :: 0 <= n <= |actions| && RecordedAt(Run(policy, w, actions[..n]), k, Run(policy, w, actions).children[k].pid)
  {
    hide Apply, WorldSound;
    if actions == [] {
    } else {
      var m := |actions| - 1;
      var before, now := Run(policy, w, actions[..m]), Run(policy, w, actions);
      FreshSound(w);
      RunSound(policy, w, actions[..m]);
      RunSound(policy, w, actions);
      assert actions[..|actions|] == actions;
      PersistedHere(now, k);
      ChildKept(policy, before, actions[m], k);
      if k in before.persisted {
        RecordedEarlier(policy, w, actions[..m], k);
        var n :| 0 <= n <= m && RecordedAt(Run(policy, w, actions[..m][..n]), k, before.children[k].pid);
        assert actions[..m][..n] == actions[..n];
      } else {
        PersistRecords(policy, before, actions[m], k);
        assert RecordedAt(Run(policy, w, actions[..|actions|]), k, now.children[k].pid);
      }
    }
  }

  lemma PersistedHere(w: World, k: nat)
    requires WorldSound(w) && k in w.persisted
    ensures k in w.children
  {
  }

  lemma PersistRecords(policy: Dict -> bool, w: World, a: Action, k: nat)
    requires WorldSound(w) && w.phase == Persisting(k) && a.Tick? && Possible(w, a)
    ensures k in w.children && RecordedAt(Apply(policy, w, a), k, w.children[k].pid)
  {
    GateOf(w, k);
    hide ChildrenSound;
  }

  /**
    In any run, with the supervisor stopped at any step and the channel cut into any pieces, a
    child that ran its consumer had its pid and token in pid.json at an earlier moment of the run.
  */
  lemma ExecHasProvenance(policy: Dict -> bool, w: World, actions: seq<Action>, k: nat)
    requires Fresh(w) && k in Run(policy, w, actions).children && Run(policy, w, actions).children[k].execd
    ensures exists n :: 0 <= n < |actions| && RecordedAt(Run(policy, w, actions[..n]), k, Run(policy, w, actions).children[k].pid)
  {
    hide Apply;
    FreshSound(w);
    RunSound(policy, w, actions);
    GateOf(Run(policy, w, actions), k);
    RecordedEarlier(policy, w, actions, k);
    assert actions[..|actions|] == actions;
  }

  /** And when it runs without a clearance since its start, pid.json says so at that very step. */
  lemma ExecUnderRecord(policy: Dict -> bool, w: World, actions: seq<Action>, a: Action, k: nat)
    requires Fresh(w)
    requires k in Run(policy, w, actions + [a]).children && Run(policy, w, actions + [a]).children[k].execd
    requires k in Run(policy, w, actions).children && !Run(policy, w, actions).children[k].execd
    ensures var now := Run(policy, w, actions);
      && now.children[k].Sent() == ACK && k in now.persisted
      && (now.children[k].epoch == now.epoch ==>
            now.pidFile.Present? && now.pidFile.token == k && now.pidFile.pid == Some(now.children[k].pid))
  {
    hide WorldSound;
    var now := Run(policy, w, actions);
    RunSnoc(policy, w, actions, a);
    FreshSound(w);
    RunSound(policy, w, actions);
    OnlyReadsExec(policy, now, a, k);
    GateAt(now, k);
  }

  lemma GateAt(w: World, k: nat)
    requires WorldSound(w) && k in w.children
    ensures GateSound(w.children[k], k, w) && RecordSound(w.children[k], k, w)
  {
  }

  lemma OnlyReadsExec(policy: Dict -> bool, w: World, a: Action, k: nat)
    requires WorldSound(w) && k in w.children && !w.children[k].execd
    requires k in Apply(policy, w, a).children && Apply(policy, w, a).children[k].execd
    ensures Possible(w, a) && a.ChildRead? && a.token == k && Waiting(w.children[k]) && w.children[k].Sent() == ACK
  {
    if OfChild(a) && Possible(w, a) {
      ChildActionApplies(policy, w, a);
      ChildStepSound(w, a);
    }
    hide ChildrenSound, Gate.Receive, MergeHeartbeat, World.State;
    if a.Tick? && Possible(w, a) {
      TickKeeps(w, a, k);
      hide TickStep;
    }
  }

  /** No two children are ever started between the same two clearances, so at most one runs the consumer. */
  lemma OneLaunchBetweenClearances(policy: Dict -> bool, w: World, actions: seq<Action>, j: nat, k: nat)
    requires Fresh(w) && j in Run(policy, w, actions).children && k in Run(policy, w, actions).children
    requires Run(policy, w, actions).children[j].epoch == Run(policy, w, actions).children[k].epoch
    ensures j == k
  {
    hide Apply, GateSound, RecordSound;
    FreshSound(w);
    RunSound(policy, w, actions);
  }

  // ---------------------------------------------------------------------
  // A gate that was not given the whole acknowledgement never runs
  // ---------------------------------------------------------------------

  predicate Harmless(c: Child) {
    c.gate.Gone? || (Waiting(c) && c.closed && c.Sent() != ACK)
  }

  lemma HarmlessChild(policy: Dict -> bool, w: World, a: Action, k: nat)
    requires WorldSound(w) && k in w.children && Harmless(w.children[k]) && OfChild(a) && Possible(w, a)
    ensures k in Apply(policy, w, a).children && Harmless(Apply(policy, w, a).children[k])
    ensures Apply(policy, w, a).children[k].execd == w.children[k].execd
  {
    ChildActionApplies(policy, w, a);
    ChildStepSound(w, a);
    hide ChildrenSound, ChildStep, Apply;
  }

  lemma HarmlessPlain(policy: Dict -> bool, w: World, a: Action, k: nat)
    requires k in w.children && Harmless(w.children[k]) && !OfChild(a) && !a.Tick?
    ensures k in Apply(policy, w, a).children && Harmless(Apply(policy, w, a).children[k])
    ensures Apply(policy, w, a).children[k].execd == w.children[k].execd
  {
    hide MergeHeartbeat, World.State, Blocked;
  }

  lemma HarmlessTick(policy: Dict -> bool, w: World, a: Action, k: nat)
    requires WorldSound(w) && k in w.children && Harmless(w.children[k]) && a.Tick? && Possible(w, a)
    ensures k in Apply(policy, w, a).children && Harmless(Apply(policy, w, a).children[k])
    ensures Apply(policy, w, a).children[k].execd == w.children[k].execd
  {
    hide WorldSound, TickStep;
    TickKeeps(w, a, k);
  }

  lemma HarmlessStays(policy: Dict -> bool, w: World, a: Action, k: nat)
    requires WorldSound(w) && k in w.children && Harmless(w.children[k])
    ensures k in Apply(policy, w, a).children && Harmless(Apply(policy, w, a).children[k])
    ensures Apply(policy, w, a).children[k].execd == w.children[k].execd
  {
    hide WorldSound, Harmless;
    if !Possible(w, a) {
      assert Apply(policy, w, a) == w;
    } else if OfChild(a) {
      HarmlessChild(policy, w, a, k);
    } else if a.Tick? {
      HarmlessTick(policy, w, a, k);
    } else {
      HarmlessPlain(policy, w, a, k);
    }
    hide Apply;
  }

  /** A child whose channel closed on anything but the whole acknowledgement never runs the consumer. */
  lemma {:induction false} AbandonedNeverRuns(policy: Dict -> bool, w: World, actions: seq<Action>, k: nat)
    requires WorldSound(w) && k in w.children && Harmless(w.children[k])
    ensures k in Run(policy, w, actions).children && Harmless(Run(policy, w, actions).children[k])
    ensures Run(policy, w, actions).children[k].execd == w.children[k].execd
  {
    hide WorldSound, Apply, Harmless;
    if actions != [] {
      var m := |actions| - 1;
      AbandonedNeverRuns(policy, w, actions[..m], k);
      RunSound(policy, w, actions[..m]);
      HarmlessStays(policy, Run(policy, w, actions[..m]), actions[m], k);
    }
  }

  // ---------------------------------------------------------------------
  // Clearances and the children they leave behind
  // ---------------------------------------------------------------------

  /** It has the whole acknowledgement and has not read it. */
  predicate Pending(c: Child) {
    Waiting(c) && c.Sent() == ACK
  }

  /** It runs the consumer, or will as soon as it reads. */
  predicate Live(c: Child) {
    c.gate.Running? || Pending(c)
  }

  /** What a clearance waits for: that no child is live, or only that none is pending. */
  datatype Care = NotLive | NotPending

  predicate Spares(care: Care, c: Child) {
    match care
    case NotLive => !Live(c)
    case NotPending => !Pending(c)
  }

  predicate SparesAll(care: Care, w: World) {
    forall k :: k in w.children ==> Spares(care, w.children[k])
  }

  predicate Clears(w: World, a: Action) {
    a.Clear? && Possible(w, a)
  }

  /** The latest clearance of the run, if there is one, was taken with that care. */
  predicate LatestSpared(care: Care, policy: Dict -> bool, w: World, actions: seq<Action>) {
    if actions == [] then true
    else
      var m := |actions| - 1;
      var before := Run(policy, w, actions[..m]);
      if Clears(before, actions[m]) then SparesAll(care, before) else LatestSpared(care, policy, w, actions[..m])
  }

  /** A child left behind by a clearance will never run its consumer from here on. */
  ghost predicate Done(care: Care, c: Child) {
    Harmless(c) || (care.NotPending? && c.execd)
  }

  ghost predicate OldDone(care: Care, w: World) {
    forall k :: k in w.children && w.children[k].epoch != w.epoch ==> Done(care, w.children[k])
  }

  lemma IdleDone(care: Care, w: World, k: nat)
    requires WorldSound(w) && w.phase.Idle? && k in w.children && Spares(care, w.children[k])
    ensures Done(care, w.children[k])
  {
    GateOf(w, k);
  }

  /** Between passes, with every child spared, nothing else is asked of the ones left behind earlier. */
  lemma IdleOldDone(care: Care, w: World)
    requires WorldSound(w) && w.phase.Idle? && SparesAll(care, w)
    ensures OldDone(care, w)
  {
    hide WorldSound, Spares, Done;
    forall k | k in w.children
      ensures Done(care, w.children[k])
    {
      IdleDone(care, w, k);
    }
  }

  lemma DoneStays(care: Care, policy: Dict -> bool, w: World, a: Action, k: nat)
    requires WorldSound(w) && k in w.children && Done(care, w.children[k])
    ensures k in Apply(policy, w, a).children && Done(care, Apply(policy, w, a).children[k])
  {
    hide Harmless, Apply, WorldSound;
    if Harmless(w.children[k]) {
      HarmlessStays(policy, w, a, k);
    } else {
      ExecdStays(policy, w, a, k);
    }
  }

  lemma ExecdStays(policy: Dict -> bool, w: World, a: Action, k: nat)
    requires WorldSound(w) && k in w.children && w.children[k].execd
    ensures k in Apply(policy, w, a).children && Apply(policy, w, a).children[k].execd
  {
    hide ChildrenSound, Gate.Receive, MergeHeartbeat, World.State;
    if a.Tick? && Possible(w, a) {
      TickKeeps(w, a, k);
      hide TickStep;
    }
  }

  lemma OldDoneStep(care: Care, policy: Dict -> bool, w: World, a: Action)
    requires WorldSound(w) && OldDone(care, w) && (Clears(w, a) ==> SparesAll(care, w))
    ensures OldDone(care, Apply(policy, w, a))
  {
    hide WorldSound, Done, Spares;
    var w' := Apply(policy, w, a);
    forall k | k in w'.children && w'.children[k].epoch != w'.epoch
      ensures Done(care, w'.children[k])
    {
      NewChildCurrent(policy, w, a, k);
      if a.Clear? && Possible(w, a) {
        IdleDone(care, w, k);
      } else {
        DoneStays(care, policy, w, a, k);
      }
    }
  }

  /** A child no one has cleared behind is new or was there before, and only a clearance makes it old. */
  lemma NewChildCurrent(policy: Dict -> bool, w: World, a: Action, k: nat)
    requires WorldSound(w) && k in Apply(policy, w, a).children
    requires Apply(policy, w, a).children[k].epoch != Apply(policy, w, a).epoch
    ensures k in w.children
    ensures !(a.Clear? && Possible(w, a)) ==> w.children[k].epoch != w.epoch
  {
    hide ChildrenSound, Gate.Receive, MergeHeartbeat, World.State;
    if a.Tick? && Possible(w, a) {
      TickKeeps(w, a, k);
      hide TickStep;
    }
  }

  /** However earlier clearances were taken. */
  lemma {:induction false} LatestOldDone(care: Care, policy: Dict -> bool, w: World, actions: seq<Action>)
    requires WorldSound(w) && OldDone(care, w) && LatestSpared(care, policy, w, actions)
    ensures OldDone(care, Run(policy, w, actions))
  {
    hide WorldSound, OldDone, Apply, SparesAll;
    if actions != [] {
      var m := |actions| - 1;
      var before := Run(policy, w, actions[..m]);
      RunSound(policy, w, actions[..m]);
      if Clears(before, actions[m]) {
        IdleOldDone(care, before);
      } else {
        LatestOldDone(care, policy, w, actions[..m]);
      }
      OldDoneStep(care, policy, before, actions[m]);
    }
  }

  /** The epoch counts the clearances. */
  lemma EpochMoves(policy: Dict -> bool, w: World, a: Action)
    requires WorldSound(w)
    ensures Apply(policy, w, a).epoch == w.epoch + if Clears(w, a) then 1 else 0
  {
    hide ChildrenSound, Gate.Receive, MergeHeartbeat, World.State, ReadChild;
    if a.Tick? && Possible(w, a) {
      TickKeeps(w, a, 0);
      hide TickStep;
    }
  }

  /** Within one epoch the latest clearance is the same one. */
  lemma {:induction false} SameLatest(care: Care, policy: Dict -> bool, w: World, s: seq<Action>, t: seq<Action>)
    requires WorldSound(w)
    ensures Run(policy, w, s).epoch <= Run(policy, w, s + t).epoch
    ensures Run(policy, w, s).epoch == Run(policy, w, s + t).epoch && LatestSpared(care, policy, w, s + t) ==>
      LatestSpared(care, policy, w, s)
  {
    if t == [] {
      assert s + t == s;
    } else {
      hide WorldSound, Apply, SparesAll, Clears;
      var rest, a := t[..|t| - 1], t[|t| - 1];
      assert (s + t)[..|s + t| - 1] == s + rest && (s + t)[|s + t| - 1] == a;
      SameLatest(care, policy, w, s, rest);
      RunSound(policy, w, s + rest);
      EpochMoves(policy, Run(policy, w, s + rest), a);
    }
  }

  predicate NoClear(actions: seq<Action>) {
    forall a :: a in actions ==> !a.Clear?
  }

  lemma {:induction false} NoClearSpares(care: Care, policy: Dict -> bool, w: World, actions: seq<Action>)
    requires NoClear(actions)
    ensures LatestSpared(care, policy, w, actions)
  {
    hide Run, SparesAll;
    if actions != [] {
      NoClearSpares(care, policy, w, actions[..|actions| - 1]);
    }
  }

  // ---------------------------------------------------------------------
  // Two consumers alive together
  // ---------------------------------------------------------------------

  /** At most one child runs the consumer, and pid.json records it. */
  ghost predicate OneAlive(w: World) {
    && (forall j, k :: j in w.children && k in w.children && w.children[j].gate.Running? && w.children[k].gate.Running? ==> j == k)
    && (forall k :: k in w.children && w.children[k].gate.Running? ==>
          w.pidFile.Present? && w.pidFile.token == k && w.pidFile.pid == Some(w.children[k].pid))
  }

  lemma OldHarmlessAlone(w: World)
    requires WorldSound(w) && OldDone(NotLive, w)
    ensures OneAlive(w)
  {
    forall k | k in w.children && w.children[k].gate.Running?
      ensures w.children[k].epoch == w.epoch
      ensures w.pidFile.Present? && w.pidFile.token == k && w.pidFile.pid == Some(w.children[k].pid)
    {
      GateOf(w, k);
    }
  }

  /**
    Two consumers are not alive together unless a child was live when the latest tombstone was
    cleared, however the earlier ones were.
  */
  lemma AtMostOneAlive(policy: Dict -> bool, w: World, actions: seq<Action>)
    requires Fresh(w) && LatestSpared(NotLive, policy, w, actions)
    ensures OneAlive(Run(policy, w, actions))
  {
    hide Apply, WorldSound, OneAlive;
    FreshSound(w);
    RunSound(policy, w, actions);
    LatestOldDone(NotLive, policy, w, actions);
    OldHarmlessAlone(Run(policy, w, actions));
  }

  // ---------------------------------------------------------------------
  // A tombstone fails closed
  // ---------------------------------------------------------------------

  /** What nothing but a clearance may change once pid.json is there and no launch is under way. */
  ghost predicate Closed(w: World, w': World) {
    && (w'.phase.Idle? || w'.phase.Stopping? || w'.phase.SavingBlocked?)
    && w'.children.Keys == w.children.Keys && w'.stamps == w.stamps && w'.persisted == w.persisted
    && (w.pidFile.Garbled? ==> w'.pidFile.Garbled?)
    && (w.pidFile.Present? ==> w'.pidFile == w.pidFile.(stopRequested := w'.pidFile.Present? && w'.pidFile.stopRequested))
    && GenerationOf(w'.disk) == GenerationOf(w.disk)
    && (!w'.phase.Idle? ==> GenerationOf(w'.loaded) == GenerationOf(w.disk))
  }

  lemma StepClosed(policy: Dict -> bool, w: World, w1: World, a: Action)
    requires !w.pidFile.Absent? && Closed(w, w1) && !a.Clear?
    ensures Closed(w, Apply(policy, w1, a))
  {
    if a.SetDesired? || a.Heartbeat? {
      SavesState(policy, w1, a);
      hide Apply;
    } else {
      GenerationLoaded(w1);
      hide World.State;
    }
    hide ReadChild, Launched, MergeHeartbeat, IntOf;
  }

  /**
    From a unit with a tombstone, whatever is desired, reported, stopped or restarted, no further
    child is started, nothing is adopted or stamped, and pid.json keeps its provenance until an
    operator clears it.
  */
  lemma {:induction false} TombstoneFailsClosed(policy: Dict -> bool, w: World, actions: seq<Action>)
    requires !w.pidFile.Absent? && w.phase.Idle? && NoClear(actions)
    ensures Closed(w, Run(policy, w, actions))
  {
    if actions != [] {
      hide Closed, Apply;
      var m := |actions| - 1;
      TombstoneFailsClosed(policy, w, actions[..m]);
      StepClosed(policy, w, Run(policy, w, actions[..m]), actions[m]);
    } else {
      assert Run(policy, w, actions) == w;
    }
  }

  /**
    A "spawned" outcome is true: it names the child pid.json is about and the generation that is
    saved with it, and it says alive only of a child whose pid is on record.
  */
  lemma SpawnedOutcomeIsTrue(policy: Dict -> bool, w: World, actions: seq<Action>, bytes: nat, pid: int)
    requires Fresh(w) && Run(policy, w, actions).phase.SavingLaunch?
    ensures var now := Run(policy, w, actions);
      var next := Apply(policy, now, Tick(bytes, pid));
      var k := now.phase.token;
      && next.outcomes == now.outcomes + [next.outcomes[|now.outcomes|]]
      && k in next.children && next.pidFile.Present? && next.pidFile.token == k
      && var o := next.outcomes[|now.outcomes|];
         && o.act.Spawned? && o.pid == Some(next.children[k].pid)
         && o.generation == next.pidFile.generation == GenerationOf(next.State()) == GenerationOf(now.State()) + 1
         && (o.alive ==> k in next.persisted && o.actual == RUNNING && !o.degraded)
         && (!o.alive ==> o.actual == UNKNOWN && o.degraded)
  {
    hide ChildrenSound, Run;
    FreshSound(w);
    RunSound(policy, w, actions);
  }

  // ---------------------------------------------------------------------
  // One run of the consumer between two clearances
  // ---------------------------------------------------------------------

  /** This action makes the child run its consumer. */
  ghost predicate Execs(policy: Dict -> bool, w: World, a: Action, k: nat) {
    && k in w.children && !w.children[k].execd
    && k in Apply(policy, w, a).children && Apply(policy, w, a).children[k].execd
  }

  lemma {:induction false} RunKeeps(policy: Dict -> bool, w: World, actions: seq<Action>, k: nat)
    requires WorldSound(w) && k in w.children
    ensures k in Run(policy, w, actions).children && Follows(w.children[k], Run(policy, w, actions).children[k])
    ensures w.children[k].execd ==> Run(policy, w, actions).children[k].execd
  {
    if actions != [] {
      hide WorldSound, Apply;
      var m := |actions| - 1;
      RunKeeps(policy, w, actions[..m], k);
      RunSound(policy, w, actions[..m]);
      ChildKept(policy, Run(policy, w, actions[..m]), actions[m], k);
      if w.children[k].execd {
        ExecdStays(policy, Run(policy, w, actions[..m]), actions[m], k);
      }
    }
  }

  /** When the latest clearance left no pending child, only a child started since then can run its consumer. */
  lemma ExecInOwnEpoch(policy: Dict -> bool, w: World, actions: seq<Action>, a: Action, k: nat)
    requires Fresh(w) && LatestSpared(NotPending, policy, w, actions) && Execs(policy, Run(policy, w, actions), a, k)
    ensures Run(policy, w, actions).children[k].epoch == Run(policy, w, actions).epoch
  {
    hide Apply, WorldSound, Run;
    FreshSound(w);
    RunSound(policy, w, actions);
    LatestOldDone(NotPending, policy, w, actions);
    OnlyReadsExec(policy, Run(policy, w, actions), a, k);
  }

  /** So any two executions of a consumer have a clearance between them, unless a child was pending at the latest one. */
  lemma OneExecBetweenClearances(
    policy: Dict -> bool, w: World, first: seq<Action>, a: Action, second: seq<Action>, b: Action, j: nat, k: nat)
    requires Fresh(w) && LatestSpared(NotPending, policy, w, first + [a] + second)
    requires Execs(policy, Run(policy, w, first), a, j)
    requires Execs(policy, Run(policy, w, first + [a] + second), b, k)
    ensures Run(policy, w, first).epoch < Run(policy, w, first + [a] + second).epoch
  {
    hide WorldSound, Run, LatestSpared, Apply;
    var now, later := Run(policy, w, first), Run(policy, w, first + [a] + second);
    FreshSound(w);
    RunSound(policy, w, first);
    RunSound(policy, w, first + [a]);
    RunSnoc(policy, w, first, a);
    RunConcat(policy, w, first + [a], second);
    assert first + [a] + second == first + ([a] + second);
    SameLatest(NotPending, policy, w, first, [a] + second);
    if now.epoch == later.epoch {
      ExecInOwnEpoch(policy, w, first, a, j);
      ExecInOwnEpoch(policy, w, first + [a] + second, b, k);
      ChildKept(policy, now, a, j);
      RunKeeps(policy, Apply(policy, now, a), second, j);
      OneLaunchBetweenClearances(policy, w, first + [a] + second, j, k);
    }
  }
}
