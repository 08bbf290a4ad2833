/** Exactly when an operator clearance is safe: when no child of the unit is live; and that it may not be. */
module LaunchClearance {
  import opened Wrappers
  import opened Gate
  import opened Launch
  import opened LaunchSafety
  import opened LaunchTheorems

  // ---------------------------------------------------------------------
  // A second launch beside a live child
  // ---------------------------------------------------------------------

  /** The child `j` runs its consumer. */
  ghost predicate Beside(w: World, j: nat) {
    j in w.children && w.children[j].gate.Running?
  }

  /** The old child decides: it is running, or reads the acknowledgement waiting for it. */
  lemma OldRuns(w: World, j: nat) returns (actions: seq<Action>)
    requires WorldSound(w) && j in w.children && Live(w.children[j]) && w.phase.Idle? && w.pidFile.Absent?
    ensures NoClear(actions)
    ensures var w' := Run(HonorDesired, w, actions);
      w'.phase.Idle? && w'.pidFile.Absent? && w'.nextToken == w.nextToken && Beside(w', j)
  {
    GateAt(w, j);
    RunEmpty(w);
    hide WorldSound, Apply, Run, RecordSound;
    actions := [];
    if w.children[j].gate.Booting? {
      BootsUp(w, j);
      actions := Extend(w, actions, ChildReady(j));
    }
    var now := Run(HonorDesired, w, actions);
    if now.children[j].gate.Reading? {
      ReadsAll(now, j);
      actions := Extend(w, actions, ChildRead(j, |now.children[j].inbox|));
    }
  }

  lemma BootsUp(w: World, j: nat)
    requires j in w.children && w.children[j].gate.Booting?
    ensures var w' := Apply(HonorDesired, w, ChildReady(j));
      && w'.phase == w.phase && w'.pidFile == w.pidFile && w'.nextToken == w.nextToken && j in w'.children
      && w'.children[j].gate == Reading("") && w'.children[j].Sent() == w.children[j].Sent()
  {
  }

  lemma ReadsAll(w: World, j: nat)
    requires j in w.children && w.children[j].gate.Reading? && w.children[j].Sent() == ACK && !EndsLine(w.children[j].gate.ack)
    ensures var w' := Apply(HonorDesired, w, ChildRead(j, |w.children[j].inbox|));
      w'.phase == w.phase && w'.pidFile == w.pidFile && w'.nextToken == w.nextToken && Beside(w', j)
  {
    var c := w.children[j];
    SomethingLeft(c.gate.ack, c.inbox);
    assert c.inbox[..|c.inbox|] == c.inbox;
  }

  lemma SomethingLeft(ack: string, rest: string)
    requires ack + rest == ACK && !EndsLine(ack)
    ensures 0 < |rest| <= 4
  {
    assert rest == "" ==> ack + rest == ack;
    assert EndsLine(ack + rest);
  }

  /** One more action of the script. */
  lemma Extend(w: World, actions: seq<Action>, a: Action) returns (more: seq<Action>)
    requires NoClear(actions) && !a.Clear?
    ensures NoClear(more) && Run(HonorDesired, w, more) == Apply(HonorDesired, Run(HonorDesired, w, actions), a)
  {
    RunSnoc(HonorDesired, w, actions, a);
    more := actions + [a];
  }

  /** A pass that started from `w` stands at the fence. */
  ghost predicate Fenced(w: World, w': World, k: nat) {
    && w'.phase == Fencing(k) && w'.pidFile.Absent? && w'.children == w.children && w'.nextToken == k + 1
    && Since(w, w') && w'.stamps == w.stamps
  }

  /** What no step of a launch before its report changes. */
  ghost predicate Since(w: World, w': World) {
    && w'.epoch == w.epoch && w'.outcomes == w.outcomes
    && GenerationOf(w'.disk) == GenerationOf(w'.loaded) == GenerationOf(w.disk)
  }

  /** The child has booted, and the stamp and the tombstone are there. */
  ghost predicate Booted(w: World, w': World, k: nat) {
    && Marked(w, w', k) && k in w'.children && w'.children == w.children[k := w'.children[k]]
    && w'.children[k].gate == Reading("") && w'.children[k].ready && !w'.children[k].execd
  }

  ghost predicate Marked(w: World, w': World, k: nat) {
    && Since(w, w') && w'.stamps == w.stamps + [GenerationOf(w.disk) + 1] && w'.nextToken == k + 1
    && w'.pidFile.Present? && w'.pidFile.token == k && w'.pidFile.generation == GenerationOf(w.disk) + 1
  }

  lemma PassBegins(w: World)
    requires w.phase.Idle? && w.pidFile.Absent?
    ensures Fenced(w, Apply(HonorDesired, Apply(HonorDesired, w, SetDesired("enabled")), Begin), w.nextToken)
  {
    SavesState(HonorDesired, w, SetDesired("enabled"));
    var w1 := Apply(HonorDesired, w, SetDesired("enabled"));
    GenerationLoaded(w);
    GenerationLoaded(w1);
    assert HonorDesired(w1.State());
  }

  lemma ChildBoots(w: World, w1: World, k: nat)
    requires Fenced(w, w1, k)
    ensures var t := Tick(0, 0);
      var w2 := Apply(HonorDesired, Apply(HonorDesired, Apply(HonorDesired, w1, t), t), t);
      var w3 := Apply(HonorDesired, w2, ChildReady(k));
      w3.phase == Awaiting(k) && Booted(w, w3, k) && w3.children[k].inbox == ""
  {
    hide GenerationOf;
  }

  lemma ChildRecorded(w: World, w1: World, k: nat)
    requires w1.phase == Awaiting(k) && Booted(w, w1, k) && w1.children[k].inbox == ""
    ensures var w2 := Apply(HonorDesired, Apply(HonorDesired, w1, Tick(6, 0)), Tick(0, 0));
      w2.phase == Owning(k) && Booted(w, w2, k) && w2.children[k].inbox == ""
  {
    hide GenerationOf;
    assert Apply(HonorDesired, w1, Tick(6, 0)) == w1.(phase := Persisting(k));
  }

  lemma ChildAcknowledged(w: World, w1: World, k: nat)
    requires w1.phase == Owning(k) && Booted(w, w1, k) && w1.children[k].inbox == ""
    ensures var w2 := Apply(HonorDesired, Apply(HonorDesired, w1, Tick(0, 0)), Tick(4, 0));
      w2.phase == Probing(k) && Booted(w, w2, k) && w2.children[k].inbox == ACK
  {
    hide GenerationOf;
    assert Apply(HonorDesired, w1, Tick(0, 0)) == w1.(phase := Acking(k, 0), handles := w1.handles + {k});
    assert "" + ACK[0..0 + 4] == ACK;
  }

  /** The consumer of a new child runs; nothing is reported yet. */
  ghost predicate Consuming(w: World, w': World) {
    var k := w.nextToken;
    && w'.phase == Probing(k) && Marked(w, w', k) && k in w'.children && w'.children[k].gate.Running?
    && w'.children == w.children[k := w'.children[k]] && w'.children[k].execd
  }

  lemma ReadsAck(w: World, w1: World, k: nat)
    requires w1.phase == Probing(k) && k == w.nextToken && Booted(w, w1, k) && w1.children[k].inbox == ACK
    ensures Consuming(w, Apply(HonorDesired, w1, ChildRead(k, 4)))
  {
    hide GenerationOf;
    assert w1.children[k].inbox[..4] == ACK && "" + ACK == ACK;
  }

  /** From any idle unit without a tombstone: a pass up to the child's READY. */
  lemma BootChild(w: World) returns (actions: seq<Action>)
    requires w.phase.Idle? && w.pidFile.Absent?
    ensures NoClear(actions)
    ensures var k, w' := w.nextToken, Run(HonorDesired, w, actions);
      w'.phase == Awaiting(k) && Booted(w, w', k) && w'.children[k].inbox == ""
  {
    hide Apply, Run, Fenced, Booted;
    var k, t := w.nextToken, Tick(0, 0);
    assert Run(HonorDesired, w, []) == w by { RunEmpty(w); }
    actions := Extend(w, [], SetDesired("enabled"));
    actions := Extend(w, actions, Begin);
    PassBegins(w);
    ChildBoots(w, Run(HonorDesired, w, actions), k);
    actions := Extend(w, actions, t);
    actions := Extend(w, actions, t);
    actions := Extend(w, actions, t);
    actions := Extend(w, actions, ChildReady(k));
  }

  /** Its pid is recorded, and the whole acknowledgement sent. */
  lemma OfferAck(w: World, w1: World) returns (actions: seq<Action>)
    requires var k := w.nextToken; w1.phase == Awaiting(k) && Booted(w, w1, k) && w1.children[k].inbox == ""
    ensures NoClear(actions)
    ensures var k, w' := w.nextToken, Run(HonorDesired, w1, actions);
      w'.phase == Probing(k) && Booted(w, w', k) && w'.children[k].inbox == ACK
  {
    hide Apply, Run;
    var k, t := w.nextToken, Tick(0, 0);
    assert Run(HonorDesired, w1, []) == w1 by { RunEmpty(w1); }
    ChildRecorded(w, w1, k);
    actions := Extend(w1, [], Tick(6, 0));
    actions := Extend(w1, actions, t);
    ChildAcknowledged(w, Run(HonorDesired, w1, actions), k);
    actions := Extend(w1, actions, t);
    actions := Extend(w1, actions, Tick(4, 0));
  }

  /** The whole acknowledgement, and the child reads it. */
  lemma FinishLaunch(w: World, w1: World) returns (actions: seq<Action>)
    requires var k := w.nextToken; w1.phase == Awaiting(k) && Booted(w, w1, k) && w1.children[k].inbox == ""
    ensures NoClear(actions) && Consuming(w, Run(HonorDesired, w1, actions))
  {
    hide Apply, Run, Consuming;
    actions := OfferAck(w, w1);
    ReadsAck(w, Run(HonorDesired, w1, actions), w.nextToken);
    actions := Extend(w1, actions, ChildRead(w.nextToken, 4));
  }

  /** From any idle unit without a tombstone a whole launch fits in before the next clearance. */
  lemma Relaunch(w: World) returns (actions: seq<Action>)
    requires w.phase.Idle? && w.pidFile.Absent?
    ensures NoClear(actions) && Consuming(w, Run(HonorDesired, w, actions))
  {
    hide Apply, Run, Booted, Consuming;
    var first := BootChild(w);
    BootedThere(w, Run(HonorDesired, w, first));
    var second := FinishLaunch(w, Run(HonorDesired, w, first));
    RunConcat(HonorDesired, w, first, second);
    actions := first + second;
  }

  lemma BootedThere(w: World, w1: World)
    requires Booted(w, w1, w.nextToken)
    ensures w.nextToken in w1.children
  {
  }

  lemma RunEmpty(w: World)
    ensures Run(HonorDesired, w, []) == w
  {
  }

  /** The live child `j` runs, and so does the child of a new launch. */
  lemma BothRun(w: World, j: nat) returns (actions: seq<Action>)
    requires WorldSound(w) && w.phase.Idle? && w.pidFile.Absent? && j in w.children && Live(w.children[j])
    ensures NoClear(actions)
    ensures var w' := Run(HonorDesired, w, actions);
      && Beside(w', j) && Beside(w', w.nextToken) && j != w.nextToken && w.nextToken !in w.children
  {
    hide WorldSound, Live, Apply, Run;
    var first := OldRuns(w, j);
    var w1 := Run(HonorDesired, w, first);
    NoChildAt(w);
    var second := Relaunch(w1);
    RunConcat(HonorDesired, w, first, second);
    actions := first + second;
  }

  lemma NoChildAt(w: World)
    requires WorldSound(w)
    ensures w.nextToken !in w.children
  {
    NoChildAhead(w);
  }

  // ---------------------------------------------------------------------
  // The exact condition
  // ---------------------------------------------------------------------

  ghost predicate SafeAfter(w: World) {
    forall actions :: NoClear(actions) ==> OneAlive(Run(HonorDesired, w, actions))
  }

  /**
    After any history, clearing the tombstone is safe, whatever follows until the next clearance,
    exactly when no child of any earlier launch is live.
  */
  lemma ClearanceSafeIff(w: World, history: seq<Action>, clear: Action)
    requires Fresh(w) && clear.Clear?
    requires Possible(Run(HonorDesired, w, history), clear)
    ensures SafeAfter(Apply(HonorDesired, Run(HonorDesired, w, history), clear))
       <==> SparesAll(NotLive, Run(HonorDesired, w, history))
  {
    hide OneAlive, WorldSound, Live;
    var now := Run(HonorDesired, w, history);
    var cleared := Apply(HonorDesired, now, clear);
    FreshSound(w);
    RunSound(HonorDesired, w, history);
    ApplySound(HonorDesired, now, clear);
    if SparesAll(NotLive, now) {
      IdleOldDone(NotLive, now);
      OldDoneStep(NotLive, HonorDesired, now, clear);
      forall actions | NoClear(actions)
        ensures OneAlive(Run(HonorDesired, cleared, actions))
      {
        SafeWhileHarmless(cleared, actions);
      }
    } else {
      var j :| j in now.children && Live(now.children[j]);
      var actions := BothRun(cleared, j);
      NotAlone(Run(HonorDesired, cleared, actions), j, cleared.nextToken);
    }
  }

  lemma SafeWhileHarmless(w: World, actions: seq<Action>)
    requires WorldSound(w) && OldDone(NotLive, w) && NoClear(actions)
    ensures OneAlive(Run(HonorDesired, w, actions))
  {
    hide WorldSound, OneAlive, Apply, OldDone, Run;
    NoClearSpares(NotLive, HonorDesired, w, actions);
    LatestOldDone(NotLive, HonorDesired, w, actions);
    RunSound(HonorDesired, w, actions);
    OldHarmlessAlone(Run(HonorDesired, w, actions));
  }

  lemma NotAlone(w: World, j: nat, k: nat)
    requires Beside(w, j) && Beside(w, k) && j != k
    ensures !OneAlive(w)
  {
  }

  /** The child ran its consumer between `w` and `w'`. */
  predicate RanSince(w: World, w': World, k: nat) {
    k in w'.children && w'.children[k].execd && (k in w.children ==> !w.children[k].execd)
  }

  /** Until the next clearance at most one consumer is executed. */
  ghost predicate OneExecAfter(w: World) {
    forall actions, j, k ::
      NoClear(actions) && RanSince(w, Run(HonorDesired, w, actions), j) && RanSince(w, Run(HonorDesired, w, actions), k) ==> j == k
  }

  /**
    After any history, and however many of the children cleared behind run on, at most one consumer
    is executed until the next clearance exactly when no child of any earlier launch is pending at
    this one.
  */
  lemma OneExecIff(w: World, history: seq<Action>, clear: Action)
    requires Fresh(w) && clear.Clear?
    requires Possible(Run(HonorDesired, w, history), clear)
    ensures OneExecAfter(Apply(HonorDesired, Run(HonorDesired, w, history), clear))
       <==> SparesAll(NotPending, Run(HonorDesired, w, history))
  {
    hide WorldSound, Pending, RanSince;
    var now := Run(HonorDesired, w, history);
    var cleared := Apply(HonorDesired, now, clear);
    FreshSound(w);
    RunSound(HonorDesired, w, history);
    ApplySound(HonorDesired, now, clear);
    if SparesAll(NotPending, now) {
      IdleOldDone(NotPending, now);
      OldDoneStep(NotPending, HonorDesired, now, clear);
      forall actions, j, k | NoClear(actions)
          && RanSince(cleared, Run(HonorDesired, cleared, actions), j) && RanSince(cleared, Run(HonorDesired, cleared, actions), k)
        ensures j == k
      {
        RanIsCurrent(cleared, actions, j);
        RanIsCurrent(cleared, actions, k);
        OnlyCurrent(cleared, actions, j, k);
      }
    } else {
      var j :| j in now.children && Pending(now.children[j]);
      assert j in cleared.children && Pending(cleared.children[j]);
      PendingIsLive(cleared, j);
      var actions := BothRun(cleared, j);
      var later := Run(HonorDesired, cleared, actions);
      RunSound(HonorDesired, cleared, actions);
      RunningRan(cleared, later, j);
      RunningRan(cleared, later, cleared.nextToken);
    }
  }

  lemma PendingIsLive(w: World, j: nat)
    requires WorldSound(w) && j in w.children && Pending(w.children[j])
    ensures Live(w.children[j]) && !w.children[j].execd
  {
    GateOf(w, j);
  }

  lemma RunningRan(w: World, w': World, k: nat)
    requires WorldSound(w') && Beside(w', k) && (k in w.children ==> !w.children[k].execd)
    ensures RanSince(w, w', k)
  {
    GateOf(w', k);
  }

  lemma {:induction false} NoClearKeepsEpoch(w: World, actions: seq<Action>)
    requires WorldSound(w) && NoClear(actions)
    ensures Run(HonorDesired, w, actions).epoch == w.epoch
  {
    if actions != [] {
      var m := |actions| - 1;
      NoClearKeepsEpoch(w, actions[..m]);
      RunSound(HonorDesired, w, actions[..m]);
      EpochMoves(HonorDesired, Run(HonorDesired, w, actions[..m]), actions[m]);
      hide Apply, WorldSound;
    }
  }

  /** A child that ran since a clearance that left only done children behind is of the present epoch. */
  lemma {:induction false} RanIsCurrent(w: World, actions: seq<Action>, k: nat)
    requires WorldSound(w) && OldDone(NotPending, w) && NoClear(actions)
    requires RanSince(w, Run(HonorDesired, w, actions), k)
    ensures k in Run(HonorDesired, w, actions).children
    ensures Run(HonorDesired, w, actions).children[k].epoch == Run(HonorDesired, w, actions).epoch
  {
    hide Apply, WorldSound, Run;
    NoClearKeepsEpoch(w, actions);
    if k in w.children {
      RunKeeps(HonorDesired, w, actions, k);
      if w.children[k].epoch != w.epoch {
        AbandonedNeverRuns(HonorDesired, w, actions, k);
      }
    } else {
      NewIsCurrent(w, actions, k);
    }
  }

  lemma {:induction false} NewIsCurrent(w: World, actions: seq<Action>, k: nat)
    requires WorldSound(w) && NoClear(actions) && k !in w.children && k in Run(HonorDesired, w, actions).children
    ensures Run(HonorDesired, w, actions).children[k].epoch == w.epoch
  {
    if actions != [] {
      hide Apply, WorldSound;
      var m := |actions| - 1;
      var before := Run(HonorDesired, w, actions[..m]);
      RunSound(HonorDesired, w, actions[..m]);
      NoClearKeepsEpoch(w, actions[..m]);
      NoClearKeepsEpoch(w, actions);
      if k in before.children {
        NewIsCurrent(w, actions[..m], k);
        ChildKept(HonorDesired, before, actions[m], k);
      } else if Apply(HonorDesired, before, actions[m]).children[k].epoch != before.epoch {
        NewChildCurrent(HonorDesired, before, actions[m], k);
      }
    }
  }

  lemma OnlyCurrent(w: World, actions: seq<Action>, j: nat, k: nat)
    requires WorldSound(w)
    requires var w' := Run(HonorDesired, w, actions);
      j in w'.children && k in w'.children && w'.children[j].epoch == w'.epoch == w'.children[k].epoch
    ensures j == k
  {
    RunSound(HonorDesired, w, actions);
    hide GateSound, RecordSound, Run;
  }

  // ---------------------------------------------------------------------
  // The condition is not idle
  // ---------------------------------------------------------------------

  /** The supervisor dies once the whole acknowledgement is sent and not yet read. */
  lemma DiesPending(w: World, w1: World)
    requires var k := w.nextToken; w1.phase == Probing(k) && Booted(w, w1, k) && w1.children[k].inbox == ACK
    ensures var k, w' := w.nextToken, Apply(HonorDesired, w1, Die);
      && w'.phase.Idle? && Marked(w, w', k) && k in w'.children && Pending(w'.children[k])
  {
    hide GenerationOf;
    var k := w.nextToken;
    assert "" + ACK == ACK;
    var c := w1.children[k].(closed := true);
    assert Apply(HonorDesired, w1, Die) == w1.(children := w1.children[k := c], phase := Idle, lost := true, handles := {});
  }

  /** From every unit never launched, a history after which the tombstone of a pending child can be cleared. */
  lemma PendingHistory(w: World) returns (history: seq<Action>, clear: Action)
    requires Fresh(w)
    ensures NoClear(history) && clear.Clear?
    ensures var now := Run(HonorDesired, w, history);
      Possible(now, clear) && w.nextToken in now.children && Pending(now.children[w.nextToken])
  {
    hide Apply, Run, Booted, Pending, GenerationOf;
    var first := BootChild(w);
    BootedThere(w, Run(HonorDesired, w, first));
    var second := OfferAck(w, Run(HonorDesired, w, first));
    RunConcat(HonorDesired, w, first, second);
    BootedThere(w, Run(HonorDesired, w, first + second));
    DiesPending(w, Run(HonorDesired, w, first + second));
    history := Extend(w, first + second, Die);
    clear := Clear(GenerationOf(w.disk) + 1, w.nextToken, false);
  }

  /**
    So both properties fail of the code: from every unit never launched there is a clearance that
    can be taken, after which two consumers are executed before the next one and are alive together.
  */
  lemma UnsafeClearance(w: World) returns (history: seq<Action>, clear: Action)
    requires Fresh(w)
    ensures clear.Clear? && Possible(Run(HonorDesired, w, history), clear)
    ensures var cleared := Apply(HonorDesired, Run(HonorDesired, w, history), clear);
      !OneExecAfter(cleared) && !SafeAfter(cleared)
  {
    hide Apply, Run, Pending, OneExecAfter, SafeAfter, Possible, Fresh;
    history, clear := PendingHistory(w);
    var now := Run(HonorDesired, w, history);
    assert !Spares(NotPending, now.children[w.nextToken]) && !Spares(NotLive, now.children[w.nextToken]);
    OneExecIff(w, history, clear);
    ClearanceSafeIff(w, history, clear);
  }
}
