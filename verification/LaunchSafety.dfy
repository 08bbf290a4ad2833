/** What holds in every run of a unit: what a child was sent, and what pid.json says about it. */
module LaunchSafety {
  import opened Wrappers
  import opened Gate
  import opened Launch

  // ---------------------------------------------------------------------
  // The invariant
  // ---------------------------------------------------------------------

  predicate Waiting(c: Child) {
    c.gate.Booting? || c.gate.Reading?
  }

  /** A gate that has not decided was sent a prefix of the acknowledgement, and nothing before its record. */
  ghost predicate GateSound(c: Child, k: nat, w: World) {
    && k < w.nextToken && c.epoch <= w.epoch
    && (Waiting(c) ==> c.Sent() <= ACK && (c.Sent() != "" ==> k in w.persisted) && !c.execd)
    && (Waiting(c) ==> c.closed || Launching(w.phase) == Some(k))
    && (c.gate.Reading? ==> !EndsLine(c.gate.ack))
    && (c.execd ==> k in w.persisted)
    && (c.gate.Running? ==> c.execd)
  }

  /** A child of the current epoch is the one the tombstone is about. */
  ghost predicate RecordSound(c: Child, k: nat, w: World) {
    c.epoch == w.epoch ==>
      && w.pidFile.Present? && w.pidFile.token == k && w.pidFile.generation == c.generation
      && (k in w.persisted ==> w.pidFile.pid == Some(c.pid))
  }

  ghost predicate ChildrenSound(w: World) {
    && (forall k :: k in w.children ==> GateSound(w.children[k], k, w))
    && (forall k :: k in w.children ==> RecordSound(w.children[k], k, w))
    && (forall j, k :: j in w.children && k in w.children && j != k ==> w.children[j].epoch != w.children[k].epoch)
    && w.persisted <= w.children.Keys
  }

  /** Its gate has not decided and has been sent exactly `sent`, or it has ended. */
  ghost predicate Undecided(c: Child, sent: string) {
    c.gate.Gone? || (Waiting(c) && c.Sent() == sent)
  }

  ghost predicate Intended(w: World, k: nat) {
    w.pidFile.Present? && w.pidFile.token == k && w.pidFile.generation == NextGeneration(w)
  }

  ghost predicate Offered(w: World, k: nat, sent: string, recorded: bool) {
    && Intended(w, k) && k in w.children && w.children[k].epoch == w.epoch && !w.children[k].closed
    && w.children[k].generation == NextGeneration(w)
    && Undecided(w.children[k], sent) && (recorded <==> k in w.persisted)
  }

  ghost predicate Started(w: World, k: nat) {
    Intended(w, k) && k in w.children && w.children[k].closed
  }

  /** The tombstone and the child of the launch in progress, step by step. */
  ghost predicate PhaseSound(w: World, ph: Phase) {
    match ph
    case Fencing(k) => w.pidFile.Absent? && k < w.nextToken && k !in w.children
    case Writing(k) => w.pidFile.Garbled? && k < w.nextToken && k !in w.children
    case Starting(k) => Intended(w, k) && k < w.nextToken && k !in w.children
    case Awaiting(k) => Offered(w, k, "", false)
    case Persisting(k) => Offered(w, k, "", false)
    case Owning(k) => Offered(w, k, "", true)
    case Acking(k, sent) => sent < |ACK| && Offered(w, k, ACK[..sent], true)
    case Probing(k) => Started(w, k) && k in w.persisted
    case SavingLaunch(k, p, alive, owned) =>
      Started(w, k) && p == w.children[k].pid && (alive ==> owned) && (owned ==> k in w.persisted)
    case SavingRefused => false
    case _ => true
  }

  ghost predicate WorldSound(w: World) {
    && ChildrenSound(w) && PhaseSound(w, w.phase)
    && (!w.phase.Idle? ==> GenerationOf(w.loaded) == GenerationOf(w.disk))
  }

  lemma FreshSound(w: World)
    requires Fresh(w)
    ensures WorldSound(w)
  {
  }

  // ---------------------------------------------------------------------
  // Children
  // ---------------------------------------------------------------------

  /** What a step of a child or of its parent may do to it. */
  ghost predicate Follows(c: Child, c': Child) {
    && c'.epoch == c.epoch && c'.pid == c.pid && c'.generation == c.generation
  }

  lemma ChildChanges(w: World, k: nat, c': Child, ph: Phase)
    requires ChildrenSound(w) && k in w.children && Follows(w.children[k], c')
    requires GateSound(c', k, w.(phase := ph))
    requires Launching(ph) == Launching(w.phase) || Launching(w.phase) in {None, Some(k)}
    ensures ChildrenSound(w.(children := w.children[k := c'], phase := ph))
  {
    var w' := w.(children := w.children[k := c'], phase := ph);
    assert RecordSound(w.children[k], k, w);
    forall j | j in w'.children
      ensures GateSound(w'.children[j], j, w') && RecordSound(w'.children[j], j, w')
    {
      assert j in w.children;
      assert GateSound(w.children[j], j, w) && RecordSound(w.children[j], j, w);
    }
  }

  lemma ReadSound(c: Child, n: nat)
    requires c.gate.Reading? && 0 < n <= |c.inbox| && c.Sent() <= ACK && !EndsLine(c.gate.ack)
    ensures var c' := ReadChild(c, n);
      && (c'.gate.Reading? ==> c'.Sent() == c.Sent() && !EndsLine(c'.gate.ack))
      && (c'.gate.Running? ==> c.Sent() == ACK)
      && (c'.execd <==> c.execd || c'.gate.Running?)
      && Follows(c, c') && !c'.gate.Booting? && c'.closed == c.closed
  {
    assert c.inbox == c.inbox[..n] + c.inbox[n..];
    assert c.gate.ack + c.inbox == (c.gate.ack + c.inbox[..n]) + c.inbox[n..];
    if EndsLine(c.gate.ack + c.inbox[..n]) {
      LineEndsThere(c.gate.ack + c.inbox[..n], c.inbox[n..]);
    }
  }

  /** One step of a child on its own. */
  function ChildStep(c: Child, a: Action): Child
    requires a.ChildRead? ==> c.gate.Reading? && a.bytes <= |c.inbox|
  {
    match a
    case ChildReady(_) => c.(gate := Reading(""), ready := true)
    case ChildRead(_, n) => ReadChild(c, n)
    case ChildEof(_) => c.(gate := Gone)
    case ChildEnd(_) => c.(gate := Gone)
    case _ => c
  }

  predicate OfChild(a: Action) {
    a.ChildReady? || a.ChildRead? || a.ChildEof? || a.ChildEnd?
  }

  lemma ChildStepSound(w: World, a: Action)
    requires ChildrenSound(w) && OfChild(a) && Possible(w, a)
    ensures var c, c' := w.children[a.token], ChildStep(w.children[a.token], a);
      && GateSound(c', a.token, w) && Follows(c, c') && c'.closed == c.closed
      && (Waiting(c') ==> Waiting(c) && c'.Sent() == c.Sent())
      && (c'.gate.Running? && !c.gate.Running? ==> Waiting(c) && c.Sent() == ACK)
      && (c'.execd && !c.execd ==> c'.gate.Running? && !c.gate.Running?)
  {
    hide RecordSound;
    assert GateSound(w.children[a.token], a.token, w);
    if a.ChildRead? {
      ReadSound(w.children[a.token], a.bytes);
    }
  }

  lemma ChildActionApplies(policy: Dict -> bool, w: World, a: Action)
    requires OfChild(a) && Possible(w, a)
    ensures Apply(policy, w, a) == w.(children := w.children[a.token := ChildStep(w.children[a.token], a)])
  {
  }

  lemma ChildActionSound(policy: Dict -> bool, w: World, a: Action)
    requires WorldSound(w) && Possible(w, a) && OfChild(a)
    ensures WorldSound(Apply(policy, w, a))
  {
    hide ChildrenSound, GateSound, RecordSound;
    ChildActionApplies(policy, w, a);
    ChildStepSound(w, a);
    hide Apply, ChildStep;
    ChildChanges(w, a.token, ChildStep(w.children[a.token], a), w.phase);
    ChildPhase(w, a.token, ChildStep(w.children[a.token], a));
  }

  lemma ChildPhase(w: World, k: nat, c': Child)
    requires PhaseSound(w, w.phase) && k in w.children && Follows(w.children[k], c') && c'.closed == w.children[k].closed
    requires Waiting(c') ==> Waiting(w.children[k]) && c'.Sent() == w.children[k].Sent()
    requires c'.gate.Running? && !w.children[k].gate.Running? ==> Waiting(w.children[k]) && w.children[k].Sent() == ACK
    ensures PhaseSound(w.(children := w.children[k := c']), w.phase)
  {
  }

  // ---------------------------------------------------------------------
  // The actions that leave every child alone
  // ---------------------------------------------------------------------

  /** Everything the invariant on children reads except the tombstone's pid note is the same. */
  lemma SameChildren(w: World, w': World)
    requires ChildrenSound(w) && w'.children == w.children && w'.persisted == w.persisted && w'.epoch == w.epoch
    requires w.nextToken <= w'.nextToken
    requires w'.pidFile == w.pidFile || (w.pidFile.Present? && w'.pidFile == w.pidFile.(stopRequested := true))
          || (!w.pidFile.Present? && !w'.pidFile.Absent?)
    requires forall k :: Launching(w.phase) == Some(k) && k in w.children && !w.children[k].closed ==> Launching(w'.phase) == Some(k)
    ensures ChildrenSound(w')
  {
    forall k | k in w'.children
      ensures GateSound(w'.children[k], k, w') && RecordSound(w'.children[k], k, w')
    {
      assert GateSound(w.children[k], k, w) && RecordSound(w.children[k], k, w);
    }
  }

  lemma NoChildAhead(w: World)
    requires ChildrenSound(w)
    ensures w.nextToken !in w.children
    ensures w.pidFile.Absent? || w.pidFile.Garbled? ==> forall k :: k in w.children ==> w.children[k].epoch < w.epoch
  {
    forall k | k in w.children
      ensures k != w.nextToken
    {
      assert GateSound(w.children[k], k, w);
    }
    forall k | (w.pidFile.Absent? || w.pidFile.Garbled?) && k in w.children
      ensures w.children[k].epoch < w.epoch
    {
      assert GateSound(w.children[k], k, w) && RecordSound(w.children[k], k, w);
    }
  }

  /** Loading backfills, and keeps the generation. */
  lemma GenerationLoaded(w: World)
    ensures GenerationOf(w.State()) == GenerationOf(w.disk)
  {
  }

  /** A heartbeat passes no core key, the generation among them. */
  lemma MergeKeepsCore(s: Dict, heartbeat: Dict)
    ensures MergeHeartbeat(s, heartbeat).Some? ==>
      var merged := MergeHeartbeat(s, heartbeat).value;
      (forall k :: IsCore(k) ==> Get(merged, k) == Get(s, k)) && GenerationOf(merged) == GenerationOf(s)
  {
    hide IntOf;
  }

  /** Saving a label or a heartbeat leaves the generation and everything but the file alone. */
  lemma SavesState(policy: Dict -> bool, w: World, a: Action)
    requires a.SetDesired? || a.Heartbeat?
    ensures var w' := Apply(policy, w, a); w' == w.(disk := w'.disk) && GenerationOf(w'.disk) == GenerationOf(w.disk)
  {
    GenerationLoaded(w);
    if a.Heartbeat? {
      MergeKeepsCore(w.State(), a.payload);
      hide MergeHeartbeat, World.State;
    }
    hide Backfilled;
  }

  lemma StopKeeps(w: World)
    ensures var w' := Stop(w).0; w' == w.(pidFile := w'.pidFile, handles := w'.handles)
    ensures Stop(w).0.pidFile == if w.pidFile.Present? then w.pidFile.(stopRequested := true) else w.pidFile
  {
  }

  lemma StateActionSound(policy: Dict -> bool, w: World, a: Action)
    requires WorldSound(w) && (a.SetDesired? || a.Heartbeat? || a.DirectStop?)
    ensures WorldSound(Apply(policy, w, a))
  {
    hide ChildrenSound;
    if a.DirectStop? {
      StopKeeps(w);
    } else {
      SavesState(policy, w, a);
      hide Apply;
    }
    hide Stop, MergeHeartbeat, World.State, GenerationOf;
    SameChildren(w, Apply(policy, w, a));
  }

  lemma BeginSound(policy: Dict -> bool, w: World)
    requires WorldSound(w) && w.phase.Idle?
    ensures WorldSound(Apply(policy, w, Begin))
  {
    NoChildAhead(w);
    hide ChildrenSound;
    SameChildren(w, Apply(policy, w, Begin));
  }

  lemma ClearSound(policy: Dict -> bool, w: World, a: Action)
    requires WorldSound(w) && a.Clear? && Possible(w, a)
    ensures WorldSound(Apply(policy, w, a))
  {
    var w' := Apply(policy, w, a);
    forall k | k in w'.children
      ensures GateSound(w'.children[k], k, w') && RecordSound(w'.children[k], k, w')
    {
      assert GateSound(w.children[k], k, w);
    }
  }

  // ---------------------------------------------------------------------
  // The pass
  // ---------------------------------------------------------------------

  lemma ClosedSound(w: World, k: nat, ph: Phase)
    requires ChildrenSound(w) && k in w.children
    requires Launching(w.phase) in {None, Some(k)}
    ensures ChildrenSound(CloseChannel(w, Some(k)).(phase := ph))
  {
    var c' := w.children[k].(closed := true);
    assert GateSound(w.children[k], k, w);
    assert GateSound(c', k, w.(phase := ph));
    hide ChildrenSound, GateSound;
    ChildChanges(w, k, c', ph);
  }

  lemma AbandonSound(w: World)
    requires WorldSound(w) && !w.phase.Idle?
    ensures WorldSound(Abandon(w))
  {
    hide ChildrenSound;
    var k := Launching(w.phase);
    if k.Some? && k.value in w.children {
      ClosedSound(w, k.value, Idle);
      SameChildren(CloseChannel(w, k).(phase := Idle), Abandon(w));
    } else {
      SameChildren(w, Abandon(w));
    }
  }

  lemma FailSound(policy: Dict -> bool, w: World, a: Action)
    requires WorldSound(w) && (a == Fail || a == Die) && Possible(w, a)
    ensures WorldSound(Apply(policy, w, a))
  {
    if w.phase.Idle? {
      hide ChildrenSound;
      SameChildren(w, Apply(policy, w, a));
    } else {
      AbandonSound(w);
      hide ChildrenSound, CloseChannel, Launch.Launching, Stamped;
      SameChildren(Abandon(w), Apply(policy, w, a));
    }
  }

  lemma SavingTickSound(w: World, bytes: nat, pid: int)
    requires WorldSound(w) && TickEnabled(w, bytes)
    requires w.phase.Stopping? || w.phase.SavingBlocked? || w.phase.SavingStopped? || w.phase.Fencing? || w.phase.Writing?
    ensures WorldSound(TickStep(w, bytes, pid))
  {
    hide ChildrenSound;
    SameChildren(w, TickStep(w, bytes, pid));
  }

  lemma StartingTickSound(w: World, bytes: nat, pid: int)
    requires WorldSound(w) && w.phase.Starting?
    ensures WorldSound(TickStep(w, bytes, pid))
  {
    var w', k := TickStep(w, bytes, pid), w.phase.token;
    forall j | j in w'.children
      ensures GateSound(w'.children[j], j, w') && RecordSound(w'.children[j], j, w')
      ensures j != k ==> w'.children[j].epoch < w'.epoch
    {
      if j != k {
        assert GateSound(w.children[j], j, w) && RecordSound(w.children[j], j, w);
      }
    }
  }

  lemma AwaitingTickSound(w: World, bytes: nat, pid: int)
    requires WorldSound(w) && w.phase.Awaiting? && TickEnabled(w, bytes)
    ensures WorldSound(TickStep(w, bytes, pid))
  {
    hide ChildrenSound;
    var k := w.phase.token;
    if w.children[k].ready && bytes == 6 {
      SameChildren(w, TickStep(w, bytes, pid));
    } else {
      ClosedSound(w, k, SavingLaunch(k, w.children[k].pid, false, false));
    }
  }

  lemma PersistingTickSound(w: World, bytes: nat, pid: int)
    requires WorldSound(w) && w.phase.Persisting? && TickEnabled(w, bytes)
    ensures WorldSound(TickStep(w, bytes, pid))
  {
    var w', k := TickStep(w, bytes, pid), w.phase.token;
    forall j | j in w'.children
      ensures GateSound(w'.children[j], j, w') && RecordSound(w'.children[j], j, w')
    {
      assert GateSound(w.children[j], j, w) && RecordSound(w.children[j], j, w);
    }
  }

  function Acknowledge(c: Child, sent: nat, bytes: nat): Child
    requires sent + bytes <= |ACK|
  {
    c.(inbox := c.inbox + ACK[sent..sent + bytes])
  }

  lemma AcknowledgeSound(w: World, k: nat, sent: nat, bytes: nat, ph: Phase)
    requires sent + bytes <= |ACK|
    requires k in w.children && GateSound(w.children[k], k, w) && Offered(w, k, ACK[..sent], true)
    requires Launching(ph) == Launching(w.phase) == Some(k)
    ensures var c' := Acknowledge(w.children[k], sent, bytes);
      && GateSound(c', k, w.(phase := ph)) && Undecided(c', ACK[..sent + bytes]) && Follows(w.children[k], c')
  {
    assert ACK[..sent] + ACK[sent..sent + bytes] == ACK[..sent + bytes];
    var c, c' := w.children[k], Acknowledge(w.children[k], sent, bytes);
    if c.gate.Reading? {
      assert c'.Sent() == c.Sent() + ACK[sent..sent + bytes];
    }
  }

  lemma PartAcknowledged(w: World, bytes: nat, pid: int)
    requires WorldSound(w) && w.phase.Acking? && TickEnabled(w, bytes) && w.phase.sent + bytes < |ACK|
    ensures WorldSound(TickStep(w, bytes, pid))
  {
    hide ChildrenSound, GateSound, Undecided, Child.Sent;
    var k, sent := w.phase.token, w.phase.sent;
    var ph := Acking(k, sent + bytes);
    GateOf(w, k);
    AcknowledgeSound(w, k, sent, bytes, ph);
    ChildChanges(w, k, Acknowledge(w.children[k], sent, bytes), ph);
  }

  lemma WholeAcknowledged(w: World, bytes: nat, pid: int)
    requires WorldSound(w) && w.phase.Acking? && TickEnabled(w, bytes) && w.phase.sent + bytes == |ACK|
    ensures WorldSound(TickStep(w, bytes, pid))
  {
    hide ChildrenSound, GateSound, Undecided, Child.Sent;
    var k, sent := w.phase.token, w.phase.sent;
    GateOf(w, k);
    AcknowledgeSound(w, k, sent, bytes, w.phase);
    ChildChanges(w, k, Acknowledge(w.children[k], sent, bytes), w.phase);
    var w' := w.(children := w.children[k := Acknowledge(w.children[k], sent, bytes)], phase := w.phase);
    ClosedSound(w', k, Probing(k));
  }

  lemma GateOf(w: World, k: nat)
    requires ChildrenSound(w) && k in w.children
    ensures GateSound(w.children[k], k, w) && RecordSound(w.children[k], k, w)
  {
  }

  lemma LateTickSound(w: World, bytes: nat, pid: int)
    requires WorldSound(w) && (w.phase.Owning? || w.phase.Probing?) && TickEnabled(w, bytes)
    ensures WorldSound(TickStep(w, bytes, pid))
  {
    hide ChildrenSound;
    SameChildren(w, TickStep(w, bytes, pid));
  }

  lemma SavingLaunchTickSound(w: World, bytes: nat, pid: int)
    requires WorldSound(w) && w.phase.SavingLaunch?
    ensures WorldSound(TickStep(w, bytes, pid))
  {
    hide ChildrenSound;
    SameChildren(w, TickStep(w, bytes, pid));
  }

  lemma TickSound(w: World, bytes: nat, pid: int)
    requires WorldSound(w) && TickEnabled(w, bytes)
    ensures WorldSound(TickStep(w, bytes, pid))
  {
    hide ChildrenSound, Offered, Intended, TickStep;
    match w.phase
    case Starting(_) => StartingTickSound(w, bytes, pid);
    case Awaiting(_) => AwaitingTickSound(w, bytes, pid);
    case Persisting(_) => PersistingTickSound(w, bytes, pid);
    case Acking(_, sent) =>
      if sent + bytes < |ACK| {
        PartAcknowledged(w, bytes, pid);
      } else {
        WholeAcknowledged(w, bytes, pid);
      }
    case Owning(_) => LateTickSound(w, bytes, pid);
    case Probing(_) => LateTickSound(w, bytes, pid);
    case SavingLaunch(_, _, _, _) => SavingLaunchTickSound(w, bytes, pid);
    case _ => SavingTickSound(w, bytes, pid);
  }

  lemma ApplySound(policy: Dict -> bool, w: World, a: Action)
    requires WorldSound(w)
    ensures WorldSound(Apply(policy, w, a))
  {
    hide WorldSound;
    if Possible(w, a) {
      match a
      case Tick(bytes, pid) => TickSound(w, bytes, pid);
      case Begin => BeginSound(policy, w);
      case Fail => FailSound(policy, w, a);
      case Die => FailSound(policy, w, a);
      case Clear(_, _, _) => ClearSound(policy, w, a);
      case SetDesired(_) => StateActionSound(policy, w, a);
      case Heartbeat(_) => StateActionSound(policy, w, a);
      case DirectStop => StateActionSound(policy, w, a);
      case _ => ChildActionSound(policy, w, a);
    }
  }

  lemma {:induction false} RunSound(policy: Dict -> bool, w: World, actions: seq<Action>)
    requires WorldSound(w)
    ensures WorldSound(Run(policy, w, actions))
  {
    hide WorldSound;
    if actions != [] {
      RunSound(policy, w, actions[..|actions| - 1]);
      ApplySound(policy, Run(policy, w, actions[..|actions| - 1]), actions[|actions| - 1]);
    }
  }
}
