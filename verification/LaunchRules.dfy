/** Rules of the launch machine that hold of every step or run: who removes pid.json, whose handles are held, what is read back. */
module LaunchRules {
  import opened Wrappers
  import opened Launch
  import opened LaunchSafety
  import opened LaunchTheorems

  // ---------------------------------------------------------------------
  // Clearing
  // ---------------------------------------------------------------------

  /**
    pid.json goes away only by an operator's clearance, between two passes, with exactly its generation and
    token, and such a clearance always succeeds: it removes the file, and the handle too if it is taken
    inside the supervisor, and nothing else.
  */
  lemma ClearsExactly(policy: Dict -> bool, w: World, a: Action)
    ensures w.pidFile != Absent && Apply(policy, w, a).pidFile == Absent <==>
      a.Clear? && w.phase.Idle? && w.pidFile.Present? && a.generation == w.pidFile.generation && a.token == w.pidFile.token
    ensures a.Clear? && !(w.phase.Idle? && w.pidFile.Present? && a.generation == w.pidFile.generation && a.token == w.pidFile.token) ==>
      Apply(policy, w, a) == w
    ensures w.pidFile != Absent && Apply(policy, w, a).pidFile == Absent ==>
      var w' := Apply(policy, w, a);
      w' == w.(pidFile := Absent, epoch := w.epoch + 1, handles := if a.here then w.handles - {a.token} else w.handles)
  {
    hide MergeHeartbeat, World.State, ReadChild;
    if a.Tick? && Possible(w, a) && w.pidFile != Absent {
      TickKeepsFile(w, a.bytes, a.pid);
      hide TickStep, TickEnabled;
    }
  }

  lemma TickKeepsFile(w: World, bytes: nat, pid: int)
    requires TickEnabled(w, bytes) && w.pidFile != Absent
    ensures TickStep(w, bytes, pid).pidFile != Absent
  {
    hide GenerationOf, Launch.Launched, Refused, Get, NextGeneration;
    if w.phase.Acking? || w.phase.Awaiting? || w.phase.Probing? {
      hide Finish, Stop;
    } else {
      hide Acknowledged, CloseChannel;
    }
  }

  // ---------------------------------------------------------------------
  // Handles
  // ---------------------------------------------------------------------

  /** The launch of the pass, from its fence on. */
  function Launched(ph: Phase): Option<nat> {
    if ph.Fencing? then Some(ph.token) else Launching(ph)
  }

  /** Every handle, and the launch at hand, is at least this new. */
  ghost predicate NoOlder(w: World, first: nat) {
    && first <= w.nextToken && (forall k :: k in w.handles ==> first <= k)
    && (Launched(w.phase).Some? ==> first <= Launched(w.phase).value)
  }

  lemma NoOlderKept(policy: Dict -> bool, w: World, a: Action, first: nat)
    requires NoOlder(w, first)
    ensures NoOlder(Apply(policy, w, a), first)
  {
    hide MergeHeartbeat, World.State, ReadChild;
    if a.Tick? && Possible(w, a) {
      TickNoOlder(w, a.bytes, a.pid, first);
      hide TickStep, NoOlder;
    }
  }

  lemma TickNoOlder(w: World, bytes: nat, pid: int, first: nat)
    requires NoOlder(w, first) && TickEnabled(w, bytes)
    ensures NoOlder(TickStep(w, bytes, pid), first)
  {
    if Launching(w.phase).None? || w.phase.SavingLaunch? {
      QuietNoOlder(w, bytes, pid, first);
    } else {
      LaunchNoOlder(w, bytes, pid, first);
    }
    hide TickStep, NoOlder;
  }

  lemma QuietNoOlder(w: World, bytes: nat, pid: int, first: nat)
    requires NoOlder(w, first) && TickEnabled(w, bytes) && (Launching(w.phase).None? || w.phase.SavingLaunch?)
    ensures NoOlder(TickStep(w, bytes, pid), first)
  {
    hide GenerationOf, Launch.Launched, Refused, Get;
  }

  lemma LaunchNoOlder(w: World, bytes: nat, pid: int, first: nat)
    requires NoOlder(w, first) && TickEnabled(w, bytes) && Launching(w.phase).Some? && !w.phase.SavingLaunch?
    ensures NoOlder(TickStep(w, bytes, pid), first)
  {
    hide GenerationOf, Finish, Stop;
  }

  /**
    Handles do not survive their supervisor: after a death, whatever follows, only children launched
    since then are owned, so a stop never signals an older one.
  */
  lemma {:induction false} HandlesAreOwn(policy: Dict -> bool, w: World, after: seq<Action>)
    ensures NoOlder(Run(policy, Apply(policy, w, Die), after), w.nextToken)
    ensures var now := Run(policy, Apply(policy, w, Die), after);
      now.pidFile.Present? && now.pidFile.token < w.nextToken ==> !Stop(now).1
  {
    hide Apply;
    if after == [] {
      DeathForgets(policy, w);
    } else {
      var m := |after| - 1;
      HandlesAreOwn(policy, w, after[..m]);
      NoOlderKept(policy, Run(policy, Apply(policy, w, Die), after[..m]), after[m], w.nextToken);
    }
  }

  lemma DeathForgets(policy: Dict -> bool, w: World)
    ensures Apply(policy, w, Die).handles == {} && Apply(policy, w, Die).phase.Idle?
    ensures Apply(policy, w, Die).nextToken == w.nextToken
  {
  }

  // ---------------------------------------------------------------------
  // Channels
  // ---------------------------------------------------------------------

  /** The child in an exchange with the pass. */
  function Talking(ph: Phase): Option<nat> {
    if ph.Awaiting? || ph.Persisting? || ph.Owning? || ph.Acking? then Some(ph.token) else None
  }

  /** No other child may still be sent something. */
  ghost predicate ChannelsClosed(w: World) {
    forall k :: k in w.children && !w.children[k].closed ==> Talking(w.phase) == Some(k)
  }

  lemma ClosedKept(policy: Dict -> bool, w: World, a: Action)
    requires ChannelsClosed(w)
    ensures ChannelsClosed(Apply(policy, w, a))
  {
    hide MergeHeartbeat, World.State, Gate.Receive;
    if a.Tick? && Possible(w, a) {
      if Launching(w.phase).None? || w.phase.SavingLaunch? {
        QuietClosed(w, a.bytes, a.pid);
      } else {
        LaunchClosed(w, a.bytes, a.pid);
      }
      hide TickStep, ChannelsClosed;
    }
  }

  lemma QuietClosed(w: World, bytes: nat, pid: int)
    requires ChannelsClosed(w) && TickEnabled(w, bytes) && (Launching(w.phase).None? || w.phase.SavingLaunch?)
    ensures ChannelsClosed(TickStep(w, bytes, pid))
  {
    hide GenerationOf, Launch.Launched, Refused, Get;
  }

  lemma LaunchClosed(w: World, bytes: nat, pid: int)
    requires ChannelsClosed(w) && TickEnabled(w, bytes) && Launching(w.phase).Some? && !w.phase.SavingLaunch?
    ensures ChannelsClosed(TickStep(w, bytes, pid))
  {
    hide GenerationOf, Finish, Stop;
  }

  /** Whenever no pass is in progress, however the last one ended, every child's channel is closed, so no gate waits for ever. */
  lemma {:induction false} NoChannelLeftOpen(policy: Dict -> bool, w: World, actions: seq<Action>)
    requires Fresh(w)
    ensures ChannelsClosed(Run(policy, w, actions))
    ensures Run(policy, w, actions).phase.Idle? ==>
      forall k :: k in Run(policy, w, actions).children ==> Run(policy, w, actions).children[k].closed
  {
    hide Apply;
    if actions != [] {
      var m := |actions| - 1;
      NoChannelLeftOpen(policy, w, actions[..m]);
      ClosedKept(policy, Run(policy, w, actions[..m]), actions[m]);
    }
  }

  /**
    The exchange with the gate: a child is recorded only after the whole of its line, is reported alive
    exactly if it has not ended by the probe, and is given up there if it has.
  */
  lemma HandshakeExactly(policy: Dict -> bool, w: World, bytes: nat, pid: int)
    requires Possible(w, Tick(bytes, pid))
    ensures var next := Apply(policy, w, Tick(bytes, pid)).phase;
      && (w.phase.Awaiting? ==> (next.Persisting? <==> w.children[w.phase.token].ready && bytes == 6))
      && (w.phase.Awaiting? && !next.Persisting? ==> next.SavingLaunch? && !next.alive && !next.owned)
      && (w.phase.Probing? ==> next.SavingLaunch? && next.owned && (next.alive <==> !w.children[w.phase.token].gate.Gone?))
    ensures w.phase.Probing? ==>
      var k := w.phase.token;
      Apply(policy, w, Tick(bytes, pid)).handles == if w.children[k].gate.Gone? then w.handles - {k} else w.handles
  {
    hide GenerationOf, Finish, Stop;
  }

  // ---------------------------------------------------------------------
  // What is read back
  // ---------------------------------------------------------------------

  /** A stored key reads as stored, except the unit's own name; what is missing reads as the defaults. */
  lemma StateReads(schema: int, unit: string, stored: Dict)
    ensures var s := Backfilled(schema, unit, stored);
      && s.Keys == stored.Keys + {SchemaVersion, Unit, Desired, Actual, Generation, Pid}
      && s[Unit] == Text(unit)
      && (forall k :: k in stored && k != Unit ==> s[k] == stored[k])
      && (SchemaVersion !in stored ==> s[SchemaVersion] == Num(schema))
      && (Desired !in stored ==> s[Desired] == Text("disabled"))
      && (Actual !in stored ==> s[Actual] == Text("unknown"))
      && (Generation !in stored ==> s[Generation] == Num(0))
      && (Pid !in stored ==> s[Pid] == Null)
  {
    var s := Backfilled(schema, unit, stored);
    forall k | k in stored && k != Unit
      ensures s[k] == stored[k]
    {
    }
  }

  /** A new label, and an accepted heartbeat, are saved with the whole state, defaults included. */
  lemma SavesWhole(policy: Dict -> bool, w: World, a: Action)
    requires a.SetDesired? || a.Heartbeat?
    ensures var w' := Apply(policy, w, a); w'.disk == w.disk || w'.disk == w'.State()
  {
    hide Accepts, GenerationOf;
    var w' := Apply(policy, w, a);
    if w'.disk != w.disk {
      assert forall k :: k in DefaultState(w.schema, w.unit) ==> k in w'.disk;
      assert w'.disk[Unit] == Text(w.unit);
    }
  }

  /**
    The fence accepts exactly heartbeats of the saved generation, where the host language takes true for one
    and false for zero.
  */
  lemma AcceptsExactly(s: Dict, heartbeat: Dict, generation: int)
    requires Get(s, Generation) == Num(generation)
    ensures Accepts(s, heartbeat) <==>
      var reported := Get(heartbeat, Generation);
      reported == Num(generation) || (generation == 1 && reported == Flag(true)) || (generation == 0 && reported == Flag(false))
  {
  }

  /** What is merged of an accepted heartbeat is every key but the reconciler's six, and nothing is taken from any other. */
  lemma MergeExactly(s: Dict, heartbeat: Dict)
    ensures MergeHeartbeat(s, heartbeat).Some? <==> Accepts(s, heartbeat)
    ensures MergeHeartbeat(s, heartbeat).Some? ==>
      var core := {SchemaVersion, Unit, Desired, Actual, Generation, Pid};
      var merged := MergeHeartbeat(s, heartbeat).value;
      && merged.Keys == s.Keys + (heartbeat.Keys - core)
      && forall k :: k in merged ==> merged[k] == if k in heartbeat && k !in core then heartbeat[k] else s[k]
  {
    hide Accepts;
  }

  // ---------------------------------------------------------------------
  // Progress
  // ---------------------------------------------------------------------

  /** In no run is a pass ever stuck, but for waiting on a child that lives and has not spoken. */
  lemma NeverStuck(policy: Dict -> bool, w: World, actions: seq<Action>, pid: int)
    requires Fresh(w)
    ensures var now := Run(policy, w, actions);
      (exists bytes :: Possible(now, Tick(bytes, pid))) <==>
      !now.phase.Idle? && !(now.phase.Awaiting? && now.phase.token in now.children
        && !now.children[now.phase.token].ready && !now.children[now.phase.token].gate.Gone?)
  {
    FreshSound(w);
    RunSound(policy, w, actions);
    var now := Run(policy, w, actions);
    hide Run, ChildrenSound;
    StuckOnlyThere(now, pid);
  }

  lemma StuckOnlyThere(w: World, pid: int)
    requires PhaseSound(w, w.phase)
    ensures (exists bytes :: Possible(w, Tick(bytes, pid))) <==>
      !w.phase.Idle? && !(w.phase.Awaiting? && w.phase.token in w.children
        && !w.children[w.phase.token].ready && !w.children[w.phase.token].gate.Gone?)
  {
    assert Possible(w, Tick(1, pid)) <==> TickEnabled(w, 1);
    if w.phase.Awaiting? {
      assert forall bytes :: Possible(w, Tick(bytes, pid)) <==> TickEnabled(w, bytes);
    }
  }

  /** What a child may do: speak once, read some of what is there, at most sixteen bytes, meet the end behind it, or end. */
  lemma ChildMovesExactly(policy: Dict -> bool, w: World, a: Action)
    requires a.ChildReady? || a.ChildRead? || a.ChildEof? || a.ChildEnd?
    ensures Apply(policy, w, a) != w <==>
      a.token in w.children && var c := w.children[a.token];
        match a
        case ChildReady(_) => c.gate.Booting?
        case ChildRead(_, n) => c.gate.Reading? && 1 <= n <= 16 && n <= |c.inbox|
        case ChildEof(_) => c.gate.Reading? && c.closed && c.inbox == ""
        case _ => !c.gate.Gone?
    ensures a.ChildEof? && Apply(policy, w, a) != w ==> Apply(policy, w, a) == Apply(policy, w, ChildEnd(a.token))
  {
    hide Gate.Receive;
    if a.ChildRead? && a.token in w.children && Possible(w, a) {
      assert |Apply(policy, w, a).children[a.token].inbox| < |w.children[a.token].inbox|;
    }
  }

  /** A pass that breaks off closes the channel of a child it started and gives up nothing else, unless the supervisor died. */
  lemma BreaksOffExactly(policy: Dict -> bool, w: World, a: Action)
    requires a.Fail? || a.Die?
    ensures var w' := Apply(policy, w, a);
      && w' == w.(phase := Idle, children := w'.children, handles := if a.Die? then {} else w.handles, lost := w'.lost)
      && w'.children.Keys == w.children.Keys
      && forall k :: k in w.children ==>
           w'.children[k] == if Launching(w.phase) == Some(k) then w.children[k].(closed := true) else w.children[k]
  {
  }
}
