/**
  The reconciler and its launch as the program they are: fields updated in place, effect by
  effect, while children, operators and heartbeats act in between and the pass may break off
  anywhere.
*/
module SupervisorProgram {
  import opened Wrappers
  import opened Gate
  import opened Launch
  import opened LaunchSafety
  import opened LaunchTheorems
  import opened Pass
  import PassOutcomes

  /** What a child's own action makes of the children. */
  function Moved(children: map<nat, Child>, a: Action): map<nat, Child>
    requires OfChild(a)
  {
    var k := a.token;
    if k !in children then children
    else
      var c := children[k];
      match a
      case ChildReady(_) => if c.gate.Booting? then children[k := ChildStep(c, a)] else children
      case ChildRead(_, n) =>
        if c.gate.Reading? && 0 < n <= |c.inbox| && n <= READ_SIZE then children[k := ChildStep(c, a)] else children
      case ChildEof(_) =>
        if c.gate.Reading? && c.inbox == "" && c.closed then children[k := ChildStep(c, a)] else children
      case ChildEnd(_) => if !c.gate.Gone? then children[k := ChildStep(c, a)] else children
  }

  lemma MovedApplies(policy: Dict -> bool, w: World, a: Action)
    requires OfChild(a)
    ensures Apply(policy, w, a) == w.(children := Moved(w.children, a)) && Moved(w.children, a).Keys == w.children.Keys
  {
    if Possible(w, a) {
      ChildActionApplies(policy, w, a);
    }
    hide ReadChild;
  }

  // ---------------------------------------------------------------------
  // The program
  // ---------------------------------------------------------------------

  class Supervisor {
    const policy: Dict -> bool
    const schema: int
    const unit: string
    const epoch: nat
    var disk: Dict
    var pidFile: PidFile
    var handles: set<nat>
    var children: map<nat, Child>
    var nextToken: nat
    var step: nat

    ghost var phase: Phase
    ghost var loaded: Dict
    ghost var stamps: seq<int>
    ghost var outcomes: seq<Outcome>
    ghost var persisted: set<nat>
    ghost var lost: bool

    ghost function Now(): World
      reads this
    {
      World.World(schema, unit, pidFile, disk, phase, loaded, handles, children, epoch, nextToken, stamps, outcomes, persisted, lost)
    }

    constructor (policy: Dict -> bool, schema: int, unit: string)
      ensures Fresh(Now()) && this.policy == policy && LoadedState() == DefaultState(schema, unit)
    {
      this.policy, this.schema, this.unit, this.epoch := policy, schema, unit, 0;
      disk, pidFile, handles, children, nextToken, step := map[], Absent, {}, map[], 0, 0;
      phase, loaded, stamps, outcomes, persisted, lost := Idle, map[], [], [], {}, false;
      new;
      assert DefaultState(schema, unit) + map[] == DefaultState(schema, unit);
    }

    /** The state as read back from the file, missing core keys backfilled. */
    function LoadedState(): Dict
      reads this
    {
      Backfilled(schema, unit, disk)
    }

    // Actions that take no unit lock.

    /** The label reads as asked afterwards and every other key as before; an unknown label is refused. */
    method SetDesired(desired: string) returns (ok: bool)
      modifies this`disk
      ensures Now() == Apply(policy, old(Now()), Action.SetDesired(desired))
      ensures ok <==> desired == "enabled" || desired == "disabled" || desired == "paused"
      ensures !ok ==> disk == old(disk)
      ensures ok ==> Get(LoadedState(), Desired) == Text(desired)
      ensures forall k :: k != Desired ==> Get(LoadedState(), k) == Get(old(LoadedState()), k)
    {
      var value := Text(desired);
      ok := value == ENABLED || value == DISABLED || value == PAUSED;
      if ok {
        disk := LoadedState()[Desired := value];
      }
    }

    /**
      Under generation fencing, key by key: afterwards every core key reads as before, and every
      other key as the heartbeat has it, if it was accepted and has it.
    */
    method MergeHeartbeat(heartbeat: Dict) returns (accepted: bool)
      modifies this`disk
      ensures Now() == Apply(policy, old(Now()), Heartbeat(heartbeat))
      ensures accepted <==> IntOf(Get(heartbeat, Generation)) == Some(GenerationOf(old(LoadedState())))
      ensures SameCore(LoadedState(), old(LoadedState()))
      ensures forall k :: !IsCore(k) ==>
        Get(LoadedState(), k) == Get(if accepted && k in heartbeat then heartbeat else old(LoadedState()), k)
    {
      hide GenerationOf, IntOf, Launch.MergeHeartbeat, Backfilled;
      var state := LoadedState();
      accepted := Accepts(state, heartbeat);
      if !accepted {
        Turned(schema, unit, state, heartbeat);
        return;
      }
      var merged := TakeOthers(state, heartbeat);
      Taken(schema, unit, disk, heartbeat, merged);
      disk := merged;
    }

    /** Every key of the heartbeat but the core ones, one by one. */
    method TakeOthers(state: Dict, heartbeat: Dict) returns (merged: Dict)
      ensures merged == state + Others(heartbeat, {})
    {
      hide Others;
      merged := state;
      var keys := heartbeat.Keys;
      NoneTaken(state, heartbeat);
      while keys != {}
        invariant keys <= heartbeat.Keys && merged == state + Others(heartbeat, keys)
        decreases |keys|
      {
        var key :| key in keys;
        TakesOne(state, heartbeat, keys, key);
        if !IsCore(key) {
          merged := merged[key := heartbeat[key]];
        }
        keys := keys - {key};
      }
    }

    /**
      A TERM is sent exactly when pid.json is there, its token's handle is owned, and the pid on record is
      that child's, which still runs; the handle is then kept, and any other handle of that token is given
      up.  Whatever comes of it, pid.json keeps its provenance and is marked.
    */
    method RequestStop() returns (signalled: bool)
      modifies this`pidFile, this`handles
      ensures signalled == (
        && old(pidFile).Present? && old(pidFile).token in old(handles) && old(pidFile).token in children
        && old(pidFile).pid == Some(children[old(pidFile).token].pid) && !children[old(pidFile).token].gate.Gone?)
      ensures signalled ==> handles == old(handles)
      ensures !signalled ==>
        handles == if old(pidFile).Present? && old(pidFile).token in children then old(handles) - {old(pidFile).token} else old(handles)
      ensures pidFile == if old(pidFile).Present? then old(pidFile).(stopRequested := true) else old(pidFile)
      ensures (Now(), signalled) == Stop(old(Now()))
    {
      signalled := false;
      if !pidFile.Present? {
        return;
      }
      var token := pidFile.token;
      if token in handles && token in children {
        if pidFile.pid == Some(children[token].pid) && !children[token].gate.Gone? {
          signalled := true;
        } else {
          handles := handles - {token};
        }
      }
      pidFile := pidFile.(stopRequested := true);
    }

    /** Others act while the pass waits for its next effect. */
    method Meanwhile(actions: seq<Action>)
      requires forall a :: a in actions ==> Unlocked(a)
      modifies this`disk, this`pidFile, this`handles, this`children
      ensures Now() == Run(policy, old(Now()), actions)
      ensures children.Keys == old(children).Keys && (pidFile.Absent? <==> old(pidFile).Absent?)
    {
      ghost var start := Now();
      for i := 0 to |actions|
        invariant Now() == Run(policy, start, actions[..i])
      {
        hide Apply, Run;
        var a := actions[i];
        assert a in actions && actions[..i + 1] == actions[..i] + [a];
        RunSnoc(policy, start, actions[..i], a);
        Act(a);
      }
      assert actions[..|actions|] == actions;
      UnlockedRunKeeps(policy, start, actions);
    }

    method Act(a: Action)
      requires Unlocked(a)
      modifies this`disk, this`pidFile, this`handles, this`children
      ensures Now() == Apply(policy, old(Now()), a)
    {
      if OfChild(a) {
        MovedApplies(policy, Now(), a);
        children := Moved(children, a);
      } else if a.SetDesired? {
        var _ := SetDesired(a.desired);
      } else if a.Heartbeat? {
        var _ := MergeHeartbeat(a.payload);
      } else {
        var _ := RequestStop();
      }
    }

    // The effects of a pass, one method each, in the order of a launch.

    /** An error or a death closes the channel of a child it started, so an unacknowledged one exits. */
    method BreakOff(token: Option<nat>, dies: bool)
      requires !phase.Idle? && Breakable(phase, children, token)
      modifies this
      ensures Now() == Apply(policy, old(Now()), if dies then Die else Fail) && phase.Idle?
      ensures step == old(step) + 1 && loaded == old(loaded) && children.Keys == old(children).Keys && outcomes == old(outcomes)
    {
      hide TickStep, BeginPass, Stop, ReadChild, Launch.MergeHeartbeat, World.State;
      if token.Some? {
        children := children[token.value := children[token.value].(closed := true)];
      }
      if dies {
        handles := {};
      }
      lost, phase, step := lost || Stamped(phase), Idle, step + 1;
    }

    /** What comes before an effect: others act, and the effect may not be reached. */
    method Await(token: Option<nat>, env: Env) returns (go: bool)
      requires !phase.Idle? && Breakable(phase, children, token) && env.Fair()
      modifies this
      ensures loaded == old(loaded) && children.Keys == old(children).Keys && outcomes == old(outcomes)
      ensures go ==> env.mishap(step).Smooth? && step == old(step) && phase == old(phase)
      ensures go ==> Now() == Run(policy, old(Now()), env.between(step))
      ensures !go ==> Now() == Next(policy, old(Now()), env, old(step)) && step == old(step) + 1 && phase.Idle?
    {
      hide Apply, Run;
      Meanwhile(env.between(step));
      go := env.mishap(step) == Smooth;
      if !go {
        MishapApplies(policy, Now(), env, step);
        BreakOff(token, env.mishap(step).Dies?);
      }
    }

    /** Create pid.json exclusively; its presence is the fence. */
    method Fence(k: nat, env: Env) returns (go: bool, ok: bool)
      requires phase == Fencing(k) && env.Fair() && k !in children
      modifies this
      ensures Now() == Next(policy, old(Now()), env, old(step)) && step == old(step) + 1
      ensures if go then phase == (if ok then Writing(k) else SavingRefused) else phase.Idle?
      ensures loaded == old(loaded) && k !in children && outcomes == old(outcomes)
    {
      hide Run, Next, Apply;
      ghost var start := Now();
      go := Await(None, env);
      if !go {
        return false, false;
      }
      NextTick(policy, start, env, step);
      ok := pidFile.Absent?;
      if ok {
        pidFile := Garbled;
      }
      phase, step := if ok then Writing(k) else SavingRefused, step + 1;
    }

    method WriteIntent(k: nat, generation: int, env: Env) returns (go: bool)
      requires phase == Writing(k) && generation == NextGeneration(Now()) && env.Fair() && k !in children
      modifies this
      ensures Now() == Next(policy, old(Now()), env, old(step)) && step == old(step) + 1
      ensures (if go then phase == Starting(k) else phase.Idle?) && loaded == old(loaded) && k !in children && outcomes == old(outcomes)
    {
      hide Run, Next, Apply, GenerationOf;
      ghost var start := Now();
      go := Await(None, env);
      if !go {
        return false;
      }
      NextTick(policy, start, env, step);
      pidFile := Present(None, generation, k, false);
      phase, stamps, step := Starting(k), stamps + [generation], step + 1;
    }

    method StartChild(k: nat, generation: int, env: Env) returns (go: bool)
      requires phase == Starting(k) && generation == NextGeneration(Now()) && env.Fair() && k !in children
      modifies this
      ensures Now() == Next(policy, old(Now()), env, old(step)) && step == old(step) + 1
      ensures if go then phase == Awaiting(k) && k in children else phase.Idle?
      ensures loaded == old(loaded) && outcomes == old(outcomes)
    {
      hide Run, Next, Apply, GenerationOf;
      ghost var start := Now();
      go := Await(None, env);
      if !go {
        return false;
      }
      NextTick(policy, start, env, step);
      children := children[k := Child(env.pid, generation, epoch, Booting, false, "", false, false)];
      phase, step := Awaiting(k), step + 1;
    }

    /** The child is ready when exactly six bytes came; a wait that nothing ends is a timeout. */
    method Receive(k: nat, env: Env) returns (go: bool, ready: bool)
      requires phase == Awaiting(k) && k in children && env.Fair()
      modifies this
      ensures Now() == Next(policy, old(Now()), env, old(step)) && step == old(step) + 1
      ensures k in children && loaded == old(loaded) && outcomes == old(outcomes)
      ensures !go ==> phase.Idle?
      ensures go ==> phase == if ready then Persisting(k) else SavingLaunch(k, children[k].pid, false, false)
    {
      hide Run, Next, Apply;
      ghost var start := Now();
      go := Await(Some(k), env);
      if !go {
        return false, false;
      }
      NextTick(policy, start, env, step);
      var bytes := env.bytes(step);
      if !(if children[k].ready then 1 <= bytes <= 6 else children[k].gate.Gone?) {
        BreakOff(Some(k), false);
        return false, false;
      }
      ready := children[k].ready && bytes == 6;
      step := step + 1;
      if ready {
        phase := Persisting(k);
      } else {
        children := children[k := children[k].(closed := true)];
        phase := SavingLaunch(k, children[k].pid, false, false);
      }
    }

    /** Record the child's pid. */
    method Persist(k: nat, generation: int, env: Env) returns (go: bool)
      requires phase == Persisting(k) && k in children && generation == NextGeneration(Now()) && env.Fair()
      modifies this
      ensures Now() == Next(policy, old(Now()), env, old(step)) && step == old(step) + 1
      ensures (if go then phase == Owning(k) else phase.Idle?) && k in children && loaded == old(loaded) && outcomes == old(outcomes)
    {
      hide Run, Next, Apply, GenerationOf;
      ghost var start := Now();
      go := Await(Some(k), env);
      if !go {
        return false;
      }
      NextTick(policy, start, env, step);
      pidFile := Present(Some(children[k].pid), generation, k, false);
      phase, persisted, step := Owning(k), persisted + {k}, step + 1;
    }

    /** Keep the child's handle. */
    method Own(k: nat, env: Env) returns (go: bool)
      requires phase == Owning(k) && k in children && env.Fair()
      modifies this
      ensures Now() == Next(policy, old(Now()), env, old(step)) && step == old(step) + 1
      ensures (if go then phase == Acking(k, 0) else phase.Idle?) && k in children && loaded == old(loaded) && outcomes == old(outcomes)
    {
      hide Run, Next, Apply;
      ghost var start := Now();
      go := Await(Some(k), env);
      if !go {
        return false;
      }
      NextTick(policy, start, env, step);
      handles := handles + {k};
      phase, step := Acking(k, 0), step + 1;
    }

    /** One send of what is left of the acknowledgement; it may move part of it. */
    method SendAck(k: nat, sent: nat, env: Env) returns (go: bool, sent': nat)
      requires phase == Acking(k, sent) && sent < |ACK| && k in children && env.Fair()
      modifies this
      ensures Now() == Next(policy, old(Now()), env, old(step)) && step == old(step) + 1
      ensures k in children && loaded == old(loaded) && outcomes == old(outcomes)
      ensures sent' <= |ACK| && (go ==> sent < sent')
      ensures phase == if !go then Idle else if sent' == |ACK| then Probing(k) else Acking(k, sent')
    {
      hide Run, Next, Apply;
      ghost var start := Now();
      go := Await(Some(k), env);
      if !go {
        return false, sent;
      }
      NextTick(policy, start, env, step);
      var bytes := env.bytes(step);
      if !(0 < bytes <= |ACK| - sent) {
        BreakOff(Some(k), false);
        return false, sent;
      }
      sent' := sent + bytes;
      children := children[k := children[k].(inbox := children[k].inbox + ACK[sent..sent'])];
      if sent' == |ACK| {
        children := children[k := children[k].(closed := true)];
      }
      phase, step := if sent' == |ACK| then Probing(k) else Acking(k, sent'), step + 1;
    }

    /** A child that already exited is not owned any longer. */
    method Probe(k: nat, env: Env) returns (go: bool, alive: bool)
      requires phase == Probing(k) && k in children && env.Fair()
      modifies this
      ensures Now() == Next(policy, old(Now()), env, old(step)) && step == old(step) + 1
      ensures k in children && loaded == old(loaded) && outcomes == old(outcomes)
      ensures phase == if go then SavingLaunch(k, children[k].pid, alive, true) else Idle
    {
      hide Run, Next, Apply;
      ghost var start := Now();
      go := Await(Some(k), env);
      if !go {
        return false, false;
      }
      NextTick(policy, start, env, step);
      alive := !children[k].gate.Gone?;
      if !alive {
        handles := handles - {k};
      }
      phase, step := SavingLaunch(k, children[k].pid, alive, true), step + 1;
    }

    /** The state dictionary of the pass replaces state.json, unless the save breaks off. */
    method Save(s: Dict, act: Act, pid: Option<int>, alive: bool, degraded: bool, env: Env, ghost before: World)
      returns (o: Option<Outcome>)
      requires Now() == Run(policy, before, env.between(step)) && env.mishap(step).Smooth? && TickEnabled(Now(), env.bytes(step))
      requires TickStep(Now(), env.bytes(step), env.pid) == Finish(Now().(lost := lost && act.Noop?), s, act, pid, alive, degraded)
      modifies this
      ensures Now() == Next(policy, before, env, old(step)) && step == old(step) + 1 && phase.Idle?
      ensures o.Some? && outcomes == old(outcomes) + [o.value]
      ensures o.value == Outcome(act, Get(s, Desired), Get(s, Actual), GenerationOf(s), pid, alive, degraded)
    {
      hide TickStep, Run, Next, Apply, GenerationOf, Get;
      NextTick(policy, before, env, step);
      var report := Outcome(act, Get(s, Desired), Get(s, Actual), GenerationOf(s), pid, alive, degraded);
      disk := s;
      lost := lost && act.Noop?;
      phase, outcomes, step := Idle, outcomes + [report], step + 1;
      return Some(report);
    }

    // The pass.

    /** The rest of the pass as it stands. */
    ghost function Future(env: Env): World
      requires env.Fair()
      reads this
    {
      Complete(policy, Now(), env, step)
    }

    /** Ask the workload to stop, if it is not wanted. */
    method StopUnwanted(s: Dict, env: Env) returns (go: bool, kept: Dict)
      requires phase.Stopping? && loaded == s && env.Fair()
      modifies this
      ensures Now() == Next(policy, old(Now()), env, old(step)) && step == old(step) + 1
      ensures outcomes == old(outcomes) && if go then phase.SavingBlocked? && loaded == kept else phase.Idle?
    {
      hide Run, Next, Apply, Stop;
      ghost var start := Now();
      kept := s;
      go := Await(None, env);
      if !go {
        return;
      }
      NextTick(policy, start, env, step);
      var signalled := RequestStop();
      if signalled {
        kept := kept[StopNoted := Flag(true)];
      }
      phase, loaded, step := SavingBlocked, kept, step + 1;
    }

    method SaveBlocked(s: Dict, env: Env) returns (o: Option<Outcome>)
      requires phase.SavingBlocked? && loaded == s && env.Fair()
      modifies this
      ensures Now() == Next(policy, old(Now()), env, old(step)) && step == old(step) + 1 && phase.Idle?
      ensures outcomes == old(outcomes) + if o.Some? then [o.value] else []
    {
      hide Run, Next, Apply, Finish, Get;
      ghost var start := Now();
      var go := Await(None, env);
      if !go {
        return None;
      }
      o := Save(s, Noop, IntOf(Get(s, Pid)), true, true, env, start);
    }

    method SaveStopped(s: Dict, env: Env) returns (o: Option<Outcome>)
      requires phase.SavingStopped? && loaded == s && env.Fair()
      modifies this
      ensures Now() == Next(policy, old(Now()), env, old(step)) && step == old(step) + 1 && phase.Idle?
      ensures outcomes == old(outcomes) + if o.Some? then [o.value] else []
    {
      hide Run, Next, Apply, Finish;
      ghost var start := Now();
      var go := Await(None, env);
      if !go {
        return None;
      }
      o := Save(s, Noop, None, false, false, env, start);
    }

    method SaveRefused(s: Dict, env: Env) returns (o: Option<Outcome>)
      requires phase.SavingRefused? && loaded == s && env.Fair()
      modifies this
      ensures Now() == Next(policy, old(Now()), env, old(step)) && step == old(step) + 1 && phase.Idle?
      ensures outcomes == old(outcomes) + if o.Some? then [o.value] else []
    {
      hide Run, Next, Apply, Finish, Refused;
      ghost var start := Now();
      var go := Await(None, env);
      if !go {
        return None;
      }
      o := Save(Refused(s), Noop, None, false, true, env, start);
    }

    method SaveLaunch(k: nat, generation: int, pid: int, alive: bool, owned: bool, s: Dict, env: Env) returns (o: Option<Outcome>)
      requires phase == SavingLaunch(k, pid, alive, owned) && k in children && loaded == s && env.Fair()
      requires generation == NextGeneration(Now())
      modifies this
      ensures Now() == Next(policy, old(Now()), env, old(step)) && step == old(step) + 1 && phase.Idle?
      ensures outcomes == old(outcomes) + if o.Some? then [o.value] else []
    {
      hide Run, Next, Apply, Finish, Launched, GenerationOf;
      ghost var start := Now();
      var go := Await(Some(k), env);
      if !go {
        return None;
      }
      o := Save(Launched(s, generation, k, pid, alive, owned), Spawned, Some(pid), alive, !alive, env, start);
    }

    /** The exchange with the gate: the child is acknowledged only once its pid is on record. */
    method SpawnProcess(k: nat, generation: int, env: Env) returns (go: bool, alive: bool, owned: bool)
      requires phase == Starting(k) && generation == NextGeneration(Now()) && env.Fair() && k !in children
      modifies this
      ensures Future(env) == old(Future(env)) && outcomes == old(outcomes) && loaded == old(loaded)
      ensures if go then k in children && phase == SavingLaunch(k, children[k].pid, alive, owned) else phase.Idle?
    {
      hide Next, Complete, GenerationOf;
      alive, owned := false, false;
      Unfold(Now(), env);
      go := StartChild(k, generation, env);
      if !go {
        return;
      }
      Unfold(Now(), env);
      var ready;
      go, ready := Receive(k, env);
      if !go || !ready {
        return;
      }
      Unfold(Now(), env);
      go := Persist(k, generation, env);
      if !go {
        return;
      }
      Unfold(Now(), env);
      go := Own(k, env);
      if !go {
        return;
      }
      go, alive := Acknowledge(k, env);
      owned := true;
    }

    /** Send the whole acknowledgement, however it is cut, and see whether the child stays. */
    method Acknowledge(k: nat, env: Env) returns (go: bool, alive: bool)
      requires phase == Acking(k, 0) && k in children && env.Fair()
      modifies this
      ensures Future(env) == old(Future(env)) && outcomes == old(outcomes) && loaded == old(loaded)
      ensures if go then k in children && phase == SavingLaunch(k, children[k].pid, alive, true) else phase.Idle?
    {
      hide Next, Complete;
      var sent := 0;
      while sent < |ACK|
        invariant 0 <= sent <= |ACK| && k in children && Future(env) == old(Future(env))
        invariant outcomes == old(outcomes) && loaded == old(loaded)
        invariant phase == if sent == |ACK| then Probing(k) else Acking(k, sent)
      {
        Unfold(Now(), env);
        go, sent := SendAck(k, sent, env);
        if !go {
          return false, false;
        }
      }
      Unfold(Now(), env);
      go, alive := Probe(k, env);
    }

    lemma Unfold(w: World, env: Env)
      requires env.Fair() && !w.phase.Idle?
      ensures Complete(policy, w, env, step) == Complete(policy, Next(policy, w, env, step), env, step + 1)
    {
      hide Next;
    }

    /** First launch only: fence, durable intent, then the child. */
    method Spawn(k: nat, s: Dict, env: Env) returns (o: Option<Outcome>)
      requires phase == Fencing(k) && loaded == s && env.Fair() && k !in children
      modifies this
      ensures phase.Idle? && Now() == old(Future(env))
      ensures outcomes == old(outcomes) + if o.Some? then [o.value] else []
    {
      hide Next, Complete, GenerationOf;
      var generation := GenerationOf(s) + 1;
      Unfold(Now(), env);
      var go, ok := Fence(k, env);
      if !go {
        Finished(Now(), env);
        return None;
      }
      if !ok {
        Unfold(Now(), env);
        o := SaveRefused(s, env);
        Finished(Now(), env);
        return;
      }
      Unfold(Now(), env);
      go := WriteIntent(k, generation, env);
      if !go {
        Finished(Now(), env);
        return None;
      }
      var alive, owned;
      go, alive, owned := SpawnProcess(k, generation, env);
      if !go {
        Finished(Now(), env);
        return None;
      }
      Unfold(Now(), env);
      o := SaveLaunch(k, generation, children[k].pid, alive, owned, s, env);
      Finished(Now(), env);
    }

    lemma Finished(w: World, env: Env)
      requires env.Fair() && w.phase.Idle?
      ensures Complete(policy, w, env, step) == w
    {
    }

    /** Load the state and look whether pid.json is there, never whether a process is. */
    method Observe(wanted: bool) returns (s: Dict, tombstone: bool, token: nat)
      requires phase.Idle? && wanted == policy(LoadedState())
      modifies this
      ensures Now() == Apply(policy, old(Now()), Begin) && s == loaded && outcomes == old(outcomes) && step == 0
      ensures children == old(children) && token == old(nextToken)
      ensures tombstone <==> !pidFile.Absent?
      ensures tombstone ==> phase == if wanted then SavingBlocked else Stopping
      ensures !tombstone ==> phase == if wanted then Fencing(token) else SavingStopped
    {
      hide Backfilled;
      step, tombstone, token := 0, !pidFile.Absent?, nextToken;
      if tombstone {
        s := Blocked(LoadedState());
        phase := if wanted then SavingBlocked else Stopping;
      } else {
        s := LoadedState()[Actual := STOPPED];
        if wanted {
          nextToken := nextToken + 1;
        }
        phase := if wanted then Fencing(token) else SavingStopped;
      }
      loaded := s;
    }

    /**
      One pass, whatever is done around it, wherever it breaks off: it ends as the machine's run
      over its script ends, and the outcome it returns is the one recorded and reports truly what
      was decided and saved.
    */
    method ReconcileUnit(env: Env) returns (o: Option<Outcome>)
      requires phase.Idle? && nextToken !in children && env.Fair()
      modifies this
      ensures var begun := Apply(policy, old(Now()), Begin);
        phase.Idle? && Now() == Run(policy, begun, Script(policy, begun, env, 0))
      ensures outcomes == old(outcomes) + if o.Some? then [o.value] else []
      ensures o.Some? ==> PassOutcomes.Reports(policy(old(LoadedState())), old(Now()), Now(), o.value)
    {
      hide Next, Complete, Apply, Run, Script, Backfilled, PassOutcomes.Reports;
      PassOutcomes.PassReports(policy, Now(), env);
      var wanted := policy(LoadedState());
      var s, tombstone, token := Observe(wanted);
      CompleteIsRun(policy, Now(), env, 0);
      if tombstone {
        if !wanted {
          Unfold(Now(), env);
          var go;
          go, s := StopUnwanted(s, env);
          if !go {
            Finished(Now(), env);
            return None;
          }
        }
        Unfold(Now(), env);
        o := SaveBlocked(s, env);
        Finished(Now(), env);
      } else if wanted {
        o := Spawn(token, s, env);
      } else {
        Unfold(Now(), env);
        o := SaveStopped(s, env);
        Finished(Now(), env);
      }
    }
  }

  /** The token, if any, whose child's channel a pass that breaks off closes. */
  predicate Breakable(ph: Phase, children: map<nat, Child>, token: Option<nat>) {
    if token.Some? then Launching(ph) == token && token.value in children
    else Launching(ph).None? || Launching(ph).value !in children
  }

  lemma MishapApplies(policy: Dict -> bool, w: World, env: Env, i: nat)
    requires !env.mishap(i).Smooth?
    ensures Effect(w, env, i) == if env.mishap(i).Dies? then Die else Fail
  {
    hide TickEnabled;
  }

  /** The keys of a heartbeat, other than the core ones, without those still to be looked at. */
  function Others(heartbeat: Dict, left: set<Key>): Dict {
    map k | k in heartbeat && k !in left && !IsCore(k) :: heartbeat[k]
  }

  lemma NoneTaken(state: Dict, heartbeat: Dict)
    ensures state + Others(heartbeat, heartbeat.Keys) == state
  {
    assert Others(heartbeat, heartbeat.Keys) == map[];
  }

  lemma TakesOne(state: Dict, heartbeat: Dict, left: set<Key>, key: Key)
    requires key in left && key in heartbeat
    ensures state + Others(heartbeat, left - {key})
         == if IsCore(key) then state + Others(heartbeat, left) else (state + Others(heartbeat, left))[key := heartbeat[key]]
  {
    var before, after := Others(heartbeat, left), Others(heartbeat, left - {key});
    if IsCore(key) {
      assert after == before;
    } else {
      assert after == before[key := heartbeat[key]];
    }
    hide Others;
  }

  lemma Turned(schema: int, unit: string, s: Dict, heartbeat: Dict)
    requires !Accepts(s, heartbeat)
    ensures Launch.MergeHeartbeat(s, heartbeat).None? && SameCore(s, s)
  {
  }

  /** How the state reads once a merged heartbeat is saved. */
  lemma Taken(schema: int, unit: string, disk: Dict, heartbeat: Dict, merged: Dict)
    requires var s := Backfilled(schema, unit, disk);
      Accepts(s, heartbeat) && merged == s + Others(heartbeat, {})
    ensures var s, s' := Backfilled(schema, unit, disk), Backfilled(schema, unit, merged);
      && Launch.MergeHeartbeat(s, heartbeat) == Some(merged) && SameCore(s', s)
      && forall k :: !IsCore(k) ==> Get(s', k) == Get(if k in heartbeat then heartbeat else s, k)
  {
    hide Accepts, GenerationOf;
    assert Others(heartbeat, {}) == (map k | k in heartbeat && !IsCore(k) :: heartbeat[k]);
    var s, s' := Backfilled(schema, unit, disk), Backfilled(schema, unit, merged);
    forall k | IsCore(k)
      ensures k in s' && k in s && s'[k] == s[k]
    {
    }
    forall k | !IsCore(k)
      ensures Get(s', k) == Get(if k in heartbeat then heartbeat else s, k)
    {
    }
  }
}
