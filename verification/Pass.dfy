/** A reconcile pass among everything around it, and the run of the machine that it is. */
module Pass {
  import opened Wrappers
  import opened Launch
  import opened LaunchSafety
  import opened LaunchTheorems

  // ---------------------------------------------------------------------
  // What surrounds a pass
  // ---------------------------------------------------------------------

  /** Before an effect of a pass, an error may be raised or the supervisor may die. */
  datatype Mishap = Smooth | Raises | Dies

  /** Everything that needs no unit lock. */
  predicate Unlocked(a: Action) {
    OfChild(a) || a.SetDesired? || a.Heartbeat? || a.DirectStop?
  }

  /**
    The pid of a child started in the pass; what others do before its `i`th effect; what befalls
    that effect; and how many bytes it moves when it sends or receives.
  */
  datatype Env = Env(pid: int, between: nat -> seq<Action>, mishap: nat -> Mishap, bytes: nat -> nat)
  {
    ghost predicate Fair() {
      forall i: nat, a :: a in between(i) ==> Unlocked(a)
    }
  }

  function Remaining(ph: Phase): nat {
    match ph
    case Idle => 0
    case Stopping => 2
    case SavingBlocked => 1
    case SavingStopped => 1
    case SavingRefused => 1
    case Fencing(_) => 20
    case Writing(_) => 19
    case Starting(_) => 18
    case Awaiting(_) => 17
    case Persisting(_) => 16
    case Owning(_) => 15
    case Acking(_, sent) => if sent <= 10 then 14 - sent else 3
    case Probing(_) => 2
    case SavingLaunch(_, _, _, _) => 1
  }

  lemma UnlockedKeeps(policy: Dict -> bool, w: World, a: Action)
    requires Unlocked(a)
    ensures var w' := Apply(policy, w, a);
      && w'.phase == w.phase && w'.loaded == w.loaded && w'.children.Keys == w.children.Keys
      && (w'.pidFile.Absent? <==> w.pidFile.Absent?) && w'.outcomes == w.outcomes
  {
    if OfChild(a) && Possible(w, a) {
      ChildActionApplies(policy, w, a);
    }
    hide ReadChild, MergeHeartbeat, World.State;
  }

  lemma {:induction false} UnlockedRunKeeps(policy: Dict -> bool, w: World, actions: seq<Action>)
    requires forall a :: a in actions ==> Unlocked(a)
    ensures var w' := Run(policy, w, actions);
      && w'.phase == w.phase && w'.loaded == w.loaded && w'.children.Keys == w.children.Keys
      && (w'.pidFile.Absent? <==> w.pidFile.Absent?) && w'.outcomes == w.outcomes
  {
    if actions != [] {
      hide Apply;
      var m := |actions| - 1;
      UnlockedRunKeeps(policy, w, actions[..m]);
      assert actions[m] in actions;
      UnlockedKeeps(policy, Run(policy, w, actions[..m]), actions[m]);
    }
  }

  /** The action that the `i`th effect comes to. */
  function Effect(w: World, env: Env, i: nat): Action {
    if env.mishap(i).Dies? then Die
    else if env.mishap(i).Raises? || !TickEnabled(w, env.bytes(i)) then Fail
    else Tick(env.bytes(i), env.pid)
  }

  /** The actions up to and with the `i`th effect. */
  function Turn(policy: Dict -> bool, w: World, env: Env, i: nat): seq<Action> {
    env.between(i) + [Effect(Run(policy, w, env.between(i)), env, i)]
  }

  function Next(policy: Dict -> bool, w: World, env: Env, i: nat): World {
    var w1 := Run(policy, w, env.between(i));
    Apply(policy, w1, Effect(w1, env, i))
  }

  lemma LaunchTickAdvances(w: World, bytes: nat, pid: int)
    requires TickEnabled(w, bytes) && Launching(w.phase).Some? && !w.phase.SavingLaunch?
    ensures Remaining(TickStep(w, bytes, pid).phase) < Remaining(w.phase)
  {
    hide GenerationOf, Finish, Stop, Launched, Refused;
  }

  lemma QuietTickAdvances(w: World, bytes: nat, pid: int)
    requires TickEnabled(w, bytes) && (Launching(w.phase).None? || w.phase.SavingLaunch?)
    ensures Remaining(TickStep(w, bytes, pid).phase) < Remaining(w.phase)
  {
    hide GenerationOf, Get, Stop, Launched, Refused;
  }

  lemma EffectAdvances(policy: Dict -> bool, w: World, env: Env, i: nat)
    requires !w.phase.Idle?
    ensures Remaining(Apply(policy, w, Effect(w, env, i)).phase) < Remaining(w.phase)
  {
    if TickEnabled(w, env.bytes(i)) {
      if Launching(w.phase).None? || w.phase.SavingLaunch? {
        QuietTickAdvances(w, env.bytes(i), env.pid);
      } else {
        LaunchTickAdvances(w, env.bytes(i), env.pid);
      }
    }
    hide TickStep, TickEnabled, Launching;
  }

  /** An effect that nothing prevents is a step of the pass. */
  lemma NextTick(policy: Dict -> bool, w: World, env: Env, i: nat)
    requires env.mishap(i).Smooth?
    ensures var w1 := Run(policy, w, env.between(i));
      Next(policy, w, env, i) == if TickEnabled(w1, env.bytes(i)) then TickStep(w1, env.bytes(i), env.pid) else Apply(policy, w1, Fail)
  {
    hide Run, TickStep, TickEnabled;
  }

  lemma NextAdvances(policy: Dict -> bool, w: World, env: Env, i: nat)
    requires env.Fair() && !w.phase.Idle?
    ensures Remaining(Next(policy, w, env, i).phase) < Remaining(w.phase)
  {
    UnlockedRunKeeps(policy, w, env.between(i));
    EffectAdvances(policy, Run(policy, w, env.between(i)), env, i);
    hide Apply, Run, Effect;
  }

  /** The world when the pass is over, from the `i`th effect on. */
  ghost function Complete(policy: Dict -> bool, w: World, env: Env, i: nat): World
    requires env.Fair()
    decreases Remaining(w.phase)
  {
    if w.phase.Idle? then w
    else
      NextAdvances(policy, w, env, i);
      Complete(policy, Next(policy, w, env, i), env, i + 1)
  }

  /** The actions of the rest of the pass. */
  ghost function Script(policy: Dict -> bool, w: World, env: Env, i: nat): seq<Action>
    requires env.Fair()
    decreases Remaining(w.phase)
  {
    if w.phase.Idle? then []
    else
      NextAdvances(policy, w, env, i);
      Turn(policy, w, env, i) + Script(policy, Next(policy, w, env, i), env, i + 1)
  }

  /** A pass among everything around it is a run of the machine. */
  lemma {:induction false} CompleteIsRun(policy: Dict -> bool, w: World, env: Env, i: nat)
    requires env.Fair()
    ensures Complete(policy, w, env, i) == Run(policy, w, Script(policy, w, env, i)) && Complete(policy, w, env, i).phase.Idle?
    decreases Remaining(w.phase)
  {
    hide Apply, Effect, Remaining, Env.Fair;
    if !w.phase.Idle? {
      NextAdvances(policy, w, env, i);
      var next := Next(policy, w, env, i);
      CompleteIsRun(policy, next, env, i + 1);
      var w1 := Run(policy, w, env.between(i));
      RunSnoc(policy, w, env.between(i), Effect(w1, env, i));
      RunConcat(policy, w, Turn(policy, w, env, i), Script(policy, next, env, i + 1));
    }
  }
}
