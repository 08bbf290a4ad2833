/**
  Any number of callers, each waiting for the unit lock, stepping while it holds it, and
  dying between any two system calls.  The lock of a dead holder is released.
*/
module ClearanceSystem {
  import opened Wrappers
  import opened FileSystem
  import opened Clearance
  import opened ClearanceSafety
  import opened ClearanceSteps
  import opened ClearanceProgress
  import opened ClearanceRuns

  /** `phase` is None while the caller waits for the lock. */
  datatype Caller = Caller(req: Request, phase: Option<Phase>)

  /** `answered` collects the requests whose call returned a completion path. */
  datatype System = System(fs: FS, lock: Option<nat>, callers: map<nat, Caller>, answered: set<Request>)

  datatype Action =
    | Call(id: nat, req: Request)
    | Acquire(id: nat)
    | Advance(id: nat, choice: Choice)
    | Leave(id: nat)
    | Die(id: nat)

  ghost predicate Enabled(s: System, a: Action) {
    match a
    case Call(id, _) => id !in s.callers
    case Acquire(id) => id in s.callers && s.callers[id].phase.None? && s.lock.None?
    case Advance(id, c) => Holding(s, id) && !s.callers[id].phase.value.Final() && Fresh(s.fs, c)
    case Leave(id) => Holding(s, id) && s.callers[id].phase.value.Final()
    case Die(id) => id in s.callers
  }

  ghost predicate Holding(s: System, id: nat) {
    id in s.callers && s.lock == Some(id) && s.callers[id].phase.Some?
  }

  /** One action; a disabled one changes nothing. */
  ghost function Apply(s: System, a: Action): System {
    if !Enabled(s, a) then s
    else
      match a
      case Call(id, req) => s.(callers := s.callers[id := Caller(req, None)])
      case Acquire(id) =>
        var req := s.callers[id].req;
        s.(lock := Some(id), callers := s.callers[id := Caller(req, Some(Begin(req)))])
      case Advance(id, c) =>
        var Caller(req, phase) := s.callers[id];
        var (fs', ph') := Step(req, s.fs, phase.value, c);
        s.(fs := fs', callers := s.callers[id := Caller(req, Some(ph'))])
      case Leave(id) =>
        var req := s.callers[id].req;
        s.(lock := None, callers := s.callers - {id},
           answered := if s.callers[id].phase.value.Returned? then s.answered + {req} else s.answered)
      case Die(id) =>
        s.(lock := if s.lock == Some(id) then None else s.lock, callers := s.callers - {id})
  }

  ghost function Run(s: System, actions: seq<Action>): System {
    if actions == [] then s else Apply(Run(s, actions[..|actions| - 1]), actions[|actions| - 1])
  }

  /** A unit directory with an untouched tombstone: no clearance has left anything but torn temporaries. */
  ghost predicate Untouched(fs: FS, t: Ino, f: PidFile) {
    && PidJson in fs.names && fs.names[PidJson] == t
    && t in fs.files && fs.files[t] == Tombstone(f)
    && (forall n :: n in fs.names ==> n.PidJson? || n.Temporary? || n.Other?)
    && (forall n, m :: n in fs.names && m in fs.names && n != m ==> fs.names[n] != fs.names[m])
    && TokensSound(fs)
  }

  ghost predicate Start(s: System, t: Ino, f: PidFile) {
    Untouched(s.fs, t, f) && s.lock == None && s.callers == map[] && s.answered == {}
  }

  // ---------------------------------------------------------------------
  // The invariant of the whole system
  // ---------------------------------------------------------------------

  ghost predicate LockSound(s: System) {
    && (s.lock.Some? ==> s.lock.value in s.callers && s.callers[s.lock.value].phase.Some?)
    && (forall id :: id in s.callers && s.callers[id].phase.Some? ==> s.lock == Some(id))
  }

  ghost predicate AnsweredSound(s: System) {
    forall r :: r in s.answered ==> Complete(OperationId(r)) in s.fs.names
  }

  ghost predicate HolderGood(s: System, t: Ino, f: PidFile) {
    s.lock.Some? && s.lock.value in s.callers && s.callers[s.lock.value].phase.Some? ==>
      Good(s.fs, t, f, s.callers[s.lock.value].req, s.callers[s.lock.value].phase.value)
  }

  ghost predicate SystemSound(s: System, t: Ino, f: PidFile) {
    Sound(s.fs, t, f) && LockSound(s) && HolderGood(s, t, f) && AnsweredSound(s)
  }

  lemma StartSound(fs: FS, t: Ino, f: PidFile)
    requires Untouched(fs, t, f)
    ensures Sound(fs, t, f)
  {
  }

  lemma GoodIsSound(fs: FS, t: Ino, f: PidFile, req: Request, ph: Phase)
    requires Good(fs, t, f, req, ph)
    ensures Sound(fs, t, f)
    ensures ph.Returned? ==> Complete(OperationId(req)) in fs.names
  {
    hide Sound;
  }

  /** A published completion is never withdrawn, and only the holder's own intent can appear. */
  lemma StepNames(req: Request, fs: FS, t: Ino, f: PidFile, ph: Phase, c: Choice)
    requires Good(fs, t, f, req, ph) && Fresh(fs, c)
    ensures var fs' := Step(req, fs, ph, c).0;
      && (forall op :: Complete(op) in fs.names ==> Complete(op) in fs'.names)
      && (forall op :: Intent(op) in fs'.names ==> Intent(op) in fs.names || op == OperationId(req))
  {
    hide Sound, Open, Retired, PrivateQuarantine, ReadAudit, Clearable, EncodedSize;
    if ph.LinkQuarantine? {
      IntentChecked(fs, t, f, OperationId(req));
    }
  }

  lemma AdvanceSound(s: System, t: Ino, f: PidFile, id: nat, c: Choice)
    requires SystemSound(s, t, f) && Enabled(s, Advance(id, c))
    ensures SystemSound(Apply(s, Advance(id, c)), t, f)
  {
    hide Sound, Good, Step, Fresh;
    var Caller(req, phase) := s.callers[id];
    StepGood(req, s.fs, t, f, phase.value, c);
    StepNames(req, s.fs, t, f, phase.value, c);
    var (fs', ph') := Step(req, s.fs, phase.value, c);
    GoodIsSound(fs', t, f, req, ph');
  }

  lemma ApplySound(s: System, t: Ino, f: PidFile, a: Action)
    requires SystemSound(s, t, f)
    ensures SystemSound(Apply(s, a), t, f)
  {
    hide Sound, Good, Step, Fresh;
    if Enabled(s, a) {
      match a
      case Call(_, _) =>
      case Acquire(id) => BeginGood(s.callers[id].req, s.fs, t, f);
      case Advance(id, c) => AdvanceSound(s, t, f, id, c);
      case Leave(id) =>
        GoodIsSound(s.fs, t, f, s.callers[id].req, s.callers[id].phase.value);
      case Die(_) =>
    }
  }

  /** Every reachable system is sound. */
  lemma {:induction false} ReachableSound(s: System, t: Ino, f: PidFile, actions: seq<Action>)
    requires Start(s, t, f)
    ensures SystemSound(Run(s, actions), t, f)
  {
    hide Sound, Good, Apply;
    if actions == [] {
      StartSound(s.fs, t, f);
    } else {
      ReachableSound(s, t, f, actions[..|actions| - 1]);
      ApplySound(Run(s, actions[..|actions| - 1]), t, f, actions[|actions| - 1]);
    }
  }

  // ---------------------------------------------------------------------
  // Theorems over every run
  // ---------------------------------------------------------------------

  /**
    No crash, retry or competition loses the tombstone: its bytes never change and it is
    named by pid.json, by exactly one quarantine, or by both, and by nothing else.
  */
  lemma TombstoneNeverLost(s: System, t: Ino, f: PidFile, actions: seq<Action>)
    requires Start(s, t, f)
    ensures var fs := Run(s, actions).fs;
      && fs.files.Keys >= {t} && fs.files[t] == Tombstone(f)
      && (fs.LinkCount(t) == 1 || fs.LinkCount(t) == 2)
      && (forall n :: n in fs.Links(t) ==> n.PidJson? || (n.Quarantine? && n.digest == Sha256(f)))
      && (forall n, m :: n in fs.Links(t) && m in fs.Links(t) && n.Quarantine? && m.Quarantine? ==> n == m)
      && (PidJson in fs.names ==> fs.names[PidJson] == t)
  {
    ReachableSound(s, t, f, actions);
    hide SharingSound, TokensSound, IntentsExact, IntentsDistinct, QuarantinesBacked, CompletesSound, HolderGood;
    TombstoneLinks(Run(s, actions).fs, t, f);
  }

  /** At most one request ever completes, however many compete. */
  lemma AtMostOneCompletes(s: System, t: Ino, f: PidFile, actions: seq<Action>, a: OperationId, b: OperationId)
    requires Start(s, t, f)
    requires Complete(a) in Run(s, actions).fs.names && Complete(b) in Run(s, actions).fs.names
    ensures a == b
  {
    ReachableSound(s, t, f, actions);
    var fs := Run(s, actions).fs;
    assert GoodCompletion(fs, a) && GoodCompletion(fs, b);
    IntentChecked(fs, t, f, a);
    IntentChecked(fs, t, f, b);
    hide IntentsExact, SharingSound, TokensSound, QuarantinesBacked, CompletesSound, HolderGood;
  }

  /** Two calls that return a path returned it for the same request. */
  lemma AnswersAgree(s: System, t: Ino, f: PidFile, actions: seq<Action>, a: Request, b: Request)
    requires Start(s, t, f)
    requires a in Run(s, actions).answered && b in Run(s, actions).answered
    ensures a == b
  {
    ReachableSound(s, t, f, actions);
    AtMostOneCompletes(s, t, f, actions, OperationId(a), OperationId(b));
  }

  /**
    A published completion is true: the matching intent is there with the same fields, pid.json
    is gone, and the quarantine it names is the tombstone, singly linked, with the requested digest.
  */
  lemma CompletionIsTrue(s: System, t: Ino, f: PidFile, actions: seq<Action>, op: OperationId)
    requires Start(s, t, f) && Complete(op) in Run(s, actions).fs.names
    ensures var fs := Run(s, actions).fs;
      var r := IntentRecord(op.request, QuarantineOf(fs, op));
      && Published(fs, r) && Published(fs, Completion(r))
      && PidJson !in fs.names
      && r.quarantine in fs.names && fs.names[r.quarantine] == t && fs.LinkCount(t) == 1
      && Sha256(f) == op.request.digest
      && f.meta.Object? && !f.meta.hasToken && f.meta.unit == Some(op.request.unit) && f.meta.generation == Some(op.request.generation)
  {
    ReachableSound(s, t, f, actions);
    var fs := Run(s, actions).fs;
    CompletionChecked(fs, t, f, op);
    IntentChecked(fs, t, f, op);
    hide IntentsExact, IntentsDistinct, SharingSound, TokensSound, QuarantinesBacked, CompletesSound, HolderGood;
    TombstoneLinks(fs, t, f);
  }

  /**
    Publication is all or nothing: in every reachable state a final audit name holds a whole
    record of its own operation, with at most a leftover temporary sharing its inode.
  */
  lemma AuditAllOrNothing(s: System, t: Ino, f: PidFile, actions: seq<Action>, n: Name)
    requires Start(s, t, f) && n in Run(s, actions).fs.names && (n.Intent? || n.Complete?)
    ensures var fs := Run(s, actions).fs;
      && (exists r ::
            FinalName(r) == n && r.request == n.op.request && fs.At(n) == Some(Whole(r)) && EncodedSize(r) <= AUDIT_LIMIT)
      && (fs.Alone(n) || exists m: Name :: m.Temporary? && m in fs.names && fs.Links(fs.names[n]) == {n, m})
  {
    hide Sound, Run, HolderGood, LockSound;
    ReachableSound(s, t, f, actions);
    var fs := Run(s, actions).fs;
    var r := IntentRecord(n.op.request, QuarantineOf(fs, n.op));
    if n.Complete? {
      CompletionChecked(fs, t, f, n.op);
      assert FinalName(Completion(r)) == n;
    } else {
      IntentChecked(fs, t, f, n.op);
      assert FinalName(r) == n;
    }
    AuditLinks(fs, t, f, n);
  }

  lemma AuditLinks(fs: FS, t: Ino, f: PidFile, n: Name)
    requires Sound(fs, t, f) && n in fs.names && (n.Intent? || n.Complete?)
    ensures fs.Alone(n) || exists m: Name :: m.Temporary? && m in fs.names && fs.Links(fs.names[n]) == {n, m}
  {
    hide IntentsExact, IntentsDistinct, QuarantinesBacked, CompletesSound, TokensSound;
    if !fs.Alone(n) {
      var m :| m in fs.names && fs.names[m] == fs.names[n] && m != n;
      LinksOfShared(fs, t, f, n, m);
    }
  }

  // ---------------------------------------------------------------------
  // Recovery when one request alone has been at work
  // ---------------------------------------------------------------------

  ghost predicate OnlyRequest(actions: seq<Action>, req: Request) {
    forall a :: a in actions && a.Call? ==> a.req == req
  }

  ghost predicate OnlyIntent(fs: FS, req: Request) {
    forall op :: Intent(op) in fs.names ==> op == OperationId(req)
  }

  lemma {:induction false} OnlyOwnIntent(s: System, t: Ino, f: PidFile, actions: seq<Action>, req: Request)
    requires Start(s, t, f) && OnlyRequest(actions, req)
    ensures var s' := Run(s, actions);
      && OnlyIntent(s'.fs, req)
      && forall id :: id in s'.callers ==> s'.callers[id].req == req
  {
    hide Sound, Good, Step, Fresh;
    if actions != [] {
      var last := |actions| - 1;
      var before := Run(s, actions[..last]);
      assert OnlyRequest(actions[..last], req);
      OnlyOwnIntent(s, t, f, actions[..last], req);
      ReachableSound(s, t, f, actions[..last]);
      if actions[last].Advance? && Enabled(before, actions[last]) {
        var c := before.callers[actions[last].id];
        StepNames(c.req, before.fs, t, f, c.phase.value, actions[last].choice);
      }
    }
  }

  /**
    Recovery converges: after any run in which one request called any number of times and died
    anywhere, an uninterrupted rerun of it returns its completion exactly when the arguments are
    valid, the tombstone is the requested one, and the completion record fits the audit limit.
  */
  lemma RecoveryConverges(s: System, t: Ino, f: PidFile, actions: seq<Action>, req: Request, cs: seq<Choice>)
    requires Start(s, t, f) && OnlyRequest(actions, req)
    requires var fs := Run(s, actions).fs; QuietRun(req, fs, Begin(req), cs) && |cs| >= BOUND
    ensures Exec(req, Run(s, actions).fs, Begin(req), cs).1 == Returned(Complete(OperationId(req))) <==>
      ValidArguments(req) && Authorized(f, req) && CompletionFits(req)
  {
    hide Sound, Good, Step, ValidArguments, Authorized, Unblocked, CompletionFits, OnlyIntent, Run, QuietRun, Exec, HolderGood, LockSound;
    var fs := Run(s, actions).fs;
    ReachableSound(s, t, f, actions);
    OnlyOwnIntent(s, t, f, actions, req);
    UnblockedAlone(fs, t, f, req);
    FitsBoth(req);
    ClearanceOutcome(req, fs, t, f, cs);
  }

  lemma FitsBoth(req: Request)
    ensures CompletionFits(req) ==> IntentFits(req)
  {
  }

  lemma UnblockedAlone(fs: FS, t: Ino, f: PidFile, req: Request)
    requires Sound(fs, t, f) && OnlyIntent(fs, req)
    ensures Unblocked(fs, OperationId(req))
  {
    hide TombstoneSound, SharingSound, TokensSound, IntentsExact, IntentsDistinct, CompletesSound;
  }

  /** A call that cannot win leaves every name but temporaries as it found it, wherever it dies. */
  lemma LosersChangeNothing(s: System, t: Ino, f: PidFile, actions: seq<Action>, req: Request, cs: seq<Choice>)
    requires Start(s, t, f) && !Winner(Run(s, actions).fs, f, req)
    requires FreshRun(req, Run(s, actions).fs, Begin(req), cs)
    ensures var (fs', ph') := Exec(req, Run(s, actions).fs, Begin(req), cs);
      SameFinals(Run(s, actions).fs, fs') && !ph'.Returned?
  {
    ReachableSound(s, t, f, actions);
    hide Sound, Good, Winner, Step;
    BeginGood(req, Run(s, actions).fs, t, f);
    LoserRun(req, Run(s, actions).fs, t, f, Begin(req), cs);
  }
}
