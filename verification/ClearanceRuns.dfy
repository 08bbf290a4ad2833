/** The outcome of a whole run of one request, and of running it again. */
module ClearanceRuns {
  import opened Wrappers
  import opened FileSystem
  import opened Clearance
  import opened ClearanceSafety
  import opened ClearanceSteps
  import opened ClearanceProgress

  /** Killed or disturbed anywhere, a run keeps the invariant and nobody's claim changes. */
  lemma {:induction false} RunGood(req: Request, fs: FS, t: Ino, f: PidFile, ph: Phase, cs: seq<Choice>, k: nat := 0)
    requires k <= |cs| && Good(fs, t, f, req, ph) && FreshRun(req, fs, ph, cs, k)
    ensures var (fs', ph') := Exec(req, fs, ph, cs, k);
      && Good(fs', t, f, req, ph')
      && (Winner(fs', f, req) <==> Winner(fs, f, req))
      && (|cs| - k >= Rank(ph) ==> ph'.Final())
    decreases |cs| - k
  {
    hide Good, Step, Winner, Rank;
    if k < |cs| {
      var (fs', ph') := Step(req, fs, ph, cs[k]);
      StepGood(req, fs, t, f, ph, cs[k]);
      WinnerStable(req, fs, t, f, ph, cs[k]);
      RunGood(req, fs', t, f, ph', cs, k + 1);
      if ph.Final() {
        FinalStays(req, fs, ph, cs, k);
      } else {
        RankDecreases(req, fs, t, f, ph, cs[k]);
      }
    } else {
      RankZero(ph);
    }
  }

  lemma RankZero(ph: Phase)
    ensures Rank(ph) == 0 <==> ph.Final()
  {
  }

  lemma {:induction false} FinalStays(req: Request, fs: FS, ph: Phase, cs: seq<Choice>, k: nat := 0)
    requires k <= |cs| && ph.Final()
    ensures Exec(req, fs, ph, cs, k) == (fs, ph)
    decreases |cs| - k
  {
    if k < |cs| {
      FinalStays(req, fs, ph, cs, k + 1);
    }
  }

  lemma {:induction false} QuietIsFresh(req: Request, fs: FS, ph: Phase, cs: seq<Choice>, k: nat := 0)
    requires k <= |cs| && QuietRun(req, fs, ph, cs, k)
    ensures FreshRun(req, fs, ph, cs, k)
    decreases |cs| - k
  {
    if k < |cs| {
      var (fs', ph') := Step(req, fs, ph, cs[k]);
      QuietIsFresh(req, fs', ph', cs, k + 1);
    }
  }

  /** An undisturbed winner ends by returning, or wedged. */
  lemma {:induction false} WinnerRun(req: Request, fs: FS, t: Ino, f: PidFile, ph: Phase, cs: seq<Choice>, k: nat := 0)
    requires k <= |cs| && Good(fs, t, f, req, ph) && QuietRun(req, fs, ph, cs, k)
    requires Winner(fs, f, req) && !ph.AbortTemporary? && (ph.Failed? ==> Wedged(fs, req))
    ensures var (fs', ph') := Exec(req, fs, ph, cs, k);
      !ph'.AbortTemporary? && (ph'.Failed? ==> Wedged(fs', req))
    decreases |cs| - k
  {
    hide Good, Step, Winner, Wedged;
    if ph.Final() {
      FinalStays(req, fs, ph, cs, k);
    } else if k < |cs| {
      var (fs', ph') := Step(req, fs, ph, cs[k]);
      StepGood(req, fs, t, f, ph, cs[k]);
      WinnerStable(req, fs, t, f, ph, cs[k]);
      WinnerStep(req, fs, t, f, ph, cs[k]);
      WinnerRun(req, fs', t, f, ph', cs, k + 1);
    }
  }

  /** A request that is no winner changes no name but temporaries, however its run goes. */
  lemma {:induction false} LoserRun(req: Request, fs: FS, t: Ino, f: PidFile, ph: Phase, cs: seq<Choice>, k: nat := 0)
    requires k <= |cs| && Good(fs, t, f, req, ph) && FreshRun(req, fs, ph, cs, k)
    requires !Winner(fs, f, req)
    ensures var (fs', ph') := Exec(req, fs, ph, cs, k);
      SameFinals(fs, fs') && !Late(ph')
    decreases |cs| - k
  {
    hide Good, Step, Winner, SameFinals, Late;
    SameFinalsReflexive(fs);
    if Late(ph) {
      LateWins(fs, t, f, req, ph);
    } else if k < |cs| {
      var (fs', ph') := Step(req, fs, ph, cs[k]);
      StepGood(req, fs, t, f, ph, cs[k]);
      WinnerStable(req, fs, t, f, ph, cs[k]);
      EarlyStep(req, fs, t, f, ph, cs[k]);
      LoserRun(req, fs', t, f, ph', cs, k + 1);
      SameFinalsTransitive(fs, fs', Exec(req, fs', ph', cs, k + 1).0);
    }
  }

  lemma SameFinalsTransitive(a: FS, b: FS, c: FS)
    requires SameFinals(a, b) && SameFinals(b, c)
    ensures SameFinals(a, c)
  {
  }

  /**
    From every state the protocol can leave, an uninterrupted run of a request returns its
    completion exactly when the request may retire the tombstone and its completion record
    fits; a winner whose completion does not fit retires the tombstone and fails for good,
    and everyone else fails without touching pid.json, a quarantine or an audit record.
  */
  lemma ClearanceOutcome(req: Request, fs: FS, t: Ino, f: PidFile, cs: seq<Choice>)
    requires Sound(fs, t, f)
    requires QuietRun(req, fs, Begin(req), cs) && |cs| >= BOUND
    ensures var (fs', ph') := Exec(req, fs, Begin(req), cs);
      && Good(fs', t, f, req, ph')
      && (ph' == Returned(Complete(OperationId(req))) <==>
           ValidArguments(req) && Winner(fs, f, req) && CompletionFits(req))
      && (ph' == Returned(Complete(OperationId(req))) || ph' == Failed)
      && (ValidArguments(req) && Winner(fs, f, req) && !CompletionFits(req) ==> Wedged(fs', req))
      && (!(ValidArguments(req) && Winner(fs, f, req)) ==> SameFinals(fs, fs'))
  {
    var ph := Begin(req);
    var (fs', ph') := Exec(req, fs, ph, cs);
    BeginGood(req, fs, t, f);
    hide Winner, SameFinals, ValidArguments;
    QuietIsFresh(req, fs, ph, cs);
    RunGood(req, fs, t, f, ph, cs);
    hide Good;
    if !ValidArguments(req) {
      FinalStays(req, fs, ph, cs);
      SameFinalsReflexive(fs);
    } else if Winner(fs, f, req) {
      WinnerRun(req, fs, t, f, ph, cs);
      if ph'.Returned? {
        ReturnedFits(req, fs', t, f, ph');
      }
    } else {
      LoserRun(req, fs, t, f, ph, cs);
    }
  }

  lemma BeginGood(req: Request, fs: FS, t: Ino, f: PidFile)
    requires Sound(fs, t, f)
    ensures Good(fs, t, f, req, Begin(req)) && Rank(Begin(req)) <= BOUND && !Begin(req).AbortTemporary?
  {
  }

  lemma ReturnedFits(req: Request, fs: FS, t: Ino, f: PidFile, ph: Phase)
    requires Good(fs, t, f, req, ph) && ph.Returned?
    ensures CompletionFits(req) && ph == Returned(Complete(OperationId(req)))
    ensures Intent(OperationId(req)) in fs.names && Complete(OperationId(req)) in fs.names
  {
    hide Sound;
    CompletionChecked(fs, t, f, OperationId(req));
  }

  lemma CompletionChecked(fs: FS, t: Ino, f: PidFile, op: OperationId)
    requires Sound(fs, t, f) && Complete(op) in fs.names
    ensures GoodCompletion(fs, op)
  {
    hide TombstoneSound, SharingSound, TokensSound, IntentsExact, IntentsDistinct, QuarantinesBacked;
  }

  // ---------------------------------------------------------------------
  // Running a completed request again
  // ---------------------------------------------------------------------

  lemma {:induction false} DirectoryMade(req: Request, fs: FS, ph: Phase, cs: seq<Choice>, k: nat := 0)
    requires k <= |cs| && (fs.auditDir || ph.MakeDirectory? || ph.Failed?)
    ensures var (fs', ph') := Exec(req, fs, ph, cs, k); fs'.auditDir || ph'.MakeDirectory? || ph'.Failed?
    decreases |cs| - k
  {
    if k < |cs| {
      var (fs', ph') := Step(req, fs, ph, cs[k]);
      StepDirectory(req, fs, ph, cs[k]);
      DirectoryMade(req, fs', ph', cs, k + 1);
    }
  }

  lemma StepDirectory(req: Request, fs: FS, ph: Phase, c: Choice)
    requires fs.auditDir || ph.MakeDirectory? || ph.Failed?
    ensures var (fs', ph') := Step(req, fs, ph, c); fs'.auditDir || ph'.Failed?
  {
    hide Clearable, PrivateQuarantine, ReadAudit, Holds, EncodedSize;
  }

  /** The five phases a run passes when its completion is already there. */
  ghost function RerunPhase(req: Request, fs: FS, n: nat): Phase
    requires Intent(OperationId(req)) in fs.names && Complete(OperationId(req)) in fs.names
  {
    var op := OperationId(req);
    var r := IntentRecord(req, QuarantineOf(fs, op));
    if n == 0 then MakeDirectory
    else if n == 1 then FindIntent
    else if n == 2 then ReadIntent(fs.names[Intent(op)])
    else if n == 3 then FindComplete(r, true)
    else if n == 4 then ReadComplete(r, fs.names[Complete(op)])
    else Returned(Complete(op))
  }

  lemma RerunStep(req: Request, fs: FS, t: Ino, f: PidFile, n: nat, c: Choice)
    requires fs.auditDir && Good(fs, t, f, req, Returned(Complete(OperationId(req)))) && Quiet(fs, c)
    ensures Intent(OperationId(req)) in fs.names && Complete(OperationId(req)) in fs.names
    ensures Step(req, fs, RerunPhase(req, fs, n), c) == (fs, RerunPhase(req, fs, n + 1))
  {
    hide Good;
    hide FindIntentStep, ReadIntentStep, FindCompleteStep, ReadCompleteStep;
    CompletedSteps(req, fs, t, f);
  }

  lemma {:induction false} RerunReturns(req: Request, fs: FS, t: Ino, f: PidFile, cs: seq<Choice>, k: nat)
    requires fs.auditDir && Good(fs, t, f, req, Returned(Complete(OperationId(req))))
    requires Intent(OperationId(req)) in fs.names && Complete(OperationId(req)) in fs.names
    requires 5 <= |cs| && k <= |cs| && QuietRun(req, fs, RerunPhase(req, fs, k), cs, k)
    ensures Exec(req, fs, RerunPhase(req, fs, k), cs, k) == (fs, Returned(Complete(OperationId(req))))
    decreases |cs| - k
  {
    hide Good, Step;
    if k < |cs| {
      RerunStep(req, fs, t, f, k, cs[k]);
      RerunReturns(req, fs, t, f, cs, k + 1);
    }
  }

  lemma CompletedSteps(req: Request, fs: FS, t: Ino, f: PidFile)
    requires Good(fs, t, f, req, Returned(Complete(OperationId(req))))
    ensures var op := OperationId(req);
      var r := IntentRecord(req, QuarantineOf(fs, op));
      && Intent(op) in fs.names && Complete(op) in fs.names
      && (forall c :: FindIntentStep(req, fs, c) == (fs, ReadIntent(fs.names[Intent(op)])))
      && ReadIntentStep(req, fs, fs.names[Intent(op)]) == FindComplete(r, true)
      && FindCompleteStep(fs, r, true) == (fs, ReadComplete(r, fs.names[Complete(op)]))
      && ReadCompleteStep(req, fs, r, fs.names[Complete(op)]) == Returned(Complete(op))
  {
    hide Sound, Recover;
    var op := OperationId(req);
    RecoverSound(fs, t, f, Intent(op));
    RecoverSound(fs, t, f, Complete(op));
    ReadIntentGood(req, fs, t, f, fs.names[Intent(op)]);
    var r := ReadIntentStep(req, fs, fs.names[Intent(op)]).intent;
    assert Good(fs, t, f, req, ReadComplete(r, fs.names[Complete(op)]));
    WinnerReadComplete(req, fs, t, f, r, fs.names[Complete(op)]);
  }

  /**
    Idempotence: once a run has returned its completion, every further undisturbed run of the
    same request returns the same path and leaves the file system exactly as it is.
  */
  lemma CompletionIsIdempotent(req: Request, fs: FS, t: Ino, f: PidFile, first: seq<Choice>, again: seq<Choice>)
    requires Sound(fs, t, f) && FreshRun(req, fs, Begin(req), first)
    requires Exec(req, fs, Begin(req), first).1.Returned?
    requires |again| >= BOUND
    requires QuietRun(req, Exec(req, fs, Begin(req), first).0, Begin(req), again)
    ensures Exec(req, Exec(req, fs, Begin(req), first).0, Begin(req), again) == Exec(req, fs, Begin(req), first)
  {
    hide Good, Step, ValidArguments, CompletionFits, Winner, Rank;
    var (fs', ph') := Exec(req, fs, Begin(req), first);
    BeginGood(req, fs, t, f);
    RunGood(req, fs, t, f, Begin(req), first);
    DirectoryMade(req, fs, Begin(req), first);
    ReturnedFits(req, fs', t, f, ph');
    if !ValidArguments(req) {
      FinalStays(req, fs, Begin(req), first);
    } else {
      RerunReturns(req, fs', t, f, again, 0);
    }
  }
}
