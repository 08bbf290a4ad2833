/** How every run of one request ends, from any state the protocol can leave behind. */
module ClearanceProgress {
  import opened Wrappers
  import opened FileSystem
  import opened Clearance
  import opened ClearanceSafety
  import opened ClearanceSteps

  /** The intent record of the request fits the audit limit. */
  predicate IntentFits(req: Request) {
    BodySize(req) + |EventText(ClearanceIntent)| <= AUDIT_LIMIT
  }

  /** The completion record, two bytes longer, fits too. */
  predicate CompletionFits(req: Request) {
    BodySize(req) + |EventText(ClearanceComplete)| <= AUDIT_LIMIT
  }

  /** No quarantine is linked except the one this request's own published intent names. */
  ghost predicate Unblocked(fs: FS, op: OperationId) {
    forall n :: n in fs.names && n.Quarantine? ==> Intent(op) in fs.names && QuarantineOf(fs, op) == n
  }

  /** The request may retire the tombstone. */
  ghost predicate Winner(fs: FS, f: PidFile, req: Request) {
    Authorized(f, req) && IntentFits(req) && Unblocked(fs, OperationId(req))
  }

  const PUBLISH: nat := AUDIT_LIMIT + 4

  /** A bound on the steps left; write steps count by the bytes left. */
  function Rank(ph: Phase): nat {
    match ph
    case Returned(_) => 0
    case Failed => 0
    case AbortTemporary(_) => 1
    case Confirm(_) => 1
    case ReadComplete(_, _) => 1
    case DropTemporary(rec, _, _) => After(rec) + 1
    case LinkFinal(rec, _, _) => After(rec) + 2
    case WriteTemporary(rec, _, _, offset) => After(rec) + 3 + if offset < AUDIT_LIMIT then AUDIT_LIMIT - offset else 0
    case CreateTemporary(rec, _) => After(rec) + PUBLISH
    case VerifyQuarantine(_) => PUBLISH + 2
    case RetirePid(_, _) => PUBLISH + 3
    case LinkQuarantine(_, _) => PUBLISH + 4
    case Authorize(_, _) => 2 * PUBLISH + 5
    case FindComplete(_, _) => 2 * PUBLISH + 6
    case ReadIntent(_) => 2 * PUBLISH + 7
    case FindIntent => 2 * PUBLISH + 8
    case MakeDirectory => 2 * PUBLISH + 9
  }

  function After(rec: Record): nat {
    if rec.event == ClearanceIntent then PUBLISH + 4 else 1
  }

  /** No run takes more steps than this. */
  const BOUND: nat := 2 * PUBLISH + 9

  lemma RankDecreasesPublishing(req: Request, fs: FS, t: Ino, f: PidFile, ph: Phase, c: Choice)
    requires Good(fs, t, f, req, ph) && Fresh(fs, c)
    requires ph.CreateTemporary? || ph.WriteTemporary? || ph.LinkFinal? || ph.DropTemporary? || ph.AbortTemporary?
    ensures Rank(Step(req, fs, ph, c).1) < Rank(ph)
  {
    hide Sound, Settled, Reserved, MayPublish, OwnTemporary, JustLinked, Open, Retired, BodySize;
  }

  lemma RankDecreases(req: Request, fs: FS, t: Ino, f: PidFile, ph: Phase, c: Choice)
    requires Good(fs, t, f, req, ph) && Fresh(fs, c) && !ph.Final()
    ensures Rank(Step(req, fs, ph, c).1) < Rank(ph)
  {
    hide Sound, Settled, Reserved, MayPublish, OwnTemporary, JustLinked, Open, Retired;
    hide Recover, Clearable, PrivateQuarantine, ReadAudit, Holds, BodySize;
    if ph.CreateTemporary? || ph.WriteTemporary? || ph.LinkFinal? || ph.DropTemporary? || ph.AbortTemporary? {
      RankDecreasesPublishing(req, fs, t, f, ph, c);
      hide Step;
    }
    hide Good, CreateStep, WriteStep, LinkFinalStep, DropStep;
  }

  // ---------------------------------------------------------------------
  // Which phases only a winner reaches
  // ---------------------------------------------------------------------

  predicate Late(ph: Phase) {
    || ph.ReadComplete? || ph.WriteTemporary? || ph.LinkFinal? || ph.DropTemporary?
    || ph.LinkQuarantine? || ph.RetirePid? || ph.VerifyQuarantine? || ph.Confirm? || ph.Returned?
    || (ph.CreateTemporary? && ph.record.event == ClearanceComplete)
  }

  /** A published intent whose quarantine is linked makes its request the winner. */
  lemma LinkedWins(fs: FS, t: Ino, f: PidFile, req: Request)
    requires Sound(fs, t, f) && Intent(OperationId(req)) in fs.names
    requires QuarantineOf(fs, OperationId(req)) in fs.names
    ensures Winner(fs, f, req)
  {
    hide SharingSound, TokensSound, IntentsDistinct, QuarantinesBacked, CompletesSound;
    assert GoodIntent(fs.At(Intent(OperationId(req))), f, OperationId(req), fs.issued);
  }

  lemma LateWins(fs: FS, t: Ino, f: PidFile, req: Request, ph: Phase)
    requires Good(fs, t, f, req, ph) && Late(ph)
    ensures Winner(fs, f, req)
  {
    hide Sound, OwnTemporary, Winner;
    var op := OperationId(req);
    match ph
    case ReadComplete(r, fd) => CompletedWins(fs, t, f, req);
    case Returned(_) => CompletedWins(fs, t, f, req);
    case Confirm(_) => CompletedWins(fs, t, f, req);
    case VerifyQuarantine(_) => LinkedWins(fs, t, f, req);
    case RetirePid(r, pid) =>
      assert Good(fs, t, f, req, LinkQuarantine(r, pid));
      LinkedWins(fs, t, f, req);
    case LinkQuarantine(r, _) => OpenWins(fs, t, f, req, r);
    case DropTemporary(rec, _, _) =>
      if rec.event == ClearanceIntent {
        OpenWins(fs, t, f, req, rec);
      } else {
        LinkedWins(fs, t, f, req);
      }
    case WriteTemporary(rec, _, _, _) => PublishingWins(fs, t, f, req, rec);
    case LinkFinal(rec, _, _) => PublishingWins(fs, t, f, req, rec);
    case CreateTemporary(rec, _) => LinkedWins(fs, t, f, req);
  }

  lemma CompletedWins(fs: FS, t: Ino, f: PidFile, req: Request)
    requires Sound(fs, t, f) && Complete(OperationId(req)) in fs.names
    ensures Winner(fs, f, req)
  {
    assert GoodCompletion(fs, OperationId(req));
    LinkedWins(fs, t, f, req);
  }

  lemma OpenWins(fs: FS, t: Ino, f: PidFile, req: Request, r: Record)
    requires Sound(fs, t, f) && Open(fs, t, f, req, r, t)
    requires r == IntentRecord(req, r.quarantine) && Published(fs, r) && Intent(OperationId(req)) in fs.names
    ensures Winner(fs, f, req)
  {
    hide SharingSound, TokensSound, IntentsDistinct, QuarantinesBacked, CompletesSound;
    assert GoodIntent(fs.At(Intent(OperationId(req))), f, OperationId(req), fs.issued);
  }

  lemma PublishingWins(fs: FS, t: Ino, f: PidFile, req: Request, rec: Record)
    requires Sound(fs, t, f) && MayPublish(fs, t, f, req, rec, t) && EncodedSize(rec) <= AUDIT_LIMIT
    ensures Winner(fs, f, req)
  {
    if rec.event == ClearanceComplete {
      LinkedWins(fs, t, f, req);
    }
  }

  // ---------------------------------------------------------------------
  // Early steps touch only temporaries; winning never changes during a run
  // ---------------------------------------------------------------------

  lemma EarlyStep(req: Request, fs: FS, t: Ino, f: PidFile, ph: Phase, c: Choice)
    requires Good(fs, t, f, req, ph) && Fresh(fs, c) && !Late(ph)
    ensures SameFinals(fs, Step(req, fs, ph, c).0)
  {
    hide Settled, Reserved, MayPublish, Sound, Recover, TemporariesOnly, SameFinals;
    hide ReadIntentStep, AuthorizeStep;
    SameFinalsReflexive(fs);
    if !c.ioError {
      match ph
      case MakeDirectory => DirectoryNames(fs, t, f);
        OnlyTemporaries(fs, fs.(auditDir := true), t, f);
      case FindIntent =>
        if Intent(OperationId(req)) in fs.names {
          RecoverSound(fs, t, f, Intent(OperationId(req)));
        } else {
          IssueNames(fs, t, f, c.token);
          OnlyTemporaries(fs, fs.(issued := fs.issued + {c.token}), t, f);
        }
      case FindComplete(r, _) =>
        if Complete(r.operation) in fs.names {
          RecoverSound(fs, t, f, Complete(r.operation));
        }
      case CreateTemporary(rec, pid) =>
        var fs' := CreateStep(fs, rec, pid, c).0;
        if EncodedSize(rec) <= AUDIT_LIMIT {
          CreateNames(fs, fs', t, f, Temporary(c.token), c.ino);
          OnlyTemporaries(fs, fs', t, f);
        }
      case AbortTemporary(tmp) =>
        UnlinkTemporarySound(fs, t, f, tmp);
        OnlyTemporaries(fs, fs.Unlink(tmp), t, f);
      case _ =>
    }
  }

  lemma SameFinalsReflexive(fs: FS)
    ensures SameFinals(fs, fs)
  {
  }

  lemma OnlyTemporaries(fs: FS, fs': FS, t: Ino, f: PidFile)
    requires TemporariesOnly(fs, fs', t)
    ensures SameFinals(fs, fs')
  {
  }

  /** Leaving the late phases without returning changes nothing. */
  lemma LateExit(req: Request, fs: FS, t: Ino, f: PidFile, ph: Phase, c: Choice)
    requires Good(fs, t, f, req, ph) && Fresh(fs, c) && Late(ph) && !Late(Step(req, fs, ph, c).1)
    ensures Step(req, fs, ph, c).0 == fs
  {
    hide Settled, Reserved, MayPublish, Sound, OwnTemporary, JustLinked, Open, Retired, PrivateQuarantine;
    if !c.ioError {
      if ph.DropTemporary? {
        DropGood(req, fs, t, f, ph.record, ph.pid, ph.tmp);
      }
    }
  }

  lemma WinnerSame(fs: FS, fs': FS, f: PidFile, req: Request)
    requires SameFinals(fs, fs')
    ensures Winner(fs, f, req) <==> Winner(fs', f, req)
  {
    assert fs.At(Intent(OperationId(req))) == fs'.At(Intent(OperationId(req)));
  }

  /** A run neither gains nor loses the right to retire the tombstone. */
  lemma WinnerStable(req: Request, fs: FS, t: Ino, f: PidFile, ph: Phase, c: Choice)
    requires Good(fs, t, f, req, ph) && Fresh(fs, c)
    ensures Winner(Step(req, fs, ph, c).0, f, req) <==> Winner(fs, f, req)
  {
    hide Good, Step, Winner, SameFinals;
    var (fs', ph') := Step(req, fs, ph, c);
    StepGood(req, fs, t, f, ph, c);
    if !Late(ph) {
      EarlyStep(req, fs, t, f, ph, c);
      WinnerSame(fs, fs', f, req);
    } else {
      LateWins(fs, t, f, req, ph);
      if Late(ph') {
        LateWins(fs', t, f, req, ph');
      } else {
        LateExit(req, fs, t, f, ph, c);
      }
    }
  }

  // ---------------------------------------------------------------------
  // A winner is never turned away
  // ---------------------------------------------------------------------

  /** pid.json is gone, the tombstone lies in this request's quarantine, and no completion can be written. */
  ghost predicate Wedged(fs: FS, req: Request) {
    && !CompletionFits(req)
    && PidJson !in fs.names
    && Intent(OperationId(req)) in fs.names
    && QuarantineOf(fs, OperationId(req)) in fs.names
  }

  lemma WinnerAuthorize(req: Request, fs: FS, t: Ino, f: PidFile, r: Record, existing: bool)
    requires Good(fs, t, f, req, Authorize(r, existing)) && Winner(fs, f, req)
    ensures var ph' := AuthorizeStep(req, fs, r, existing); !ph'.Failed? && !ph'.AbortTemporary?
  {
    hide SharingSound, TokensSound, IntentsDistinct, QuarantinesBacked, CompletesSound;
    TombstoneLinks(fs, t, f);
    if existing {
      assert QuarantineOf(fs, OperationId(req)) == r.quarantine;
    }
  }

  lemma WinnerReadComplete(req: Request, fs: FS, t: Ino, f: PidFile, r: Record, fd: Ino)
    requires Good(fs, t, f, req, ReadComplete(r, fd))
    ensures ReadCompleteStep(req, fs, r, fd).Returned?
  {
    hide SharingSound, TokensSound, IntentsDistinct, QuarantinesBacked;
    var op := OperationId(req);
    assert GoodCompletion(fs, op);
    assert GoodIntent(fs.At(Intent(op)), f, op, fs.issued);
    TombstoneLinks(fs, t, f);
    assert fs.names[r.quarantine] == t;
  }

  lemma WinnerCreate(req: Request, fs: FS, t: Ino, f: PidFile, rec: Record, pid: Ino, c: Choice)
    requires Good(fs, t, f, req, CreateTemporary(rec, pid)) && Winner(fs, f, req)
    ensures CreateStep(fs, rec, pid, c).1.Failed? ==> Wedged(fs, req)
  {
    hide Sound, Unblocked;
    if rec.event == ClearanceComplete {
      assert QuarantineOf(fs, OperationId(req)) == rec.quarantine;
      assert fs.At(Intent(OperationId(req))).Some?;
    }
  }

  /** Undisturbed, a winner goes on until it returns, unless its completion record is too large. */
  lemma WinnerStep(req: Request, fs: FS, t: Ino, f: PidFile, ph: Phase, c: Choice)
    requires Good(fs, t, f, req, ph) && Quiet(fs, c) && Winner(fs, f, req)
    requires !ph.Final() && !ph.AbortTemporary?
    ensures var (fs', ph') := Step(req, fs, ph, c);
      !ph'.AbortTemporary? && (ph'.Failed? ==> Wedged(fs', req))
  {
    hide Sound, Winner, Settled, Reserved, OwnTemporary, JustLinked, Open, Retired, MayPublish, Wedged;
    hide FindIntentStep, ReadIntentStep, FindCompleteStep, ReadCompleteStep, AuthorizeStep;
    hide DropStep, LinkQuarantineStep, RetireStep;
    match ph
    case MakeDirectory =>
    case FindIntent => FindIntentGood(req, fs, t, f, c);
    case ReadIntent(fd) => ReadIntentGood(req, fs, t, f, fd);
    case FindComplete(r, existing) => FindCompleteGood(req, fs, t, f, r, existing);
    case ReadComplete(r, fd) => WinnerReadComplete(req, fs, t, f, r, fd);
    case Authorize(r, existing) => WinnerAuthorize(req, fs, t, f, r, existing);
    case CreateTemporary(rec, pid) => WinnerCreate(req, fs, t, f, rec, pid, c);
    case WriteTemporary(rec, pid, tmp, offset) => WriterHasTemporary(req, fs, t, f, ph);
    case LinkFinal(rec, pid, tmp) => WriterHasTemporary(req, fs, t, f, ph);
    case DropTemporary(rec, pid, tmp) => DropGood(req, fs, t, f, rec, pid, tmp);
    case LinkQuarantine(r, pid) => LinkQuarantineGood(req, fs, t, f, r, pid);
    case RetirePid(r, pid) => RetireGood(req, fs, t, f, r, pid);
    case VerifyQuarantine(r) => VerifyGood(req, fs, t, f, r, c);
    case Confirm(r) => ConfirmGood(req, fs, t, f, r, c);
  }

  lemma WriterHasTemporary(req: Request, fs: FS, t: Ino, f: PidFile, ph: Phase)
    requires Good(fs, t, f, req, ph) && (ph.WriteTemporary? || ph.LinkFinal?)
    ensures ph.tmp in fs.names
    ensures FinalName(ph.record) !in fs.names
  {
    hide Sound, Open;
    assert ph.record.operation == AsIntent(ph.record).operation == OperationId(req);
  }

}
