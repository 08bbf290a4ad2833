/**
  What every step of a clearance keeps: the tombstone stays named by pid.json or by one
  quarantine, audit names always hold whole records, and a completion is never a lie.
*/
module ClearanceSafety {
  import opened Wrappers
  import opened FileSystem
  import opened Clearance

  /** The request names exactly this tombstone. */
  predicate Authorized(f: PidFile, r: Request) {
    Sha256(f) == r.digest && |f.raw| <= TOMBSTONE_LIMIT && ExactLegacy(f, r)
  }

  /** Record r is the content of its own final name. */
  ghost predicate Published(fs: FS, r: Record) {
    fs.At(FinalName(r)) == Some(Whole(r))
  }

  /** The quarantine named by the published intent of op; PidJson when there is none. */
  ghost function QuarantineOf(fs: FS, op: OperationId): Name {
    match fs.At(Intent(op))
    case Some(Whole(r)) => r.quarantine
    case _ => PidJson
  }

  ghost predicate GoodIntent(c: Option<Content>, f: PidFile, op: OperationId, issued: set<nat>) {
    && c.Some? && c.value.Whole?
    && var r := c.value.record;
       && r == IntentRecord(op.request, r.quarantine)
       && r.quarantine.Quarantine?
       && r.quarantine.digest == op.request.digest
       && r.quarantine.token in issued
       && EncodedSize(r) <= AUDIT_LIMIT
       && Authorized(f, op.request)
  }

  /** A completion is backed by its intent, the absence of pid.json and its quarantine. */
  ghost predicate GoodCompletion(fs: FS, op: OperationId) {
    && Intent(op) in fs.names
    && PidJson !in fs.names
    && QuarantineOf(fs, op) in fs.names
    && var r := Completion(IntentRecord(op.request, QuarantineOf(fs, op)));
       fs.At(Complete(op)) == Some(Whole(r)) && EncodedSize(r) <= AUDIT_LIMIT
  }

  /** The tombstone inode and its names. */
  ghost predicate TombstoneSound(fs: FS, t: Ino, f: PidFile) {
    && t in fs.files && fs.files[t] == Tombstone(f)
    && (forall n :: n in fs.names ==> (fs.names[n] == t <==> n.PidJson? || n.Quarantine?))
    && (PidJson in fs.names || exists n :: n in fs.names && n.Quarantine?)
    && (forall n, m :: n in fs.names && m in fs.names && n.Quarantine? && m.Quarantine? ==> n == m)
    && (forall n :: n in fs.names && n.Quarantine? ==> n.digest == Sha256(f))
  }

  /** Two names share an audit inode only as a published record and its temporary. */
  ghost predicate SharingSound(fs: FS, t: Ino) {
    forall n, m :: n in fs.names && m in fs.names && n != m && fs.names[n] == fs.names[m] && fs.names[n] != t ==>
      n.Temporary? != m.Temporary?
  }

  ghost predicate TokensSound(fs: FS) {
    && (forall n :: n in fs.names ==> fs.names[n] in fs.files)
    && (forall n :: n in fs.names && n.Temporary? ==> n.token in fs.issued)
  }

  ghost predicate IntentsExact(fs: FS, f: PidFile) {
    forall op :: Intent(op) in fs.names ==> GoodIntent(fs.At(Intent(op)), f, op, fs.issued)
  }

  /** Different operations name different quarantines. */
  ghost predicate IntentsDistinct(fs: FS) {
    forall op, op' :: Intent(op) in fs.names && Intent(op') in fs.names && op != op' ==>
      QuarantineOf(fs, op) != QuarantineOf(fs, op')
  }

  /** A linked quarantine is named by a published intent. */
  ghost predicate QuarantinesBacked(fs: FS) {
    forall n :: n in fs.names && n.Quarantine? ==>
      exists op :: Intent(op) in fs.names && QuarantineOf(fs, op) == n
  }

  ghost predicate CompletesSound(fs: FS) {
    forall op :: Complete(op) in fs.names ==> GoodCompletion(fs, op)
  }

  /** The invariant of the clearance namespace around tombstone inode t with bytes f. */
  ghost predicate Sound(fs: FS, t: Ino, f: PidFile) {
    && TombstoneSound(fs, t, f)
    && SharingSound(fs, t)
    && TokensSound(fs)
    && IntentsExact(fs, f)
    && IntentsDistinct(fs)
    && QuarantinesBacked(fs)
    && CompletesSound(fs)
  }

  // ---------------------------------------------------------------------
  // Changes that touch only temporaries
  // ---------------------------------------------------------------------

  /** Names other than temporaries lead where they led. */
  ghost predicate SameFinals(fs: FS, fs': FS) {
    && (forall n: Name :: !n.Temporary? ==> (n in fs.names <==> n in fs'.names))
    && (forall n: Name :: !n.Temporary? && n in fs.names ==> fs.names[n] == fs'.names[n])
    && (forall n: Name :: !n.Temporary? ==> fs.At(n) == fs'.At(n))
    && fs.issued <= fs'.issued
  }

  lemma FrameTombstone(fs: FS, fs': FS, t: Ino, f: PidFile)
    requires TombstoneSound(fs, t, f) && SameFinals(fs, fs')
    requires forall n :: n in fs'.names && n.Temporary? ==> fs'.names[n] != t
    ensures TombstoneSound(fs', t, f)
  {
    if PidJson in fs.names {
      assert fs'.At(PidJson) == Some(Tombstone(f));
    } else {
      var n :| n in fs.names && n.Quarantine?;
      assert fs.At(n) == fs'.At(n) && n in fs'.names;
    }
  }

  lemma FrameIntentsExact(fs: FS, fs': FS, f: PidFile)
    requires IntentsExact(fs, f) && SameFinals(fs, fs')
    ensures IntentsExact(fs', f)
  {
    forall op | Intent(op) in fs'.names
      ensures GoodIntent(fs'.At(Intent(op)), f, op, fs'.issued)
    {
      assert fs.At(Intent(op)) == fs'.At(Intent(op));
      assert GoodIntent(fs.At(Intent(op)), f, op, fs.issued);
    }
  }

  lemma FrameQuarantines(fs: FS, fs': FS)
    requires IntentsDistinct(fs) && QuarantinesBacked(fs) && SameFinals(fs, fs')
    ensures IntentsDistinct(fs') && QuarantinesBacked(fs')
  {
    forall op
      ensures QuarantineOf(fs', op) == QuarantineOf(fs, op)
    {
      assert fs.At(Intent(op)) == fs'.At(Intent(op));
    }
  }

  lemma FrameCompletes(fs: FS, fs': FS)
    requires CompletesSound(fs) && SameFinals(fs, fs')
    requires forall op :: Intent(op) in fs.names && QuarantineOf(fs, op) in fs.names ==> !QuarantineOf(fs, op).Temporary?
    ensures CompletesSound(fs')
  {
    forall op | Complete(op) in fs'.names
      ensures GoodCompletion(fs', op)
    {
      assert GoodCompletion(fs, op);
      assert QuarantineOf(fs', op) == QuarantineOf(fs, op);
    }
  }

  /** Only temporaries differ, and the new state shares and issues names properly. */
  ghost predicate TemporariesOnly(fs: FS, fs': FS, t: Ino) {
    && SameFinals(fs, fs')
    && SharingSound(fs', t) && TokensSound(fs')
    && (forall n :: n in fs'.names && n.Temporary? ==> fs'.names[n] != t)
    && (forall n :: n in fs'.names && n.Temporary? ==>
         if n in fs.names then fs'.names[n] == fs.names[n] else fs'.names[n] !in fs.files)
  }

  /** The invariant survives a change of temporaries alone. */
  lemma FrameSound(fs: FS, fs': FS, t: Ino, f: PidFile)
    requires Sound(fs, t, f) && TemporariesOnly(fs, fs', t)
    ensures Sound(fs', t, f)
  {
    hide SameFinals, TombstoneSound, SharingSound, TokensSound, IntentsDistinct, QuarantinesBacked, CompletesSound;
    FrameTombstone(fs, fs', t, f);
    FrameIntentsExact(fs, fs', f);
    FrameQuarantines(fs, fs');
    FrameCompletes(fs, fs');
  }

  // ---------------------------------------------------------------------
  // What the holder of the lock knows at each phase
  // ---------------------------------------------------------------------

  /** The holder's intent is on disk, with no temporary left beside it. */
  ghost predicate Settled(fs: FS, req: Request, r: Record) {
    && r == IntentRecord(req, r.quarantine)
    && Published(fs, r)
    && Intent(OperationId(req)) in fs.names
    && fs.Alone(Intent(OperationId(req)))
  }

  /** The holder's intent exists only in memory, with a quarantine name nobody else has. */
  ghost predicate Reserved(fs: FS, req: Request, r: Record) {
    && r == IntentRecord(req, r.quarantine)
    && r.quarantine.Quarantine? && r.quarantine.digest == req.digest
    && r.quarantine.token in fs.issued
    && r.quarantine !in fs.names
    && Intent(OperationId(req)) !in fs.names
    && forall op :: Intent(op) in fs.names ==> QuarantineOf(fs, op) != r.quarantine
  }

  /** pid.json still names the tombstone and no foreign quarantine is linked. */
  ghost predicate Open(fs: FS, t: Ino, f: PidFile, req: Request, r: Record, pid: Ino) {
    && pid == t
    && PidJson in fs.names
    && Authorized(f, req)
    && forall n :: n in fs.names && n.Quarantine? ==> n == r.quarantine
  }

  /** pid.json is gone and the quarantine of the published intent is there. */
  ghost predicate Retired(fs: FS, req: Request, r: Record) {
    && Settled(fs, req, r)
    && PidJson !in fs.names
    && r.quarantine in fs.names && r.quarantine.Quarantine?
  }

  function AsIntent(r: Record): Record {
    r.(event := ClearanceIntent)
  }

  /** The record about to be published may be published. */
  ghost predicate MayPublish(fs: FS, t: Ino, f: PidFile, req: Request, rec: Record, pid: Ino) {
    && Complete(OperationId(req)) !in fs.names
    && if rec.event == ClearanceIntent
       then Reserved(fs, req, rec) && Open(fs, t, f, req, rec, pid)
       else Retired(fs, req, AsIntent(rec))
  }

  ghost predicate OwnTemporary(fs: FS, t: Ino, tmp: Name, c: Content) {
    && tmp.Temporary? && tmp in fs.names
    && fs.names[tmp] != t && fs.Alone(tmp)
    && fs.At(tmp) == Some(c)
  }

  ghost predicate JustLinked(fs: FS, t: Ino, f: PidFile, req: Request, rec: Record, pid: Ino, tmp: Name) {
    && tmp.Temporary? && tmp in fs.names && FinalName(rec) in fs.names
    && Published(fs, rec) && fs.names[FinalName(rec)] == fs.names[tmp]
    && rec == IntentRecord(req, rec.quarantine).(event := rec.event)
    && if rec.event == ClearanceIntent
       then Open(fs, t, f, req, rec, pid) && Complete(OperationId(req)) !in fs.names
       else Retired(fs, req, AsIntent(rec))
  }

  /** The invariant with the holder at phase ph. */
  ghost predicate Good(fs: FS, t: Ino, f: PidFile, req: Request, ph: Phase)
    decreases ph.RetirePid?
  {
    && Sound(fs, t, f)
    && match ph
    case MakeDirectory => true
    case FindIntent => true
    case Failed => true
    case ReadIntent(fd) =>
      && Intent(OperationId(req)) in fs.names && fs.names[Intent(OperationId(req))] == fd
      && fs.Alone(Intent(OperationId(req)))
    case FindComplete(r, existing) => if existing then Settled(fs, req, r) else Reserved(fs, req, r)
    case ReadComplete(r, fd) =>
      && Settled(fs, req, r)
      && Complete(OperationId(req)) in fs.names && fs.names[Complete(OperationId(req))] == fd
      && fs.Alone(Complete(OperationId(req)))
    case Authorize(r, existing) =>
      && Complete(OperationId(req)) !in fs.names
      && if existing then Settled(fs, req, r) else Reserved(fs, req, r)
    case CreateTemporary(rec, pid) => MayPublish(fs, t, f, req, rec, pid)
    case WriteTemporary(rec, pid, tmp, offset) =>
      && MayPublish(fs, t, f, req, rec, pid) && EncodedSize(rec) <= AUDIT_LIMIT
      && offset < EncodedSize(rec) && OwnTemporary(fs, t, tmp, Torn(offset))
    case LinkFinal(rec, pid, tmp) =>
      && MayPublish(fs, t, f, req, rec, pid) && EncodedSize(rec) <= AUDIT_LIMIT
      && OwnTemporary(fs, t, tmp, Whole(rec))
    case DropTemporary(rec, pid, tmp) => JustLinked(fs, t, f, req, rec, pid, tmp)
    case AbortTemporary(tmp) => tmp.Temporary?
    case LinkQuarantine(r, pid) =>
      Settled(fs, req, r) && Open(fs, t, f, req, r, pid) && Complete(OperationId(req)) !in fs.names
    case RetirePid(r, pid) =>
      Good(fs, t, f, req, LinkQuarantine(r, pid)) && r.quarantine in fs.names
    case VerifyQuarantine(r) => Retired(fs, req, r) && Complete(OperationId(req)) !in fs.names
    case Confirm(r) =>
      Retired(fs, req, r) && Complete(OperationId(req)) in fs.names && fs.Alone(Complete(OperationId(req)))
    case Returned(path) =>
      && path == Complete(OperationId(req)) && path in fs.names && fs.Alone(path)
      && Intent(OperationId(req)) in fs.names && fs.Alone(Intent(OperationId(req)))
  }

  // ---------------------------------------------------------------------
  // The temporary steps: create, write, drop, abort, recover
  // ---------------------------------------------------------------------

  lemma FrameMayPublish(fs: FS, fs': FS, t: Ino, f: PidFile, req: Request, rec: Record, pid: Ino)
    requires Sound(fs, t, f) && MayPublish(fs, t, f, req, rec, pid) && TemporariesOnly(fs, fs', t)
    ensures MayPublish(fs', t, f, req, rec, pid)
  {
    hide IntentsExact, IntentsDistinct, QuarantinesBacked, CompletesSound, TokensSound, TombstoneSound;
    forall op
      ensures QuarantineOf(fs', op) == QuarantineOf(fs, op)
    {
      assert fs.At(Intent(op)) == fs'.At(Intent(op));
    }
  }

  lemma UnlinkTemporarySound(fs: FS, t: Ino, f: PidFile, tmp: Name)
    requires Sound(fs, t, f) && tmp.Temporary?
    ensures Sound(fs.Unlink(tmp), t, f)
    ensures TemporariesOnly(fs, fs.Unlink(tmp), t)
  {
    hide *;
    UnlinkTemporary(fs, t, f, tmp);
    FrameSound(fs, fs.Unlink(tmp), t, f);
  }

  lemma UnlinkTemporary(fs: FS, t: Ino, f: PidFile, tmp: Name)
    requires Sound(fs, t, f) && tmp.Temporary?
    ensures TemporariesOnly(fs, fs.Unlink(tmp), t)
  {
    hide IntentsExact, IntentsDistinct, QuarantinesBacked, CompletesSound;
  }
}
