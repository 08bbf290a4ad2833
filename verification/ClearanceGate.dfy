/**
  What a clearance insists on, with every condition written out: over all reachable systems, and gate by
  gate in any file system whatever.
*/
module ClearanceGate {
  import opened Wrappers
  import opened FileSystem
  import opened Text
  import opened Clearance
  import opened ClearanceSafety
  import opened ClearanceSteps
  import opened ClearanceProgress
  import opened ClearanceRuns
  import opened ClearanceSystem
  import opened AuditText

  // ---------------------------------------------------------------------
  // The conditions
  // ---------------------------------------------------------------------

  /** Some character is left once the text is stripped, and it encodes in so many bytes. */
  ghost predicate NonemptyBounded(s: string, limit: nat) {
    (exists c :: c in s && !Whitespace(c)) && |Utf8(s)| <= limit
  }

  /** A single path component, the assertion made, and an operator and a ticket. */
  ghost predicate Asked(r: Request) {
    && r.unit != "" && r.unit != "." && r.unit != ".." && '/' !in r.unit && '\0' !in r.unit
    && r.asserted
    && NonemptyBounded(r.operator, 256) && NonemptyBounded(r.ticket, 512)
  }

  /** The tombstone is an object without a token, of this unit and generation, with this digest and at most 16 MiB long. */
  ghost predicate Matches(f: PidFile, r: Request) {
    && f.meta.Object? && !f.meta.hasToken
    && f.meta.unit == Some(r.unit) && f.meta.generation == Some(r.generation)
    && r.digest == Sha256(f) && |f.raw| <= 16777216
  }

  lemma AskedIsValid(r: Request)
    ensures ValidArguments(r) <==> Asked(r)
  {
    Utf8Length(r.operator);
    Utf8Length(r.ticket);
    hide Utf8, Utf8Size, Whitespace;
  }

  lemma MatchesIsAuthorized(f: PidFile, r: Request)
    ensures Authorized(f, r) <==> Matches(f, r)
  {
  }

  // ---------------------------------------------------------------------
  // In every reachable system
  // ---------------------------------------------------------------------

  /** Every call past its argument check, and every published intent, was asked properly. */
  ghost predicate ArgumentsSound(s: System) {
    && (forall id :: id in s.callers && s.callers[id].phase.Some? && s.callers[id].phase.value != Failed ==> ValidArguments(s.callers[id].req))
    && (forall op :: Intent(op) in s.fs.names ==> ValidArguments(op.request))
  }

  lemma ArgumentsKept(s: System, t: Ino, f: PidFile, a: Action)
    requires SystemSound(s, t, f) && ArgumentsSound(s)
    ensures ArgumentsSound(Apply(s, a))
  {
    hide Sound, Good, Step, Fresh, ValidArguments;
    if a.Advance? && Enabled(s, a) {
      StepNames(s.callers[a.id].req, s.fs, t, f, s.callers[a.id].phase.value, a.choice);
    }
  }

  lemma {:induction false} ArgumentsHold(s: System, t: Ino, f: PidFile, actions: seq<Action>)
    requires Start(s, t, f)
    ensures ArgumentsSound(Run(s, actions))
  {
    hide SystemSound, ArgumentsSound, Apply, Start;
    if actions == [] {
      NothingPublished(s, t, f);
    } else {
      ArgumentsHold(s, t, f, actions[..|actions| - 1]);
      ReachableSound(s, t, f, actions[..|actions| - 1]);
      ArgumentsKept(Run(s, actions[..|actions| - 1]), t, f, actions[|actions| - 1]);
    }
  }

  lemma NothingPublished(s: System, t: Ino, f: PidFile)
    requires Start(s, t, f)
    ensures ArgumentsSound(s)
  {
  }

  /**
    Nothing is recorded, retired or answered but for a request that was properly asked and names exactly
    this tombstone, which has no token.
  */
  lemma OnlyMatchingRequests(s: System, t: Ino, f: PidFile, actions: seq<Action>)
    requires Start(s, t, f)
    ensures var s' := Run(s, actions);
      && (forall op :: Intent(op) in s'.fs.names || Complete(op) in s'.fs.names ==> Asked(op.request) && Matches(f, op.request))
      && (forall r :: r in s'.answered ==> Asked(r) && Matches(f, r))
      && (PidJson !in s'.fs.names ==> exists op :: Intent(op) in s'.fs.names && Asked(op.request) && Matches(f, op.request))
      && (forall id :: id in s'.callers && s'.callers[id].phase.Some? && s'.callers[id].phase.value != Failed ==> Asked(s'.callers[id].req))
  {
    ReachableSound(s, t, f, actions);
    ArgumentsHold(s, t, f, actions);
    var s' := Run(s, actions);
    hide Run, Start, HolderGood, LockSound;
    forall op | Intent(op) in s'.fs.names || Complete(op) in s'.fs.names
      ensures Intent(op) in s'.fs.names && Asked(op.request) && Matches(f, op.request)
    {
      IntentMatches(s'.fs, t, f, op);
      AskedIsValid(op.request);
    }
    forall id | id in s'.callers
      ensures ValidArguments(s'.callers[id].req) <==> Asked(s'.callers[id].req)
    {
      AskedIsValid(s'.callers[id].req);
    }
    hide Asked, Matches, ValidArguments;
    assert forall r :: r in s'.answered ==> Complete(OperationId(r)) in s'.fs.names && OperationId(r).request == r;
    if PidJson !in s'.fs.names {
      RetiredHasIntent(s'.fs, t, f);
    }
    hide Sound, AnsweredSound;
  }

  lemma IntentMatches(fs: FS, t: Ino, f: PidFile, op: OperationId)
    requires Sound(fs, t, f) && (Intent(op) in fs.names || Complete(op) in fs.names)
    ensures Intent(op) in fs.names && Matches(f, op.request)
  {
    hide TombstoneSound, SharingSound, TokensSound, IntentsDistinct, QuarantinesBacked;
    if Complete(op) in fs.names {
      assert GoodCompletion(fs, op);
    }
    assert GoodIntent(fs.At(Intent(op)), f, op, fs.issued);
  }

  lemma RetiredHasIntent(fs: FS, t: Ino, f: PidFile)
    requires Sound(fs, t, f) && PidJson !in fs.names
    ensures exists op :: Intent(op) in fs.names
  {
    hide SharingSound, TokensSound, IntentsDistinct, IntentsExact, CompletesSound;
    var q :| q in fs.names && q.Quarantine?;
    var op :| Intent(op) in fs.names && QuarantineOf(fs, op) == q;
  }

  /** A request is answered exactly when its call leaves with a path in hand. */
  lemma AnswersExactly(s: System, a: Action, r: Request)
    ensures r in Apply(s, a).answered <==>
      || r in s.answered
      || (a.Leave? && Holding(s, a.id) && s.callers[a.id].req == r && s.callers[a.id].phase.value.Returned?)
  {
    hide Step, Fresh;
  }

  /** No request can match this tombstone: it carries a token, is malformed, lacks its unit or generation, or is too long. */
  predicate Unclearable(f: PidFile) {
    !f.meta.Object? || f.meta.hasToken || f.meta.unit.None? || f.meta.generation.None? || |f.raw| > 16777216
  }

  /**
    Over a tombstone with a token, or one no request can match, any number of calls, crashes and retries
    leaves every name but temporaries as it was, and answers nobody.
  */
  lemma {:induction false} UnclearableUntouched(s: System, t: Ino, f: PidFile, actions: seq<Action>)
    requires Start(s, t, f) && Unclearable(f)
    ensures SameFinals(s.fs, Run(s, actions).fs) && Run(s, actions).answered == {}
  {
    if actions == [] {
      SameFinalsReflexive(s.fs);
    } else {
      var m := |actions| - 1;
      var before := Run(s, actions[..m]);
      UnclearableUntouched(s, t, f, actions[..m]);
      ReachableSound(s, t, f, actions[..m]);
      hide Run, Start, SystemSound, SameFinals, Unclearable;
      UnclearableStep(before, t, f, actions[m]);
      assert Run(s, actions) == Apply(before, actions[m]) by { RunLast(s, actions); }
      SameFinalsTransitive(s.fs, before.fs, Run(s, actions).fs);
    }
  }

  lemma RunLast(s: System, actions: seq<Action>)
    requires actions != []
    ensures Run(s, actions) == Apply(Run(s, actions[..|actions| - 1]), actions[|actions| - 1])
  {
  }

  lemma UnclearableStep(s: System, t: Ino, f: PidFile, a: Action)
    requires SystemSound(s, t, f) && Unclearable(f)
    ensures SameFinals(s.fs, Apply(s, a).fs) && Apply(s, a).answered == s.answered
  {
    hide Sound, Good, Step, Fresh, SameFinals;
    SameFinalsReflexive(s.fs);
    if (a.Advance? || a.Leave?) && Enabled(s, a) {
      var Caller(req, phase) := s.callers[a.id];
      assert !Winner(s.fs, f, req);
      if Late(phase.value) {
        LateWins(s.fs, t, f, req, phase.value);
      } else if a.Advance? {
        EarlyStep(req, s.fs, t, f, phase.value, a.choice);
      }
    }
  }

  /** So a single call, over whatever a history of calls has left, changes nothing unless it is properly asked and matches. */
  lemma RefusedCall(s: System, t: Ino, f: PidFile, actions: seq<Action>, req: Request, cs: seq<Choice>)
    requires Start(s, t, f) && !(Asked(req) && Matches(f, req))
    requires FreshRun(req, Run(s, actions).fs, Begin(req), cs)
    ensures var (fs', ph') := Exec(req, Run(s, actions).fs, Begin(req), cs);
      SameFinals(Run(s, actions).fs, fs') && !ph'.Returned?
  {
    AskedIsValid(req);
    MatchesIsAuthorized(f, req);
    hide Asked, Matches, ValidArguments, Authorized, Run, Start, SameFinals, FreshRun;
    if ValidArguments(req) {
      LosersChangeNothing(s, t, f, actions, req, cs);
    } else {
      FinalStays(req, Run(s, actions).fs, Begin(req), cs);
      SameFinalsReflexive(Run(s, actions).fs);
    }
  }

  /** And recovery converges exactly for a request properly asked that matches and whose completion line fits 8192 bytes. */
  lemma RecoversExactly(s: System, t: Ino, f: PidFile, actions: seq<Action>, req: Request, cs: seq<Choice>,
                        digest: string, operation: string, token: string)
    requires Start(s, t, f) && OnlyRequest(actions, req)
    requires var fs := Run(s, actions).fs; QuietRun(req, fs, Begin(req), cs) && |cs| >= BOUND
    requires |digest| == 64 && |operation| == 64 && |token| == 32
    ensures Exec(req, Run(s, actions).fs, Begin(req), cs).1 == Returned(Complete(OperationId(req))) <==>
      Asked(req) && Matches(f, req) &&
      |RecordLine(Record(ClearanceComplete, req, OperationId(req), PidJson), digest, operation, token)| <= 8192
  {
    AskedIsValid(req);
    MatchesIsAuthorized(f, req);
    LineLength(Record(ClearanceComplete, req, OperationId(req), PidJson), digest, operation, token);
    hide Asked, Matches, ValidArguments, Authorized, Run, Start, QuietRun, Exec, BodySize, RecordLine;
    RecoveryConverges(s, t, f, actions, req, cs);
  }

  // ---------------------------------------------------------------------
  // Gate by gate, in any file system
  // ---------------------------------------------------------------------

  /** The quarantine is there, by this one name, and holds the requested bytes. */
  ghost predicate Kept(fs: FS, q: Name, d: Digest) {
    && q in fs.names && fs.Links(fs.names[q]) == {q} && fs.names[q] in fs.files
    && var c := fs.files[fs.names[q]];
       c.Tombstone? && Sha256(c.file) == d && |c.file.raw| <= 16777216
  }

  lemma KeptIsPrivate(fs: FS, q: Name, d: Digest)
    ensures PrivateQuarantine(fs, q, d) <==> Kept(fs, q, d)
  {
    if q in fs.names {
      assert q in fs.Links(fs.names[q]);
      SingletonCard(fs.Links(fs.names[q]), q);
    }
  }

  /** Nothing but pid.json leads to the inode, or, once the intent is on disk, its own quarantine does besides. */
  ghost predicate OwnLinks(fs: FS, pid: Ino, q: Name, existing: bool) {
    fs.Links(pid) == {PidJson} || (existing && fs.Links(pid) == {PidJson, q})
  }

  lemma OwnLinksCount(fs: FS, pid: Ino, q: Name, existing: bool)
    requires PidJson in fs.names && fs.names[PidJson] == pid && q != PidJson
    ensures OwnLinks(fs, pid, q, existing) <==>
      (fs.LinkCount(pid) == 1 || (existing && fs.LinkCount(pid) == 2)) && (fs.LinkCount(pid) == 2 ==> q in fs.names && fs.names[q] == pid)
  {
    var links := fs.Links(pid);
    assert PidJson in links;
    SingletonCard(links, PidJson);
    if q in links {
      PairCard(links, PidJson, q);
    }
  }

  /**
    The checks before anything is written: over pid.json the call goes on exactly if the file opened is a
    tombstone that matches, with no link but its own; without pid.json exactly if the published intent's
    quarantine holds the requested bytes.
  */
  lemma AuthorizeExactly(req: Request, fs: FS, intent: Record, existing: bool)
    requires intent.quarantine.Quarantine?
    ensures var ph := AuthorizeStep(req, fs, intent, existing);
      if PidJson in fs.names then
        var pid := fs.names[PidJson];
        && (ph == Failed || ph == if existing then LinkQuarantine(intent, pid) else CreateTemporary(intent, pid))
        && (ph != Failed <==>
             && OwnLinks(fs, pid, intent.quarantine, existing)
             && pid in fs.files && fs.files[pid].Tombstone? && Matches(fs.files[pid].file, req))
      else ph == if existing && Kept(fs, intent.quarantine, req.digest) then VerifyQuarantine(intent) else Failed
  {
    KeptIsPrivate(fs, intent.quarantine, req.digest);
    if PidJson in fs.names {
      OwnLinksCount(fs, fs.names[PidJson], intent.quarantine, existing);
    }
    hide FS.LinkCount, OwnLinks, Kept, PrivateQuarantine;
  }

  /**
    pid.json goes away only in the retiring step, and there exactly if it and the quarantine, and nothing
    else, are names of the inode that was checked.
  */
  lemma RetiresExactly(req: Request, fs: FS, ph: Phase, c: Choice)
    requires PidJson in fs.names
    requires ph.WriteTemporary? || ph.LinkFinal? || ph.DropTemporary? || ph.AbortTemporary? ==> ph.tmp.Temporary?
    requires ph.LinkQuarantine? || ph.RetirePid? ==> ph.intent.quarantine.Quarantine?
    ensures PidJson !in Step(req, fs, ph, c).0.names <==>
      ph.RetirePid? && !c.ioError && fs.names[PidJson] == ph.pid && fs.Links(ph.pid) == {PidJson, ph.intent.quarantine}
  {
    hide Clearable, PrivateQuarantine, ReadAudit, Holds, EncodedSize;
    if ph.RetirePid? {
      var q, links := ph.intent.quarantine, fs.Links(ph.pid);
      if q in links && PidJson in links {
        PairCard(links, PidJson, q);
      }
    }
  }

  /** A published intent counts exactly if it is whole, within the limit, and this request's, with a quarantine name. */
  lemma ReadsIntentExactly(req: Request, fs: FS, fd: Ino)
    ensures var ph := ReadIntentStep(req, fs, fd);
      && (ph == Failed || ph.FindComplete?)
      && (ph.FindComplete? <==>
           exists digest, token :: fd in fs.files
             && fs.files[fd] == Whole(Record(ClearanceIntent, req, OperationId(req), Quarantine(digest, token)))
             && Size(fs.files[fd]) <= 8192)
      && (ph.FindComplete? ==> ph.existing && fs.files[fd] == Whole(ph.intent))
  {
    hide EncodedSize;
    if fd in fs.files && fs.files[fd].Whole? && fs.files[fd].record.quarantine.Quarantine? {
      var q := fs.files[fd].record.quarantine;
      assert q == Quarantine(q.digest, q.token);
    }
  }

  /** A published completion ends the call exactly if it is the intent's, pid.json is gone and the quarantine is in order. */
  lemma ReadsCompletionExactly(req: Request, fs: FS, intent: Record, fd: Ino)
    ensures var ph := ReadCompleteStep(req, fs, intent, fd);
      && (ph == Failed || ph == Returned(Complete(intent.operation)))
      && (ph != Failed <==>
           && fd in fs.files && Size(fs.files[fd]) <= 8192
           && fs.files[fd] == Whole(Record(ClearanceComplete, intent.request, intent.operation, intent.quarantine))
           && PidJson !in fs.names && Kept(fs, intent.quarantine, req.digest))
  {
    KeptIsPrivate(fs, intent.quarantine, req.digest);
    hide EncodedSize, Kept, PrivateQuarantine;
  }

  /** After the retirement the call goes on, and at last returns, exactly under these conditions. */
  lemma FinishesExactly(req: Request, fs: FS, intent: Record, c: Choice)
    requires !c.ioError
    ensures Step(req, fs, VerifyQuarantine(intent), c).1 != Failed <==> Kept(fs, intent.quarantine, req.digest)
    ensures var done := Complete(intent.operation);
      Step(req, fs, Confirm(intent), c).1 == Returned(done) <==>
      PidJson !in fs.names && done in fs.names && fs.Links(fs.names[done]) == {done}
  {
    KeptIsPrivate(fs, intent.quarantine, req.digest);
    var done := Complete(intent.operation);
    if done in fs.names {
      assert done in fs.Links(fs.names[done]);
      SingletonCard(fs.Links(fs.names[done]), done);
    }
    hide Kept, PrivateQuarantine;
  }

  /** A record that is there is read exactly if it opens, and only one that is not there is passed over. */
  lemma OpensExactly(req: Request, fs: FS, intent: Record, existing: bool, c: Choice)
    ensures var n, ph := Intent(OperationId(req)), FindIntentStep(req, fs, c).1;
      if n !in fs.names
      then ph == FindComplete(Record(ClearanceIntent, req, OperationId(req), Quarantine(req.digest, c.token)), false)
      else ph == if fs.Alone(n) || LeftoverLink(fs, n) then ReadIntent(fs.names[n]) else Failed
    ensures var n, ph := Complete(intent.operation), FindCompleteStep(fs, intent, existing).1;
      if n !in fs.names then ph == Authorize(intent, existing)
      else ph == if fs.Alone(n) || LeftoverLink(fs, n) then ReadComplete(intent, fs.names[n]) else Failed
  {
    if Intent(OperationId(req)) in fs.names {
      RecoverExact(fs, Intent(OperationId(req)));
    }
    if Complete(intent.operation) in fs.names {
      RecoverExact(fs, Complete(intent.operation));
    }
    hide Recover, FS.Alone, LeftoverLink;
  }

  /** The quarantine is linked to pid.json when its name is free, and is taken as it is only if it is the inode that was checked. */
  lemma QuarantinesExactly(fs: FS, intent: Record, pid: Ino)
    ensures var (fs', ph) := LinkQuarantineStep(fs, intent, pid);
      var q := intent.quarantine;
      && (ph == Failed || ph == RetirePid(intent, pid))
      && (ph != Failed <==> if q in fs.names then fs.names[q] == pid else PidJson in fs.names)
      && fs' == if q !in fs.names && PidJson in fs.names then fs.Link(q, fs.names[PidJson]) else fs
  {
  }

  /** No step ever points a name other than a temporary at another inode: audit records and quarantines are never replaced. */
  lemma NeverReplaces(req: Request, fs: FS, ph: Phase, c: Choice, n: Name)
    requires n in fs.names && !n.Temporary? && n in Step(req, fs, ph, c).0.names
    ensures Step(req, fs, ph, c).0.names[n] == fs.names[n]
  {
    hide Clearable, PrivateQuarantine, ReadAudit, Holds, EncodedSize;
  }

  // ---------------------------------------------------------------------
  // Temporaries
  // ---------------------------------------------------------------------

  ghost function TemporaryOf(ph: Phase): set<Name> {
    if ph.WriteTemporary? || ph.LinkFinal? || ph.DropTemporary? || ph.AbortTemporary? then {ph.tmp} else {}
  }

  /** The record in hand. */
  ghost function RecordOf(ph: Phase): Option<Record> {
    match ph
    case FindComplete(r, _) => Some(r)
    case ReadComplete(r, _) => Some(r)
    case Authorize(r, _) => Some(r)
    case CreateTemporary(r, _) => Some(r)
    case WriteTemporary(r, _, _, _) => Some(r)
    case LinkFinal(r, _, _) => Some(r)
    case DropTemporary(r, _, _) => Some(r)
    case LinkQuarantine(r, _) => Some(r)
    case RetirePid(r, _) => Some(r)
    case VerifyQuarantine(r) => Some(r)
    case Confirm(r) => Some(r)
    case _ => None
  }

  /** Every temporary there was there before or is the holder's, and its record names a quarantine. */
  ghost predicate NoneButOwn(before: FS, fs: FS, ph: Phase) {
    && (forall n: Name :: n.Temporary? && n in fs.names ==> n in before.names || n in TemporaryOf(ph))
    && (RecordOf(ph).Some? ==> RecordOf(ph).value.quarantine.Quarantine?)
  }

  lemma StepLeavesNone(before: FS, req: Request, fs: FS, ph: Phase, c: Choice)
    requires NoneButOwn(before, fs, ph) && !(ph.AbortTemporary? && c.ioError)
    ensures var (fs', ph') := Step(req, fs, ph, c); NoneButOwn(before, fs', ph')
  {
    hide Clearable, PrivateQuarantine, ReadAudit, Holds, EncodedSize, FS.LinkCount;
  }

  /** No unlink of a temporary in the course of the run fails. */
  ghost predicate CleansUp(req: Request, fs: FS, ph: Phase, cs: seq<Choice>, k: nat := 0)
    requires k <= |cs|
    decreases |cs| - k
  {
    k < |cs| ==>
      && !(ph.AbortTemporary? && cs[k].ioError)
      && var (fs', ph') := Step(req, fs, ph, cs[k]); CleansUp(req, fs', ph', cs, k + 1)
  }

  /**
    A call that ends, by returning or by an error anywhere, leaves no temporary that was not there before,
    unless the unlink of its own failed; only a death can leave one.
  */
  lemma {:induction false} NoLeftovers(before: FS, req: Request, fs: FS, ph: Phase, cs: seq<Choice>, k: nat := 0)
    requires k <= |cs| && NoneButOwn(before, fs, ph) && CleansUp(req, fs, ph, cs, k)
    ensures var (fs', ph') := Exec(req, fs, ph, cs, k);
      ph'.Final() ==> forall n: Name :: n.Temporary? && n in fs'.names ==> n in before.names
    decreases |cs| - k
  {
    if k < |cs| {
      var (fs', ph') := Step(req, fs, ph, cs[k]);
      StepLeavesNone(before, req, fs, ph, cs[k]);
      hide Step, NoneButOwn;
      NoLeftovers(before, req, fs', ph', cs, k + 1);
    }
  }
}
