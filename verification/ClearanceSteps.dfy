/** Every step of the holder of the lock keeps the invariant, whatever the environment chooses. */
module ClearanceSteps {
  import opened Wrappers
  import opened FileSystem
  import opened Clearance
  import opened ClearanceSafety

  /** A published record has its own name and at most one temporary beside it. */
  lemma RecoverSound(fs: FS, t: Ino, f: PidFile, n: Name)
    requires Sound(fs, t, f) && n in fs.names && (n.Intent? || n.Complete?)
    ensures var r := Recover(fs, fs.names[n]);
      r.Some? && Sound(r.value, t, f) && SameFinals(fs, r.value) && n in r.value.names && r.value.Alone(n)
    ensures fs.Alone(n) ==> Recover(fs, fs.names[n]) == Some(fs)
    ensures forall m :: m in fs.names && !m.Temporary? && fs.Alone(m) ==>
      Recover(fs, fs.names[n]).value.Alone(m)
  {
    hide IntentsExact, IntentsDistinct, QuarantinesBacked, CompletesSound, TokensSound, TemporariesOnly;
    var i := fs.names[n];
    AloneIffOneLink(fs, n);
    if !fs.Alone(n) {
      var m :| m in fs.names && fs.names[m] == i && m != n;
      assert m.Temporary?;
      LinksOfShared(fs, t, f, n, m);
      PairCard(fs.Links(i), n, m);
      assert fs.names - {m} == fs.Unlink(m).names;
      UnlinkTemporarySound(fs, t, f, m);
      AloneIffOneLink(fs.Unlink(m), n);
    }
  }

  /** The name and one temporary are all the links there are. */
  ghost predicate LeftoverLink(fs: FS, n: Name)
    requires n in fs.names
  {
    exists m: Name :: m.Temporary? && m in fs.names && fs.Links(fs.names[n]) == {n, m}
  }

  /** Only temporaries of this inode may be gone, and every name left leads where it led. */
  ghost predicate OnlySwept(fs: FS, fs': FS, i: Ino) {
    && fs' == fs.(names := fs'.names) && fs'.names.Keys <= fs.names.Keys
    && (forall m :: m in fs'.names ==> fs'.names[m] == fs.names[m])
    && (forall m :: m in fs.names && m !in fs'.names ==> m.Temporary? && fs.names[m] == i)
  }

  /**
    In any file system, a record opens exactly when its name is alone on the inode or shares it with
    one temporary; then a single link is left, that temporary is all that can be gone.
  */
  lemma RecoverExact(fs: FS, n: Name)
    requires n in fs.names && !n.Temporary?
    ensures Recover(fs, fs.names[n]).Some? <==> fs.Alone(n) || LeftoverLink(fs, n)
    ensures Recover(fs, fs.names[n]).Some? ==>
      var fs' := Recover(fs, fs.names[n]).value;
      OnlySwept(fs, fs', fs.names[n]) && n in fs'.names && fs'.Alone(n) && fs'.LinkCount(fs.names[n]) == 1
  {
    var i := fs.names[n];
    AloneIffOneLink(fs, n);
    assert n in fs.Links(i);
    if fs.LinkCount(i) == 2 {
      SweepsOne(fs, n);
    } else if m: Name :| m.Temporary? && m in fs.names && fs.Links(i) == {n, m} {
      PairCard(fs.Links(i), n, m);
    }
    if Recover(fs, i).Some? {
      AloneIffOneLink(Recover(fs, i).value, n);
    }
    hide FS.LinkCount, FS.Alone;
  }

  lemma SweepsOne(fs: FS, n: Name)
    requires n in fs.names && !n.Temporary? && fs.LinkCount(fs.names[n]) == 2
    ensures |Temporaries(fs, fs.names[n])| == 1 <==> LeftoverLink(fs, n)
    ensures LeftoverLink(fs, n) ==> fs.(names := fs.names - Temporaries(fs, fs.names[n])).LinkCount(fs.names[n]) == 1
  {
    var i := fs.names[n];
    var links, temporaries := fs.Links(i), Temporaries(fs, i);
    assert n in links && temporaries <= links - {n} && |links - {n}| == 1;
    var m :| m in links - {n};
    SingletonCard(links - {n}, m);
    PairCard(links, n, m);
    assert links == {n, m};
    if m.Temporary? {
      assert temporaries == {m};
      var swept := fs.(names := fs.names - temporaries);
      assert swept.Links(i) == {n};
    } else {
      assert temporaries == {};
      forall t: Name | t.Temporary?
        ensures links != {n, t}
      {
        assert t !in links;
      }
    }
  }

  lemma LinksOfShared(fs: FS, t: Ino, f: PidFile, n: Name, m: Name)
    requires Sound(fs, t, f) && n in fs.names && m in fs.names && n != m && fs.names[n] == fs.names[m]
    requires !n.Temporary? && m.Temporary? && fs.names[n] != t
    ensures fs.Links(fs.names[n]) == {n, m}
    ensures Temporaries(fs, fs.names[n]) == {m}
    ensures |Temporaries(fs, fs.names[n])| == 1
    ensures fs.Unlink(m).Alone(n)
  {
    hide IntentsExact, IntentsDistinct, QuarantinesBacked, CompletesSound, TombstoneSound, TokensSound;
    forall x | x in fs.names && fs.names[x] == fs.names[n]
      ensures x == n || x == m
    {
    }
    assert Temporaries(fs, fs.names[n]) == {m};
  }

  lemma LinkedTokenIssued(fs: FS, t: Ino, f: PidFile, q: Name)
    requires Sound(fs, t, f) && q.Quarantine?
    ensures q in fs.names ==> q.token in fs.issued
  {
    if q in fs.names {
      var op :| Intent(op) in fs.names && QuarantineOf(fs, op) == q;
      assert GoodIntent(fs.At(Intent(op)), f, op, fs.issued);
    }
  }

  /** The tombstone has one or two links: pid.json, one quarantine, or both. */
  lemma TombstoneLinks(fs: FS, t: Ino, f: PidFile)
    requires TombstoneSound(fs, t, f)
    ensures fs.LinkCount(t) == 1 || fs.LinkCount(t) == 2
    ensures fs.LinkCount(t) == 2 <==> PidJson in fs.names && exists q :: q in fs.names && q.Quarantine?
    ensures forall q :: q in fs.names && q.Quarantine? ==>
      fs.Links(t) == if PidJson in fs.names then {PidJson, q} else {q}
  {
    if q :| q in fs.names && q.Quarantine? {
      if PidJson in fs.names {
        assert fs.Links(t) == {PidJson, q};
      } else {
        assert fs.Links(t) == {q};
      }
    } else {
      assert fs.Links(t) == {PidJson};
    }
  }

  lemma FindIntentGood(req: Request, fs: FS, t: Ino, f: PidFile, c: Choice)
    requires Sound(fs, t, f) && Fresh(fs, c)
    ensures var (fs', ph') := FindIntentStep(req, fs, c); Good(fs', t, f, req, ph') && (ph'.ReadIntent? || ph'.FindComplete?)
  {
    hide Sound, Reserved, Recover;
    var n := Intent(OperationId(req));
    if n in fs.names {
      RecoverSound(fs, t, f, n);
    } else {
      ReserveSound(req, fs, t, f, c.token);
    }
  }

  /** Drawing a token issues a quarantine name that no intent and no link has. */
  lemma ReserveSound(req: Request, fs: FS, t: Ino, f: PidFile, token: nat)
    requires Sound(fs, t, f) && token !in fs.issued && Intent(OperationId(req)) !in fs.names
    ensures var fs' := fs.(issued := fs.issued + {token});
      Sound(fs', t, f) && Reserved(fs', req, IntentRecord(req, Quarantine(req.digest, token)))
  {
    hide CompletesSound, IntentsDistinct, SharingSound, TombstoneSound;
    var fs' := fs.(issued := fs.issued + {token});
    IssueNames(fs, t, f, token);
    FrameSound(fs, fs', t, f);
    var q := Quarantine(req.digest, token);
    forall op | Intent(op) in fs'.names
      ensures QuarantineOf(fs', op) != q
    {
      assert GoodIntent(fs.At(Intent(op)), f, op, fs.issued);
    }
    LinkedTokenIssued(fs, t, f, q);
  }

  lemma IssueNames(fs: FS, t: Ino, f: PidFile, token: nat)
    requires Sound(fs, t, f)
    ensures TemporariesOnly(fs, fs.(issued := fs.issued + {token}), t)
  {
    hide IntentsExact, IntentsDistinct, QuarantinesBacked, CompletesSound;
  }

  lemma ReadIntentGood(req: Request, fs: FS, t: Ino, f: PidFile, fd: Ino)
    requires Good(fs, t, f, req, ReadIntent(fd))
    ensures ReadIntentStep(req, fs, fd).FindComplete?
    ensures Good(fs, t, f, req, ReadIntentStep(req, fs, fd))
  {
    var op := OperationId(req);
    assert GoodIntent(fs.At(Intent(op)), f, op, fs.issued);
  }

  lemma FindCompleteGood(req: Request, fs: FS, t: Ino, f: PidFile, r: Record, existing: bool)
    requires Good(fs, t, f, req, FindComplete(r, existing))
    ensures var (fs', ph') := FindCompleteStep(fs, r, existing);
      Good(fs', t, f, req, ph') && (ph'.Authorize? || ph'.ReadComplete?)
  {
    var n := Complete(r.operation);
    if n in fs.names {
      RecoverSound(fs, t, f, n);
      assert GoodCompletion(fs, r.operation);
      var fs' := Recover(fs, fs.names[n]).value;
      assert fs'.At(Intent(r.operation)) == fs.At(Intent(r.operation));
    }
  }

  lemma ReadCompleteGood(req: Request, fs: FS, t: Ino, f: PidFile, r: Record, fd: Ino)
    requires Good(fs, t, f, req, ReadComplete(r, fd))
    ensures Good(fs, t, f, req, ReadCompleteStep(req, fs, r, fd))
  {
  }

  lemma AuthorizeGood(req: Request, fs: FS, t: Ino, f: PidFile, r: Record, existing: bool)
    requires Good(fs, t, f, req, Authorize(r, existing))
    ensures Good(fs, t, f, req, AuthorizeStep(req, fs, r, existing))
  {
    TombstoneLinks(fs, t, f);
    if existing {
      assert GoodIntent(fs.At(Intent(OperationId(req))), f, OperationId(req), fs.issued);
    }
  }

  lemma CreateNames(fs: FS, fs': FS, t: Ino, f: PidFile, tmp: Name, i: Ino)
    requires Sound(fs, t, f)
    requires tmp.Temporary? && tmp.token !in fs.issued && i !in fs.files
    requires fs'.names == fs.names[tmp := i] && fs'.files == fs.files[i := Torn(0)]
    requires fs'.issued == fs.issued + {tmp.token}
    ensures TemporariesOnly(fs, fs', t)
    ensures OwnTemporary(fs', t, tmp, Torn(0))
  {
    hide IntentsExact, IntentsDistinct, QuarantinesBacked, CompletesSound;
    assert tmp !in fs.names;
    CreateShares(fs, fs', t, tmp, i);
    CreateOwn(fs, fs', t, tmp, i);
    hide SharingSound, FS.Alone, OwnTemporary;
    assert forall n: Name :: !n.Temporary? ==> fs.At(n) == fs'.At(n);
  }

  lemma CreateOwn(fs: FS, fs': FS, t: Ino, tmp: Name, i: Ino)
    requires TokensSound(fs) && SharingSound(fs, t) && t in fs.files
    requires tmp.Temporary? && tmp !in fs.names && i !in fs.files
    requires fs'.names == fs.names[tmp := i] && fs'.files == fs.files[i := Torn(0)]
    ensures OwnTemporary(fs', t, tmp, Torn(0))
  {
  }

  lemma CreateShares(fs: FS, fs': FS, t: Ino, tmp: Name, i: Ino)
    requires SharingSound(fs, t) && TokensSound(fs) && t in fs.files
    requires tmp.Temporary? && tmp !in fs.names && i !in fs.files
    requires fs'.names == fs.names[tmp := i]
    ensures SharingSound(fs', t)
  {
  }

  lemma StoreNames(fs: FS, t: Ino, f: PidFile, tmp: Name, before: Content, after: Content)
    requires Sound(fs, t, f) && OwnTemporary(fs, t, tmp, before)
    ensures TemporariesOnly(fs, fs.Store(fs.names[tmp], after), t)
    ensures OwnTemporary(fs.Store(fs.names[tmp], after), t, tmp, after)
  {
    hide IntentsExact, IntentsDistinct, QuarantinesBacked, CompletesSound;
  }

  /** Creating or writing the holder's temporary keeps what it is about to publish. */
  lemma TemporaryKept(req: Request, fs: FS, fs': FS, t: Ino, f: PidFile, rec: Record, pid: Ino)
    requires Sound(fs, t, f) && MayPublish(fs, t, f, req, rec, pid) && TemporariesOnly(fs, fs', t)
    ensures Sound(fs', t, f) && MayPublish(fs', t, f, req, rec, pid)
  {
    hide *;
    FrameSound(fs, fs', t, f);
    FrameMayPublish(fs, fs', t, f, req, rec, pid);
  }

  lemma CreateGood(req: Request, fs: FS, t: Ino, f: PidFile, rec: Record, pid: Ino, c: Choice)
    requires Good(fs, t, f, req, CreateTemporary(rec, pid)) && Fresh(fs, c)
    ensures var (fs', ph') := CreateStep(fs, rec, pid, c); Good(fs', t, f, req, ph')
  {
    hide Sound, MayPublish, OwnTemporary, TemporariesOnly;
    if EncodedSize(rec) <= AUDIT_LIMIT {
      var fs' := CreateStep(fs, rec, pid, c).0;
      CreateNames(fs, fs', t, f, Temporary(c.token), c.ino);
      TemporaryKept(req, fs, fs', t, f, rec, pid);
      assert Good(fs', t, f, req, WriteTemporary(rec, pid, Temporary(c.token), 0));
    }
  }

  lemma WriteGood(req: Request, fs: FS, t: Ino, f: PidFile, rec: Record, pid: Ino, tmp: Name, offset: nat, c: Choice)
    requires Good(fs, t, f, req, WriteTemporary(rec, pid, tmp, offset))
    ensures var (fs', ph') := WriteStep(fs, rec, pid, tmp, offset, c); Good(fs', t, f, req, ph')
  {
    hide Sound, MayPublish;
    if c.chunk == 0 {
      assert Good(fs, t, f, req, AbortTemporary(tmp));
    } else {
      WriteSome(req, fs, t, f, rec, pid, tmp, offset, offset + c.chunk);
    }
  }

  lemma WriteSome(req: Request, fs: FS, t: Ino, f: PidFile, rec: Record, pid: Ino, tmp: Name, offset: nat, n: nat)
    requires Good(fs, t, f, req, WriteTemporary(rec, pid, tmp, offset))
    ensures if n >= EncodedSize(rec)
      then Good(fs.Store(fs.names[tmp], Whole(rec)), t, f, req, LinkFinal(rec, pid, tmp))
      else Good(fs.Store(fs.names[tmp], Torn(n)), t, f, req, WriteTemporary(rec, pid, tmp, n))
  {
    hide Sound, MayPublish, TemporariesOnly;
    var after := if n >= EncodedSize(rec) then Whole(rec) else Torn(n);
    StoreNames(fs, t, f, tmp, Torn(offset), after);
    TemporaryKept(req, fs, fs.Store(fs.names[tmp], after), t, f, rec, pid);
  }

  lemma DropGood(req: Request, fs: FS, t: Ino, f: PidFile, rec: Record, pid: Ino, tmp: Name)
    requires Good(fs, t, f, req, DropTemporary(rec, pid, tmp))
    ensures var (fs', ph') := DropStep(fs, rec, pid, tmp); Good(fs', t, f, req, ph') && (ph'.LinkQuarantine? || ph'.Confirm?)
  {
    hide Sound, TemporariesOnly, Settled, Open, Retired;
    UnlinkTemporarySound(fs, t, f, tmp);
    DropHolder(req, fs, t, f, rec, pid, tmp);
    if rec.event == ClearanceIntent {
      assert Good(fs.Unlink(tmp), t, f, req, LinkQuarantine(rec, pid));
    } else {
      assert Good(fs.Unlink(tmp), t, f, req, Confirm(AsIntent(rec)));
    }
  }

  lemma DropHolder(req: Request, fs: FS, t: Ino, f: PidFile, rec: Record, pid: Ino, tmp: Name)
    requires Sound(fs, t, f) && JustLinked(fs, t, f, req, rec, pid, tmp)
    ensures var fs' := fs.Unlink(tmp);
      if rec.event == ClearanceIntent
      then Settled(fs', req, rec) && Open(fs', t, f, req, rec, pid) && Complete(OperationId(req)) !in fs'.names
      else Retired(fs', req, AsIntent(rec)) && Complete(OperationId(req)) in fs'.names
           && fs'.Alone(Complete(OperationId(req)))
  {
    hide IntentsExact, IntentsDistinct, QuarantinesBacked, CompletesSound, TokensSound;
    LinksOfShared(fs, t, f, FinalName(rec), tmp);
    var fs' := fs.Unlink(tmp);
    assert fs'.At(FinalName(rec)) == fs.At(FinalName(rec));
    assert fs'.At(FinalName(AsIntent(rec))) == fs.At(FinalName(AsIntent(rec)));
  }

  /** fs' is fs with one more name for the inode of the holder's temporary. */
  ghost predicate Added(fs: FS, fs': FS, t: Ino, n: Name, tmp: Name) {
    && n !in fs.names && (n.Intent? || n.Complete?)
    && tmp.Temporary? && tmp in fs.names && fs.names[tmp] != t && fs.Alone(tmp)
    && fs' == fs.Link(n, fs.names[tmp])
  }

  lemma AddedNames(fs: FS, fs': FS, t: Ino, f: PidFile, n: Name, tmp: Name)
    requires Sound(fs, t, f) && Added(fs, fs', t, n, tmp)
    ensures TombstoneSound(fs', t, f) && SharingSound(fs', t) && TokensSound(fs')
    ensures forall m: Name :: m != n ==> fs'.At(m) == fs.At(m)
  {
    hide IntentsExact, IntentsDistinct, QuarantinesBacked, CompletesSound;
    if PidJson !in fs.names {
      var q :| q in fs.names && q.Quarantine?;
      assert q in fs'.names;
    }
  }

  lemma AddedIntentLedger(fs: FS, fs': FS, t: Ino, f: PidFile, req: Request, rec: Record, tmp: Name)
    requires Sound(fs, t, f) && Reserved(fs, req, rec)
    requires Added(fs, fs', t, Intent(OperationId(req)), tmp)
    requires fs.At(tmp) == Some(Whole(rec)) && EncodedSize(rec) <= AUDIT_LIMIT && Authorized(f, req)
    ensures forall op :: QuarantineOf(fs', op) == if op == OperationId(req) then rec.quarantine else QuarantineOf(fs, op)
    ensures IntentsExact(fs', f) && IntentsDistinct(fs')
  {
    AddedNames(fs, fs', t, f, Intent(OperationId(req)), tmp);
    assert fs'.At(Intent(OperationId(req))) == Some(Whole(rec));
    forall op | Intent(op) in fs'.names
      ensures GoodIntent(fs'.At(Intent(op)), f, op, fs'.issued)
    {
      if op != OperationId(req) {
        assert GoodIntent(fs.At(Intent(op)), f, op, fs.issued);
      }
    }
  }

  lemma AddedIntentRest(fs: FS, fs': FS, t: Ino, f: PidFile, req: Request, rec: Record, tmp: Name)
    requires Sound(fs, t, f) && Reserved(fs, req, rec)
    requires Added(fs, fs', t, Intent(OperationId(req)), tmp)
    requires forall op :: QuarantineOf(fs', op) == if op == OperationId(req) then rec.quarantine else QuarantineOf(fs, op)
    ensures QuarantinesBacked(fs') && CompletesSound(fs')
  {
    AddedNames(fs, fs', t, f, Intent(OperationId(req)), tmp);
    forall n | n in fs'.names && n.Quarantine?
      ensures exists op :: Intent(op) in fs'.names && QuarantineOf(fs', op) == n
    {
      var op :| Intent(op) in fs.names && QuarantineOf(fs, op) == n;
      assert Intent(op) in fs'.names && QuarantineOf(fs', op) == n;
    }
    forall op | Complete(op) in fs'.names
      ensures GoodCompletion(fs', op)
    {
      assert GoodCompletion(fs, op);
    }
  }

  /** Publishing an intent adds exactly one operation to the ledger. */
  lemma LinkIntentGood(req: Request, fs: FS, t: Ino, f: PidFile, rec: Record, pid: Ino, tmp: Name)
    requires Good(fs, t, f, req, LinkFinal(rec, pid, tmp)) && rec.event == ClearanceIntent
    ensures var (fs', ph') := LinkFinalStep(fs, rec, pid, tmp); Good(fs', t, f, req, ph')
  {
    var fs' := fs.Link(Intent(OperationId(req)), fs.names[tmp]);
    AddedNames(fs, fs', t, f, Intent(OperationId(req)), tmp);
    AddedIntentLedger(fs, fs', t, f, req, rec, tmp);
    AddedIntentRest(fs, fs', t, f, req, rec, tmp);
  }

  /** Publishing a completion: its intent, its quarantine and the absence of pid.json are in place. */
  lemma LinkCompleteGood(req: Request, fs: FS, t: Ino, f: PidFile, rec: Record, pid: Ino, tmp: Name)
    requires Good(fs, t, f, req, LinkFinal(rec, pid, tmp)) && rec.event == ClearanceComplete
    ensures var (fs', ph') := LinkFinalStep(fs, rec, pid, tmp); Good(fs', t, f, req, ph')
  {
    hide Sound, JustLinked;
    var n := Complete(OperationId(req));
    var fs' := fs.Link(n, fs.names[tmp]);
    assert FinalName(rec) == n;
    AddedCompleteSound(fs, fs', t, f, req, rec, pid, tmp);
    AddedCompleteHolder(fs, fs', t, f, req, rec, pid, tmp);
    assert Good(fs', t, f, req, DropTemporary(rec, pid, tmp));
  }

  lemma AddedCompleteSound(fs: FS, fs': FS, t: Ino, f: PidFile, req: Request, rec: Record, pid: Ino, tmp: Name)
    requires Sound(fs, t, f) && MayPublish(fs, t, f, req, rec, pid) && rec.event == ClearanceComplete
    requires Added(fs, fs', t, Complete(OperationId(req)), tmp)
    requires OwnTemporary(fs, t, tmp, Whole(rec)) && EncodedSize(rec) <= AUDIT_LIMIT
    ensures Sound(fs', t, f)
  {
    hide TombstoneSound, SharingSound, TokensSound, IntentsExact, IntentsDistinct, QuarantinesBacked, CompletesSound;
    var n := Complete(OperationId(req));
    AddedNames(fs, fs', t, f, n, tmp);
    SameQuarantines(fs, fs', n);
    assert fs.At(FinalName(AsIntent(rec))) == Some(Whole(AsIntent(rec)));
    AddedCompleteLedger(fs, fs', t, f, n, tmp);
    AddedCompletes(fs, fs', t, f, n, tmp);
  }

  lemma SameQuarantines(fs: FS, fs': FS, n: Name)
    requires n.Complete? && forall m: Name :: m != n ==> fs'.At(m) == fs.At(m)
    ensures forall op :: QuarantineOf(fs', op) == QuarantineOf(fs, op)
  {
    forall op
      ensures QuarantineOf(fs', op) == QuarantineOf(fs, op)
    {
      assert fs'.At(Intent(op)) == fs.At(Intent(op));
    }
  }

  lemma AddedCompleteHolder(fs: FS, fs': FS, t: Ino, f: PidFile, req: Request, rec: Record, pid: Ino, tmp: Name)
    requires MayPublish(fs, t, f, req, rec, pid) && rec.event == ClearanceComplete
    requires Added(fs, fs', t, Complete(OperationId(req)), tmp)
    requires OwnTemporary(fs, t, tmp, Whole(rec))
    ensures JustLinked(fs', t, f, req, rec, pid, tmp)
  {
    assert fs'.At(FinalName(AsIntent(rec))) == fs.At(FinalName(AsIntent(rec)));
  }

  lemma AddedCompleteLedger(fs: FS, fs': FS, t: Ino, f: PidFile, n: Name, tmp: Name)
    requires IntentsExact(fs, f) && IntentsDistinct(fs) && QuarantinesBacked(fs)
    requires Added(fs, fs', t, n, tmp) && n.Complete?
    requires forall op :: QuarantineOf(fs', op) == QuarantineOf(fs, op)
    ensures IntentsExact(fs', f) && IntentsDistinct(fs') && QuarantinesBacked(fs')
  {
    forall op | Intent(op) in fs'.names
      ensures GoodIntent(fs'.At(Intent(op)), f, op, fs'.issued)
    {
      assert GoodIntent(fs.At(Intent(op)), f, op, fs.issued);
      assert fs'.At(Intent(op)) == fs.At(Intent(op));
    }
  }

  lemma AddedCompletes(fs: FS, fs': FS, t: Ino, f: PidFile, n: Name, tmp: Name)
    requires CompletesSound(fs) && Added(fs, fs', t, n, tmp) && n.Complete?
    requires forall op :: QuarantineOf(fs', op) == QuarantineOf(fs, op)
    requires PidJson !in fs.names && Intent(n.op) in fs.names && QuarantineOf(fs, n.op) in fs.names
    requires var r := Completion(IntentRecord(n.op.request, QuarantineOf(fs, n.op)));
      fs.At(tmp) == Some(Whole(r)) && EncodedSize(r) <= AUDIT_LIMIT
    ensures CompletesSound(fs')
  {
    forall op | Complete(op) in fs'.names
      ensures GoodCompletion(fs', op)
    {
      if Complete(op) != n {
        assert GoodCompletion(fs, op);
        assert fs'.At(Complete(op)) == fs.At(Complete(op));
      }
    }
  }

  // ---------------------------------------------------------------------
  // The two changes to the tombstone's own names
  // ---------------------------------------------------------------------

  lemma LinkQuarantineGood(req: Request, fs: FS, t: Ino, f: PidFile, r: Record, pid: Ino)
    requires Good(fs, t, f, req, LinkQuarantine(r, pid))
    ensures var (fs', ph') := LinkQuarantineStep(fs, r, pid); Good(fs', t, f, req, ph') && ph'.RetirePid?
  {
    hide Sound;
    IntentChecked(fs, t, f, OperationId(req));
    TombstoneNamed(fs, t, f);
    assert QuarantineOf(fs, OperationId(req)) == r.quarantine;
    if r.quarantine !in fs.names {
      LinkQuarantineSound(fs, t, f, OperationId(req));
      assert Good(fs.Link(r.quarantine, t), t, f, req, LinkQuarantine(r, pid));
      assert Good(fs.Link(r.quarantine, t), t, f, req, RetirePid(r, pid));
    } else {
      assert Good(fs, t, f, req, RetirePid(r, pid));
    }
  }

  lemma IntentChecked(fs: FS, t: Ino, f: PidFile, op: OperationId)
    requires Sound(fs, t, f) && Intent(op) in fs.names
    ensures GoodIntent(fs.At(Intent(op)), f, op, fs.issued)
  {
    hide TombstoneSound, SharingSound, TokensSound, IntentsDistinct, QuarantinesBacked, CompletesSound;
  }

  lemma TombstoneNamed(fs: FS, t: Ino, f: PidFile)
    requires Sound(fs, t, f)
    ensures forall n :: n in fs.names ==> (fs.names[n] == t <==> n.PidJson? || n.Quarantine?)
  {
    hide SharingSound, TokensSound, IntentsExact, IntentsDistinct, QuarantinesBacked, CompletesSound;
  }

  lemma LinkQuarantineSound(fs: FS, t: Ino, f: PidFile, op: OperationId)
    requires Sound(fs, t, f) && PidJson in fs.names && Intent(op) in fs.names
    requires forall n :: n in fs.names && n.Quarantine? ==> n == QuarantineOf(fs, op)
    requires QuarantineOf(fs, op) !in fs.names && QuarantineOf(fs, op).Quarantine?
    ensures Sound(fs.Link(QuarantineOf(fs, op), t), t, f)
  {
    var q := QuarantineOf(fs, op);
    IntentChecked(fs, t, f, op);
    var fs' := fs.Link(q, t);
    LinkedNames(fs, t, f, q);
    TombstoneRenamed(fs, fs', f, q);
    hide TombstoneSound, SharingSound, TokensSound, IntentsExact, IntentsDistinct, QuarantinesBacked, CompletesSound;
  }

  lemma LinkedNames(fs: FS, t: Ino, f: PidFile, q: Name)
    requires Sound(fs, t, f) && q.Quarantine? && q !in fs.names && q.digest == Sha256(f)
    requires forall n :: n in fs.names ==> !n.Quarantine?
    ensures var fs' := fs.Link(q, t);
      && TombstoneSound(fs', t, f) && SharingSound(fs', t) && TokensSound(fs')
      && forall n: Name :: n != q ==> fs'.At(n) == fs.At(n)
  {
    hide IntentsExact, IntentsDistinct, QuarantinesBacked, CompletesSound;
  }

  /** The ledger when only names of the tombstone change and its quarantine q stays or appears. */
  lemma TombstoneRenamed(fs: FS, fs': FS, f: PidFile, q: Name)
    requires IntentsExact(fs, f) && IntentsDistinct(fs) && QuarantinesBacked(fs) && CompletesSound(fs)
    requires q.Quarantine? && q in fs'.names && PidJson in fs.names && fs.issued == fs'.issued
    requires forall n: Name :: n.Intent? || n.Complete? || n.Temporary? ==> (n in fs.names <==> n in fs'.names) && fs.At(n) == fs'.At(n)
    requires forall n: Name :: n.Quarantine? && n in fs'.names ==> n == q
    requires exists op :: Intent(op) in fs.names && QuarantineOf(fs, op) == q
    ensures IntentsExact(fs', f) && IntentsDistinct(fs') && QuarantinesBacked(fs') && CompletesSound(fs')
  {
    forall op | Intent(op) in fs'.names
      ensures GoodIntent(fs'.At(Intent(op)), f, op, fs'.issued)
    {
      assert GoodIntent(fs.At(Intent(op)), f, op, fs.issued);
    }
    forall op
      ensures QuarantineOf(fs', op) == QuarantineOf(fs, op)
    {
      assert fs'.At(Intent(op)) == fs.At(Intent(op));
    }
    NoCompletionYet(fs);
  }

  /** While pid.json is there, nothing has completed. */
  lemma NoCompletionYet(fs: FS)
    requires CompletesSound(fs) && PidJson in fs.names
    ensures forall op :: Complete(op) !in fs.names
  {
  }

  lemma RetireNames(fs: FS, t: Ino, f: PidFile, q: Name)
    requires TombstoneSound(fs, t, f) && SharingSound(fs, t) && TokensSound(fs)
    requires q in fs.names && q.Quarantine?
    ensures var fs' := fs.Unlink(PidJson);
      && TombstoneSound(fs', t, f) && SharingSound(fs', t) && TokensSound(fs')
      && forall n: Name :: n != PidJson ==> fs'.At(n) == fs.At(n)
  {
    assert q in fs.Unlink(PidJson).names;
  }

  /** The re-check before the unlink passes: the quarantine and pid.json are one inode. */
  lemma RetireTaken(fs: FS, t: Ino, f: PidFile, r: Record)
    requires TombstoneSound(fs, t, f) && PidJson in fs.names && r.quarantine in fs.names && r.quarantine.Quarantine?
    ensures RetireStep(fs, r, t) == (fs.Unlink(PidJson), VerifyQuarantine(r))
  {
    TombstoneLinks(fs, t, f);
    assert r.quarantine in fs.Links(t) && PidJson in fs.Links(t);
    hide TombstoneSound, FS.LinkCount;
  }

  lemma QuarantineNamed(req: Request, fs: FS, t: Ino, f: PidFile, r: Record, pid: Ino)
    requires Good(fs, t, f, req, RetirePid(r, pid))
    ensures Good(fs, t, f, req, LinkQuarantine(r, pid)) && r.quarantine in fs.names && r.quarantine.Quarantine?
    ensures TombstoneSound(fs, t, f) && PidJson in fs.names && pid == t
  {
    assert Good(fs, t, f, req, LinkQuarantine(r, pid));
    assert GoodIntent(fs.At(Intent(OperationId(req))), f, OperationId(req), fs.issued);
    hide TombstoneSound, SharingSound, TokensSound, IntentsDistinct, QuarantinesBacked, CompletesSound;
  }

  lemma RetiredSettled(req: Request, fs: FS, t: Ino, f: PidFile, r: Record, pid: Ino)
    requires Good(fs, t, f, req, LinkQuarantine(r, pid)) && r.quarantine in fs.names && r.quarantine.Quarantine?
    ensures Retired(fs.Unlink(PidJson), req, r) && Complete(OperationId(req)) !in fs.Unlink(PidJson).names
    ensures QuarantineOf(fs, OperationId(req)) == r.quarantine && Intent(OperationId(req)) in fs.names
  {
    hide Sound;
  }

  lemma RetireSound(fs: FS, t: Ino, f: PidFile, op: OperationId, q: Name)
    requires Sound(fs, t, f) && PidJson in fs.names && q in fs.names && q.Quarantine?
    requires Intent(op) in fs.names && QuarantineOf(fs, op) == q
    requires forall n: Name :: n in fs.names && n.Quarantine? ==> n == q
    ensures Sound(fs.Unlink(PidJson), t, f)
  {
    RetireNames(fs, t, f, q);
    hide TombstoneSound, SharingSound, TokensSound, IntentsExact, IntentsDistinct, QuarantinesBacked, CompletesSound;
    TombstoneRenamed(fs, fs.Unlink(PidJson), f, q);
  }

  lemma OnlyQuarantine(req: Request, fs: FS, t: Ino, f: PidFile, r: Record, pid: Ino)
    requires Good(fs, t, f, req, LinkQuarantine(r, pid))
    ensures Sound(fs, t, f) && PidJson in fs.names && forall n: Name :: n in fs.names && n.Quarantine? ==> n == r.quarantine
  {
    hide Sound, Settled;
  }

  /** Unlinking pid.json leaves the tombstone under its quarantine. */
  lemma RetireGood(req: Request, fs: FS, t: Ino, f: PidFile, r: Record, pid: Ino)
    requires Good(fs, t, f, req, RetirePid(r, pid))
    ensures var (fs', ph') := RetireStep(fs, r, pid); Good(fs', t, f, req, ph') && ph'.VerifyQuarantine?
  {
    hide Sound, Retired, Settled, Open, RetireStep, QuarantineOf, TombstoneSound;
    QuarantineNamed(req, fs, t, f, r, pid);
    RetireTaken(fs, t, f, r);
    RetiredSettled(req, fs, t, f, r, pid);
    OnlyQuarantine(req, fs, t, f, r, pid);
    RetireSound(fs, t, f, OperationId(req), r.quarantine);
    assert Good(fs.Unlink(PidJson), t, f, req, VerifyQuarantine(r));
  }

  lemma VerifyGood(req: Request, fs: FS, t: Ino, f: PidFile, r: Record, c: Choice)
    requires Good(fs, t, f, req, VerifyQuarantine(r)) && !c.ioError
    ensures var (fs', ph') := Step(req, fs, VerifyQuarantine(r), c);
      fs' == fs && Good(fs', t, f, req, ph') && ph' == CreateTemporary(Completion(r), t)
  {
    assert GoodIntent(fs.At(Intent(OperationId(req))), f, OperationId(req), fs.issued);
    TombstoneLinks(fs, t, f);
    assert fs.names[r.quarantine] == t;
  }

  lemma ConfirmGood(req: Request, fs: FS, t: Ino, f: PidFile, r: Record, c: Choice)
    requires Good(fs, t, f, req, Confirm(r)) && !c.ioError
    ensures Step(req, fs, Confirm(r), c) == (fs, Returned(Complete(OperationId(req))))
    ensures Good(fs, t, f, req, Returned(Complete(OperationId(req))))
  {
    AloneIffOneLink(fs, Complete(OperationId(req)));
  }

  // ---------------------------------------------------------------------
  // Any step
  // ---------------------------------------------------------------------

  /** An I/O error, a leftover of the finally clause, or entering the audit directory. */
  lemma PlainStepGood(req: Request, fs: FS, t: Ino, f: PidFile, ph: Phase, c: Choice)
    requires Good(fs, t, f, req, ph) && Fresh(fs, c)
    requires c.ioError || ph.Final() || ph.MakeDirectory? || ph.AbortTemporary?
    ensures var (fs', ph') := Step(req, fs, ph, c); Good(fs', t, f, req, ph')
  {
    hide Settled, Reserved, MayPublish, Open, Retired, Sound;
    if ph.MakeDirectory? {
      var fs' := fs.(auditDir := true);
      DirectorySound(fs, t, f);
      assert Good(fs', t, f, req, FindIntent) && Good(fs, t, f, req, Failed);
    } else if ph.AbortTemporary? && !c.ioError {
      UnlinkTemporarySound(fs, t, f, ph.tmp);
      assert Good(fs.Unlink(ph.tmp), t, f, req, Failed);
    } else if ph.WriteTemporary? || ph.LinkFinal? || ph.DropTemporary? {
      assert Good(fs, t, f, req, AbortTemporary(ph.tmp));
    } else if !ph.Final() {
      assert Good(fs, t, f, req, Failed);
    }
  }

  lemma DirectorySound(fs: FS, t: Ino, f: PidFile)
    requires Sound(fs, t, f)
    ensures Sound(fs.(auditDir := true), t, f)
  {
    hide *;
    DirectoryNames(fs, t, f);
    FrameSound(fs, fs.(auditDir := true), t, f);
  }

  lemma DirectoryNames(fs: FS, t: Ino, f: PidFile)
    requires Sound(fs, t, f)
    ensures TemporariesOnly(fs, fs.(auditDir := true), t)
  {
    hide IntentsExact, IntentsDistinct, QuarantinesBacked, CompletesSound;
  }

  /** The invariant is inductive. */
  lemma StepGood(req: Request, fs: FS, t: Ino, f: PidFile, ph: Phase, c: Choice)
    requires Good(fs, t, f, req, ph) && Fresh(fs, c)
    ensures var (fs', ph') := Step(req, fs, ph, c); Good(fs', t, f, req, ph')
  {
    hide Sound, Settled, Reserved, MayPublish, OwnTemporary, JustLinked, Open, Retired;
    hide FindIntentStep, ReadIntentStep, FindCompleteStep, ReadCompleteStep, AuthorizeStep;
    hide CreateStep, WriteStep, LinkFinalStep, DropStep, LinkQuarantineStep, RetireStep;
    if c.ioError || ph.Final() {
      PlainStepGood(req, fs, t, f, ph, c);
    } else {
      match ph
      case MakeDirectory => PlainStepGood(req, fs, t, f, ph, c);
      case AbortTemporary(_) => PlainStepGood(req, fs, t, f, ph, c);
      case FindIntent => FindIntentGood(req, fs, t, f, c);
      case ReadIntent(fd) => ReadIntentGood(req, fs, t, f, fd);
      case FindComplete(r, existing) => FindCompleteGood(req, fs, t, f, r, existing);
      case ReadComplete(r, fd) => ReadCompleteGood(req, fs, t, f, r, fd);
      case Authorize(r, existing) => AuthorizeGood(req, fs, t, f, r, existing);
      case CreateTemporary(rec, pid) => CreateGood(req, fs, t, f, rec, pid, c);
      case WriteTemporary(rec, pid, tmp, offset) => WriteGood(req, fs, t, f, rec, pid, tmp, offset, c);
      case LinkFinal(rec, pid, tmp) =>
        if rec.event == ClearanceIntent {
          LinkIntentGood(req, fs, t, f, rec, pid, tmp);
        } else {
          LinkCompleteGood(req, fs, t, f, rec, pid, tmp);
        }
      case DropTemporary(rec, pid, tmp) => DropGood(req, fs, t, f, rec, pid, tmp);
      case LinkQuarantine(r, pid) => LinkQuarantineGood(req, fs, t, f, r, pid);
      case RetirePid(r, pid) => RetireGood(req, fs, t, f, r, pid);
      case VerifyQuarantine(r) => VerifyGood(req, fs, t, f, r, c);
      case Confirm(r) => ConfirmGood(req, fs, t, f, r, c);
    }
  }
}
