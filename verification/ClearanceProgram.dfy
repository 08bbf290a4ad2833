/**
  The clearance as the program that performs it: a directory that system calls change in
  place, and a caller that may be killed before any of them.  Each method is proved to take
  exactly the steps of the machine in `Clearance`.
*/
module ClearanceProgram {
  import opened Wrappers
  import opened FileSystem
  import opened Clearance
  import opened ClearanceSteps
  import ClearanceGate
  import ClearanceRuns

  /** How a piece of the program ended: normally, by an exception, or by the caller's death. */
  datatype Signal = Fine | Raised | Killed

  class UnitDirectory {
    var fs: FS
    var calls: nat
    const choices: seq<Choice>

    /** The environment decides each call by one element of choices; the caller dies when they run out. */
    constructor (fs: FS, choices: seq<Choice>)
      ensures this.fs == fs && this.choices == choices && calls == 0
    {
      this.fs := fs;
      this.choices := choices;
      calls := 0;
    }

    /** Where the machine ends if it goes on from phase ph in the present state. */
    ghost function Future(req: Request, ph: Phase): (FS, Phase)
      requires calls <= |choices|
      reads this
    {
      Exec(req, fs, ph, choices, calls)
    }

    /** The state is that of the machine in phase ph, and s says whether the program stopped there. */
    ghost predicate Stopped(s: Signal, ph: Phase)
      reads this
    {
      && calls <= |choices|
      && (s.Killed? ==> calls == |choices|)
      && (s.Raised? ==> ph == Failed)
    }

    method AbortTemporary(ghost req: Request, tmp: Name) returns (s: Signal, ghost ph: Phase)
      requires calls <= |choices|
      modifies this
      ensures Stopped(s, ph) && Future(req, ph) == old(Future(req, Phase.AbortTemporary(tmp)))
      ensures !s.Fine?
    {
      if calls == |choices| {
        return Killed, Phase.AbortTemporary(tmp);
      }
      var c := choices[calls];
      calls := calls + 1;
      if !c.ioError {
        fs := fs.Unlink(tmp);
      }
      return Raised, Failed;
    }

    /** The write loop: whatever each write transfers, the whole record ends up in the file. */
    method WriteAll(ghost req: Request, record: Record, ghost pid: Ino, tmp: Name) returns (s: Signal, ghost ph: Phase)
      requires calls <= |choices| && tmp in fs.names
      modifies this
      ensures Stopped(s, ph) && Future(req, ph) == old(Future(req, WriteTemporary(record, pid, tmp, 0)))
      ensures s.Fine? ==> ph == LinkFinal(record, pid, tmp) && tmp in fs.names
    {
      hide EncodedSize;
      var size := EncodedSize(record);
      var offset := 0;
      while offset < size
        invariant 0 <= offset <= size == EncodedSize(record) && calls <= |choices| && tmp in fs.names
        invariant Future(req, if offset < size then WriteTemporary(record, pid, tmp, offset) else LinkFinal(record, pid, tmp))
          == old(Future(req, WriteTemporary(record, pid, tmp, 0)))
      {
        if calls == |choices| {
          return Killed, WriteTemporary(record, pid, tmp, offset);
        }
        var c := choices[calls];
        calls := calls + 1;
        if c.ioError || c.chunk == 0 {
          s, ph := AbortTemporary(req, tmp);
          return;
        }
        offset := if offset + c.chunk >= size then size else offset + c.chunk;
        fs := fs.Store(fs.names[tmp], if offset == size then Whole(record) else Torn(offset));
      }
      return Fine, LinkFinal(record, pid, tmp);
    }

    /** Linking the final name without replacing, then dropping the temporary. */
    method PublishTemporary(ghost req: Request, record: Record, ghost pid: Ino, tmp: Name)
      returns (s: Signal, ghost ph: Phase)
      requires calls <= |choices| && tmp in fs.names
      modifies this
      ensures Stopped(s, ph) && Future(req, ph) == old(Future(req, LinkFinal(record, pid, tmp)))
      ensures s.Fine? ==> ph == AfterPublication(record, pid)
    {
      hide FinalName;
      if calls == |choices| {
        return Killed, LinkFinal(record, pid, tmp);
      }
      var c := choices[calls];
      calls := calls + 1;
      if c.ioError || FinalName(record) in fs.names {
        s, ph := AbortTemporary(req, tmp);
        return;
      }
      fs := fs.Link(FinalName(record), fs.names[tmp]);
      assert Future(req, DropTemporary(record, pid, tmp)) == old(Future(req, LinkFinal(record, pid, tmp)));
      if calls == |choices| {
        return Killed, DropTemporary(record, pid, tmp);
      }
      c := choices[calls];
      calls := calls + 1;
      if c.ioError || fs.names[FinalName(record)] != fs.names[tmp] {
        s, ph := AbortTemporary(req, tmp);
        return;
      }
      fs := fs.Unlink(tmp);
      return Fine, AfterPublication(record, pid);
    }

    ghost function AfterPublication(record: Record, pid: Ino): Phase {
      if record.event == ClearanceIntent then Phase.LinkQuarantine(record, pid)
      else Confirm(record.(event := ClearanceIntent))
    }

    method AtomicPrivateJson(ghost req: Request, record: Record, ghost pid: Ino) returns (s: Signal, ghost ph: Phase)
      requires calls <= |choices|
      modifies this
      ensures Stopped(s, ph) && Future(req, ph) == old(Future(req, CreateTemporary(record, pid)))
      ensures s.Fine? ==> ph == AfterPublication(record, pid)
    {
      hide EncodedSize;
      if calls == |choices| {
        return Killed, CreateTemporary(record, pid);
      }
      var c := choices[calls];
      calls := calls + 1;
      if c.ioError || EncodedSize(record) > AUDIT_LIMIT {
        return Raised, Failed;
      }
      var tmp := Temporary(c.token);
      fs := fs.Store(c.ino, Torn(0)).Link(tmp, c.ino).(issued := fs.issued + {c.token});
      s, ph := WriteAll(req, record, pid, tmp);
      if s.Fine? {
        s, ph := PublishTemporary(req, record, pid, tmp);
      }
    }

    /**
      Opening a published record: it opens exactly when its name is alone on the inode or shares it
      with one temporary, which is swept, and then the name has a single link.
    */
    method OpenAudit(n: Name) returns (fd: Option<Ino>)
      requires n in fs.names && (n.Intent? || n.Complete?)
      modifies this`fs
      ensures fd.Some? <==> old(fs).Alone(n) || LeftoverLink(old(fs), n)
      ensures fd.Some? ==> OnlySwept(old(fs), fs, fd.value) && n in fs.names && fs.names[n] == fd.value && fs.LinkCount(fd.value) == 1
      ensures fd.None? ==> fs == old(fs)
      ensures match Recover(old(fs), old(fs.names[n]))
        case Some(fs') => fs == fs' && fd == Some(old(fs.names[n]))
        case None => fs == old(fs) && fd == None
    {
      var i := fs.names[n];
      RecoverExact(fs, n);
      hide FS.LinkCount, FS.Alone, LeftoverLink;
      if fs.LinkCount(i) != 1 && fs.LinkCount(i) != 2 {
        return None;
      }
      if fs.LinkCount(i) == 2 {
        var candidates := Temporaries(fs, i);
        if |candidates| != 1 {
          return None;
        }
        var swept := fs.(names := fs.names - candidates);
        if swept.LinkCount(i) != 1 {
          return None;
        }
        fs := swept;
      }
      return Some(i);
    }

    /** The intent of this request: the published one, or a new one with a fresh quarantine name. */
    method FindIntent(req: Request)
      returns (s: Signal, intent: Option<Record>, existing: bool, ghost ph: Phase)
      requires calls <= |choices|
      modifies this
      ensures Stopped(s, ph) && Future(req, ph) == old(Future(req, Phase.FindIntent))
      ensures s.Fine? ==> intent.Some? && ph == Phase.FindComplete(intent.value, existing)
      ensures s.Fine? ==> intent.value.event == ClearanceIntent && intent.value.quarantine.Quarantine?
    {
      hide FindCompleteStep, ReadCompleteStep, AuthorizeStep, CreateStep, WriteStep, LinkFinalStep, DropStep,
           LinkQuarantineStep, RetireStep, Recover;
      intent, existing := None, false;
      if calls == |choices| {
        s, ph := Killed, Phase.FindIntent;
        return;
      }
      var c := choices[calls];
      calls := calls + 1;
      if c.ioError {
        s, ph := Raised, Failed;
        return;
      }
      var n := Intent(OperationId(req));
      if n !in fs.names {
        fs := fs.(issued := fs.issued + {c.token});
        intent := Some(IntentRecord(req, Quarantine(req.digest, c.token)));
        s, ph := Fine, Phase.FindComplete(intent.value, false);
        return;
      }
      var fd := OpenAudit(n);
      if fd.None? {
        s, ph := Raised, Failed;
        return;
      }
      assert Future(req, ReadIntent(fd.value)) == old(Future(req, Phase.FindIntent));
      if calls == |choices| {
        s, ph := Killed, ReadIntent(fd.value);
        return;
      }
      c := choices[calls];
      calls := calls + 1;
      intent := ReadAudit(fs, fd.value);
      if c.ioError || intent.None? || intent.value != IntentRecord(req, intent.value.quarantine)
         || !intent.value.quarantine.Quarantine? {
        s, ph := Raised, Failed;
        return;
      }
      existing := true;
      s, ph := Fine, Phase.FindComplete(intent.value, true);
    }

    /** An exact completion ends the call at once, when its claims hold. */
    method FindCompletion(req: Request, intent: Record, existing: bool)
      returns (s: Signal, path: Option<Name>, ghost ph: Phase)
      requires calls <= |choices|
      modifies this
      ensures Stopped(s, ph) && Future(req, ph) == old(Future(req, Phase.FindComplete(intent, existing)))
      ensures s.Fine? ==> ph == match path case Some(p) => Returned(p) case None => Phase.Authorize(intent, existing)
    {
      hide FindIntentStep, ReadIntentStep, AuthorizeStep, CreateStep, WriteStep, LinkFinalStep, DropStep,
           LinkQuarantineStep, RetireStep, Recover, PrivateQuarantine, ReadAudit;
      path := None;
      if calls == |choices| {
        s, ph := Killed, Phase.FindComplete(intent, existing);
        return;
      }
      var c := choices[calls];
      calls := calls + 1;
      if c.ioError {
        s, ph := Raised, Failed;
        return;
      }
      var n := Complete(intent.operation);
      if n !in fs.names {
        s, ph := Fine, Phase.Authorize(intent, existing);
        return;
      }
      var fd := OpenAudit(n);
      if fd.None? {
        s, ph := Raised, Failed;
        return;
      }
      assert Future(req, ReadComplete(intent, fd.value)) == old(Future(req, Phase.FindComplete(intent, existing)));
      if calls == |choices| {
        s, ph := Killed, ReadComplete(intent, fd.value);
        return;
      }
      c := choices[calls];
      calls := calls + 1;
      if c.ioError || ReadAudit(fs, fd.value) != Some(Completion(intent)) || PidJson in fs.names
         || !PrivateQuarantine(fs, intent.quarantine, req.digest) {
        s, ph := Raised, Failed;
        return;
      }
      path := Some(n);
      s, ph := Fine, Returned(n);
    }

    /** Quarantine link, the last check of both names, and the unlink of pid.json. */
    method RetireTombstone(ghost req: Request, intent: Record, pid: Ino) returns (s: Signal, ghost ph: Phase)
      requires calls <= |choices|
      modifies this
      ensures Stopped(s, ph) && Future(req, ph) == old(Future(req, Phase.LinkQuarantine(intent, pid)))
      ensures s.Fine? ==> ph == VerifyQuarantine(intent)
    {
      hide FindIntentStep, ReadIntentStep, AuthorizeStep, CreateStep, WriteStep, LinkFinalStep, DropStep,
           FindCompleteStep, ReadCompleteStep, Recover;
      var q := intent.quarantine;
      if calls == |choices| {
        return Killed, Phase.LinkQuarantine(intent, pid);
      }
      var c := choices[calls];
      calls := calls + 1;
      if c.ioError || (q !in fs.names && PidJson !in fs.names) || (q in fs.names && fs.names[q] != pid) {
        return Raised, Failed;
      }
      if q !in fs.names {
        fs := fs.Link(q, fs.names[PidJson]);
      }
      assert Future(req, RetirePid(intent, pid)) == old(Future(req, Phase.LinkQuarantine(intent, pid)));
      if calls == |choices| {
        return Killed, RetirePid(intent, pid);
      }
      c := choices[calls];
      calls := calls + 1;
      if c.ioError || fs.LinkCount(fs.names[q]) !in {1, 2} || fs.names[q] != pid
         || PidJson !in fs.names || fs.names[PidJson] != pid {
        return Raised, Failed;
      }
      fs := fs.Unlink(PidJson);
      return Fine, VerifyQuarantine(intent);
    }

    /** Checking the retired quarantine, publishing the completion and confirming it. */
    method FinishClearance(req: Request, intent: Record) returns (s: Signal, path: Option<Name>, ghost ph: Phase)
      requires calls <= |choices| && intent.event == ClearanceIntent
      modifies this
      ensures Stopped(s, ph) && Future(req, ph) == old(Future(req, VerifyQuarantine(intent)))
      ensures s.Fine? ==> path.Some? && ph == Returned(path.value)
    {
      hide FindIntentStep, ReadIntentStep, AuthorizeStep, CreateStep, WriteStep, LinkFinalStep, DropStep,
           FindCompleteStep, ReadCompleteStep, Recover, LinkQuarantineStep, RetireStep, Holds;
      path := None;
      if calls == |choices| {
        s, ph := Killed, VerifyQuarantine(intent);
        return;
      }
      var c := choices[calls];
      calls := calls + 1;
      if c.ioError || !PrivateQuarantine(fs, intent.quarantine, req.digest) {
        s, ph := Raised, Failed;
        return;
      }
      ghost var pid := fs.names[intent.quarantine];
      assert Future(req, CreateTemporary(Completion(intent), pid)) == old(Future(req, VerifyQuarantine(intent)));
      s, ph := AtomicPrivateJson(req, Completion(intent), pid);
      if !s.Fine? {
        return;
      }
      assert Future(req, Confirm(intent)) == old(Future(req, VerifyQuarantine(intent)));
      if calls == |choices| {
        s := Killed;
        return;
      }
      c := choices[calls];
      calls := calls + 1;
      var done := Complete(intent.operation);
      if c.ioError || PidJson in fs.names || done !in fs.names || fs.LinkCount(fs.names[done]) != 1 {
        s, ph := Raised, Failed;
        return;
      }
      path := Some(done);
      s, ph := Fine, Returned(done);
    }

    /**
      From the checks on pid.json to its retirement, by whichever of the three ways is left.  Unless the
      file there is a tombstone without a token, of the unit and generation asked for, with the digest and
      no link but its own, nothing is written.
    */
    method AuthorizeAndRetire(req: Request, intent: Record, existing: bool) returns (s: Signal, ghost ph: Phase)
      requires calls <= |choices| && intent.event == ClearanceIntent && intent.quarantine.Quarantine?
      modifies this
      ensures PidJson in old(fs).names && !Admitted(old(fs), req, intent.quarantine, existing) ==> fs == old(fs) && !s.Fine?
      ensures Stopped(s, ph) && Future(req, ph) == old(Future(req, Phase.Authorize(intent, existing)))
      ensures s.Fine? ==> ph == VerifyQuarantine(intent)
    {
      ClearanceGate.AuthorizeExactly(req, fs, intent, existing);
      hide FindIntentStep, ReadIntentStep, CreateStep, WriteStep, LinkFinalStep, DropStep,
           FindCompleteStep, ReadCompleteStep, Recover, LinkQuarantineStep, RetireStep, PrivateQuarantine, Clearable;
      if calls == |choices| {
        return Killed, Phase.Authorize(intent, existing);
      }
      var c := choices[calls];
      calls := calls + 1;
      if c.ioError {
        return Raised, Failed;
      }
      if PidJson !in fs.names {
        if !existing || !PrivateQuarantine(fs, intent.quarantine, req.digest) {
          return Raised, Failed;
        }
        return Fine, VerifyQuarantine(intent);
      }
      var pid := fs.names[PidJson];
      if !Clearable(fs, pid, req, intent.quarantine, existing) {
        return Raised, Failed;
      }
      if !existing {
        assert Future(req, CreateTemporary(intent, pid)) == old(Future(req, Phase.Authorize(intent, existing)));
        s, ph := AtomicPrivateJson(req, intent, pid);
        if !s.Fine? {
          return;
        }
      }
      assert Future(req, Phase.LinkQuarantine(intent, pid)) == old(Future(req, Phase.Authorize(intent, existing)));
      s, ph := RetireTombstone(req, intent, pid);
    }

    /**
      The whole call under the unit lock.  It leaves the directory and stops exactly where the
      machine does: at the completion path, in failure, or where its caller was killed.  Arguments it
      should not have been given raise before anything is done.
    */
    method ClearLegacyProcessTombstone(req: Request) returns (s: Signal, path: Option<Name>, ghost ph: Phase)
      requires calls == 0
      modifies this
      ensures (fs, ph) == Exec(req, old(fs), Begin(req), choices)
      ensures s.Fine? ==> path.Some? && ph == Returned(path.value)
      ensures s.Raised? ==> ph == Failed
      ensures s.Killed? ==> calls == |choices|
      ensures !ClearanceGate.Asked(req) ==> s.Raised? && fs == old(fs)
    {
      hide Step, ClearanceGate.Asked;
      ClearanceGate.AskedIsValid(req);
      path := None;
      if !ValidArguments(req) {
        s, ph := Raised, Failed;
        ClearanceRuns.FinalStays(req, fs, ph, choices, calls);
        return;
      }
      s, path, ph := ClearLocked(req);
      if !s.Killed? {
        ClearanceRuns.FinalStays(req, fs, ph, choices, calls);
      }
    }

    method ClearLocked(req: Request) returns (s: Signal, path: Option<Name>, ghost ph: Phase)
      requires calls <= |choices|
      modifies this
      ensures Stopped(s, ph) && Future(req, ph) == old(Future(req, MakeDirectory))
      ensures s.Fine? ==> path.Some? && ph == Returned(path.value)
    {
      path := None;
      s, ph := MakeAuditDirectory(req);
      if !s.Fine? {
        return;
      }
      hide Step, Exec;
      var intent, existing;
      s, intent, existing, ph := FindIntent(req);
      if !s.Fine? {
        return;
      }
      s, path, ph := FindCompletion(req, intent.value, existing);
      if !s.Fine? || path.Some? {
        return;
      }
      s, ph := AuthorizeAndRetire(req, intent.value, existing);
      if !s.Fine? {
        return;
      }
      s, path, ph := FinishClearance(req, intent.value);
    }

    method MakeAuditDirectory(ghost req: Request) returns (s: Signal, ghost ph: Phase)
      requires calls <= |choices|
      modifies this
      ensures Stopped(s, ph) && Future(req, ph) == old(Future(req, MakeDirectory))
      ensures s.Fine? ==> ph == Phase.FindIntent
    {
      if calls == |choices| {
        return Killed, MakeDirectory;
      }
      var c := choices[calls];
      calls := calls + 1;
      if c.ioError {
        return Raised, Failed;
      }
      fs := fs.(auditDir := true);
      return Fine, Phase.FindIntent;
    }
  }

  /** pid.json is the tombstone the request names, and nothing but itself and the intent's own quarantine leads to it. */
  ghost predicate Admitted(fs: FS, req: Request, q: Name, existing: bool)
    requires PidJson in fs.names
  {
    var pid := fs.names[PidJson];
    && (fs.Links(pid) == {PidJson} || (existing && fs.Links(pid) == {PidJson, q}))
    && pid in fs.files && fs.files[pid].Tombstone?
    && var f := fs.files[pid].file;
       && f.meta.Object? && !f.meta.hasToken
       && f.meta.unit == Some(req.unit) && f.meta.generation == Some(req.generation)
       && Sha256(f) == req.digest && |f.raw| <= 16777216
  }
}
