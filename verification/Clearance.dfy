/**
  The legacy tombstone clearance as a machine over system calls.

  A `Step` is at most one system call that changes the file system, together with the
  observations the code makes since the previous one.  All steps are taken while holding
  the unit lock, so a crash between two observations leaves what a crash before both leaves.
*/
module Clearance {
  import opened Wrappers
  import opened FileSystem
  import opened Text

  /** Where one holder of the unit lock stands, with the local variables still in use. */
  datatype Phase =
    | MakeDirectory
    | FindIntent
    | ReadIntent(fd: Ino)
    | FindComplete(intent: Record, existing: bool)
    | ReadComplete(intent: Record, fd: Ino)
    | Authorize(intent: Record, existing: bool)
    | CreateTemporary(record: Record, pid: Ino)
    | WriteTemporary(record: Record, pid: Ino, tmp: Name, offset: nat)
    | LinkFinal(record: Record, pid: Ino, tmp: Name)
    | DropTemporary(record: Record, pid: Ino, tmp: Name)
    | AbortTemporary(tmp: Name)
    | LinkQuarantine(intent: Record, pid: Ino)
    | RetirePid(intent: Record, pid: Ino)
    | VerifyQuarantine(intent: Record)
    | Confirm(intent: Record)
    | Returned(path: Name)
    | Failed
  {
    predicate Final() { Returned? || Failed? }
  }

  /** What the environment decides in one step: an I/O error, a fresh uuid4 token, a fresh
      inode number, and how many bytes a write transfers. */
  datatype Choice = Choice(ioError: bool, token: nat, ino: Ino, chunk: nat)

  ghost predicate Fresh(fs: FS, c: Choice) {
    c.token !in fs.issued && c.ino !in fs.files
  }

  /** Fresh, no I/O error, and every write makes progress. */
  ghost predicate Quiet(fs: FS, c: Choice) {
    Fresh(fs, c) && !c.ioError && c.chunk > 0
  }

  // ---------------------------------------------------------------------
  // Argument checks and records
  // ---------------------------------------------------------------------

  function Utf8Size(s: string): nat {
    if s == "" then 0
    else (if s[0] as int < 0x80 then 1 else if s[0] as int < 0x800 then 2
          else if s[0] as int < 0x1_0000 then 3 else 4) + Utf8Size(s[1..])
  }

  predicate ValidUnit(s: string) {
    s != "" && s != "." && s != ".." && '/' !in s && '\0' !in s
  }

  predicate ValidArguments(r: Request) {
    && ValidUnit(r.unit)
    && r.asserted
    && !Blank(r.operator) && Utf8Size(r.operator) <= 256
    && !Blank(r.ticket) && Utf8Size(r.ticket) <= 512
  }

  function Begin(r: Request): Phase {
    if ValidArguments(r) then MakeDirectory else Failed
  }

  function IntentRecord(r: Request, quarantine: Name): Record {
    Record(ClearanceIntent, r, OperationId(r), quarantine)
  }

  function Completion(intent: Record): Record {
    intent.(event := ClearanceComplete)
  }

  function FinalName(r: Record): Name {
    if r.event == ClearanceIntent then Intent(r.operation) else Complete(r.operation)
  }

  // ---------------------------------------------------------------------
  // Checks on single files
  // ---------------------------------------------------------------------

  predicate Holds(fs: FS, i: Ino, d: Digest) {
    && i in fs.files
    && Size(fs.files[i]) <= TOMBSTONE_LIMIT
    && fs.files[i].Tombstone?
    && Sha256(fs.files[i].file) == d
  }

  /** The named quarantine is there, has one link and the requested digest. */
  predicate PrivateQuarantine(fs: FS, q: Name, d: Digest) {
    && q in fs.names
    && fs.LinkCount(fs.names[q]) == 1
    && Holds(fs, fs.names[q], d)
  }

  /** Tokenless metadata of exactly the requested unit and generation. */
  predicate ExactLegacy(f: PidFile, r: Request) {
    && f.meta.Object?
    && !f.meta.hasToken
    && f.meta.unit == Some(r.unit)
    && f.meta.generation == Some(r.generation)
  }

  /** The checks on an opened pid.json before anything is written. */
  predicate Clearable(fs: FS, pid: Ino, r: Request, q: Name, existing: bool) {
    && Holds(fs, pid, r.digest)
    && (fs.LinkCount(pid) == 1 || (existing && fs.LinkCount(pid) == 2))
    && (fs.LinkCount(pid) == 2 ==> q in fs.names && fs.names[q] == pid)
    && ExactLegacy(fs.files[pid].file, r)
  }

  /** Reading an audit record: None when it is torn, foreign or too large. */
  function ReadAudit(fs: FS, i: Ino): Option<Record> {
    if i in fs.files && fs.files[i].Whole? && Size(fs.files[i]) <= AUDIT_LIMIT
    then Some(fs.files[i].record) else None
  }

  function Temporaries(fs: FS, i: Ino): set<Name> {
    set n | n in fs.names && n.Temporary? && fs.names[n] == i
  }

  /** Opening a published record: a leftover temporary link is removed, anything else refused. */
  function Recover(fs: FS, i: Ino): Option<FS> {
    if fs.LinkCount(i) == 1 then Some(fs)
    else if fs.LinkCount(i) != 2 || |Temporaries(fs, i)| != 1 then None
    else
      var fs' := fs.(names := fs.names - Temporaries(fs, i));
      if fs'.LinkCount(i) == 1 then Some(fs') else None
  }

  // ---------------------------------------------------------------------
  // The steps
  // ---------------------------------------------------------------------

  function Step(req: Request, fs: FS, ph: Phase, c: Choice): (FS, Phase) {
    if ph.Final() then (fs, ph)
    else if c.ioError then
      match ph
      case WriteTemporary(_, _, tmp, _) => (fs, AbortTemporary(tmp))
      case LinkFinal(_, _, tmp) => (fs, AbortTemporary(tmp))
      case DropTemporary(_, _, tmp) => (fs, AbortTemporary(tmp))
      case _ => (fs, Failed)
    else
      match ph
      case MakeDirectory => (fs.(auditDir := true), FindIntent)
      case FindIntent => FindIntentStep(req, fs, c)
      case ReadIntent(fd) => (fs, ReadIntentStep(req, fs, fd))
      case FindComplete(intent, existing) => FindCompleteStep(fs, intent, existing)
      case ReadComplete(intent, fd) => (fs, ReadCompleteStep(req, fs, intent, fd))
      case Authorize(intent, existing) => (fs, AuthorizeStep(req, fs, intent, existing))
      case CreateTemporary(record, pid) => CreateStep(fs, record, pid, c)
      case WriteTemporary(record, pid, tmp, offset) => WriteStep(fs, record, pid, tmp, offset, c)
      case LinkFinal(record, pid, tmp) => LinkFinalStep(fs, record, pid, tmp)
      case DropTemporary(record, pid, tmp) => DropStep(fs, record, pid, tmp)
      case AbortTemporary(tmp) => (fs.Unlink(tmp), Failed)
      case LinkQuarantine(intent, pid) => LinkQuarantineStep(fs, intent, pid)
      case RetirePid(intent, pid) => RetireStep(fs, intent, pid)
      case VerifyQuarantine(intent) =>
        (fs, if PrivateQuarantine(fs, intent.quarantine, req.digest)
             then CreateTemporary(Completion(intent), fs.names[intent.quarantine]) else Failed)
      case Confirm(intent) =>
        var done := Complete(intent.operation);
        (fs, if PidJson !in fs.names && done in fs.names && fs.LinkCount(fs.names[done]) == 1
             then Returned(done) else Failed)
  }

  function FindIntentStep(req: Request, fs: FS, c: Choice): (FS, Phase) {
    var n := Intent(OperationId(req));
    if n !in fs.names then
      (fs.(issued := fs.issued + {c.token}),
       FindComplete(IntentRecord(req, Quarantine(req.digest, c.token)), false))
    else
      match Recover(fs, fs.names[n])
      case None => (fs, Failed)
      case Some(fs') => (fs', ReadIntent(fs.names[n]))
  }

  function ReadIntentStep(req: Request, fs: FS, fd: Ino): Phase {
    match ReadAudit(fs, fd)
    case None => Failed
    case Some(r) =>
      if r == IntentRecord(req, r.quarantine) && r.quarantine.Quarantine?
      then FindComplete(r, true) else Failed
  }

  function FindCompleteStep(fs: FS, intent: Record, existing: bool): (FS, Phase) {
    var n := Complete(intent.operation);
    if n !in fs.names then (fs, Authorize(intent, existing))
    else
      match Recover(fs, fs.names[n])
      case None => (fs, Failed)
      case Some(fs') => (fs', ReadComplete(intent, fs.names[n]))
  }

  function ReadCompleteStep(req: Request, fs: FS, intent: Record, fd: Ino): Phase {
    if && ReadAudit(fs, fd) == Some(Completion(intent))
       && PidJson !in fs.names
       && PrivateQuarantine(fs, intent.quarantine, req.digest)
    then Returned(Complete(intent.operation)) else Failed
  }

  function AuthorizeStep(req: Request, fs: FS, intent: Record, existing: bool): Phase {
    if PidJson !in fs.names then
      if existing && PrivateQuarantine(fs, intent.quarantine, req.digest)
      then VerifyQuarantine(intent) else Failed
    else
      var pid := fs.names[PidJson];
      if !Clearable(fs, pid, req, intent.quarantine, existing) then Failed
      else if existing then LinkQuarantine(intent, pid)
      else CreateTemporary(intent, pid)
  }

  function CreateStep(fs: FS, record: Record, pid: Ino, c: Choice): (FS, Phase) {
    if EncodedSize(record) > AUDIT_LIMIT then (fs, Failed)
    else
      var tmp := Temporary(c.token);
      (fs.Store(c.ino, Torn(0)).Link(tmp, c.ino).(issued := fs.issued + {c.token}),
       WriteTemporary(record, pid, tmp, 0))
  }

  function WriteStep(fs: FS, record: Record, pid: Ino, tmp: Name, offset: nat, c: Choice): (FS, Phase) {
    if c.chunk == 0 || tmp !in fs.names then (fs, AbortTemporary(tmp))
    else if offset + c.chunk >= EncodedSize(record) then
      (fs.Store(fs.names[tmp], Whole(record)), LinkFinal(record, pid, tmp))
    else
      (fs.Store(fs.names[tmp], Torn(offset + c.chunk)), WriteTemporary(record, pid, tmp, offset + c.chunk))
  }

  function LinkFinalStep(fs: FS, record: Record, pid: Ino, tmp: Name): (FS, Phase) {
    if tmp !in fs.names || FinalName(record) in fs.names then (fs, AbortTemporary(tmp))
    else (fs.Link(FinalName(record), fs.names[tmp]), DropTemporary(record, pid, tmp))
  }

  function DropStep(fs: FS, record: Record, pid: Ino, tmp: Name): (FS, Phase) {
    if && tmp in fs.names && FinalName(record) in fs.names
       && fs.names[FinalName(record)] == fs.names[tmp]
    then (fs.Unlink(tmp),
          if record.event == ClearanceIntent then LinkQuarantine(record, pid) else Confirm(record.(event := ClearanceIntent)))
    else (fs, AbortTemporary(tmp))
  }

  function LinkQuarantineStep(fs: FS, intent: Record, pid: Ino): (FS, Phase) {
    if intent.quarantine !in fs.names && PidJson in fs.names then
      (fs.Link(intent.quarantine, fs.names[PidJson]), RetirePid(intent, pid))
    else if intent.quarantine in fs.names && fs.names[intent.quarantine] == pid then
      (fs, RetirePid(intent, pid))
    else (fs, Failed)
  }

  function RetireStep(fs: FS, intent: Record, pid: Ino): (FS, Phase) {
    var q := intent.quarantine;
    if && q in fs.names && fs.LinkCount(fs.names[q]) in {1, 2}
       && fs.names[q] == pid
       && PidJson in fs.names && fs.names[PidJson] == pid
    then (fs.Unlink(PidJson), VerifyQuarantine(intent))
    else (fs, Failed)
  }

  /** The steps taken under choices[k..], with no other holder of the lock in between. */
  function Exec(req: Request, fs: FS, ph: Phase, choices: seq<Choice>, k: nat := 0): (FS, Phase)
    requires k <= |choices|
    decreases |choices| - k
  {
    if k == |choices| then (fs, ph)
    else
      var (fs', ph') := Step(req, fs, ph, choices[k]);
      Exec(req, fs', ph', choices, k + 1)
  }

  /** Every choice of the run is fresh in the state it meets. */
  ghost predicate FreshRun(req: Request, fs: FS, ph: Phase, choices: seq<Choice>, k: nat := 0)
    requires k <= |choices|
    decreases |choices| - k
  {
    k < |choices| ==>
      && Fresh(fs, choices[k])
      && var (fs', ph') := Step(req, fs, ph, choices[k]); FreshRun(req, fs', ph', choices, k + 1)
  }

  /** As FreshRun, and nothing disturbs the run. */
  ghost predicate QuietRun(req: Request, fs: FS, ph: Phase, choices: seq<Choice>, k: nat := 0)
    requires k <= |choices|
    decreases |choices| - k
  {
    k < |choices| ==>
      && Quiet(fs, choices[k])
      && var (fs', ph') := Step(req, fs, ph, choices[k]); QuietRun(req, fs', ph', choices, k + 1)
  }
}
