/**
  A small inode file system: one unit directory and the audit directory inside it.

  A `Name` says by its constructor which of the two directories it lives in, so a
  single map from names to inodes describes both.  Link counts are derived.
*/
module FileSystem {
  import opened Wrappers

  type Ino = nat

  /** What decoding the bytes of a pid.json yields; None stands for absent or of another JSON type. */
  datatype Metadata =
    | Malformed
    | NotAnObject
    | Object(unit: Option<string>, generation: Option<int>, hasToken: bool)

  /** The bytes of a pid.json (one char a byte) with their decoding. */
  datatype PidFile = PidFile(raw: string, meta: Metadata)

  /** SHA-256 as an injective function. */
  datatype Digest = Sha256(file: PidFile)

  /** The arguments of one clearance call. */
  datatype Request = Request(unit: string, generation: int, digest: Digest,
                             operator: string, ticket: string, asserted: bool)

  /** The hash of the canonical request fields, again injective. */
  datatype OperationId = OperationId(request: Request)

  datatype Name =
    | PidJson
    | Quarantine(digest: Digest, token: nat)
    | Intent(op: OperationId)
    | Complete(op: OperationId)
    | Temporary(token: nat)
    | Other(text: string)

  datatype Event = ClearanceIntent | ClearanceComplete

  datatype Record = Record(event: Event, request: Request, operation: OperationId, quarantine: Name)

  /** File contents: a tombstone, a complete audit record, or a prefix of one. */
  datatype Content =
    | Tombstone(file: PidFile)
    | Whole(record: Record)
    | Torn(written: nat)

  /** `issued` holds the uuid4 tokens handed out so far. */
  datatype FS = FS(names: map<Name, Ino>, files: map<Ino, Content>, auditDir: bool, issued: set<nat>)
  {
    /** What a name leads to. */
    function At(n: Name): Option<Content> {
      if n in names && names[n] in files then Some(files[names[n]]) else None
    }

    function Links(i: Ino): set<Name> {
      set n | n in names && names[n] == i
    }

    function LinkCount(i: Ino): nat {
      |Links(i)|
    }

    /** n is the only name of its inode. */
    ghost predicate Alone(n: Name)
      requires n in names
    {
      forall m :: m in names && names[m] == names[n] ==> m == n
    }

    function Unlink(n: Name): FS {
      this.(names := names - {n})
    }

    function Link(n: Name, i: Ino): FS {
      this.(names := names[n := i])
    }

    function Store(i: Ino, c: Content): FS {
      this.(files := files[i := c])
    }
  }

  // ---------------------------------------------------------------------
  // Sizes of audit records: compact JSON with sorted keys, ASCII escapes
  // ---------------------------------------------------------------------

  const AUDIT_LIMIT: nat := 8192
  const TOMBSTONE_LIMIT: nat := 16 * 1024 * 1024
  const HASH_HEX: nat := 64
  const UUID_HEX: nat := 32

  /** Length of the JSON escape of one character. */
  function EscapedChar(c: char): nat {
    if c == '"' || c == '\\' || c == '\n' || c == '\r' || c == '\t' || c == '\U{8}' || c == '\U{c}' then 2
    else if ' ' <= c <= '~' then 1
    else if c as int < 0x1_0000 then 6
    else 12
  }

  function Escaped(s: string): nat {
    if s == "" then 0 else EscapedChar(s[0]) + Escaped(s[1..])
  }

  function Digits(n: nat): nat {
    if n < 10 then 1 else 1 + Digits(n / 10)
  }

  function DecimalSize(n: int): nat {
    if n < 0 then 1 + Digits(-n) else Digits(n)
  }

  function EventText(e: Event): string {
    match e
    case ClearanceIntent => "legacy_tombstone_clearance_intent"
    case ClearanceComplete => "legacy_tombstone_clearance_complete"
  }

  /** The punctuation and keys of a record, with every value left out. */
  const SKELETON: string :=
    "{\"asserted_workload_fully_gone\":true,\"event\":\"\",\"generation\":,\"operation_id\":\"\"," +
    "\"operator\":\"\",\"quarantine\":\".legacy-pid...quarantine\",\"ticket\":\"\"," +
    "\"tombstone_sha256\":\"\",\"unit\":\"\",\"version\":2}\n"

  /** Bytes of everything in an audit record except the event name. */
  function BodySize(r: Request): nat {
    |SKELETON| + DecimalSize(r.generation) + Escaped(r.operator) + Escaped(r.ticket) + Escaped(r.unit)
    + 3 * HASH_HEX + UUID_HEX
  }

  function EncodedSize(r: Record): (n: nat)
    ensures n > 0
  {
    BodySize(r.request) + |EventText(r.event)|
  }

  function Size(c: Content): nat {
    match c
    case Tombstone(file) => |file.raw|
    case Whole(record) => EncodedSize(record)
    case Torn(written) => written
  }

  // ---------------------------------------------------------------------
  // Link counts
  // ---------------------------------------------------------------------

  lemma SingletonCard<T>(s: set<T>, x: T)
    requires x in s
    ensures |s| == 1 <==> s == {x}
  {
    if |s| == 1 {
      assert |s - {x}| == 0;
    }
  }

  lemma PairCard<T>(s: set<T>, x: T, y: T)
    requires x in s && y in s && x != y
    ensures |s| == 2 <==> s == {x, y}
    ensures |s| >= 2
  {
    var rest := s - {x};
    assert |rest| == |s| - 1 && y in rest;
    SingletonCard(rest, y);
    assert s == rest + {x};
    if |s| == 2 {
      assert rest == {y};
    }
  }

  /** A link count of one means the name is the only one. */
  lemma AloneIffOneLink(fs: FS, n: Name)
    requires n in fs.names
    ensures fs.LinkCount(fs.names[n]) == 1 <==> fs.Alone(n)
  {
    var s := fs.Links(fs.names[n]);
    SingletonCard(s, n);
    assert forall m :: m in s <==> m in fs.names && fs.names[m] == fs.names[n];
    if fs.Alone(n) {
      assert s == {n};
    } else {
      var m :| m in fs.names && fs.names[m] == fs.names[n] && m != n;
      assert m in s;
    }
  }
}
