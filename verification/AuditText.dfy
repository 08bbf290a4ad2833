/** The bytes behind the sizes: UTF-8 for the length limits on arguments, and the JSON line of an audit record. */
module AuditText {
  import opened FileSystem
  import opened Clearance

  // ---------------------------------------------------------------------
  // UTF-8
  // ---------------------------------------------------------------------

  /** The UTF-8 encoding of one code point (section 3 of RFC 3629). */
  function Utf8Char(c: char): seq<nat> {
    var n := c as nat;
    if n <= 0x7f then [n]
    else if n <= 0x7ff then [0xc0 + n / 0x40, 0x80 + n % 0x40]
    else if n <= 0xffff then [0xe0 + n / 0x1000, 0x80 + n / 0x40 % 0x40, 0x80 + n % 0x40]
    else [0xf0 + n / 0x4_0000, 0x80 + n / 0x1000 % 0x40, 0x80 + n / 0x40 % 0x40, 0x80 + n % 0x40]
  }

  function Utf8(s: string): seq<nat> {
    if s == "" then [] else Utf8Char(s[0]) + Utf8(s[1..])
  }

  lemma {:induction false} Utf8Length(s: string)
    ensures |Utf8(s)| == Utf8Size(s)
  {
    if s != "" {
      Utf8Length(s[1..]);
    }
  }

  // ---------------------------------------------------------------------
  // JSON, ASCII only
  // ---------------------------------------------------------------------

  function Hex(n: nat): char
    requires n < 16
  {
    "0123456789abcdef"[n]
  }

  /** The escape of one 16-bit unit. */
  function Unit16(n: nat): string
    requires n < 0x1_0000
  {
    "\\u" + [Hex(n / 0x1000), Hex(n / 0x100 % 16), Hex(n / 16 % 16), Hex(n % 16)]
  }

  /** What json.dumps writes for one character: a short escape, itself, or one or two 16-bit units. */
  function JsonChar(c: char): string {
    if c == '"' then "\\\""
    else if c == '\\' then "\\\\"
    else if c == '\n' then "\\n"
    else if c == '\r' then "\\r"
    else if c == '\t' then "\\t"
    else if c == '\U{8}' then "\\b"
    else if c == '\U{c}' then "\\f"
    else if ' ' <= c <= '~' then [c]
    else if c as nat < 0x1_0000 then Unit16(c as nat)
    else
      var n := c as nat - 0x1_0000;
      Unit16(0xd800 + n / 0x400) + Unit16(0xdc00 + n % 0x400)
  }

  function JsonText(s: string): string {
    if s == "" then "" else JsonChar(s[0]) + JsonText(s[1..])
  }

  function Numeral(n: nat): string {
    if n < 10 then ["0123456789"[n]] else Numeral(n / 10) + ["0123456789"[n % 10]]
  }

  function Decimal(n: int): string {
    if n < 0 then "-" + Numeral(-n) else Numeral(n)
  }

  /** The line of an audit record: compact, keys in order, with these hexadecimal forms of its hashes and token. */
  function RecordLine(r: Record, digest: string, operation: string, token: string): string {
    "{\"asserted_workload_fully_gone\":true,\"event\":\"" +
    (if r.event == ClearanceIntent then "legacy_tombstone_clearance_intent" else "legacy_tombstone_clearance_complete") +
    "\",\"generation\":" + Decimal(r.request.generation) +
    ",\"operation_id\":\"" + operation +
    "\",\"operator\":\"" + JsonText(r.request.operator) +
    "\",\"quarantine\":\".legacy-pid." + digest + "." + token + ".quarantine" +
    "\",\"ticket\":\"" + JsonText(r.request.ticket) +
    "\",\"tombstone_sha256\":\"" + digest +
    "\",\"unit\":\"" + JsonText(r.request.unit) +
    "\",\"version\":2}\n"
  }

  lemma {:induction false} JsonLength(s: string)
    ensures |JsonText(s)| == Escaped(s)
  {
    if s != "" {
      JsonLength(s[1..]);
    }
  }

  lemma {:induction false} NumeralLength(n: nat)
    ensures |Numeral(n)| == Digits(n)
  {
    if n >= 10 {
      NumeralLength(n / 10);
    }
  }

  /** The size of a record is the length of its line. */
  lemma LineLength(r: Record, digest: string, operation: string, token: string)
    requires |digest| == 64 && |operation| == 64 && |token| == 32
    ensures |RecordLine(r, digest, operation, token)| == EncodedSize(r)
  {
    NumeralLength(if r.request.generation < 0 then -r.request.generation else r.request.generation);
    JsonLength(r.request.operator);
    JsonLength(r.request.ticket);
    JsonLength(r.request.unit);
    hide Numeral, JsonText, Digits, Escaped;
  }
}
