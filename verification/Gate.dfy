/** The child half of the launch handshake: it runs the consumer only on exactly "ACK\n". */
module Gate {
  const ACK: string := "ACK\n"
  const READ_SIZE: nat := 16

  datatype Verdict = Waits(ack: string) | Execs | Exits

  predicate EndsLine(s: string) {
    |s| > 0 && s[|s| - 1] == '\n'
  }

  /** One read of the loop: an empty chunk is the end of the channel. */
  function Receive(ack: string, chunk: string): Verdict {
    if chunk == "" then Exits
    else if !EndsLine(ack + chunk) then Waits(ack + chunk)
    else if ack + chunk == ACK then Execs
    else Exits
  }

  /** The verdict after the given reads, the channel ending behind them. */
  function Judge(ack: string, chunks: seq<string>): Verdict
    decreases |chunks|
  {
    if chunks == [] then Exits
    else
      match Receive(ack, chunks[0])
      case Waits(ack') => Judge(ack', chunks[1..])
      case v => v
  }

  function Joined(chunks: seq<string>): string {
    if chunks == [] then "" else chunks[0] + Joined(chunks[1..])
  }

  /** The gate's main loop over the reads the channel will deliver. */
  method RunGate(chunks: seq<string>) returns (runs: bool)
    ensures runs <==> Judge("", chunks) == Execs
  {
    var ack := "";
    var i := 0;
    while !EndsLine(ack)
      invariant 0 <= i <= |chunks|
      invariant EndsLine(ack) ==> (Judge("", chunks) == Execs <==> ack == ACK)
      invariant !EndsLine(ack) ==> Judge("", chunks) == Judge(ack, chunks[i..])
      decreases |chunks| - i, !EndsLine(ack)
    {
      var chunk := if i < |chunks| then chunks[i] else "";
      if chunk == "" {
        return false;
      }
      assert chunks[i..][1..] == chunks[i + 1..];
      ack := ack + chunk;
      i := i + 1;
    }
    return ack == ACK;
  }

  /** The first `n` reads, none of them empty, complete the acknowledgement. */
  ghost predicate Acknowledges(ack: string, chunks: seq<string>, n: nat) {
    0 < n <= |chunks| && ack + Joined(chunks[..n]) == "ACK\n" && forall i :: 0 <= i < n ==> chunks[i] != ""
  }

  /** The first read moved to the front of what is there already. */
  lemma FirstRead(ack: string, chunks: seq<string>, n: nat)
    requires n < |chunks|
    ensures ack + Joined(chunks[..n + 1]) == (ack + chunks[0]) + Joined(chunks[1..][..n])
  {
    assert chunks[..n + 1][0] == chunks[0] && chunks[..n + 1][1..] == chunks[1..][..n];
    assert ack + (chunks[0] + Joined(chunks[1..][..n])) == (ack + chunks[0]) + Joined(chunks[1..][..n]);
  }

  lemma AcknowledgesLater(ack: string, chunks: seq<string>, n: nat)
    requires 0 < n < |chunks|
    ensures Acknowledges(ack, chunks, n + 1) <==> chunks[0] != "" && Acknowledges(ack + chunks[0], chunks[1..], n)
  {
    FirstRead(ack, chunks, n);
    assert forall i :: 0 < i <= n ==> chunks[i] == chunks[1..][i - 1];
    assert forall i :: 0 <= i < n ==> chunks[1..][i] == chunks[i + 1];
    hide Joined;
  }

  lemma AcknowledgesAtOnce(ack: string, chunks: seq<string>)
    requires chunks != []
    ensures Acknowledges(ack, chunks, 1) <==> chunks[0] != "" && ack + chunks[0] == ACK
  {
    FirstRead(ack, chunks, 0);
    assert chunks[1..][..0] == [] && (ack + chunks[0]) + "" == ack + chunks[0];
  }

  /** When it runs the consumer, these reads were its acknowledgement. */
  lemma {:induction false} ExecAcknowledged(ack: string, chunks: seq<string>) returns (n: nat)
    requires !EndsLine(ack) && Judge(ack, chunks) == Execs
    ensures Acknowledges(ack, chunks, n)
    decreases |chunks|
  {
    hide Acknowledges, Joined;
    AcknowledgesAtOnce(ack, chunks);
    if ack + chunks[0] == ACK {
      n := 1;
    } else {
      var rest := ExecAcknowledged(ack + chunks[0], chunks[1..]);
      AcknowledgedWithin(ack + chunks[0], chunks[1..], rest);
      AcknowledgesLater(ack, chunks, rest);
      n := rest + 1;
    }
  }

  lemma AcknowledgedWithin(ack: string, chunks: seq<string>, n: nat)
    requires Acknowledges(ack, chunks, n)
    ensures 0 < n <= |chunks| && chunks[0] != ""
  {
  }

  /** When some reads are its acknowledgement, it runs the consumer. */
  lemma {:induction false} AcknowledgedExecs(ack: string, chunks: seq<string>, n: nat)
    requires !EndsLine(ack) && Acknowledges(ack, chunks, n)
    ensures Judge(ack, chunks) == Execs
    decreases |chunks|
  {
    AcknowledgedWithin(ack, chunks, n);
    hide Acknowledges, Joined;
    AcknowledgesAtOnce(ack, chunks);
    if n == 1 {
      assert EndsLine(ACK);
    } else {
      AcknowledgesLater(ack, chunks, n - 1);
      NoLineInside(ack, chunks, n);
      AcknowledgedExecs(ack + chunks[0], chunks[1..], n - 1);
    }
  }

  /** Before the last of these reads the line is still open. */
  lemma NoLineInside(ack: string, chunks: seq<string>, n: nat)
    requires n > 1 && Acknowledges(ack, chunks, n)
    ensures !EndsLine(ack + chunks[0])
  {
    FirstRead(ack, chunks, n - 1);
    var line, rest := ack + chunks[0], Joined(chunks[1..][..n - 1]);
    JoinedNonEmpty(chunks[1..][..n - 1]);
    if EndsLine(line) {
      LineEndsThere(line, rest);
    }
  }

  lemma JoinedNonEmpty(chunks: seq<string>)
    requires chunks != [] && chunks[0] != ""
    ensures Joined(chunks) != ""
  {
  }

  /**
    Whatever the fragmentation, and whatever else the channel carries, the consumer runs
    exactly when some reads, none of them empty, joined to "ACK\n".
  */
  lemma RunsIffAcknowledged(ack: string, chunks: seq<string>)
    requires !EndsLine(ack)
    ensures Judge(ack, chunks) == Execs <==> exists n: nat :: Acknowledges(ack, chunks, n)
  {
    hide Judge, Acknowledges;
    if Judge(ack, chunks) == Execs {
      var n := ExecAcknowledged(ack, chunks);
    }
    if n: nat :| Acknowledges(ack, chunks, n) {
      AcknowledgedExecs(ack, chunks, n);
    }
  }

  /** "ACK\n" has its only newline at the end. */
  lemma LineEndsThere(line: string, rest: string)
    requires EndsLine(line) && line + rest <= ACK
    ensures line == ACK && rest == ""
  {
    assert ACK[|line| - 1] == (line + rest)[|line| - 1] == '\n';
    assert |line| == |ACK| && line == (line + rest)[..|line|];
  }

  /** When the parent sent a prefix of "ACK\n" before the channel closed, only the whole of it runs the consumer. */
  lemma OnlyWholeAcknowledgement(chunks: seq<string>)
    requires Joined(chunks) <= ACK && forall c :: c in chunks ==> c != ""
    ensures Judge("", chunks) == Execs <==> Joined(chunks) == ACK
  {
    hide Judge, Joined;
    RunsIffAcknowledged("", chunks);
    if Joined(chunks) == ACK {
      WholeAcknowledges(chunks);
    }
    if n: nat :| Acknowledges("", chunks, n) {
      JoinedParts(chunks, n);
      assert "" + Joined(chunks[..n]) == Joined(chunks[..n]);
      PrefixWhole(Joined(chunks[..n]), Joined(chunks[n..]));
    }
  }

  lemma PrefixWhole(a: string, b: string)
    requires a == ACK && a + b <= ACK
    ensures a + b == ACK
  {
    assert |a + b| == |a| + |b|;
  }

  lemma WholeAcknowledges(chunks: seq<string>)
    requires Joined(chunks) == ACK && forall c :: c in chunks ==> c != ""
    ensures Acknowledges("", chunks, |chunks|)
  {
    assert chunks[..|chunks|] == chunks && "" + Joined(chunks) == Joined(chunks);
    assert forall i :: 0 <= i < |chunks| ==> chunks[i] in chunks;
  }

  lemma {:induction false} JoinedParts(chunks: seq<string>, n: nat)
    requires n <= |chunks|
    ensures Joined(chunks) == Joined(chunks[..n]) + Joined(chunks[n..])
  {
    if n > 0 {
      JoinedParts(chunks[1..], n - 1);
      assert chunks[1..][..n - 1] == chunks[..n][1..] && chunks[1..][n - 1..] == chunks[n..];
      assert chunks[0] + (Joined(chunks[..n][1..]) + Joined(chunks[n..])) == (chunks[0] + Joined(chunks[..n][1..])) + Joined(chunks[n..]);
    }
  }
}
