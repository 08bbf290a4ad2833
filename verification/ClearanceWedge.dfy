/** A request for which recovery does not converge, because its completion is two bytes too long. */
module ClearanceWedge {
  import opened Wrappers
  import opened FileSystem
  import opened Text
  import opened Clearance
  import opened ClearanceSafety
  import opened ClearanceProgress
  import opened ClearanceRuns
  import opened ClearanceSystem

  /** A unit name long enough for the intent to fill the audit limit exactly. */
  function LongUnit(): string {
    seq(AUDIT_LIMIT - |EventText(ClearanceIntent)| - |SKELETON| - 3 - 3 * HASH_HEX - UUID_HEX, _ => 'u')
  }

  function LongTombstone(): PidFile {
    PidFile("{\"unit\":\"" + LongUnit() + "\",\"generation\":0}", Object(Some(LongUnit()), Some(0), false))
  }

  function LongRequest(): Request {
    Request(LongUnit(), 0, Sha256(LongTombstone()), "o", "t", true)
  }

  lemma {:induction false} EscapedPlain(s: string)
    requires forall i :: 0 <= i < |s| ==> s[i] == 'u'
    ensures Escaped(s) == Utf8Size(s) == |s|
  {
    if s != "" {
      assert EscapedChar('u') == 1;
      EscapedPlain(s[1..]);
    }
  }

  lemma SkeletonSize()
    ensures |SKELETON| == 191 && |EventText(ClearanceIntent)| == 33 && |EventText(ClearanceComplete)| == 35
  {
  }

  lemma {:induction false} LongUnitValid()
    ensures |LongUnit()| == 7741 && ValidUnit(LongUnit())
  {
    SkeletonSize();
    assert LongUnit()[0] == 'u';
  }

  lemma ShortTextValid()
    ensures !Blank("o") && Utf8Size("o") == 1 && !Blank("t") && Utf8Size("t") == 1
  {
    assert "o"[0] == 'o' && "t"[0] == 't' && !Whitespace('o') && !Whitespace('t');
    assert "o"[1..] == "" && "t"[1..] == "";
  }

  lemma LongRequestValid()
    ensures ValidArguments(LongRequest()) && Authorized(LongTombstone(), LongRequest())
  {
    LongUnitValid();
    ShortTextValid();
    hide LongUnit, ValidUnit, Blank, Utf8Size;
  }

  lemma OneLetter(c: char)
    requires 'a' <= c <= 'z'
    ensures Escaped([c]) == 1
  {
    assert [c][1..] == "";
  }

  lemma LongBodySize()
    ensures BodySize(LongRequest()) == AUDIT_LIMIT - 33
  {
    SkeletonSize();
    LongUnitValid();
    EscapedPlain(LongUnit());
    var o, t: string := "o", "t";
    assert o == ['o'] && t == ['t'];
    OneLetter('o');
    OneLetter('t');
    SumUp(LongUnit(), o, t);
  }

  lemma SumUp(unit: string, o: string, t: string)
    requires Escaped(unit) == 7741 && Escaped(o) == Escaped(t) == 1 && |SKELETON| == 191
    ensures forall digest, b :: BodySize(Request(unit, 0, digest, o, t, b)) == AUDIT_LIMIT - 33
  {
    hide Escaped, SKELETON;
  }

  /** Its intent record takes exactly the limit, its completion two bytes more. */
  lemma LongRequestSizes()
    ensures EncodedSize(IntentRecord(LongRequest(), PidJson)) == AUDIT_LIMIT
    ensures IntentFits(LongRequest()) && !CompletionFits(LongRequest())
  {
    SkeletonSize();
    LongBodySize();
    hide LongRequest, BodySize, EventText;
  }

  lemma LongRequestMayWin(fs: FS, t: Ino)
    requires Untouched(fs, t, LongTombstone())
    ensures Winner(fs, LongTombstone(), LongRequest())
  {
    LongRequestValid();
    LongRequestSizes();
    hide LongRequest, LongTombstone, IntentFits, Authorized;
  }

  /**
    Clearing that tombstone from an untouched directory retires it and fails, and every
    later undisturbed rerun fails too.
  */
  lemma LongRequestWedges(fs: FS, t: Ino, first: seq<Choice>, again: seq<Choice>)
    requires Untouched(fs, t, LongTombstone())
    requires QuietRun(LongRequest(), fs, Begin(LongRequest()), first) && |first| >= BOUND
    requires var fs' := Exec(LongRequest(), fs, Begin(LongRequest()), first).0;
      QuietRun(LongRequest(), fs', Begin(LongRequest()), again) && |again| >= BOUND
    ensures var (fs', ph') := Exec(LongRequest(), fs, Begin(LongRequest()), first);
      && ph' == Failed && PidJson !in fs'.names
      && Exec(LongRequest(), fs', Begin(LongRequest()), again).1 == Failed
  {
    StartSound(fs, t, LongTombstone());
    LongRequestValid();
    LongRequestSizes();
    LongRequestMayWin(fs, t);
    var fs' := Exec(LongRequest(), fs, Begin(LongRequest()), first).0;
    hide Sound, Good, Step, Winner, ValidArguments, IntentFits, CompletionFits, LongUnit, LongRequest, Exec, QuietRun;
    ClearanceOutcome(LongRequest(), fs, t, LongTombstone(), first);
    GoodIsSound(fs', t, LongTombstone(), LongRequest(), Failed);
    ClearanceOutcome(LongRequest(), fs', t, LongTombstone(), again);
  }
}
