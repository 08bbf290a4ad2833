/** The trace of the continuous loop against what the consumer said: which turns it takes, what it does for each, and where it ends. */
module ContinuousTrace {
  import opened Wrappers
  import opened Continuous

  // ---------------------------------------------------------------------
  // What a trace shows by itself
  // ---------------------------------------------------------------------

  /** Where the wait for the directive at `i` belongs: right after it, or after the rotation it asks for. */
  function WaitPlace(trace: seq<Event>, i: nat): nat
    requires i < |trace| && trace[i].Directed?
  {
    if trace[i].d.rotate then i + 2 else i + 1
  }

  ghost predicate HeededAt(trace: seq<Event>, i: nat)
    requires i < |trace|
  {
    trace[i].Directed? ==>
      && (trace[i].d.rotate ==> i + 1 < |trace| && trace[i + 1] == Rotated(false))
      && (trace[i].d.action.Wait? ==>
           && WaitPlace(trace, i) < |trace|
           && trace[WaitPlace(trace, i)] == Waited(if trace[i].d.delay.Some? then trace[i].d.delay.value else 0.0))
  }

  /** A directive to rotate is followed by the rotation, and one to wait by its wait, after the rotation if any. */
  ghost predicate Heeded(trace: seq<Event>) {
    forall i :: 0 <= i < |trace| ==> HeededAt(trace, i)
  }

  ghost predicate PromptedAt(trace: seq<Event>, j: nat)
    requires j < |trace|
  {
    && (trace[j] == Rotated(false) ==> j > 0 && trace[j - 1].Directed? && trace[j - 1].d.rotate)
    && (trace[j].Waited? ==> j > 0 && (WaitedFor(trace, j, j - 1) || (j > 1 && WaitedFor(trace, j, j - 2))))
  }

  ghost predicate WaitedFor(trace: seq<Event>, j: nat, i: nat)
    requires i < j < |trace|
  {
    trace[i].Directed? && trace[i].d.action.Wait? && WaitPlace(trace, i) == j
  }

  /** No rotation but for the limit, and no wait, that a directive did not ask for. */
  ghost predicate Prompted(trace: seq<Event>) {
    forall j :: 0 <= j < |trace| ==> PromptedAt(trace, j)
  }

  /** Nothing is called or said after a stop. */
  ghost predicate StopIsLast(trace: seq<Event>) {
    forall i, j :: 0 <= i < j < |trace| && trace[i].Directed? && trace[i].d.action.Stop? ==>
      !trace[j].Called? && !trace[j].Directed?
  }

  /** The last directive given, None when there was none. */
  ghost predicate Latest(trace: seq<Event>, last: Option<Directive>) {
    if last.None? then forall i :: 0 <= i < |trace| ==> !trace[i].Directed?
    else
      exists i :: 0 <= i < |trace| && trace[i].Directed? && trace[i].d == last.value
        && forall j :: i < j < |trace| ==> !trace[j].Directed?
  }

  // ---------------------------------------------------------------------
  // What the consumer said
  // ---------------------------------------------------------------------

  /** The calls of the step and the directives given, in order. */
  function Talk(trace: seq<Event>): seq<Event> {
    if trace == [] then []
    else
      var e := trace[|trace| - 1];
      Talk(trace[..|trace| - 1]) + if e.Called? || e.Directed? then [e] else []
  }

  function Exchange(t: Turn): seq<Event> {
    match t
    case Control(d) => [Directed(d, false)]
    case Step(d) => [Called, Directed(d, false)]
    case Maps(d) => [Called, Directed(d, true)]
    case Escapes => [Called]
  }

  function Exchanges(turns: seq<Turn>, n: nat): seq<Event>
    requires n <= |turns|
  {
    if n == 0 then [] else Exchanges(turns, n - 1) + Exchange(turns[n - 1])
  }

  function CountedTurns(turns: seq<Turn>, n: nat): nat
    requires n <= |turns|
  {
    if n == 0 then 0
    else CountedTurns(turns, n - 1) + if !turns[n - 1].Escapes? && turns[n - 1].d.counted then 1 else 0
  }

  /** After `n` turns the loop is over: an escape, a stop, or as many counted directives as asked for. */
  predicate Over(max: Option<nat>, turns: seq<Turn>, n: nat)
    requires n <= |turns|
  {
    || (n > 0 && (turns[n - 1].Escapes? || turns[n - 1].d.action.Stop?))
    || (max.Some? && max.value <= CountedTurns(turns, n))
  }

  /** The loop has taken exactly the first `n` turns and has done what they ask and nothing else. */
  ghost predicate Told(max: Option<nat>, turns: seq<Turn>, n: nat, s: LoopState) {
    && n <= |turns| && (forall m :: 0 <= m < n ==> !Over(max, turns, m))
    && Talk(s.trace) == Exchanges(turns, n)
    && Heeded(s.trace) && Prompted(s.trace) && StopIsLast(s.trace) && Latest(s.trace, s.last)
    && (s.status.Stopped? <==> s.last.Some? && s.last.value.action.Stop?)
    && (s.status.Escaped? <==> n > 0 && turns[n - 1].Escapes?)
  }

  // ---------------------------------------------------------------------
  // Growing a trace
  // ---------------------------------------------------------------------

  lemma {:induction false} TalkConcat(a: seq<Event>, b: seq<Event>)
    ensures Talk(a + b) == Talk(a) + Talk(b)
  {
    if b == [] {
      assert a + b == a;
    } else {
      TalkConcat(a, b[..|b| - 1]);
      assert (a + b)[..|a + b| - 1] == a + b[..|b| - 1];
    }
  }

  /** Two traces that hold to it on their own hold to it one after the other. */
  lemma Joined(a: seq<Event>, b: seq<Event>)
    requires Heeded(a) && Prompted(a) && Heeded(b) && Prompted(b)
    ensures Heeded(a + b) && Prompted(a + b)
  {
    forall i | 0 <= i < |a + b|
      ensures HeededAt(a + b, i) && PromptedAt(a + b, i)
    {
      if i < |a| {
        JoinedLeft(a, b, i);
      } else {
        JoinedRight(a, b, i - |a|);
      }
    }
  }

  lemma JoinedLeft(a: seq<Event>, b: seq<Event>, i: nat)
    requires i < |a| && HeededAt(a, i) && PromptedAt(a, i)
    ensures HeededAt(a + b, i) && PromptedAt(a + b, i)
  {
    var c := a + b;
    assert c[i] == a[i] && (i + 1 < |a| ==> c[i + 1] == a[i + 1]) && (i + 2 < |a| ==> c[i + 2] == a[i + 2]);
    assert (i > 0 ==> c[i - 1] == a[i - 1]) && (i > 1 ==> c[i - 2] == a[i - 2]);
  }

  lemma JoinedRight(a: seq<Event>, b: seq<Event>, i: nat)
    requires i < |b| && HeededAt(b, i) && PromptedAt(b, i)
    ensures HeededAt(a + b, |a| + i) && PromptedAt(a + b, |a| + i)
  {
    var c, k := a + b, |a| + i;
    assert c[k] == b[i] && (i + 1 < |b| ==> c[k + 1] == b[i + 1]) && (i + 2 < |b| ==> c[k + 2] == b[i + 2]);
    assert (i > 0 ==> c[k - 1] == b[i - 1]) && (i > 1 ==> c[k - 2] == b[i - 2]);
  }

  ghost predicate NoStop(trace: seq<Event>) {
    forall i :: 0 <= i < |trace| && trace[i].Directed? ==> !trace[i].d.action.Stop?
  }

  function Rotation(d: Directive): seq<Event> {
    if d.rotate then [Rotated(false)] else []
  }

  function Wait(d: Directive): seq<Event> {
    if d.action.Wait? then [Waited(if d.delay.Some? then d.delay.value else 0.0)] else []
  }

  /** The events of one directive. */
  function Piece(d: Directive, error: bool): seq<Event> {
    [Directed(d, error)] + Rotation(d) + Wait(d)
  }

  lemma PieceHeeded(d: Directive, error: bool)
    ensures Heeded(Piece(d, error)) && Prompted(Piece(d, error))
  {
    var piece := Piece(d, error);
    assert |piece| <= 3 && piece[0] == Directed(d, error);
    assert d.rotate ==> piece[1] == Rotated(false);
    assert d.action.Wait? ==> WaitPlace(piece, 0) < |piece| && piece[WaitPlace(piece, 0)] == Wait(d)[0];
    forall i | 0 <= i < |piece|
      ensures HeededAt(piece, i) && PromptedAt(piece, i)
    {
    }
  }

  lemma PieceTalk(d: Directive, error: bool)
    ensures Talk(Piece(d, error)) == [Directed(d, error)]
  {
    TalkConcat([Directed(d, error)] + Rotation(d), Wait(d));
    TalkConcat([Directed(d, error)], Rotation(d));
    TalkOne(Directed(d, error));
    TalkOne(Rotated(false));
    TalkOne(Waited(if d.delay.Some? then d.delay.value else 0.0));
    assert Talk([]) == [];
    hide Talk;
  }

  lemma PieceQuiet(d: Directive, error: bool)
    ensures |Piece(d, error)| > 0 && Piece(d, error)[0] == Directed(d, error)
    ensures forall i :: 0 < i < |Piece(d, error)| ==> !Piece(d, error)[i].Called? && !Piece(d, error)[i].Directed?
  {
  }

  lemma TalkOne(e: Event)
    ensures Talk([e]) == if e.Called? || e.Directed? then [e] else []
  {
    assert [e][..0] == [] && Talk([]) == [];
  }

  lemma LatestKept(trace: seq<Event>, last: Option<Directive>, e: Event)
    requires Latest(trace, last) && !e.Directed?
    ensures Latest(trace + [e], last)
  {
    if last.Some? {
      var i :| 0 <= i < |trace| && trace[i].Directed? && trace[i].d == last.value && forall j :: i < j < |trace| ==> !trace[j].Directed?;
      assert (trace + [e])[i] == trace[i];
    }
  }

  lemma LatestNew(trace: seq<Event>, piece: seq<Event>, d: Directive)
    requires |piece| > 0 && piece[0].Directed? && piece[0].d == d && NoStop(trace)
    requires forall i :: 0 < i < |piece| ==> !piece[i].Called? && !piece[i].Directed?
    ensures Latest(trace + piece, Some(d)) && StopIsLast(trace + piece)
    ensures d.action.Stop? || NoStop(trace + piece)
  {
    assert (trace + piece)[|trace|] == piece[0];
  }

  /** What the trace of a loop that goes on keeps while it grows. */
  ghost predicate Going(trace: seq<Event>, last: Option<Directive>) {
    Heeded(trace) && Prompted(trace) && NoStop(trace) && Latest(trace, last)
  }

  lemma GoingOn(trace: seq<Event>, last: Option<Directive>, e: Event)
    requires Going(trace, last) && (e.Called? || e == Rotated(true))
    ensures Going(trace + [e], last) && StopIsLast(trace + [e])
    ensures Talk(trace + [e]) == Talk(trace) + if e.Called? then [e] else []
  {
    assert HeededAt([e], 0) && PromptedAt([e], 0);
    Joined(trace, [e]);
    TalkConcat(trace, [e]);
    TalkOne(e);
    LatestKept(trace, last, e);
    hide Heeded, Prompted, Latest, Talk;
  }

  lemma DirectiveDone(s: LoopState, d: Directive, error: bool)
    requires Going(s.trace, s.last) && s.status.Looping?
    ensures var s' := ApplyDirective(s, d, error);
      && Heeded(s'.trace) && Prompted(s'.trace) && StopIsLast(s'.trace) && Latest(s'.trace, s'.last)
      && s'.last == Some(d) && (d.action.Stop? || NoStop(s'.trace))
      && s'.status == (if d.action.Stop? then Stopped else Looping)
      && Talk(s'.trace) == Talk(s.trace) + [Directed(d, error)]
  {
    var piece := Piece(d, error);
    PieceHeeded(d, error);
    PieceTalk(d, error);
    PieceQuiet(d, error);
    hide Piece, Heeded, Prompted, Talk, StopIsLast, Latest, NoStop;
    Joined(s.trace, piece);
    TalkConcat(s.trace, piece);
    LatestNew(s.trace, piece, d);
    PieceAppended(s, d, error);
    hide ApplyDirective;
  }

  lemma PieceAppended(s: LoopState, d: Directive, error: bool)
    ensures var s' := ApplyDirective(s, d, error);
      s'.trace == s.trace + Piece(d, error) && s'.last == Some(d)
      && s'.status == (if d.action.Stop? then Stopped else s.status)
      && s'.counted == s.counted + (if d.counted then 1 else 0)
  {
  }

  // ---------------------------------------------------------------------
  // The loop
  // ---------------------------------------------------------------------

  /** Told, with what the next turn needs. */
  ghost predicate Telling(max: Option<nat>, turns: seq<Turn>, n: nat, s: LoopState) {
    && Told(max, turns, n, s) && s.counted == CountedTurns(turns, n)
    && (!s.status.Stopped? ==> NoStop(s.trace))
    && (n > 0 && !turns[n - 1].Escapes? ==> s.last == Some(turns[n - 1].d))
    && (n == 0 ==> s.last == None)
  }

  lemma EnoughIsOver(max: Option<nat>, turns: seq<Turn>, n: nat, s: LoopState)
    requires Telling(max, turns, n, s)
    ensures Enough(max, s) <==> Over(max, turns, n)
  {
    hide Heeded, Prompted, StopIsLast, Latest, NoStop;
  }

  /** The part of a turn before its directive. */
  lemma TellCall(limit: Option<nat>, s: LoopState)
    requires Going(s.trace, s.last)
    ensures var full := RotateFull(limit, s);
      && Going(full.trace + [Event.Called], s.last) && StopIsLast(full.trace + [Event.Called])
      && Talk(full.trace + [Event.Called]) == Talk(s.trace) + [Event.Called]
      && full == s.(attempts := full.attempts, trace := full.trace)
  {
    hide Going, StopIsLast, Talk;
    if limit.Some? && s.attempts >= limit.value {
      GoingOn(s.trace, s.last, Rotated(true));
    }
    GoingOn(RotateFull(limit, s).trace, s.last, Event.Called);
  }

  /** What is left to see once the directive of a turn has been heeded. */
  lemma TellNext(max: Option<nat>, turns: seq<Turn>, n: nat, s: LoopState, s': LoopState)
    requires Telling(max, turns, n, s) && n < |turns| && !Over(max, turns, n) && !turns[n].Escapes?
    requires var d := turns[n].d;
      && Heeded(s'.trace) && Prompted(s'.trace) && StopIsLast(s'.trace) && Latest(s'.trace, s'.last)
      && s'.last == Some(d) && (d.action.Stop? || NoStop(s'.trace))
      && s'.status == (if d.action.Stop? then Stopped else Looping)
      && Talk(s'.trace) == Talk(s.trace) + Exchange(turns[n])
      && s'.counted == s.counted + (if d.counted then 1 else 0)
    ensures Telling(max, turns, n + 1, s')
  {
    hide Heeded, Prompted, StopIsLast, Latest, NoStop, Talk, Over, Exchange;
  }

  /** The host as it calls the step. */
  function Calling(limit: Option<nat>, s: LoopState): LoopState {
    var full := RotateFull(limit, s);
    full.(sequence := full.sequence + 1, attempts := full.attempts + 1, trace := full.trace + [Event.Called])
  }

  lemma TellEscape(limit: Option<nat>, max: Option<nat>, turns: seq<Turn>, n: nat, s: LoopState)
    requires Telling(max, turns, n, s) && n < |turns| && !Over(max, turns, n) && s.status.Looping? && turns[n].Escapes?
    ensures Telling(max, turns, n + 1, Calling(limit, s).(status := Escaped))
  {
    hide Heeded, Prompted, StopIsLast, Latest, NoStop, Talk, Over, RotateFull;
    TellCall(limit, s);
    assert Exchange(turns[n]) == [Event.Called];
  }

  lemma CallDone(limit: Option<nat>, s: LoopState)
    requires Going(s.trace, s.last)
    ensures var called := Calling(limit, s);
      && Going(called.trace, called.last) && Talk(called.trace) == Talk(s.trace) + [Event.Called]
      && called.status == s.status && called.counted == s.counted
  {
    hide Going, StopIsLast, Talk, RotateFull;
    TellCall(limit, s);
  }

  /** A step that is called and answered. */
  lemma StepDone(limit: Option<nat>, s: LoopState, d: Directive, error: bool)
    requires Going(s.trace, s.last) && s.status.Looping?
    ensures var s' := ApplyDirective(Calling(limit, s), d, error);
      && Heeded(s'.trace) && Prompted(s'.trace) && StopIsLast(s'.trace) && Latest(s'.trace, s'.last)
      && s'.last == Some(d) && (d.action.Stop? || NoStop(s'.trace))
      && s'.status == (if d.action.Stop? then Stopped else Looping)
      && Talk(s'.trace) == Talk(s.trace) + [Event.Called, Directed(d, error)]
      && s'.counted == s.counted + (if d.counted then 1 else 0)
  {
    CallDone(limit, s);
    hide Calling, ApplyDirective, Going, Heeded, Prompted, StopIsLast, Latest, NoStop, Talk;
    DirectiveDone(Calling(limit, s), d, error);
    PieceAppended(Calling(limit, s), d, error);
  }

  lemma TellStep(limit: Option<nat>, max: Option<nat>, turns: seq<Turn>, n: nat, s: LoopState)
    requires Telling(max, turns, n, s) && n < |turns| && !Over(max, turns, n) && s.status.Looping?
    requires turns[n].Step? || turns[n].Maps?
    ensures Telling(max, turns, n + 1, ApplyDirective(Calling(limit, s), turns[n].d, turns[n].Maps?))
  {
    assert Going(s.trace, s.last);
    hide Going, Heeded, Prompted, StopIsLast, Latest, NoStop, Talk, Over, ApplyDirective, Telling, Calling;
    StepDone(limit, s, turns[n].d, turns[n].Maps?);
    TellNext(max, turns, n, s, ApplyDirective(Calling(limit, s), turns[n].d, turns[n].Maps?));
  }

  lemma TellTurn(limit: Option<nat>, max: Option<nat>, turns: seq<Turn>, n: nat, s: LoopState)
    requires Telling(max, turns, n, s) && n < |turns| && !Enough(max, s)
    ensures Telling(max, turns, n + 1, Advance(limit, s, turns[n]))
  {
    EnoughIsOver(max, turns, n, s);
    var t := turns[n];
    if t.Control? {
      hide Heeded, Prompted, StopIsLast, Latest, NoStop, Talk, Over, RotateFull, ApplyDirective;
      DirectiveDone(s, t.d, false);
      PieceAppended(s, t.d, false);
      TellNext(max, turns, n, s, ApplyDirective(s, t.d, false));
    } else {
      hide Telling, ApplyDirective, RotateFull;
      if t.Escapes? {
        TellEscape(limit, max, turns, n, s);
      } else {
        TellStep(limit, max, turns, n, s);
      }
    }
  }

  /**
    The loop takes the turns up to the first escape, stop or full count and no further. For each it
    calls the step unless control spoke, heeds the directive, and rotates and waits for nothing else;
    it is stopped exactly when the last directive says stop, and nothing follows that.
  */
  lemma {:induction false} LoopTold(limit: Option<nat>, max: Option<nat>, turns: seq<Turn>, k: nat) returns (n: nat)
    requires k <= |turns|
    ensures n <= k && Telling(max, turns, n, Loop(limit, max, turns[..k])) && (n == k || Over(max, turns, n))
  {
    if k == 0 {
      n := 0;
      assert turns[..0] == [];
    } else {
      n := LoopTold(limit, max, turns, k - 1);
      assert turns[..k][..k - 1] == turns[..k - 1];
      var s := Loop(limit, max, turns[..k - 1]);
      hide Telling, Advance;
      EnoughIsOver(max, turns, n, s);
      if !Enough(max, s) {
        TellTurn(limit, max, turns, n, s);
        n := n + 1;
      }
    }
  }

  lemma LoopRead(limit: Option<nat>, max: Option<nat>, turns: seq<Turn>) returns (n: nat)
    requires limit.Some? ==> limit.value >= 1
    ensures Told(max, turns, n, Loop(limit, max, turns)) && (n == |turns| || Over(max, turns, n))
    ensures CountersMatch(limit, max, Loop(limit, max, turns))
  {
    n := LoopTold(limit, max, turns, |turns|);
    LoopCounters(limit, max, turns);
    assert turns[..|turns|] == turns;
    hide Told, Over, CountersMatch;
  }
}
