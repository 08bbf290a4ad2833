/** The continuous host: nested counters, waits and boundary rotation around an opaque step. */
module Continuous {
  import opened Wrappers

  datatype Action = Continue | Wait | Stop

  datatype Directive = Directive(action: Action, rotate: bool, delay: Option<real>, counted: bool)

  /** What the consumer does at one pass of the loop; `Maps` is a step that raised and was mapped. */
  datatype Turn = Control(d: Directive) | Step(d: Directive) | Maps(d: Directive) | Escapes

  /** What the consumer gets to see. */
  datatype Event = Called | Directed(d: Directive, error: bool) | Rotated(byLimit: bool) | Waited(seconds: real)

  datatype Status = Looping | Stopped | Escaped

  datatype LoopState = LoopState(
    sequence: nat, counted: nat, attempts: nat, repeatedWait: bool, last: Option<Directive>, status: Status, trace: seq<Event>)

  const INITIAL := LoopState(0, 0, 0, false, None, Looping, [])

  function ApplyDirective(s: LoopState, d: Directive, error: bool): LoopState {
    var rotation := if d.rotate then [Rotated(false)] else [];
    var wait := if d.action.Wait? then [Waited(if d.delay.Some? then d.delay.value else 0.0)] else [];
    s.(counted := if d.counted then s.counted + 1 else s.counted,
       attempts := if d.rotate then 0 else s.attempts,
       repeatedWait := error || d.action.Wait?,
       last := Some(d),
       status := if d.action.Stop? then Stopped else s.status,
       trace := s.trace + [Directed(d, error)] + rotation + wait)
  }

  /** The boundary is full: rotate it before the next step. */
  function RotateFull(limit: Option<nat>, s: LoopState): LoopState {
    if limit.Some? && s.attempts >= limit.value then s.(attempts := 0, trace := s.trace + [Rotated(true)]) else s
  }

  function Advance(limit: Option<nat>, s: LoopState, t: Turn): LoopState {
    if t.Control? then ApplyDirective(s, t.d, false)
    else
      var s := RotateFull(limit, s);
      var s := s.(sequence := s.sequence + 1, attempts := s.attempts + 1, trace := s.trace + [Called]);
      match t
      case Escapes => s.(status := Escaped)
      case Step(d) => ApplyDirective(s, d, false)
      case Maps(d) => ApplyDirective(s, d, true)
      case Control(_) => s
  }

  function Enough(max: Option<nat>, s: LoopState): bool {
    !s.status.Looping? || (max.Some? && s.counted >= max.value)
  }

  function Loop(limit: Option<nat>, max: Option<nat>, turns: seq<Turn>): LoopState {
    if turns == [] then INITIAL
    else
      var s := Loop(limit, max, turns[..|turns| - 1]);
      if Enough(max, s) then s else Advance(limit, s, turns[|turns| - 1])
  }

  // ---------------------------------------------------------------------
  // The counters, read off the trace
  // ---------------------------------------------------------------------

  function CallsIn(trace: seq<Event>): nat {
    if trace == [] then 0
    else CallsIn(trace[..|trace| - 1]) + if trace[|trace| - 1].Called? then 1 else 0
  }

  function CountedIn(trace: seq<Event>): nat {
    if trace == [] then 0
    else
      var e := trace[|trace| - 1];
      CountedIn(trace[..|trace| - 1]) + if e.Directed? && e.d.counted then 1 else 0
  }

  /** The calls since the last rotation of either kind. */
  function CallsSinceRotation(trace: seq<Event>): nat {
    if trace == [] || trace[|trace| - 1].Rotated? then 0
    else CallsSinceRotation(trace[..|trace| - 1]) + if trace[|trace| - 1].Called? then 1 else 0
  }

  function LastDirected(trace: seq<Event>): Option<Event> {
    if trace == [] then None
    else if trace[|trace| - 1].Directed? then Some(trace[|trace| - 1])
    else LastDirected(trace[..|trace| - 1])
  }

  /** A rotation by the limit comes exactly when the boundary holds `limit` calls, and no call comes then. */
  ghost predicate RotatesOnTime(limit: Option<nat>, trace: seq<Event>) {
    forall i :: 0 <= i < |trace| ==>
      && (trace[i] == Rotated(true) ==> limit == Some(CallsSinceRotation(trace[..i])))
      && (trace[i].Called? && limit.Some? ==> CallsSinceRotation(trace[..i]) < limit.value)
  }

  lemma Snoc(trace: seq<Event>, e: Event)
    ensures CallsIn(trace + [e]) == CallsIn(trace) + if e.Called? then 1 else 0
    ensures CountedIn(trace + [e]) == CountedIn(trace) + if e.Directed? && e.d.counted then 1 else 0
    ensures CallsSinceRotation(trace + [e]) ==
      if e.Rotated? then 0 else CallsSinceRotation(trace) + if e.Called? then 1 else 0
    ensures LastDirected(trace + [e]) == if e.Directed? then Some(e) else LastDirected(trace)
  {
    assert (trace + [e])[..|trace|] == trace;
  }

  lemma SnocOnTime(limit: Option<nat>, trace: seq<Event>, e: Event)
    requires RotatesOnTime(limit, trace)
    requires e == Rotated(true) ==> limit == Some(CallsSinceRotation(trace))
    requires e.Called? && limit.Some? ==> CallsSinceRotation(trace) < limit.value
    ensures RotatesOnTime(limit, trace + [e])
  {
    forall i | 0 <= i < |trace + [e]|
      ensures (trace + [e])[..i] == trace[..i]
    {
    }
    assert trace[..|trace|] == trace;
  }

  ghost predicate CountersMatch(limit: Option<nat>, max: Option<nat>, s: LoopState) {
    && s.sequence == CallsIn(s.trace) && s.counted == CountedIn(s.trace)
    && s.attempts == CallsSinceRotation(s.trace)
    && (limit.Some? ==> s.attempts <= limit.value)
    && (max.Some? ==> s.counted <= max.value)
    && (s.repeatedWait <==> LastDirected(s.trace).Some? && Waits(LastDirected(s.trace).value))
    && RotatesOnTime(limit, s.trace)
  }

  predicate Waits(e: Event) {
    e.Directed? && (e.error || e.d.action.Wait?)
  }

  lemma DirectiveMatches(limit: Option<nat>, max: Option<nat>, s: LoopState, d: Directive, error: bool)
    requires CountersMatch(limit, max, s) && (max.Some? ==> s.counted < max.value)
    ensures CountersMatch(limit, max, ApplyDirective(s, d, error))
  {
    hide CallsIn, CountedIn, CallsSinceRotation, LastDirected, RotatesOnTime;
    var t1 := s.trace + [Directed(d, error)];
    Snoc(s.trace, Directed(d, error));
    SnocOnTime(limit, s.trace, Directed(d, error));
    var t2 := if d.rotate then t1 + [Rotated(false)] else t1;
    if d.rotate {
      Snoc(t1, Rotated(false));
      SnocOnTime(limit, t1, Rotated(false));
    } else {
      assert t1 + [] == t1;
    }
    if d.action.Wait? {
      var wait := Waited(if d.delay.Some? then d.delay.value else 0.0);
      Snoc(t2, wait);
      SnocOnTime(limit, t2, wait);
    } else {
      assert t2 + [] == t2;
    }
  }

  lemma AdvanceMatches(limit: Option<nat>, max: Option<nat>, s: LoopState, t: Turn)
    requires CountersMatch(limit, max, s) && !Enough(max, s) && (limit.Some? ==> limit.value >= 1)
    ensures CountersMatch(limit, max, Advance(limit, s, t))
  {
    hide CallsIn, CountedIn, CallsSinceRotation, LastDirected, RotatesOnTime, ApplyDirective;
    if t.Control? {
      DirectiveMatches(limit, max, s, t.d, false);
    } else {
      if limit.Some? && s.attempts >= limit.value {
        Snoc(s.trace, Rotated(true));
        SnocOnTime(limit, s.trace, Rotated(true));
      }
      var s1 := RotateFull(limit, s);
      Snoc(s1.trace, Called);
      SnocOnTime(limit, s1.trace, Called);
      var s2 := s1.(sequence := s1.sequence + 1, attempts := s1.attempts + 1, trace := s1.trace + [Called]);
      assert CountersMatch(limit, max, s2);
      if !t.Escapes? {
        DirectiveMatches(limit, max, s2, t.d, t.Maps?);
      }
    }
  }

  /**
    For any mix of control, step, error and rotation directives: the sequence is the number of
    step calls, the attempts are those since the last rotation and never more than the limit, the
    counted directives never exceed the bound, and `repeatedWait` says whether the latest
    directive was a wait or came from an error.
  */
  lemma {:induction false} LoopCounters(limit: Option<nat>, max: Option<nat>, turns: seq<Turn>)
    requires limit.Some? ==> limit.value >= 1
    ensures CountersMatch(limit, max, Loop(limit, max, turns))
  {
    if turns != [] {
      hide CountersMatch, Advance;
      LoopCounters(limit, max, turns[..|turns| - 1]);
      var s := Loop(limit, max, turns[..|turns| - 1]);
      if !Enough(max, s) {
        AdvanceMatches(limit, max, s, turns[|turns| - 1]);
      }
    } else {
      Empty(limit, max);
    }
  }

  lemma Empty(limit: Option<nat>, max: Option<nat>)
    ensures CountersMatch(limit, max, INITIAL)
  {
  }

  /** A turn of a loop that goes on. */
  lemma TurnTaken(limit: Option<nat>, max: Option<nat>, turns: seq<Turn>, i: nat)
    requires i < |turns| && !Enough(max, Loop(limit, max, turns[..i]))
    ensures Loop(limit, max, turns[..i + 1]) == Advance(limit, Loop(limit, max, turns[..i]), turns[i])
  {
    hide Advance, Enough;
    assert turns[..i + 1][..i] == turns[..i];
  }

  /** Once the loop has had enough, further turns change nothing. */
  lemma {:induction false} FinishedLoop(limit: Option<nat>, max: Option<nat>, turns: seq<Turn>, i: nat)
    requires i <= |turns| && (i == |turns| || Enough(max, Loop(limit, max, turns[..i])))
    ensures Loop(limit, max, turns) == Loop(limit, max, turns[..i])
    decreases |turns|
  {
    if i == |turns| {
      assert turns[..i] == turns;
    } else {
      hide Advance;
      var rest := turns[..|turns| - 1];
      assert rest[..i] == turns[..i];
      FinishedLoop(limit, max, rest, i);
    }
  }
}
