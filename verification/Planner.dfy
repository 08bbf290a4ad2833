/** Planners over a named cursor, and the fetch intent around them. */
module Planner {
  import opened Wrappers
  import opened Store
  import opened Text

  datatype Cursor = Cursor(kind: string, value: string)

  /** One planned fetch: an opaque ref and the cursor that named it. */
  datatype FetchPlan = FetchPlan(ref: string, cursor: Cursor)

  datatype Directive = Continue | Idle | Stop

  datatype Decision = Fetches(plan: FetchPlan) | Stops | Invalid

  datatype Advance = Onward(cursor: Cursor) | Done | Raises

  /** A sequence walks its units, a resume planner follows the tokens found in the payloads. */
  datatype Planner =
    | Sequence(kind: string, encode: string -> string, units: seq<string>, index: map<string, nat>)
    | Resume(kind: string, start: string, advance: (seq<Record>, FetchPlan) -> Advance)

  // ---------------------------------------------------------------------
  // Building a sequence planner
  // ---------------------------------------------------------------------

  datatype BuildError = BadOrder | BadKind | BadUnit(at: nat)
  datatype Built = Ready(planner: Planner) | Refused(error: BuildError)

  function Reversed<T>(s: seq<T>): (r: seq<T>)
    ensures |r| == |s| && forall i :: 0 <= i < |s| ==> r[i] == s[|s| - 1 - i]
  {
    if s == [] then [] else Reversed(s[1..]) + [s[0]]
  }

  /** The unit at `i` cannot be indexed: its value is blank or was seen before. */
  predicate Spoiled(encode: string -> string, units: seq<string>, i: nat)
    requires i < |units|
  {
    Blank(encode(units[i])) || exists j :: 0 <= j < i && encode(units[j]) == encode(units[i])
  }

  predicate Indexed(encode: string -> string, units: seq<string>, index: map<string, nat>, n: nat)
    requires n <= |units|
  {
    && (forall i :: 0 <= i < n ==> encode(units[i]) in index && index[encode(units[i])] == i)
    && (forall v :: v in index ==> index[v] < n && encode(units[index[v]]) == v)
  }

  /** A planner is built exactly when the kind has text and every unit's value has text and is new. */
  method BuildSequence(units: seq<string>, kind: string, encode: string -> string, order: string) returns (b: Built)
    ensures b == Refused(BadOrder) <==> order != "forward" && order != "reverse"
    ensures b == Refused(BadKind) <==> (order == "forward" || order == "reverse") && Blank(kind)
    ensures forall i: nat :: b == Refused(BadUnit(i)) ==>
      var walk := if order == "reverse" then Reversed(units) else units;
      i < |walk| && Spoiled(encode, walk, i) && forall j :: 0 <= j < i ==> !Spoiled(encode, walk, j)
    ensures b.Ready? ==>
      var walk := if order == "reverse" then Reversed(units) else units;
      && b.planner.Sequence? && b.planner.kind == kind && b.planner.encode == encode && b.planner.units == walk
      && Indexed(encode, walk, b.planner.index, |walk|)
      && forall i :: 0 <= i < |walk| ==> !Spoiled(encode, walk, i)
  {
    hide Blank;
    if order != "forward" && order != "reverse" {
      return Refused(BadOrder);
    }
    var ordered := if order == "reverse" then Reversed(units) else units;
    if Blank(kind) {
      return Refused(BadKind);
    }
    var index: map<string, nat> := map[];
    for i := 0 to |ordered|
      invariant Indexed(encode, ordered, index, i)
      invariant forall j :: 0 <= j < i ==> !Spoiled(encode, ordered, j)
    {
      var value := encode(ordered[i]);
      if Blank(value) || value in index {
        assert Blank(value) || encode(ordered[index[value]]) == value;
        return Refused(BadUnit(i));
      }
      index := index[value := i];
    }
    return Ready(Sequence(kind, encode, ordered, index));
  }

  // ---------------------------------------------------------------------
  // Planning and advancing
  // ---------------------------------------------------------------------

  function PlanUnit(p: Planner, i: nat): FetchPlan
    requires p.Sequence? && i < |p.units|
  {
    FetchPlan(p.units[i], Cursor(p.kind, p.encode(p.units[i])))
  }

  function Plan(p: Planner, cursor: Option<Cursor>): Decision {
    match p
    case Sequence(kind, _, units, index) =>
      if units == [] then Stops
      else if cursor.None? then Fetches(PlanUnit(p, 0))
      else if cursor.value.kind != kind || cursor.value.value !in index then Invalid
      else if index[cursor.value.value] + 1 >= |units| then Stops
      else Fetches(PlanUnit(p, index[cursor.value.value] + 1))
    case Resume(kind, start, _) =>
      var current := if cursor.None? then Cursor(kind, start) else cursor.value;
      if current.kind != kind then Invalid else Fetches(FetchPlan(current.value, current))
  }

  function CheckpointAfter(p: Planner, payload: seq<Record>, plan: FetchPlan): Advance {
    match p
    case Sequence(kind, _, units, index) =>
      if plan.cursor.kind != kind || plan.cursor.value !in index then Raises
      else if index[plan.cursor.value] + 1 >= |units| then Done
      else Onward(plan.cursor)
    case Resume(kind, _, advance) =>
      var next := advance(payload, plan);
      if next.Onward? && next.cursor.kind != kind then Raises else next
  }

  /** What is saved after the persist, and what the host then does; None when shaping it raises. */
  function Output(p: Planner, exhausted: Directive, payload: seq<Record>, plan: FetchPlan): Option<(Cursor, Directive)> {
    match CheckpointAfter(p, payload, plan)
    case Done => Some((plan.cursor, exhausted))
    case Onward(next) => Some((next, Continue))
    case Raises => None
  }

  // ---------------------------------------------------------------------
  // Exactly when
  // ---------------------------------------------------------------------

  /** The cursor names one of the planner's units. */
  predicate Names(p: Planner, c: Cursor)
    requires p.Sequence?
  {
    c.kind == p.kind && exists u :: u in p.units && p.encode(u) == c.value
  }

  lemma NamesIndexed(p: Planner, c: Cursor)
    requires p.Sequence? && Indexed(p.encode, p.units, p.index, |p.units|)
    ensures Names(p, c) <==> c.kind == p.kind && c.value in p.index
  {
    if c.value in p.index {
      assert p.units[p.index[c.value]] in p.units;
    }
  }

  /**
    A sequence planner refuses exactly the checkpoints that name none of its units, stops exactly after
    its last unit or when it has none, and fetches a unit exactly from the checkpoint of the one before.
  */
  lemma SequencePlans(p: Planner, cursor: Option<Cursor>)
    requires p.Sequence? && Indexed(p.encode, p.units, p.index, |p.units|)
    ensures Plan(p, cursor).Invalid? <==> p.units != [] && cursor.Some? && !Names(p, cursor.value)
    ensures Plan(p, cursor).Stops? <==>
      p.units == [] || cursor == Some(Cursor(p.kind, p.encode(p.units[|p.units| - 1])))
    ensures forall i :: 0 <= i < |p.units| ==>
      var before := if i == 0 then None else Some(Cursor(p.kind, p.encode(p.units[i - 1])));
      Plan(p, cursor) == Fetches(FetchPlan(p.units[i], Cursor(p.kind, p.encode(p.units[i])))) <==> cursor == before
  {
    if cursor.Some? {
      NamesIndexed(p, cursor.value);
    }
    hide Names;
    forall i | 0 <= i < |p.units|
      ensures p.index[p.encode(p.units[i])] == i
    {
    }
  }

  /** After a unit the cursor moves to it, except that the last one ends the sequence and a foreign cursor raises. */
  lemma SequenceAdvances(p: Planner, payload: seq<Record>, plan: FetchPlan)
    requires p.Sequence? && Indexed(p.encode, p.units, p.index, |p.units|)
    ensures CheckpointAfter(p, payload, plan).Raises? <==> !Names(p, plan.cursor)
    ensures CheckpointAfter(p, payload, plan).Done? <==>
      p.units != [] && plan.cursor == Cursor(p.kind, p.encode(p.units[|p.units| - 1]))
    ensures CheckpointAfter(p, payload, plan).Onward? ==> CheckpointAfter(p, payload, plan).cursor == plan.cursor
  {
    NamesIndexed(p, plan.cursor);
    hide Names;
  }

  /** A resume planner refuses exactly a checkpoint of another kind and otherwise fetches what the checkpoint, or the start, names. */
  lemma ResumePlans(p: Planner, cursor: Option<Cursor>)
    requires p.Resume?
    ensures Plan(p, cursor).Invalid? <==> cursor.Some? && cursor.value.kind != p.kind
    ensures cursor.None? ==> Plan(p, cursor) == Fetches(FetchPlan(p.start, Cursor(p.kind, p.start)))
    ensures cursor.Some? && cursor.value.kind == p.kind ==> Plan(p, cursor) == Fetches(FetchPlan(cursor.value.value, cursor.value))
  {
  }

  /** It goes where the consumer's advance leads, but never to another kind. */
  lemma ResumeAdvances(p: Planner, payload: seq<Record>, plan: FetchPlan)
    requires p.Resume?
    ensures var led, next := p.advance(payload, plan), CheckpointAfter(p, payload, plan);
      && (next.Raises? <==> led.Raises? || (led.Onward? && led.cursor.kind != p.kind))
      && (!next.Raises? ==> next == led)
  {
  }
}
