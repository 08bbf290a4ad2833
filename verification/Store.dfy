/** The idempotent sink: records kept by id, in the order the ids first came. */
module Store {
  import opened Wrappers

  datatype Record = Record(id: Option<string>, data: string)

  /** A dictionary that remembers the order of its keys. */
  datatype Dict = Dict(order: seq<string>, rows: map<string, Record>)
  {
    ghost predicate Valid() {
      && (forall k :: k in order <==> k in rows)
      && (forall i, j :: 0 <= i < j < |order| ==> order[i] != order[j])
    }
  }

  const EMPTY := Dict([], map[])

  /** Assigning a key keeps its place; a new key goes last. A record without an id is passed over. */
  function Put(d: Dict, r: Record): Dict {
    if r.id.None? then d
    else Dict(if r.id.value in d.rows then d.order else d.order + [r.id.value], d.rows[r.id.value := r])
  }

  function PutAll(d: Dict, batch: seq<Record>): Dict {
    if batch == [] then d else Put(PutAll(d, batch[..|batch| - 1]), batch[|batch| - 1])
  }

  /** How many records come before the first one without an id. */
  function Usable(batch: seq<Record>): (n: nat)
    ensures n <= |batch| && (forall i :: 0 <= i < n ==> batch[i].id.Some?) && (n < |batch| ==> batch[n].id.None?)
  {
    if batch == [] || batch[0].id.None? then 0 else 1 + Usable(batch[1..])
  }

  function Ids(batch: seq<Record>): set<string> {
    set r | r in batch && r.id.Some? :: r.id.value
  }

  /** The last record of the batch with this id. */
  function LastOf(batch: seq<Record>, k: string): (r: Record)
    requires k in Ids(batch)
    ensures r in batch && r.id == Some(k)
  {
    var last := batch[|batch| - 1];
    if last.id == Some(k) then last
    else
      assert forall r :: r in batch ==> r in batch[..|batch| - 1] || r == last;
      LastOf(batch[..|batch| - 1], k)
  }

  // ---------------------------------------------------------------------
  // What a batch does
  // ---------------------------------------------------------------------

  lemma IdsSnoc(batch: seq<Record>, r: Record)
    ensures Ids(batch + [r]) == Ids(batch) + if r.id.Some? then {r.id.value} else {}
  {
  }

  lemma PutRow(d: Dict, r: Record)
    requires d.Valid()
    ensures Put(d, r).Valid() && Put(d, r).rows.Keys == d.rows.Keys + (if r.id.Some? then {r.id.value} else {})
    ensures forall k :: k in Put(d, r).rows ==> Put(d, r).rows[k] == if r.id == Some(k) then r else d.rows[k]
  {
  }

  lemma LastOfSnoc(batch: seq<Record>, r: Record, k: string)
    requires k in Ids(batch + [r])
    ensures r.id == Some(k) || k in Ids(batch)
    ensures LastOf(batch + [r], k) == if r.id == Some(k) then r else LastOf(batch, k)
  {
    IdsSnoc(batch, r);
    assert (batch + [r])[..|batch|] == batch;
  }

  lemma {:induction false} PutAllRows(d: Dict, batch: seq<Record>)
    requires d.Valid()
    ensures PutAll(d, batch).Valid() && PutAll(d, batch).rows.Keys == d.rows.Keys + Ids(batch)
    ensures forall k :: k in PutAll(d, batch).rows ==>
      PutAll(d, batch).rows[k] == if k in Ids(batch) then LastOf(batch, k) else d.rows[k]
  {
    if batch != [] {
      var rest, last := batch[..|batch| - 1], batch[|batch| - 1];
      PutAllRows(d, rest);
      assert batch == rest + [last];
      IdsSnoc(rest, last);
      PutRow(PutAll(d, rest), last);
      hide Ids, Put, LastOf, Dict.Valid;
      var after := PutAll(d, batch);
      forall k | k in after.rows
        ensures after.rows[k] == if k in Ids(batch) then LastOf(batch, k) else d.rows[k]
      {
        if k in Ids(batch) {
          LastOfSnoc(rest, last, k);
        }
      }
    }
  }

  lemma {:induction false} PutAllConcat(d: Dict, a: seq<Record>, b: seq<Record>)
    ensures PutAll(d, a + b) == PutAll(PutAll(d, a), b)
  {
    hide Put;
    if b == [] {
      assert a + b == a;
    } else {
      PutAllConcat(d, a, b[..|b| - 1]);
      assert (a + b)[..|a + b| - 1] == a + b[..|b| - 1];
    }
  }

  /** A batch whose ids are all there moves nothing. */
  lemma {:induction false} KnownIdsStay(d: Dict, batch: seq<Record>)
    requires d.Valid() && Ids(batch) <= d.rows.Keys
    ensures PutAll(d, batch).order == d.order
  {
    if batch != [] {
      var rest, last := batch[..|batch| - 1], batch[|batch| - 1];
      assert batch == rest + [last];
      IdsSnoc(rest, last);
      KnownIdsStay(d, rest);
      PutAllRows(d, rest);
      hide Ids;
    }
  }

  /** The ids of the batch that are not yet known, in the order in which each comes first. */
  function NewIds(batch: seq<Record>, known: set<string>): seq<string> {
    if batch == [] then []
    else if batch[0].id.None? || batch[0].id.value in known then NewIds(batch[1..], known)
    else [batch[0].id.value] + NewIds(batch[1..], known + {batch[0].id.value})
  }

  /** Ids known before keep their places, and the new ones follow in the order of their first record. */
  lemma {:induction false} OrderOfArrival(d: Dict, batch: seq<Record>)
    ensures PutAll(d, batch).order == d.order + NewIds(batch, d.rows.Keys)
    decreases |batch|
  {
    if batch != [] {
      var first, rest := batch[0], batch[1..];
      assert batch == [first] + rest;
      PutAllConcat(d, [first], rest);
      PutAllOne(d, first);
      OrderOfArrival(Put(d, first), rest);
      if first.id.Some? && first.id.value !in d.rows {
        assert d.order + NewIds(batch, d.rows.Keys) == Put(d, first).order + NewIds(rest, Put(d, first).rows.Keys);
      } else {
        assert Put(d, first).rows.Keys == d.rows.Keys;
      }
    }
  }

  lemma PutAllOne(d: Dict, r: Record)
    ensures PutAll(d, [r]) == Put(d, r)
    ensures Put(d, r).rows.Keys == d.rows.Keys + (if r.id.Some? then {r.id.value} else {})
  {
    assert [r][..0] == [];
  }

  /** Upserting a batch again changes nothing, not even the order. */
  lemma Idempotent(d: Dict, batch: seq<Record>)
    requires d.Valid()
    ensures PutAll(PutAll(d, batch), batch) == PutAll(d, batch)
  {
    var once := PutAll(d, batch);
    PutAllRows(d, batch);
    KnownIdsStay(once, batch);
    PutAllRows(once, batch);
    hide Ids, PutAll;
    assert PutAll(once, batch).rows == once.rows;
  }

  /** A batch cut off anywhere and then upserted whole is as if it had been upserted once. */
  lemma Absorbed(d: Dict, batch: seq<Record>, n: nat)
    requires d.Valid() && n <= |batch|
    ensures PutAll(PutAll(d, batch[..n]), batch) == PutAll(d, batch)
  {
    var part, rest := batch[..n], batch[n..];
    assert batch == part + rest;
    Idempotent(d, part);
    PutAllConcat(d, part, rest);
    PutAllConcat(PutAll(d, part), part, rest);
  }

  // ---------------------------------------------------------------------
  // Agreement up to some ids
  // ---------------------------------------------------------------------

  /** The same keys in the same order, and the same records except maybe for these ids. */
  ghost predicate Agree(d: Dict, e: Dict, ids: set<string>) {
    d.order == e.order && d.rows.Keys == e.rows.Keys && forall k :: k in d.rows && k !in ids ==> d.rows[k] == e.rows[k]
  }

  lemma {:induction false} BatchAgree(d: Dict, e: Dict, batch: seq<Record>, ids: set<string>)
    requires Agree(d, e, ids)
    ensures Agree(PutAll(d, batch), PutAll(e, batch), ids - Ids(batch))
  {
    if batch != [] {
      var rest, last := batch[..|batch| - 1], batch[|batch| - 1];
      assert batch == rest + [last];
      IdsSnoc(rest, last);
      BatchAgree(d, e, rest, ids);
      hide Ids;
    }
  }

  lemma AgreeWeaken(d: Dict, e: Dict, ids: set<string>, more: set<string>)
    requires Agree(d, e, ids) && ids <= more
    ensures Agree(d, e, more)
  {
  }

  /** The part of a batch upserted again does no lasting harm if each of its records is the last for its id or its id comes again. */
  lemma ReplayAgree(d: Dict, before: Dict, batch: seq<Record>, n: nat, later: set<string>)
    requires d.Valid() && before.Valid() && n <= |batch| && Agree(d, PutAll(before, batch), later)
    requires forall i :: 0 <= i < n && batch[i].id.Some? ==>
      batch[i].id.value in later || batch[i] == LastOf(batch, batch[i].id.value)
    ensures Agree(PutAll(d, batch[..n]), PutAll(before, batch), later)
  {
    var whole, part := PutAll(before, batch), batch[..n];
    PutAllRows(before, batch);
    PutAllRows(d, part);
    assert Ids(part) <= Ids(batch);
    KnownIdsStay(d, part);
    forall k | k in d.rows && k !in later
      ensures PutAll(d, part).rows[k] == whole.rows[k]
    {
      if k in Ids(part) {
        var i :| 0 <= i < n && batch[i] == LastOf(part, k);
        assert batch[i].id == Some(k);
      }
    }
  }

  // ---------------------------------------------------------------------
  // The store itself
  // ---------------------------------------------------------------------

  class InMemoryStore {
    var records: Dict

    constructor ()
      ensures records == EMPTY
    {
      records := EMPTY;
    }

    /** Record by record; a record without an id raises after the ones before it are in. */
    method Upsert(incoming: seq<Record>) returns (upserted: Option<nat>)
      modifies this
      ensures records == PutAll(old(records), incoming[..Usable(incoming)])
      ensures upserted == if Usable(incoming) == |incoming| then Some(|incoming|) else None
    {
      var i := 0;
      while i < |incoming|
        invariant 0 <= i <= Usable(incoming) && records == PutAll(old(records), incoming[..i])
      {
        if incoming[i].id.None? {
          return None;
        }
        assert incoming[..i + 1][..i] == incoming[..i];
        records := Put(records, incoming[i]);
        i := i + 1;
      }
      return Some(|incoming|);
    }

    /** The new dictionary is built first, so a record without an id leaves the store as it was. */
    method ReplaceAll(incoming: seq<Record>) returns (replaced: Option<nat>)
      modifies this
      ensures replaced == if Usable(incoming) == |incoming| then Some(|incoming|) else None
      ensures records == if replaced.Some? then PutAll(EMPTY, incoming) else old(records)
    {
      var built := EMPTY;
      for i := 0 to |incoming|
        invariant built == PutAll(EMPTY, incoming[..i]) && i <= Usable(incoming) && records == old(records)
      {
        if incoming[i].id.None? {
          return None;
        }
        assert incoming[..i + 1][..i] == incoming[..i];
        built := Put(built, incoming[i]);
      }
      assert incoming[..|incoming|] == incoming;
      records := built;
      return Some(|incoming|);
    }
  }
}
