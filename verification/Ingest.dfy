/** The ingest loop over windows, and what its report accounts for. */
module Ingest {
  import opened Wrappers
  import Backoff

  /** A mapped record; one without an id, or that is no mapping at all, cannot be persisted. */
  datatype Raw = Mapping(id: string, data: string) | Other(data: string)

  predicate Persistable(r: Raw) {
    r.Mapping? && r.id != ""
  }

  /** The records that are persistable, or those that are not, in their order. */
  function Keep(records: seq<Raw>, persistable: bool): seq<Raw> {
    if records == [] then []
    else
      Keep(records[..|records| - 1], persistable)
      + if Persistable(records[|records| - 1]) == persistable then [records[|records| - 1]] else []
  }

  method ValidRecords(records: seq<Raw>) returns (valid: seq<Raw>, invalid: seq<Raw>)
    ensures valid == Keep(records, true) && invalid == Keep(records, false)
  {
    valid, invalid := [], [];
    for i := 0 to |records|
      invariant valid == Keep(records[..i], true) && invalid == Keep(records[..i], false)
    {
      assert records[..i + 1][..i] == records[..i];
      if Persistable(records[i]) {
        valid := valid + [records[i]];
      } else {
        invalid := invalid + [records[i]];
      }
    }
    assert records[..|records|] == records;
  }

  lemma {:induction false} KeepKind(records: seq<Raw>, persistable: bool)
    ensures forall r :: r in Keep(records, persistable) ==> Persistable(r) == persistable
  {
    if records != [] {
      KeepKind(records[..|records| - 1], persistable);
      hide Persistable;
    }
  }

  lemma KeepLast(rest: seq<Raw>, last: Raw, persistable: bool)
    ensures multiset(Keep(rest + [last], persistable))
         == multiset(Keep(rest, persistable)) + if Persistable(last) == persistable then multiset{last} else multiset{}
  {
    hide Persistable;
    assert (rest + [last])[..|rest|] == rest;
    var kept := Keep(rest, persistable);
    if Persistable(last) == persistable {
      assert Keep(rest + [last], persistable) == kept + [last];
    } else {
      assert Keep(rest + [last], persistable) == kept + [] == kept;
    }
  }

  lemma {:induction false} KeepCounts(records: seq<Raw>)
    ensures multiset(Keep(records, true)) + multiset(Keep(records, false)) == multiset(records)
  {
    if records != [] {
      hide Keep, Persistable;
      var rest, last := records[..|records| - 1], records[|records| - 1];
      assert records == rest + [last];
      KeepCounts(rest);
      KeepLast(rest, last, true);
      KeepLast(rest, last, false);
    } else {
      assert Keep(records, true) == Keep(records, false) == [];
    }
  }

  /** The two parts hold every record once, each in the part it belongs to. */
  lemma KeepPartitions(records: seq<Raw>)
    ensures multiset(Keep(records, true)) + multiset(Keep(records, false)) == multiset(records)
    ensures forall r :: r in Keep(records, true) ==> r.Mapping? && r.id != ""
    ensures forall r :: r in Keep(records, false) ==> r.Other? || r.id == ""
  {
    hide Keep;
    KeepCounts(records);
    KeepKind(records, true);
    KeepKind(records, false);
  }

  /** And in the order of the batch, wherever it is cut. */
  lemma {:induction false} KeepInOrder(a: seq<Raw>, b: seq<Raw>, persistable: bool)
    ensures Keep(a + b, persistable) == Keep(a, persistable) + Keep(b, persistable)
  {
    if b == [] {
      assert a + b == a;
    } else {
      KeepInOrder(a, b[..|b| - 1], persistable);
      assert (a + b)[..|a + b| - 1] == a + b[..|b| - 1];
    }
  }

  // ---------------------------------------------------------------------
  // The loop
  // ---------------------------------------------------------------------

  /**
    A window and what happens on it: the throttle's wait, or None when acquiring raises; whether
    each fetch call returns; what the fetch returns; and what the mapper makes of it, if it does not raise.
  */
  datatype Window = Window(name: string, throttle: Option<real>, succeeds: nat -> bool, payload: seq<Raw>, mapped: Option<seq<Raw>>)

  datatype WindowReport = WindowReport(window: string, fetched: nat, persistable: nat, invalid: nat)

  datatype Warning = InvalidRecords(window: string, count: nat) | WindowFailed(window: string)

  /** `calls` is the trace of fetch calls, window by window. */
  datatype Ledger = Ledger(
    warnings: seq<Warning>, reports: seq<WindowReport>, fetched: seq<Raw>, retriesUsed: nat, waits: real,
    calls: seq<seq<Backoff.Call>>)

  const BLANK := Ledger([], [], [], 0, 0.0, [])

  function CallOf(w: Window): nat -> Backoff.Call {
    (i: nat) => if w.succeeds(i) then Backoff.Returns else Backoff.Raises
  }

  /** The calls the retry makes for this window; none without a retry budget. */
  function CallsFor(w: Window, retries: int): nat {
    if retries <= 0 then 0 else Backoff.Calls(CallOf(w), retries, 0)
  }

  /** The fetch calls of this window, in order; none if the throttle raises first. */
  function Made(w: Window, retries: int): seq<Backoff.Call> {
    if w.throttle.None? then [] else seq(CallsFor(w, retries), i requires 0 <= i < CallsFor(w, retries) => CallOf(w)(i))
  }

  predicate Fetches(w: Window, retries: int) {
    w.throttle.Some? && retries > 0 && w.succeeds(CallsFor(w, retries) - 1)
  }

  /** The report of a window, or None for a failure warning. */
  function ReportOf(w: Window, retries: int): Option<WindowReport> {
    if Fetches(w, retries) && w.mapped.Some?
    then Some(WindowReport(w.name, |w.payload|, |Keep(w.mapped.value, true)|, |Keep(w.mapped.value, false)|))
    else None
  }

  function Warnings(w: Window, retries: int): seq<Warning> {
    match ReportOf(w, retries)
    case None => [WindowFailed(w.name)]
    case Some(r) => if r.invalid > 0 then [InvalidRecords(w.name, r.invalid)] else []
  }

  function ProcessWindow(l: Ledger, w: Window, retries: int): Ledger {
    var report := ReportOf(w, retries);
    Ledger(l.warnings + Warnings(w, retries),
           l.reports + if report.Some? then [report.value] else [],
           l.fetched + if report.Some? then Keep(w.mapped.value, true) else [],
           l.retriesUsed + if Fetches(w, retries) then CallsFor(w, retries) - 1 else 0,
           l.waits + (if w.throttle.Some? then w.throttle.value else 0.0),
           l.calls + [Made(w, retries)])
  }

  function Process(windows: seq<Window>, retries: int): Ledger {
    if windows == [] then BLANK
    else ProcessWindow(Process(windows[..|windows| - 1], retries), windows[|windows| - 1], retries)
  }

  /** The loop of the run: a window that fails anywhere becomes a warning and the next one is taken. */
  method RunWindows(windows: seq<Window>, retries: int, plan: Backoff.Plan) returns (l: Ledger)
    ensures l == Process(windows, retries)
  {
    l := BLANK;
    for i := 0 to |windows|
      invariant l == Process(windows[..i], retries)
    {
      assert windows[..i + 1][..i] == windows[..i];
      l := TakeWindow(l, windows[i], retries, plan);
    }
    assert windows[..|windows|] == windows;
  }

  method TakeWindow(before: Ledger, w: Window, retries: int, plan: Backoff.Plan) returns (l: Ledger)
    ensures l == ProcessWindow(before, w, retries)
  {
    l := before;
    if w.throttle.None? {
      l := l.(warnings := l.warnings + [WindowFailed(w.name)], calls := l.calls + [[]]);
      return;
    }
    l := l.(waits := l.waits + w.throttle.value);
    var fetch := Backoff.Retry(CallOf(w), retries, plan);
    if retries > 0 {
      Backoff.CallsUnique(CallOf(w), retries, |fetch.made|, 0);
    }
    assert fetch.made == Made(w, retries);
    l := l.(calls := l.calls + [fetch.made]);
    if fetch.made == [] || fetch.made[|fetch.made| - 1] != Backoff.Returns {
      l := l.(warnings := l.warnings + [WindowFailed(w.name)]);
      return;
    }
    l := l.(retriesUsed := l.retriesUsed + (|fetch.made| - 1));
    if w.mapped.None? {
      l := l.(warnings := l.warnings + [WindowFailed(w.name)]);
      return;
    }
    var valid, invalid := ValidRecords(w.mapped.value);
    if invalid != [] {
      l := l.(warnings := l.warnings + [InvalidRecords(w.name, |invalid|)]);
    }
    l := l.(fetched := l.fetched + valid);
    l := l.(reports := l.reports + [WindowReport(w.name, |w.payload|, |valid|, |invalid|)]);
  }

  // ---------------------------------------------------------------------
  // Conservation
  // ---------------------------------------------------------------------

  function SumPersistable(reports: seq<WindowReport>): nat {
    if reports == [] then 0 else SumPersistable(reports[..|reports| - 1]) + reports[|reports| - 1].persistable
  }

  /** The windows a failure warning names, in order. */
  function FailedNames(warnings: seq<Warning>): seq<string> {
    if warnings == [] then []
    else
      var last := warnings[|warnings| - 1];
      FailedNames(warnings[..|warnings| - 1]) + if last.WindowFailed? then [last.window] else []
  }

  function ReportedNames(reports: seq<WindowReport>): seq<string> {
    seq(|reports|, i requires 0 <= i < |reports| => reports[i].window)
  }

  /** The names of the windows that were reported, or of those that failed. */
  function NamesOf(windows: seq<Window>, retries: int, reported: bool): seq<string> {
    if windows == [] then []
    else
      var last := windows[|windows| - 1];
      NamesOf(windows[..|windows| - 1], retries, reported)
      + if ReportOf(last, retries).Some? == reported then [last.name] else []
  }

  /** The failed calls among these. */
  function FailedCalls(calls: seq<Backoff.Call>): nat {
    if calls == [] then 0
    else FailedCalls(calls[..|calls| - 1]) + if calls[|calls| - 1].Raises? then 1 else 0
  }

  /** Over a trace of fetches, the failed calls that a later call of the same window made good. */
  function MadeGood(calls: seq<seq<Backoff.Call>>): nat {
    if calls == [] then 0
    else
      var last := calls[|calls| - 1];
      MadeGood(calls[..|calls| - 1]) + if last != [] && last[|last| - 1].Returns? then FailedCalls(last) else 0
  }

  lemma {:induction false} AllFailed(calls: seq<Backoff.Call>)
    requires forall i :: 0 <= i < |calls| ==> calls[i].Raises?
    ensures FailedCalls(calls) == |calls|
  {
    if calls != [] {
      AllFailed(calls[..|calls| - 1]);
    }
  }

  /** A retry that succeeds failed at every call but the last. */
  lemma {:induction false} EarlierFailed(call: nat -> Backoff.Call, retries: nat, i: nat, j: nat)
    requires i < retries && i <= j < Backoff.Calls(call, retries, i) - 1
    ensures call(j).Raises?
    decreases retries - i
  {
    if i < j {
      EarlierFailed(call, retries, i + 1, j);
    }
  }

  lemma WindowMadeGood(w: Window, retries: int)
    ensures var made := Made(w, retries);
      && (made != [] && made[|made| - 1].Returns? <==> Fetches(w, retries))
      && (Fetches(w, retries) ==> FailedCalls(made) == CallsFor(w, retries) - 1)
  {
    var made := Made(w, retries);
    if Fetches(w, retries) {
      var earlier := made[..|made| - 1];
      forall i | 0 <= i < |earlier|
        ensures earlier[i].Raises?
      {
        EarlierFailed(CallOf(w), retries, 0, i);
      }
      AllFailed(earlier);
    }
  }

  lemma FailedNamesConcat(warnings: seq<Warning>, more: seq<Warning>)
    requires |more| <= 1
    ensures FailedNames(warnings + more) == FailedNames(warnings) + FailedNames(more)
  {
    if |more| == 1 {
      assert (warnings + more)[..|warnings|] == warnings && more[..0] == [];
    } else {
      assert warnings + more == warnings;
    }
  }

  lemma SumSnoc(reports: seq<WindowReport>, r: WindowReport)
    ensures SumPersistable(reports + [r]) == SumPersistable(reports) + r.persistable
    ensures ReportedNames(reports + [r]) == ReportedNames(reports) + [r.window]
  {
    assert (reports + [r])[..|reports|] == reports;
  }

  lemma {:induction false} NamesConserved(windows: seq<Window>, retries: int)
    ensures var l := Process(windows, retries);
      && ReportedNames(l.reports) == NamesOf(windows, retries, true)
      && FailedNames(l.warnings) == NamesOf(windows, retries, false)
      && |NamesOf(windows, retries, true)| + |NamesOf(windows, retries, false)| == |windows|
  {
    if windows != [] {
      var rest, w := windows[..|windows| - 1], windows[|windows| - 1];
      hide Warnings, ReportOf, CallsFor, Fetches, Keep, FailedNames, ReportedNames;
      NamesConserved(rest, retries);
      var l := Process(rest, retries);
      FailedNamesConcat(l.warnings, Warnings(w, retries));
      OneWarning(w, retries);
      if ReportOf(w, retries).Some? {
        SumSnoc(l.reports, ReportOf(w, retries).value);
      }
    }
  }

  lemma {:induction false} RecordsConserved(windows: seq<Window>, retries: int)
    ensures var l := Process(windows, retries);
      && |l.fetched| == SumPersistable(l.reports)
      && l.retriesUsed == MadeGood(l.calls)
      && forall r :: r in l.fetched ==> Persistable(r)
  {
    if windows != [] {
      var rest, w := windows[..|windows| - 1], windows[|windows| - 1];
      RecordsConserved(rest, retries);
      hide Process;
      OneWindowConserves(Process(rest, retries), w, retries);
      hide ProcessWindow, SumPersistable, MadeGood, Persistable;
    }
  }

  lemma OneWindowConserves(l: Ledger, w: Window, retries: int)
    ensures var l' := ProcessWindow(l, w, retries);
      && |l'.fetched| - |l.fetched| == SumPersistable(l'.reports) - SumPersistable(l.reports)
      && l'.retriesUsed - l.retriesUsed == MadeGood(l'.calls) - MadeGood(l.calls)
      && ((forall r :: r in l.fetched ==> Persistable(r)) ==> forall r :: r in l'.fetched ==> Persistable(r))
  {
    OneWarning(w, retries);
    WindowMadeGood(w, retries);
    assert (l.calls + [Made(w, retries)])[..|l.calls|] == l.calls;
    hide Warnings, ReportOf, Keep, SumPersistable, Made, Fetches, CallsFor, FailedCalls;
    if ReportOf(w, retries).Some? {
      SumSnoc(l.reports, ReportOf(w, retries).value);
      KeepPartitions(w.mapped.value);
    } else {
      assert l.reports + [] == l.reports && l.fetched + [] == l.fetched;
    }
  }

  /**
    Every window gives exactly one of a report or a failure warning, both in the order of the
    windows; the records fetched are as many as the reports say; and the retries used are, in the
    trace of fetch calls, the failed calls that a later call of the same window made good.
  */
  lemma IngestConserves(windows: seq<Window>, retries: int)
    ensures var l := Process(windows, retries);
      && ReportedNames(l.reports) == NamesOf(windows, retries, true)
      && FailedNames(l.warnings) == NamesOf(windows, retries, false)
      && |l.reports| + |FailedNames(l.warnings)| == |windows|
      && |l.fetched| == SumPersistable(l.reports)
      && l.retriesUsed == MadeGood(l.calls)
      && forall r :: r in l.fetched ==> Persistable(r)
  {
    hide Process, NamesOf, FailedNames, SumPersistable, MadeGood;
    NamesConserved(windows, retries);
    RecordsConserved(windows, retries);
    assert |ReportedNames(Process(windows, retries).reports)| == |Process(windows, retries).reports|;
  }

  lemma OneWarning(w: Window, retries: int)
    ensures |Warnings(w, retries)| <= 1
    ensures FailedNames(Warnings(w, retries)) == if ReportOf(w, retries).Some? then [] else [w.name]
    ensures ReportOf(w, retries).Some? ==> w.mapped.Some? && ReportOf(w, retries).value.window == w.name
    ensures ReportOf(w, retries).Some? ==> ReportOf(w, retries).value.persistable == |Keep(w.mapped.value, true)|
  {
  }

  // ---------------------------------------------------------------------
  // The whole ledger, window by window
  // ---------------------------------------------------------------------

  /** The throttle lets the window through, one of the allowed fetch calls returns, and the mapper does not raise. */
  ghost predicate Goes(w: Window, retries: int) {
    w.throttle.Some? && w.mapped.Some? && exists i: nat :: i < retries && w.succeeds(i)
  }

  /** The mapped records with an id, in order. */
  function Valid(records: seq<Raw>): (valid: seq<Raw>)
    ensures |valid| <= |records|
  {
    if records == [] then []
    else (if records[0].Mapping? && records[0].id != "" then [records[0]] else []) + Valid(records[1..])
  }

  /** What all windows, taken one after the other, put into a list. */
  ghost function Flat<T>(windows: seq<Window>, f: Window -> seq<T>): seq<T> {
    if windows == [] then [] else f(windows[0]) + Flat(windows[1..], f)
  }

  ghost function RecordsFrom(w: Window, retries: int): seq<Raw> {
    if Goes(w, retries) then Valid(w.mapped.value) else []
  }

  ghost function ReportsFrom(w: Window, retries: int): seq<WindowReport> {
    if !Goes(w, retries) then []
    else
      var valid := |Valid(w.mapped.value)|;
      [WindowReport(w.name, |w.payload|, valid, |w.mapped.value| - valid)]
  }

  ghost function WarningsFrom(w: Window, retries: int): seq<Warning> {
    if !Goes(w, retries) then [WindowFailed(w.name)]
    else
      var valid := |Valid(w.mapped.value)|;
      if valid < |w.mapped.value| then [InvalidRecords(w.name, |w.mapped.value| - valid)] else []
  }

  function Waits(windows: seq<Window>): real {
    if windows == [] then 0.0 else (if windows[0].throttle.Some? then windows[0].throttle.value else 0.0) + Waits(windows[1..])
  }

  lemma {:induction false} SucceedsWithin(call: nat -> Backoff.Call, retries: nat, i: nat)
    requires i < retries
    ensures call(Backoff.Calls(call, retries, i) - 1).Raises? <==> forall j :: i <= j < retries ==> call(j).Raises?
    decreases retries - i
  {
    if i < retries - 1 && call(i).Raises? {
      SucceedsWithin(call, retries, i + 1);
    }
  }

  lemma GoesReported(w: Window, retries: int)
    ensures Goes(w, retries) <==> ReportOf(w, retries).Some?
  {
    if retries > 0 {
      SucceedsWithin(CallOf(w), retries, 0);
      assert forall i: nat :: CallOf(w)(i).Raises? <==> !w.succeeds(i);
    }
  }

  lemma {:induction false} ValidKept(records: seq<Raw>)
    ensures Valid(records) == Keep(records, true) && |records| == |Keep(records, true)| + |Keep(records, false)|
    decreases |records|
  {
    if records != [] {
      var first, rest := [records[0]], records[1..];
      assert records == first + rest && first[..0] == [];
      ValidKept(rest);
      KeepInOrder(first, rest, true);
      KeepInOrder(first, rest, false);
      assert forall p :: Keep(first, p) == if Persistable(records[0]) == p then first else [] by {
        assert forall p :: Keep(first[..0], p) == [];
      }
    }
  }

  lemma OneWindowFrom(w: Window, retries: int)
    ensures Warnings(w, retries) == WarningsFrom(w, retries)
    ensures ReportsFrom(w, retries) == if ReportOf(w, retries).Some? then [ReportOf(w, retries).value] else []
    ensures RecordsFrom(w, retries) == if ReportOf(w, retries).Some? then Keep(w.mapped.value, true) else []
  {
    GoesReported(w, retries);
    if w.mapped.Some? {
      ValidKept(w.mapped.value);
    }
    hide Goes, Valid, Keep, Fetches;
  }

  lemma {:induction false} FlatSnoc<T>(windows: seq<Window>, w: Window, f: Window -> seq<T>)
    ensures Flat(windows + [w], f) == Flat(windows, f) + f(w)
    decreases |windows|
  {
    if windows == [] {
      assert [w][1..] == [] && [] + [w] == [w];
    } else {
      assert (windows + [w])[1..] == windows[1..] + [w];
      FlatSnoc(windows[1..], w, f);
    }
  }

  lemma {:induction false} WaitsSnoc(windows: seq<Window>, w: Window)
    ensures Waits(windows + [w]) == Waits(windows) + if w.throttle.Some? then w.throttle.value else 0.0
    decreases |windows|
  {
    if windows == [] {
      assert [w][1..] == [] && [] + [w] == [w];
    } else {
      assert (windows + [w])[1..] == windows[1..] + [w];
      WaitsSnoc(windows[1..], w);
    }
  }

  /**
    The ledger says of each window, in order, what became of it: the records with an id of every window
    that went through and no others, a report or a failure, a count of the records without an id where
    there are any, and every wait of the throttle.
  */
  lemma {:induction false} LedgerExact(windows: seq<Window>, retries: int)
    ensures var l := Process(windows, retries);
      && l.fetched == Flat(windows, w => RecordsFrom(w, retries))
      && l.reports == Flat(windows, w => ReportsFrom(w, retries))
      && l.warnings == Flat(windows, w => WarningsFrom(w, retries))
      && l.waits == Waits(windows)
  {
    if windows != [] {
      var rest, last := windows[..|windows| - 1], windows[|windows| - 1];
      assert windows == rest + [last];
      LedgerExact(rest, retries);
      OneWindowFrom(last, retries);
      hide Flat, Waits, Warnings, WarningsFrom, RecordsFrom, ReportsFrom, Keep, ReportOf, Made, Fetches, CallsFor;
      FlatSnoc(rest, last, w => RecordsFrom(w, retries));
      FlatSnoc(rest, last, w => ReportsFrom(w, retries));
      FlatSnoc(rest, last, w => WarningsFrom(w, retries));
      WaitsSnoc(rest, last);
    }
  }

  /** The fetch calls of a window: none if the throttle raises or nothing is allowed, else up to the first that returns or the last allowed. */
  ghost predicate Called(w: Window, retries: int, made: seq<Backoff.Call>) {
    if w.throttle.None? || retries <= 0 then made == []
    else
      && 1 <= |made| <= retries
      && (forall i :: 0 <= i < |made| ==> (made[i] == Backoff.Returns <==> w.succeeds(i)) && made[i] != Backoff.RaisesOther)
      && (forall i :: 0 <= i < |made| - 1 ==> !w.succeeds(i))
      && (w.succeeds(|made| - 1) || |made| == retries)
  }

  lemma {:induction false} CalledUpTo(w: Window, retries: nat, i: nat)
    requires i < retries
    ensures var n := Backoff.Calls(CallOf(w), retries, i);
      (forall j :: i <= j < n - 1 ==> !w.succeeds(j)) && (w.succeeds(n - 1) || n == retries)
    decreases retries - i
  {
    if i < retries - 1 && CallOf(w)(i).Raises? {
      CalledUpTo(w, retries, i + 1);
    }
  }

  lemma MadeCalled(w: Window, retries: int)
    ensures Called(w, retries, Made(w, retries))
  {
    if w.throttle.Some? && retries > 0 {
      CalledUpTo(w, retries, 0);
      var made := Made(w, retries);
      assert forall i :: 0 <= i < |made| ==> made[i] == CallOf(w)(i);
      hide Made;
    }
  }

  /** The trace of fetch calls has an entry for every window, and each is just the calls a retry makes. */
  lemma {:induction false} CallsExact(windows: seq<Window>, retries: int)
    ensures var calls := Process(windows, retries).calls;
      |calls| == |windows| && forall i :: 0 <= i < |windows| ==> Called(windows[i], retries, calls[i])
  {
    hide Called, Made, Warnings, ReportOf, Fetches, Keep, CallsFor;
    if windows != [] {
      CallsExact(windows[..|windows| - 1], retries);
      MadeCalled(windows[|windows| - 1], retries);
    }
  }

  /** A report splits its mapped batch and keeps the size of what was fetched. */
  lemma ReportAddsUp(w: Window, retries: int)
    requires ReportOf(w, retries).Some?
    ensures var r := ReportOf(w, retries).value;
      r.fetched == |w.payload| && r.persistable + r.invalid == |w.mapped.value|
  {
    KeepPartitions(w.mapped.value);
    var records := w.mapped.value;
    assert |multiset(Keep(records, true)) + multiset(Keep(records, false))| == |multiset(records)|;
  }
}
