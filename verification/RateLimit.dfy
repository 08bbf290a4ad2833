/** The token bucket: acquire loops, and the rate bound over any sequence of attempts. */
module RateLimit {
  import opened Wrappers
  import opened Numbers

  /** `tokens` are what is left at time `last`. */
  datatype Level = Level(tokens: real, last: real)

  /** What a span of time brings. */
  function Gain(rate: real, span: real): real {
    span * rate
  }

  lemma GainGrows(rate: real, span: real)
    requires rate > 0.0 && span >= 0.0
    ensures Gain(rate, span) >= 0.0
  {
  }

  lemma GainAdds(rate: real, a: real, b: real)
    ensures Gain(rate, a + b) == Gain(rate, a) + Gain(rate, b)
  {
  }

  lemma GainZero(rate: real)
    ensures Gain(rate, 0.0) == 0.0
  {
  }

  /** The level once the clock shows `now`. */
  function Refill(capacity: real, rate: real, l: Level, now: real): Level {
    Level(Min(capacity, l.tokens + Gain(rate, now - l.last)), now)
  }

  /** One attempt of one caller, under the lock. */
  datatype Attempt = Attempt(now: real, amount: real)

  function Grants(capacity: real, rate: real, l: Level, a: Attempt): bool {
    Refill(capacity, rate, l, a.now).tokens >= a.amount
  }

  function After(capacity: real, rate: real, l: Level, a: Attempt): Level {
    var full := Refill(capacity, rate, l, a.now);
    if full.tokens >= a.amount then full.(tokens := full.tokens - a.amount) else full
  }

  function RunAttempts(capacity: real, rate: real, l: Level, attempts: seq<Attempt>): Level {
    if attempts == [] then l
    else After(capacity, rate, RunAttempts(capacity, rate, l, attempts[..|attempts| - 1]), attempts[|attempts| - 1])
  }

  /** Tokens granted by the attempts from index `i` on. */
  function Granted(capacity: real, rate: real, l: Level, attempts: seq<Attempt>, i: nat): real
    requires i <= |attempts|
  {
    if |attempts| == i then 0.0
    else
      var rest, last := attempts[..|attempts| - 1], attempts[|attempts| - 1];
      Granted(capacity, rate, l, rest, i)
      + if Grants(capacity, rate, RunAttempts(capacity, rate, l, rest), last) then last.amount else 0.0
  }

  /** The clock never goes back and every amount is one the bucket accepts. */
  ghost predicate Orderly(capacity: real, l: Level, attempts: seq<Attempt>) {
    && (forall i :: 0 <= i < |attempts| ==> 0.0 < attempts[i].amount <= capacity && l.last <= attempts[i].now)
    && (forall i, j :: 0 <= i < j < |attempts| ==> attempts[i].now <= attempts[j].now)
  }

  ghost predicate Sane(capacity: real, rate: real, l: Level) {
    capacity > 0.0 && rate > 0.0 && 0.0 <= l.tokens <= capacity
  }

  /** The stored tokens stay within the capacity, and `last` is the time of the last attempt. */
  lemma {:induction false} LevelBounded(capacity: real, rate: real, l: Level, attempts: seq<Attempt>)
    requires Sane(capacity, rate, l) && Orderly(capacity, l, attempts)
    ensures var l' := RunAttempts(capacity, rate, l, attempts);
      Sane(capacity, rate, l') && l'.last == if attempts == [] then l.last else attempts[|attempts| - 1].now
  {
    hide Gain;
    if attempts != [] {
      var m := |attempts| - 1;
      LevelBounded(capacity, rate, l, attempts[..m]);
      GainGrows(rate, attempts[m].now - RunAttempts(capacity, rate, l, attempts[..m]).last);
    }
  }

  /** A refill to this level at `now` would overflow the bucket. */
  predicate Clipped(capacity: real, rate: real, l: Level, now: real) {
    l.tokens + Gain(rate, now - l.last) > capacity
  }

  /**
    An attempt is granted exactly when what was there and what time has brought, held to the capacity,
    covers it; a granted one takes just its amount and a refused one nothing.
  */
  lemma AttemptExact(capacity: real, rate: real, l: Level, a: Attempt)
    ensures var level := l.tokens + (a.now - l.last) * rate;
      var full := if level <= capacity then level else capacity;
      && (Grants(capacity, rate, l, a) <==> a.amount <= full)
      && After(capacity, rate, l, a) == Level(if a.amount <= full then full - a.amount else full, a.now)
  {
  }

  /** What one attempt grants and leaves is what was there and what time has brought, less what overflows. */
  lemma AttemptConserves(capacity: real, rate: real, l: Level, a: Attempt)
    ensures After(capacity, rate, l, a).last == a.now
    ensures var kept := (if Grants(capacity, rate, l, a) then a.amount else 0.0) + After(capacity, rate, l, a).tokens;
      if Clipped(capacity, rate, l, a.now) then kept == capacity < l.tokens + Gain(rate, a.now - l.last)
      else kept == l.tokens + Gain(rate, a.now - l.last)
  {
    hide Gain;
  }

  /** None of the attempts from index `i` on met an overflowing bucket. */
  ghost predicate NothingClipped(capacity: real, rate: real, l: Level, attempts: seq<Attempt>, i: nat) {
    forall k :: i <= k < |attempts| ==> !Clipped(capacity, rate, RunAttempts(capacity, rate, l, attempts[..k]), attempts[k].now)
  }

  /**
    Conservation: what was granted since attempt `i`, plus what is left, is at most what was there
    before attempt `i` plus what time has brought, and is equal to it exactly when no refill since
    then overflowed.
  */
  lemma {:induction false} GrantedConserved(capacity: real, rate: real, l: Level, attempts: seq<Attempt>, i: nat)
    requires i <= |attempts|
    ensures var before, after := RunAttempts(capacity, rate, l, attempts[..i]), RunAttempts(capacity, rate, l, attempts);
      var kept, brought := Granted(capacity, rate, l, attempts, i) + after.tokens, before.tokens + Gain(rate, after.last - before.last);
      kept <= brought && (kept == brought <==> NothingClipped(capacity, rate, l, attempts, i))
  {
    hide Gain, After, Grants, Clipped;
    if i == |attempts| {
      assert attempts[..i] == attempts;
      GainZero(rate);
    } else {
      hide NothingClipped;
      var m := |attempts| - 1;
      GrantedConserved(capacity, rate, l, attempts[..m], i);
      assert attempts[..m][..i] == attempts[..i];
      var before, middle := RunAttempts(capacity, rate, l, attempts[..i]), RunAttempts(capacity, rate, l, attempts[..m]);
      AttemptConserves(capacity, rate, middle, attempts[m]);
      GainAdds(rate, middle.last - before.last, attempts[m].now - middle.last);
      ClippedLast(capacity, rate, l, attempts, i);
    }
  }

  lemma ClippedLast(capacity: real, rate: real, l: Level, attempts: seq<Attempt>, i: nat)
    requires i < |attempts|
    ensures var m := |attempts| - 1;
      NothingClipped(capacity, rate, l, attempts, i) <==>
      NothingClipped(capacity, rate, l, attempts[..m], i) && !Clipped(capacity, rate, RunAttempts(capacity, rate, l, attempts[..m]), attempts[m].now)
  {
    hide Clipped;
    var m := |attempts| - 1;
    assert forall k :: i <= k < m ==> attempts[..m][..k] == attempts[..k] && attempts[..m][k] == attempts[k];
    if NothingClipped(capacity, rate, l, attempts[..m], i) {
      forall k | i <= k < m
        ensures !Clipped(capacity, rate, RunAttempts(capacity, rate, l, attempts[..k]), attempts[k].now)
      {
        assert !Clipped(capacity, rate, RunAttempts(capacity, rate, l, attempts[..m][..k]), attempts[..m][k].now);
      }
    }
    if NothingClipped(capacity, rate, l, attempts, i) {
      forall k | i <= k < m
        ensures !Clipped(capacity, rate, RunAttempts(capacity, rate, l, attempts[..m][..k]), attempts[..m][k].now)
      {
        assert !Clipped(capacity, rate, RunAttempts(capacity, rate, l, attempts[..k]), attempts[k].now);
      }
    }
  }

  /**
    The rate bound: from the attempt at index `i` to the last one, inclusive, the tokens granted
    are at most the capacity plus the rate times the time between the two.
  */
  lemma RateBound(capacity: real, rate: real, l: Level, attempts: seq<Attempt>, i: nat)
    requires Sane(capacity, rate, l) && Orderly(capacity, l, attempts) && i < |attempts|
    ensures Granted(capacity, rate, l, attempts, i)
         <= capacity + Gain(rate, attempts[|attempts| - 1].now - attempts[i].now)
  {
    hide Gain, Granted;
    var first := attempts[..i + 1];
    assert first[..i] == attempts[..i];
    LevelBounded(capacity, rate, l, attempts[..i]);
    LevelBounded(capacity, rate, l, first);
    LevelBounded(capacity, rate, l, attempts);
    GrantedConserved(capacity, rate, l, attempts, i + 1);
    GrantedSplit(capacity, rate, l, attempts, i);
    var here, start := RunAttempts(capacity, rate, l, first), RunAttempts(capacity, rate, l, attempts[..i]);
    assert first[..|first| - 1] == attempts[..i];
    assert here == After(capacity, rate, start, attempts[i]);
    assert (if Grants(capacity, rate, start, attempts[i]) then attempts[i].amount else 0.0) + here.tokens <= capacity;
  }

  lemma {:induction false} GrantedSplit(capacity: real, rate: real, l: Level, attempts: seq<Attempt>, i: nat)
    requires i < |attempts|
    ensures Granted(capacity, rate, l, attempts, i) == Granted(capacity, rate, l, attempts, i + 1)
      + if Grants(capacity, rate, RunAttempts(capacity, rate, l, attempts[..i]), attempts[i]) then attempts[i].amount else 0.0
  {
    var m := |attempts| - 1;
    if i < m {
      GrantedSplit(capacity, rate, l, attempts[..m], i);
      assert attempts[..m][..i] == attempts[..i];
    } else {
      assert Granted(capacity, rate, l, attempts[..m], i) == 0.0;
    }
  }

  /** And the bound is met: a full bucket grants its whole capacity at once. */
  lemma BurstReached(capacity: real, rate: real, now: real)
    requires capacity > 0.0 && rate > 0.0
    ensures var burst := [Attempt(now, capacity)];
      Granted(capacity, rate, Level(capacity, now), burst, 0) == capacity + Gain(rate, burst[0].now - burst[0].now)
  {
    var burst := [Attempt(now, capacity)];
    assert burst[..0] == [];
    assert Granted(capacity, rate, Level(capacity, now), burst[..0], 0) == 0.0;
    GainZero(rate);
  }

  lemma GrantedByOneOrTwo(capacity: real, rate: real, l: Level, a: Attempt, b: Attempt)
    ensures Granted(capacity, rate, l, [a], 0) == if Grants(capacity, rate, l, a) then a.amount else 0.0
    ensures Granted(capacity, rate, l, [a, b], 0) == Granted(capacity, rate, l, [a], 0)
      + if Grants(capacity, rate, After(capacity, rate, l, a), b) then b.amount else 0.0
  {
    assert [a][..0] == [] && [a, b][..1] == [a];
    assert RunAttempts(capacity, rate, l, [a][..0]) == l;
    assert RunAttempts(capacity, rate, l, [a]) == After(capacity, rate, l, a);
  }

  // ---------------------------------------------------------------------
  // One caller's acquire
  // ---------------------------------------------------------------------

  datatype Acquired = Acquired(waited: real, sleeps: nat)

  class TokenBucket {
    const rate: real
    const capacity: real
    var tokens: real
    var last: real

    ghost predicate Valid()
      reads this
    {
      Sane(capacity, rate, Level(tokens, last))
    }

    constructor (rate: real, capacity: real, now: real)
      requires rate > 0.0 && capacity > 0.0
      ensures Valid() && this.rate == rate && this.capacity == capacity && tokens == capacity && last == now
    {
      this.rate, this.capacity, tokens, last := rate, capacity, capacity, now;
    }

    /** One turn of the loop under the lock; None when granted, else how long to sleep. */
    method Try(amount: real, now: real) returns (wait: Option<real>)
      requires Valid() && now >= last && 0.0 < amount <= capacity
      modifies this
      ensures Valid() && Level(tokens, last) == After(capacity, rate, old(Level(tokens, last)), Attempt(now, amount))
      ensures wait.None? <==> Grants(capacity, rate, old(Level(tokens, last)), Attempt(now, amount))
      ensures wait.Some? ==> wait.value > 0.0 && Gain(rate, wait.value) == amount - tokens
    {
      GainGrows(rate, now - last);
      var elapsed := now - last;
      tokens := Min(capacity, tokens + Gain(rate, elapsed));
      last := now;
      if tokens >= amount {
        tokens := tokens - amount;
        return None;
      }
      var short := amount - tokens;
      ShortWait(short, rate);
      return Some(short / rate);
    }

    /**
      The acquire loop of a caller nobody interferes with: `clock[k]` is read at turn `k`.  When
      each sleep lasts at least as long as asked, one sleep is enough.
    */
    method Acquire(amount: real, clock: seq<real>) returns (r: Option<Acquired>)
      requires Valid()
      requires |clock| >= 2 && last <= clock[0] <= clock[1]
      requires 0.0 < amount <= capacity ==> clock[1] >= clock[0] + Shortfall(capacity, rate, Level(tokens, last), Attempt(clock[0], amount))
      modifies this
      ensures Valid()
      ensures r.None? <==> amount <= 0.0 || amount > capacity
      ensures r.None? ==> tokens == old(tokens) && last == old(last)
      ensures r.Some? ==>
        var at := Attempt(clock[0], amount);
        var before := old(Level(tokens, last));
        && r.value.waited == Shortfall(capacity, rate, before, at)
        && r.value.sleeps == (if Grants(capacity, rate, before, at) then 0 else 1)
        && last == clock[r.value.sleeps]
        && Level(tokens, last) == RunAttempts(capacity, rate, before, [at, Attempt(clock[1], amount)][..r.value.sleeps + 1])
        && Granted(capacity, rate, before, [at, Attempt(clock[1], amount)][..r.value.sleeps + 1], 0) == amount
    {
      if amount <= 0.0 || amount > capacity {
        return None;
      }
      ghost var before := Level(tokens, last);
      ghost var at, again := Attempt(clock[0], amount), Attempt(clock[1], amount);
      ghost var both := [at, again];
      assert both[..1] == [at] && both[..2] == both && [at][..0] == [];
      var waited := 0.0;
      var turn := 0;
      while true
        invariant turn == 0 || turn == 1
        invariant turn == 0 ==> waited == 0.0 && Level(tokens, last) == before
        invariant turn == 1 ==> !Grants(capacity, rate, before, at) && Level(tokens, last) == After(capacity, rate, before, at)
        invariant turn == 1 ==> waited == Shortfall(capacity, rate, before, at) && Gain(rate, waited) == amount - tokens
        invariant Valid() && last <= clock[turn]
        decreases 1 - turn
      {
        ghost var level := Level(tokens, last);
        var wait := Try(amount, clock[turn]);
        if wait.None? {
          GrantedByOneOrTwo(capacity, rate, before, at, again);
          assert RunAttempts(capacity, rate, before, [at]) == After(capacity, rate, before, at);
          assert turn == 1 ==> RunAttempts(capacity, rate, before, both) == After(capacity, rate, After(capacity, rate, before, at), again);
          return Some(Acquired(waited, turn));
        }
        if turn == 1 {
          LongEnough(capacity, rate, level, clock[1], amount, waited);
          assert false;
        }
        ShortWait(amount - tokens, rate);
        assert wait.value == Shortfall(capacity, rate, before, at);
        waited := waited + wait.value;
        turn := turn + 1;
      }
    }
  }

  /** How long the loop asks to sleep after a refused attempt. */
  function Shortfall(capacity: real, rate: real, l: Level, a: Attempt): real
    requires rate > 0.0
  {
    var full := Refill(capacity, rate, l, a.now);
    if full.tokens >= a.amount then 0.0 else (a.amount - full.tokens) / rate
  }

  lemma ShortWait(short: real, rate: real)
    requires short > 0.0 && rate > 0.0
    ensures short / rate > 0.0 && Gain(rate, short / rate) == short
  {
  }

  /** Once a sleep lasted as long as asked, the tokens are there. */
  lemma LongEnough(capacity: real, rate: real, l: Level, now: real, amount: real, waited: real)
    requires rate > 0.0 && amount <= capacity && now - l.last >= waited && Gain(rate, waited) == amount - l.tokens
    ensures Grants(capacity, rate, l, Attempt(now, amount))
  {
    hide Gain;
    GainGrows(rate, now - l.last - waited);
    GainAdds(rate, waited, now - l.last - waited);
  }
}
