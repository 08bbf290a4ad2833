/** Waiting between attempts: the worker's backoff policy and the retry helper. */
module Backoff {
  import opened Wrappers
  import opened Numbers

  function Pow(base: real, n: nat): real {
    if n == 0 then 1.0 else base * Pow(base, n - 1)
  }

  // ---------------------------------------------------------------------
  // The worker's policy
  // ---------------------------------------------------------------------

  datatype Policy = Policy(initial: real, maximum: real, multiplier: real)
  {
    ghost predicate Valid() {
      0.0 <= initial <= maximum && multiplier >= 1.0
    }

    /** The wait after so many failures in a row; None is the refused argument. */
    function Delay(consecutive: int): Option<real> {
      if consecutive < 1 then None else Some(Min(initial * Pow(multiplier, consecutive - 1), maximum))
    }
  }

  lemma {:induction false} PowGrows(base: real, m: nat, n: nat)
    requires base >= 1.0 && m <= n
    ensures 1.0 <= Pow(base, m) <= Pow(base, n)
    decreases n
  {
    if n > 0 {
      if m == n {
        PowGrows(base, m - 1, n - 1);
        TimesGrows(Pow(base, m - 1), base);
      } else {
        PowGrows(base, m, n - 1);
        TimesGrows(Pow(base, n - 1), base);
      }
    }
  }

  lemma TimesGrows(x: real, factor: real)
    requires x >= 1.0 && factor >= 1.0
    ensures factor * x >= x
  {
    assert (factor - 1.0) * x >= 0.0;
  }

  lemma TimesOrdered(factor: real, x: real, y: real)
    requires factor >= 0.0 && x <= y
    ensures factor * x <= factor * y
  {
    assert factor * (y - x) >= 0.0;
  }

  /** Delays never shrink as failures go on, and stay between the initial and the maximum wait. */
  lemma DelayMonotone(p: Policy, m: nat, n: nat)
    requires p.Valid() && 1 <= m <= n
    ensures p.initial <= p.Delay(m).value <= p.Delay(n).value <= p.maximum
  {
    PowGrows(p.multiplier, m - 1, n - 1);
    TimesOrdered(p.initial, 1.0, Pow(p.multiplier, m - 1));
    TimesOrdered(p.initial, Pow(p.multiplier, m - 1), Pow(p.multiplier, n - 1));
  }

  /**
    The first wait is the initial one and each further one the multiplier times the last, held to the
    maximum; so below the maximum neighbouring waits have exactly that ratio.
  */
  lemma DelayRecurs(p: Policy, n: int)
    requires p.Valid()
    ensures p.Delay(n).None? <==> n < 1
    ensures p.Delay(1) == Some(p.initial)
    ensures n >= 1 ==>
      var grown := p.multiplier * p.Delay(n).value;
      p.Delay(n + 1) == Some(if grown <= p.maximum then grown else p.maximum)
    ensures n >= 1 && p.Delay(n + 1).value < p.maximum ==> p.Delay(n + 1).value == p.multiplier * p.Delay(n).value
  {
    if n >= 1 {
      var x := Pow(p.multiplier, n - 1);
      assert p.initial * (p.multiplier * x) == p.multiplier * (p.initial * x);
      if p.initial * x > p.maximum {
        TimesOrdered(p.multiplier, p.maximum, p.initial * x);
        assert (p.multiplier - 1.0) * p.maximum >= 0.0;
      }
    }
  }

  // ---------------------------------------------------------------------
  // retry
  // ---------------------------------------------------------------------

  datatype Growth = Linear | Exponential

  datatype Plan = Plan(growth: Growth, seconds: real, cap: Option<real>)

  /** The wait after attempt `i`, counting from zero. */
  function DelaySeconds(p: Plan, i: nat): real {
    var delay := if p.growth.Linear? then p.seconds * ((i + 1) as real) else p.seconds * Pow(2.0, i);
    if p.cap.Some? then Min(delay, p.cap.value) else delay
  }

  /** With multiplier two the worker waits after `n` failures what a capped exponential retry waits after attempt `n - 1`. */
  lemma DelayIsRetryShifted(p: Policy, n: nat)
    requires p.multiplier == 2.0 && n >= 1
    ensures p.Delay(n) == Some(DelaySeconds(Plan(Exponential, p.initial, Some(p.maximum)), n - 1))
  {
    var d := p.initial * Pow(2.0, n - 1);
    assert p.Delay(n) == Some(Min(d, p.maximum));
    assert DelaySeconds(Plan(Exponential, p.initial, Some(p.maximum)), n - 1) == Min(d, p.maximum);
  }

  /** One call of the function: it returns, raises what is retried, or raises something else. */
  datatype Call = Returns | Raises | RaisesOther

  /** The calls in order, and the waits between them. */
  datatype Retried = Retried(made: seq<Call>, slept: seq<real>)

  /**
    The loop: every call but the last raised what is retried, the last did not or had no retry
    left, and the waits are those of the plan.  With no retries allowed nothing is called.
  */
  method Retry(call: nat -> Call, retries: int, plan: Plan) returns (r: Retried)
    ensures retries <= 0 ==> r == Retried([], [])
    ensures retries > 0 ==>
      && 1 <= |r.made| <= retries && |r.slept| == |r.made| - 1
      && (forall i :: 0 <= i < |r.made| ==> r.made[i] == call(i))
      && (forall i :: 0 <= i < |r.made| - 1 ==> r.made[i] == Raises && r.slept[i] == DelaySeconds(plan, i))
      && (r.made[|r.made| - 1] == Raises ==> |r.made| == retries)
  {
    var made, slept := [], [];
    var i := 0;
    while i < retries
      invariant 0 <= i && |made| == |slept| == i && (retries > 0 ==> i < retries)
      invariant forall j :: 0 <= j < i ==> made[j] == call(j) == Raises && slept[j] == DelaySeconds(plan, j)
      decreases retries - i
    {
      made := made + [call(i)];
      if i == retries - 1 || !call(i).Raises? {
        return Retried(made, slept);
      }
      slept := slept + [DelaySeconds(plan, i)];
      i := i + 1;
    }
    return Retried([], []);
  }

  /** The calls a retry makes, told by the function alone. */
  function Calls(call: nat -> Call, retries: nat, i: nat): (calls: nat)
    requires i < retries
    ensures i < calls <= retries
    decreases retries - i
  {
    if i == retries - 1 || !call(i).Raises? then i + 1 else Calls(call, retries, i + 1)
  }

  /** Whatever meets the retry loop's contract made exactly those calls. */
  lemma {:induction false} CallsUnique(call: nat -> Call, retries: nat, calls: nat, i: nat)
    requires i < calls <= retries
    requires forall j :: i <= j < calls - 1 ==> call(j) == Raises
    requires call(calls - 1) == Raises ==> calls == retries
    ensures Calls(call, retries, i) == calls
    decreases retries - i
  {
    if i < calls - 1 {
      CallsUnique(call, retries, calls, i + 1);
    }
  }

  /** The time spent in the first `n` waits. */
  function Total(plan: Plan, n: nat): real {
    if n == 0 then 0.0 else Total(plan, n - 1) + DelaySeconds(plan, n - 1)
  }

  /** `k` calls of a linear retry without a cap wait `seconds * k * (k - 1) / 2` in all. */
  lemma {:induction false} LinearTotal(seconds: real, k: nat)
    requires k >= 1
    ensures Total(Plan(Linear, seconds, None), k - 1) == seconds * (k as real) * ((k - 1) as real) / 2.0
  {
    if k > 1 {
      LinearTotal(seconds, k - 1);
      var x := (k - 1) as real;
      assert (k as real) == x + 1.0 && ((k - 2) as real) == x - 1.0;
      Triangular(seconds, x);
    }
  }

  lemma Triangular(seconds: real, x: real)
    ensures seconds * x * (x - 1.0) / 2.0 + seconds * x == seconds * (x + 1.0) * x / 2.0
  {
    assert seconds * x * (x - 1.0) + 2.0 * (seconds * x) == seconds * x * (x + 1.0);
    assert seconds * x * (x + 1.0) == seconds * (x + 1.0) * x;
  }

  /** `k` calls of an exponential retry without a cap wait `seconds * (2^(k - 1) - 1)` in all. */
  lemma {:induction false} ExponentialTotal(seconds: real, k: nat)
    requires k >= 1
    ensures Total(Plan(Exponential, seconds, None), k - 1) == seconds * (Pow(2.0, k - 1) - 1.0)
  {
    if k > 1 {
      ExponentialTotal(seconds, k - 1);
      var p := Pow(2.0, k - 2);
      assert Pow(2.0, k - 1) == 2.0 * p;
      assert seconds * (p - 1.0) + seconds * p == seconds * (2.0 * p - 1.0);
    }
  }

  lemma CapBoundsOne(growth: Growth, seconds: real, cap: real, i: nat)
    ensures DelaySeconds(Plan(growth, seconds, Some(cap)), i) <= DelaySeconds(Plan(growth, seconds, None), i)
    ensures DelaySeconds(Plan(growth, seconds, Some(cap)), i) <= cap
  {
  }

  /** A cap changes a wait only when it is longer, and then the wait is the cap. */
  lemma CapExact(growth: Growth, seconds: real, cap: real, i: nat)
    ensures var free := DelaySeconds(Plan(growth, seconds, None), i);
      DelaySeconds(Plan(growth, seconds, Some(cap)), i) == if free <= cap then free else cap
  {
  }

  lemma CapStep(cap: real, n: nat)
    requires n > 0
    ensures cap * (n as real) == cap * ((n - 1) as real) + cap
  {
    var x := (n - 1) as real;
    assert (n as real) == x + 1.0;
    assert cap * (x + 1.0) == cap * x + cap;
  }

  /** A cap bounds every wait, and never makes the total longer. */
  lemma {:induction false} CapBounds(growth: Growth, seconds: real, cap: real, n: nat)
    ensures Total(Plan(growth, seconds, Some(cap)), n) <= Total(Plan(growth, seconds, None), n)
    ensures Total(Plan(growth, seconds, Some(cap)), n) <= cap * (n as real)
  {
    hide DelaySeconds;
    if n > 0 {
      CapBounds(growth, seconds, cap, n - 1);
      CapBoundsOne(growth, seconds, cap, n - 1);
      CapStep(cap, n);
    }
  }

  /** With the cap of zero an ingest profile has by default, a retry never waits, whatever its backoff. */
  lemma {:induction false} ZeroCapNeverWaits(growth: Growth, seconds: real, n: nat)
    requires seconds >= 0.0
    ensures DelaySeconds(Plan(growth, seconds, Some(0.0)), n) == 0.0
    ensures Total(Plan(growth, seconds, Some(0.0)), n) == 0.0
  {
    PowGrows(2.0, 0, n);
    assert seconds * Pow(2.0, n) >= 0.0;
    if n > 0 {
      ZeroCapNeverWaits(growth, seconds, n - 1);
    }
  }
}
