/** The continuous host as the loop it is, with its nested counters in local variables. */
module ContinuousProgram {
  import opened Wrappers
  import opened Continuous
  import opened ContinuousTrace

  datatype LoopRun = LoopRun(sequence: nat, counted: nat, attempts: nat, last: Option<Directive>)

  datatype Result = BadBound | Raised | Ran(run: LoopRun)

  class ContinuousWorkerHost {
    const rotationAttempts: Option<nat>

    constructor (rotationAttempts: Option<nat>)
      requires rotationAttempts.Some? ==> rotationAttempts.value >= 1
      ensures this.rotationAttempts == rotationAttempts
    {
      this.rotationAttempts := rotationAttempts;
    }

    /** Count, rotate and wait as a directive says. */
    method Apply(d: Directive, counted: nat, attempts: nat, error: bool, seen: seq<Event>, ghost s: LoopState)
      returns (counted': nat, attempts': nat, repeatedWait: bool, stop: bool, trace: seq<Event>)
      requires s.counted == counted && s.attempts == attempts && s.trace == seen && s.status.Looping?
      ensures ApplyDirective(s, d, error) == LoopState(
        s.sequence, counted', attempts', repeatedWait, Some(d), if stop then Stopped else Looping, trace)
    {
      counted' := if d.counted then counted + 1 else counted;
      attempts', trace := attempts, seen + [Directed(d, error)];
      if d.rotate {
        attempts', trace := 0, trace + [Rotated(false)];
      }
      repeatedWait := error || d.action.Wait?;
      stop := d.action.Stop?;
      if d.action.Wait? {
        trace := trace + [Waited(if d.delay.Some? then d.delay.value else 0.0)];
      }
    }

    /** Rotate a full boundary, then count the step about to run. */
    method BeginStep(sequence: nat, attempts: nat, seen: seq<Event>, ghost s: LoopState)
      returns (sequence': nat, attempts': nat, trace: seq<Event>)
      requires s.sequence == sequence && s.attempts == attempts && s.trace == seen
      ensures var full := RotateFull(rotationAttempts, s);
        && sequence' == full.sequence + 1 && attempts' == full.attempts + 1 && trace == full.trace + [Called]
        && full == s.(attempts := full.attempts, trace := full.trace)
    {
      attempts', trace := attempts, seen;
      if rotationAttempts.Some? && attempts >= rotationAttempts.value {
        attempts', trace := 0, trace + [Rotated(true)];
      }
      sequence', attempts', trace := sequence + 1, attempts' + 1, trace + [Called];
    }

    /**
      The loop over the consumer's turns; once they are used up a stop has been requested.  Of the
      turns it takes the first `taken` and no more, up to an escape, a stop or a full count, and its
      summary and trace are what those say.
    */
    method Run(turns: seq<Turn>, maxCounted: Option<int>) returns (r: Result, trace: seq<Event>, ghost taken: nat)
      requires rotationAttempts.Some? ==> rotationAttempts.value >= 1
      ensures r.BadBound? <==> maxCounted.Some? && maxCounted.value < 0
      ensures r.BadBound? ==> trace == []
      ensures !r.BadBound? ==>
        var max := if maxCounted.Some? then Some(maxCounted.value as nat) else None;
        var s := Loop(rotationAttempts, max, turns);
        && trace == s.trace && (r.Raised? <==> s.status.Escaped?)
        && (r.Ran? ==> r.run == LoopRun(s.sequence, s.counted, s.attempts, s.last))
        && Told(max, turns, taken, s) && (taken == |turns| || Over(max, turns, taken))
        && CountersMatch(rotationAttempts, max, s)
    {
      trace, taken := [], 0;
      if maxCounted.Some? && maxCounted.value < 0 {
        return BadBound, [], 0;
      }
      ghost var max: Option<nat> := if maxCounted.Some? then Some(maxCounted.value as nat) else None;
      assert Loop(rotationAttempts, max, turns[..0]) == INITIAL;
      hide Told, Over, CountersMatch, Loop;
      var sequence: nat, counted: nat, attempts: nat := 0, 0, 0;
      var repeatedWait := false;
      var last: Option<Directive> := None;
      var stopped := false;
      var i := 0;
      while i < |turns| && !stopped && (maxCounted.None? || counted < maxCounted.value)
        invariant 0 <= i <= |turns|
        invariant LoopState(sequence, counted, attempts, repeatedWait, last, if stopped then Stopped else Looping, trace)
          == Loop(rotationAttempts, max, turns[..i])
        decreases |turns| - i
      {
        hide ApplyDirective, RotateFull;
        ghost var before := Loop(rotationAttempts, max, turns[..i]);
        TurnTaken(rotationAttempts, max, turns, i);
        var t := turns[i];
        i := i + 1;
        if !t.Control? {
          sequence, attempts, trace := BeginStep(sequence, attempts, trace, before);
          if t.Escapes? {
            FinishedLoop(rotationAttempts, max, turns, i);
            taken := LoopRead(rotationAttempts, max, turns);
            return Raised, trace, taken;
          }
        }
        ghost var s := LoopState(sequence, counted, attempts, repeatedWait, last, Looping, trace);
        last := Some(t.d);
        counted, attempts, repeatedWait, stopped, trace := Apply(t.d, counted, attempts, t.Maps?, trace, s);
      }
      FinishedLoop(rotationAttempts, max, turns, i);
      taken := LoopRead(rotationAttempts, max, turns);
      return Ran(LoopRun(sequence, counted, attempts, last)), trace, taken;
    }
  }
}
