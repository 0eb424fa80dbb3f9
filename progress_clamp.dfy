/** The simulated progress counter both briefing forms run while a briefing is being
    generated: every tick adds a random amount below 15, and a sum that reaches 100 is
    pulled back to 99. The random amounts are inputs. */
module ProgressClamp {

  /** One tick of the interval: `prev + delta`, or 99 once that reaches 100. */
  function ClampedStep(prev: real, delta: real): (r: real)
    ensures r < 100.0
    ensures prev + delta < 100.0 ==> r == prev + delta
    ensures prev + delta >= 100.0 ==> r == 99.0
  {
    var next := prev + delta;
    if next >= 100.0 then 99.0 else next
  }

  /** A tick never lowers a progress of at most 99 by a non-negative delta. */
  lemma StepNeverLowersBelowClamp(prev: real, delta: real)
    requires prev <= 99.0 && delta >= 0.0
    ensures ClampedStep(prev, delta) >= prev
  {
  }

  /** Above 99 the clamp does move the bar backwards: 99.5 plus 1 shows 99. */
  lemma StepCanMoveBack()
    ensures ClampedStep(99.5, 1.0) == 99.0 < 99.5
  {
  }

  /** The progress after the ticks `deltas`, in order, starting from `start`. */
  function AfterTicks(start: real, deltas: seq<real>): (r: real)
    ensures deltas == [] ==> r == start
    ensures deltas != [] ==> r < 100.0
    ensures start >= 0.0 && (forall k :: 0 <= k < |deltas| ==> deltas[k] >= 0.0) ==> r >= 0.0
    decreases |deltas|
  {
    if deltas == [] then start else AfterTicks(ClampedStep(start, deltas[0]), deltas[1..])
  }

  /** Ticking through a prefix and then the rest is ticking through the whole. */
  lemma {:induction false} AfterTicksSplit(start: real, deltas: seq<real>, i: nat)
    requires i < |deltas|
    ensures AfterTicks(start, deltas[..i + 1]) == ClampedStep(AfterTicks(start, deltas[..i]), deltas[i])
    decreases i
  {
    if i == 0 {
      assert deltas[..1][1..] == [];
    } else {
      assert deltas[..i + 1][1..] == deltas[1..][..i];
      assert deltas[..i][1..] == deltas[1..][..i - 1];
      AfterTicksSplit(ClampedStep(start, deltas[0]), deltas[1..], i - 1);
    }
  }

  /** With ticks of at least 0 and a start of at most 99, the bar never goes down. */
  lemma {:induction false} AfterTicksMonotone(start: real, deltas: seq<real>)
    requires 0.0 <= start <= 99.0
    requires forall k :: 0 <= k < |deltas| ==> deltas[k] >= 0.0
    ensures AfterTicks(start, deltas) >= start
    decreases |deltas|
  {
    if deltas != [] {
      var next := ClampedStep(start, deltas[0]);
      StepNeverLowersBelowClamp(start, deltas[0]);
      if next <= 99.0 {
        AfterTicksMonotone(next, deltas[1..]);
      } else {
        assert next < 100.0;
        AfterTicksAboveClamp(next, deltas[1..]);
      }
    }
  }

  /** From above 99 the bar stays between 99 and 100. */
  lemma {:induction false} AfterTicksAboveClamp(start: real, deltas: seq<real>)
    requires 99.0 <= start < 100.0
    requires forall k :: 0 <= k < |deltas| ==> deltas[k] >= 0.0
    ensures 99.0 <= AfterTicks(start, deltas) < 100.0
    decreases |deltas|
  {
    if deltas != [] {
      AfterTicksAboveClamp(ClampedStep(start, deltas[0]), deltas[1..]);
    }
  }

  /** The interval's ticks applied one after another, from `start`. */
  method RunTicks(start: real, ticks: seq<real>) returns (progress: real)
    ensures progress == AfterTicks(start, ticks)
  {
    progress := start;
    var i := 0;
    while i < |ticks|
      invariant 0 <= i <= |ticks|
      invariant progress == AfterTicks(start, ticks[..i])
    {
      AfterTicksSplit(start, ticks, i);
      progress := ClampedStep(progress, ticks[i]);
      i := i + 1;
    }
    assert ticks[..|ticks|] == ticks;
  }
}
