/**
 * The session's sampling parameters: the noise scale, nudged down (clamped at
 * a minimum) or up by a fixed step, and the seed, drawn anew on re-seeding.
 */
module Parameters {

  const InitialScale: real := 0.1
  const MinScale: real := 0.01
  const ScaleStep: real := 0.02
  /** Seeds are `Math.random() * 10000`. */
  const SeedRange: real := 10000.0

  /** `Math.max(0.01, s - 0.02)`. */
  function DecreasedScale(s: real): (r: real)
    ensures r >= MinScale && r >= s - ScaleStep
    ensures r == MinScale || r == s - ScaleStep
  {
    if s - ScaleStep > MinScale then s - ScaleStep else MinScale
  }

  /** `s + 0.02`. */
  function IncreasedScale(s: real): (r: real)
    ensures r > s
    ensures s >= MinScale ==> r >= MinScale
  {
    s + ScaleStep
  }

  /** Decreasing right after increasing restores any scale at or above the minimum. */
  lemma DecreaseUndoesIncrease(s: real)
    requires s >= MinScale
    ensures DecreasedScale(IncreasedScale(s)) == s
  {
  }

  /** Increasing right after decreasing restores the scale exactly when the clamp did not act. */
  lemma IncreaseUndoesDecrease(s: real)
    ensures IncreasedScale(DecreasedScale(s)) == s <==> s >= MinScale + ScaleStep
  {
  }

  /** The two scale keys. */
  datatype ScaleCommand = Decrease | Increase

  /** The scale after a sequence of key presses. */
  function ScaleAfter(s: real, cmds: seq<ScaleCommand>): real
    decreases |cmds|
  {
    if cmds == [] then s
    else
      var next := if cmds[0] == Decrease then DecreasedScale(s) else IncreasedScale(s);
      ScaleAfter(next, cmds[1..])
  }

  /** No sequence of key presses takes the scale below the minimum. */
  lemma {:induction false} ScaleStaysAboveMinimum(s: real, cmds: seq<ScaleCommand>)
    requires s >= MinScale
    ensures ScaleAfter(s, cmds) >= MinScale
    decreases |cmds|
  {
    if cmds != [] {
      var next := if cmds[0] == Decrease then DecreasedScale(s) else IncreasedScale(s);
      ScaleStaysAboveMinimum(next, cmds[1..]);
    }
  }

  /** `n` decrease presses. */
  function Decreases(n: nat): (cmds: seq<ScaleCommand>)
    ensures |cmds| == n && forall i :: 0 <= i < n ==> cmds[i] == Decrease
  {
    seq(n, _ => Decrease)
  }

  /** Enough decrease presses reach the minimum, and further presses keep it there. */
  lemma {:induction false} RepeatedDecreaseReachesMinimum(s: real, n: nat)
    requires MinScale <= s <= MinScale + (n as real) * ScaleStep
    ensures ScaleAfter(s, Decreases(n)) == MinScale
    decreases n
  {
    if n > 0 {
      var d := DecreasedScale(s);
      assert Decreases(n)[0] == Decrease;
      assert Decreases(n)[1..] == Decreases(n - 1);
      if d == MinScale {
        MinimumIsFixed(n - 1);
      } else {
        RepeatedDecreaseReachesMinimum(d, n - 1);
      }
    }
  }

  /** Decreasing from the minimum stays at the minimum. */
  lemma {:induction false} MinimumIsFixed(n: nat)
    ensures ScaleAfter(MinScale, Decreases(n)) == MinScale
  {
    if n > 0 {
      assert Decreases(n)[0] == Decrease;
      assert Decreases(n)[1..] == Decreases(n - 1);
      MinimumIsFixed(n - 1);
    }
  }

  /** `Math.random() * 10000`: a new seed from one draw in [0, 1). */
  function NewSeed(draw: real): (seed: real)
    ensures 0.0 <= draw < 1.0 ==> 0.0 <= seed < SeedRange
    ensures seed / SeedRange == draw
  {
    draw * SeedRange
  }
}
