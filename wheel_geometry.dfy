/**
 * The arithmetic of the wheel, shared by `wheelMath.ts`, `wheelUtils.ts` and the
 * slice loop of `drawWheel`: roulette-wheel sampling of the winner from the resolved
 * chances, the slice layout from the ratios, and the rotation that brings a point of
 * the winning slice under the pointer at the top of the wheel (angle 3π/2).
 *
 * Numbers are reals; `Math.PI` is its decimal literal. The three random draws of the
 * source are parameters: `roll` (`Math.random() * 100`), `u` (the landing jitter)
 * and `s` (the draw that picks the number of full spins).
 */
module WheelGeometry {

  /** `Math.PI`. */
  const Pi: real := 3.141592653589793

  /** `xs.reduce((sum, x) => sum + x, 0)`, added left to right. */
  function Sum(xs: seq<real>): real
  {
    if xs == [] then 0.0 else Sum(xs[..|xs| - 1]) + xs[|xs| - 1]
  }

  /** Adding one more element to the right of a prefix. */
  lemma SumPrefixStep(xs: seq<real>, i: nat)
    requires i < |xs|
    ensures Sum(xs[..i + 1]) == Sum(xs[..i]) + xs[i]
  {
    assert xs[..i + 1][..i] == xs[..i];
  }

  predicate NonNegative(xs: seq<real>) { forall i :: 0 <= i < |xs| ==> xs[i] >= 0.0 }

  predicate Positive(xs: seq<real>) { forall i :: 0 <= i < |xs| ==> xs[i] > 0.0 }

  lemma {:induction false} SumNonNegative(xs: seq<real>)
    requires NonNegative(xs)
    ensures Sum(xs) >= 0.0
  {
    if xs != [] {
      SumNonNegative(xs[..|xs| - 1]);
    }
  }

  lemma {:induction false} SumPositive(xs: seq<real>)
    requires xs != [] && Positive(xs)
    ensures Sum(xs) > 0.0
  {
    if |xs| > 1 {
      SumPositive(xs[..|xs| - 1]);
    }
  }

  // ---------------------------------------------------------------------------
  // Picking the winner
  // ---------------------------------------------------------------------------

  /** The running total `cumulative` after the loop has added `chances[i]`. */
  function Cumulative(chances: seq<real>, i: nat): real
    requires i < |chances|
  {
    Sum(chances[..i + 1])
  }

  /** Some running total reaches `roll`, at or after index `i`. */
  predicate ReachesFrom(chances: seq<real>, roll: real, i: nat)
  {
    exists j :: i <= j < |chances| && roll <= Cumulative(chances, j)
  }

  /**
   * The search of `pickWinnerIndex` from index `i` on: the first index whose running
   * total is at least `roll`, or the last index when none is.
   */
  function WinnerFrom(chances: seq<real>, roll: real, i: nat): (w: int)
    requires i <= |chances|
    ensures |chances| == 0 ==> w == -1
    ensures |chances| > 0 ==> 0 <= w < |chances|
    ensures forall j :: i <= j < |chances| && j < w ==> roll > Cumulative(chances, j)
    ensures ReachesFrom(chances, roll, i) ==> i <= w && roll <= Cumulative(chances, w)
    ensures !ReachesFrom(chances, roll, i) ==> w == |chances| - 1
    decreases |chances| - i
  {
    if i == |chances| then |chances| - 1
    else if roll <= Cumulative(chances, i) then i
    else WinnerFrom(chances, roll, i + 1)
  }

  /** The winner `pickWinnerIndex` returns for the draw `roll`. */
  function Winner(chances: seq<real>, roll: real): int
  {
    WinnerFrom(chances, roll, 0)
  }

  /**
   * `pickWinnerIndex`: the winner is the first index whose running total of chances
   * reaches the roll; when none does, the last index (`-1` for an empty list).
   */
  lemma WinnerSpec(chances: seq<real>, roll: real)
    ensures |chances| == 0 ==> Winner(chances, roll) == -1
    ensures |chances| > 0 ==> 0 <= Winner(chances, roll) < |chances|
    ensures forall j :: 0 <= j < Winner(chances, roll) ==> roll > Cumulative(chances, j)
    ensures ReachesFrom(chances, roll, 0) ==> roll <= Cumulative(chances, Winner(chances, roll))
    ensures !ReachesFrom(chances, roll, 0) ==> Winner(chances, roll) == |chances| - 1
  {
  }

  /** With non-negative chances the running totals never decrease. */
  lemma {:induction false} CumulativeMonotone(chances: seq<real>, i: nat, j: nat)
    requires NonNegative(chances)
    requires i <= j < |chances|
    ensures Cumulative(chances, i) <= Cumulative(chances, j)
    decreases j - i
  {
    if i < j {
      CumulativeMonotone(chances, i, j - 1);
      SumPrefixStep(chances, j);
    }
  }

  /**
   * With non-negative chances, the rolls that make option `i` win by reaching its
   * running total are exactly those in the interval (total before `i`, total through
   * `i`]; the interval's length is `chances[i]`.
   */
  lemma WinnerInterval(chances: seq<real>, roll: real, i: nat)
    requires NonNegative(chances)
    requires i < |chances|
    ensures (Winner(chances, roll) == i && roll <= Cumulative(chances, i))
      <==> ((i == 0 || Cumulative(chances, i - 1) < roll) && roll <= Cumulative(chances, i))
    ensures i > 0 ==> Cumulative(chances, i) - Cumulative(chances, i - 1) == chances[i]
    ensures i == 0 ==> Cumulative(chances, i) == chances[0]
  {
    SumPrefixStep(chances, i);
    if i > 0 {
      assert chances[..i] == chances[..(i - 1) + 1];
    } else {
      assert chances[..0] == [];
    }
    if (i == 0 || Cumulative(chances, i - 1) < roll) && roll <= Cumulative(chances, i) {
      forall j | 0 <= j < i ensures roll > Cumulative(chances, j) {
        CumulativeMonotone(chances, j, i - 1);
      }
      assert ReachesFrom(chances, roll, 0);
    }
  }

  /**
   * When the chances total exactly 100 and `roll` lies in [0, 100), some running total
   * reaches the roll, so the fallback `return options.length - 1` is never taken.
   */
  lemma FallbackNotTaken(chances: seq<real>, roll: real)
    requires Sum(chances) == 100.0
    requires 0.0 <= roll < 100.0
    ensures ReachesFrom(chances, roll, 0)
    ensures roll <= Cumulative(chances, Winner(chances, roll))
  {
    assert chances != [];
    assert chances[..|chances| - 1 + 1] == chances;
    assert roll <= Cumulative(chances, |chances| - 1);
  }

  /** With non-negative chances and a positive roll, an option with chance 0 never wins by reaching the roll. */
  lemma WinnerHasPositiveChance(chances: seq<real>, roll: real)
    requires NonNegative(chances)
    requires roll > 0.0
    requires ReachesFrom(chances, roll, 0)
    ensures 0 <= Winner(chances, roll) < |chances|
    ensures chances[Winner(chances, roll)] > 0.0
  {
    var w := Winner(chances, roll);
    WinnerInterval(chances, roll, w);
  }

  // ---------------------------------------------------------------------------
  // Slices
  // ---------------------------------------------------------------------------

  /** `(ratios[i] / totalRatio) * 2 * Math.PI`: the angle slice `i` spans. */
  function SliceWidth(ratios: seq<real>, i: nat): real
    requires i < |ratios| && Sum(ratios) != 0.0
  {
    ratios[i] / Sum(ratios) * 2.0 * Pi
  }

  /** Where slice `i` starts on the unrotated wheel: the widths before it, added in order. */
  function SliceStart(ratios: seq<real>, i: nat): real
    requires i <= |ratios| && Sum(ratios) != 0.0
  {
    if i == 0 then 0.0 else SliceStart(ratios, i - 1) + SliceWidth(ratios, i - 1)
  }

  /** Each slice takes its share of the full turn: 2π times the ratios before it over the total ratio. */
  lemma {:induction false} SliceStartProportional(ratios: seq<real>, i: nat)
    requires i <= |ratios| && Sum(ratios) != 0.0
    ensures SliceStart(ratios, i) == Sum(ratios[..i]) / Sum(ratios) * 2.0 * Pi
  {
    if i == 0 {
      assert ratios[..0] == [];
    } else {
      SliceStartProportional(ratios, i - 1);
      SumPrefixStep(ratios, i - 1);
      var t := Sum(ratios);
      var a := Sum(ratios[..i - 1]);
      var r := ratios[i - 1];
      DivAdd(a, r, t, 2.0 * Pi);
    }
  }

  /** The slices together cover the whole turn: the last one ends at 2π. */
  lemma SlicesCoverWheel(ratios: seq<real>)
    requires Sum(ratios) != 0.0
    ensures SliceStart(ratios, |ratios|) == 2.0 * Pi
  {
    SliceStartProportional(ratios, |ratios|);
    assert ratios[..|ratios|] == ratios;
    DivSelf(Sum(ratios));
  }

  lemma DivAdd(a: real, b: real, t: real, c: real)
    requires t != 0.0
    ensures a / t * c + b / t * c == (a + b) / t * c
  {
    assert a / t + b / t == (a + b) / t;
  }

  lemma DivSelf(t: real)
    requires t != 0.0
    ensures t / t == 1.0
  {
  }

  /** With positive ratios, slices have positive width and lie one after another inside [0, 2π]. */
  lemma {:induction false} SlicesOrdered(ratios: seq<real>, i: nat, j: nat)
    requires Positive(ratios) && ratios != []
    requires i <= j <= |ratios|
    ensures Sum(ratios) > 0.0
    ensures 0.0 <= SliceStart(ratios, i) <= SliceStart(ratios, j) <= 2.0 * Pi
    ensures i < j ==> SliceStart(ratios, i) < SliceStart(ratios, j)
    decreases |ratios| - i
  {
    SumPositive(ratios);
    if i < |ratios| {
      assert SliceWidth(ratios, i) > 0.0;
      SlicesOrdered(ratios, i + 1, if j == i then i + 1 else j);
      if i == j {
        SlicesOrdered(ratios, i + 1, i + 1);
      }
      SliceStartNonNegative(ratios, i);
    } else {
      SlicesCoverWheel(ratios);
    }
  }

  lemma {:induction false} SliceStartNonNegative(ratios: seq<real>, i: nat)
    requires Positive(ratios) && ratios != []
    requires i <= |ratios|
    ensures Sum(ratios) > 0.0
    ensures SliceStart(ratios, i) >= 0.0
  {
    SumPositive(ratios);
    if i > 0 {
      SliceStartNonNegative(ratios, i - 1);
      assert SliceWidth(ratios, i - 1) > 0.0;
    }
  }

  // ---------------------------------------------------------------------------
  // The target angle
  // ---------------------------------------------------------------------------

  /** `startAngle + sliceAngle * (0.2 + u * 0.6)`: the point of a slice that will stop under the pointer. */
  function LandAngle(start: real, width: real, u: real): real
  {
    start + width * (0.2 + u * 0.6)
  }

  /** For a jitter `u` in [0, 1), the landing point stays in the middle 60% of a slice of positive width. */
  lemma LandAngleInMiddle(start: real, width: real, u: real)
    requires width > 0.0
    requires 0.0 <= u < 1.0
    ensures start + 0.2 * width <= LandAngle(start, width, u) < start + 0.8 * width
  {
    assert width * (u * 0.6) >= 0.0;
    assert width * (u * 0.6) < width * 0.6;
  }

  /** The landing point of slice `w`. */
  function WinnerLandAngle(ratios: seq<real>, w: nat, u: real): real
    requires w < |ratios| && Sum(ratios) != 0.0
  {
    LandAngle(SliceStart(ratios, w), SliceWidth(ratios, w), u)
  }

  /** `5 + Math.floor(s * 5)`: the number of full turns added for show. */
  function Turns(s: real): int
  {
    5 + (s * 5.0).Floor
  }

  /** For a draw `s` in [0, 1), the wheel makes between 5 and 9 full turns. */
  lemma TurnsRange(s: real)
    requires 0.0 <= s < 1.0
    ensures 5 <= Turns(s) <= 9
  {
  }

  /** `(5 + Math.floor(s * 5)) * 2 * Math.PI`. */
  function FullSpins(s: real): real
  {
    (Turns(s) as real) * 2.0 * Pi
  }

  /** `fullSpins + (Math.PI * 1.5 - landAngle)`: what `getTargetAngleForIndex` returns. */
  function TargetAngle(ratios: seq<real>, w: nat, u: real, s: real): real
    requires w < |ratios| && Sum(ratios) != 0.0
  {
    FullSpins(s) + (Pi * 1.5 - WinnerLandAngle(ratios, w, u))
  }

  /** Turning by the target angle carries the landing point to the pointer, up to whole turns. */
  lemma TargetAngleAligns(ratios: seq<real>, w: nat, u: real, s: real)
    requires w < |ratios| && Sum(ratios) != 0.0
    ensures TargetAngle(ratios, w, u, s) + WinnerLandAngle(ratios, w, u) == 2.0 * Pi * (Turns(s) as real) + 1.5 * Pi
  {
  }

  // ---------------------------------------------------------------------------
  // What the pointer shows
  // ---------------------------------------------------------------------------

  /** An angle reduced into [0, 2π). */
  function Wrap(x: real): (r: real)
    ensures 0.0 <= r < 2.0 * Pi
  {
    x - 2.0 * Pi * ((x / (2.0 * Pi)).Floor as real)
  }

  /**
   * `drawWheel` draws slice `i` from `rotation + SliceStart(i)`, and the pointer sits
   * at 3π/2; this is the angle of the unrotated wheel that is under the pointer.
   */
  function PointerAngle(rotation: real): real
  {
    Wrap(1.5 * Pi - rotation)
  }

  /** Slice `i` is the one under the pointer when the wheel is turned by `rotation`. */
  predicate UnderPointer(ratios: seq<real>, rotation: real, i: nat)
    requires i < |ratios| && Sum(ratios) != 0.0
  {
    SliceStart(ratios, i) <= PointerAngle(rotation) < SliceStart(ratios, i + 1)
  }

  /** Wrapping an angle of [0, 2π) shifted by whole turns gives the angle back. */
  lemma WrapShift(a: real, k: int)
    requires 0.0 <= a < 2.0 * Pi
    ensures Wrap(a + 2.0 * Pi * (k as real)) == a
  {
    var x := a + 2.0 * Pi * (k as real);
    assert x / (2.0 * Pi) == a / (2.0 * Pi) + (k as real);
    assert 0.0 <= a / (2.0 * Pi) < 1.0;
    assert (x / (2.0 * Pi)).Floor == k;
  }

  /**
   * The claim of the comment in `getTargetAngleForIndex`: from a rotation that is a
   * whole number `m` of turns, turning by the target angle (plus any whole number `e`
   * of extra turns) stops the wheel with the winning slice under the pointer, for every
   * jitter in [0, 1) and positive ratios.
   */
  lemma AlignedFromWholeTurns(ratios: seq<real>, w: nat, u: real, s: real, m: int, e: int)
    requires Positive(ratios) && w < |ratios|
    requires 0.0 <= u < 1.0
    ensures Sum(ratios) > 0.0
    ensures UnderPointer(ratios, 2.0 * Pi * (m as real) + TargetAngle(ratios, w, u, s) + 2.0 * Pi * (e as real), w)
  {
    SumPositive(ratios);
    SlicesOrdered(ratios, w, w + 1);
    SlicesOrdered(ratios, w + 1, |ratios|);
    LandAngleInMiddle(SliceStart(ratios, w), SliceWidth(ratios, w), u);
    var land := WinnerLandAngle(ratios, w, u);
    var rotation := 2.0 * Pi * (m as real) + TargetAngle(ratios, w, u, s) + 2.0 * Pi * (e as real);
    TargetAngleAligns(ratios, w, u, s);
    var k := -(m + Turns(s) + e);
    assert 1.5 * Pi - rotation == land + 2.0 * Pi * (k as real);
    WrapShift(land, k);
  }
}
