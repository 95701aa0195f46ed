/**
 * The spin state machine of `useWheelSpin.ts`: a re-entrancy guard, a winner and a
 * rotation delta fixed when the spin starts, and animation frames that move the
 * rotation along the ease-out curve 1 - (1 - p)^4 until the five-second duration is
 * over, when the spin ends and the end handler receives the winner's label.
 *
 * The browser's clock and frame scheduler become parameters and method calls: `Spin`
 * takes the random draws and the start time, `Frame(now)` is one run of the
 * scheduled callback, `Unmount` is the effect clean-up.
 */
module WheelSpin {
  import opened OptionsCore
  import opened WheelGeometry
  import WheelMath

  /** The animation lasts 5000 ms. */
  const Duration: real := 5000.0

  /** Five whole turns added to every spin. */
  const ExtraSpins: real := 5.0 * 2.0 * Pi

  /** `Math.min(elapsed / duration, 1)`. */
  function Progress(elapsed: real): (p: real)
    ensures p <= 1.0
    ensures elapsed >= 0.0 ==> 0.0 <= p
    ensures p == 1.0 <==> elapsed >= Duration
    ensures p < 1.0 ==> p == elapsed / Duration
  {
    if elapsed / Duration < 1.0 then elapsed / Duration else 1.0
  }

  /** `1 - Math.pow(1 - progress, 4)`: the ease-out curve. */
  function Eased(p: real): (e: real)
    ensures p == 0.0 ==> e == 0.0
    ensures p == 1.0 ==> e == 1.0
  {
    var q := 1.0 - p;
    1.0 - q * q * q * q
  }

  /** The curve stays within [0, 1] on [0, 1]. */
  lemma EasedBounds(p: real)
    requires 0.0 <= p <= 1.0
    ensures 0.0 <= Eased(p) <= 1.0
  {
    var q := 1.0 - p;
    assert 0.0 <= q <= 1.0;
    assert 0.0 <= q * q <= 1.0 by {
      assert q * q <= q * 1.0;
    }
    var a := q * q;
    assert 0.0 <= a * a <= 1.0 by {
      assert a * a <= a * 1.0;
    }
    assert q * q * q * q == a * a;
  }

  /** The curve never goes back: a later progress is never eased less. */
  lemma EasedMonotone(p: real, p': real)
    requires 0.0 <= p <= p' <= 1.0
    ensures Eased(p) <= Eased(p')
  {
    var q, q' := 1.0 - p, 1.0 - p';
    assert 0.0 <= q' <= q;
    assert q' * q' <= q * q by {
      assert q' * q' <= q' * q <= q * q;
    }
    var a, a' := q * q, q' * q';
    assert 0.0 <= a' <= a;
    assert a' * a' <= a * a by {
      assert a' * a' <= a' * a <= a * a;
    }
    assert q * q * q * q == a * a;
    assert q' * q' * q' * q' == a' * a';
  }

  /** The rotation delta of a spin: the target angle plus the extra turns. */
  function SpinDelta(target: real): (d: real)
    ensures target >= 0.0 ==> d >= 10.0 * Pi
  {
    target + ExtraSpins
  }

  /**
   * The state of one mounted `useWheelSpin` hook together with the closure of the
   * spin in progress.
   */
  class WheelSpinner {
    /** The options the hook was rendered with. */
    const options: seq<ResolvedOption>
    /** Whether an `onSpinEnd` handler was passed. */
    const hasHandler: bool

    /** The `rotation` state, which `drawWheel` draws. */
    var rotation: real
    /** `rotationRef.current`. */
    var rotationRef: real
    /** The `spinning` state. */
    var spinning: bool
    /** Whether `animationRef` holds a frame that is still scheduled. */
    var framePending: bool
    /** Whether the component is still mounted. */
    var mounted: bool

    // The constants the spin in progress captured.
    var winnerIdx: int
    var totalRotation: real
    var startRotation: real
    var startTime: real

    /** The labels `onSpinEnd` was called with, one per completed spin, in order. */
    var ended: seq<string>

    ghost predicate Valid()
      reads this
    {
      rotationRef == rotation
      && (mounted ==> (framePending <==> spinning))
      && (!mounted ==> !framePending)
      && (spinning ==> 0 <= winnerIdx < |options|)
    }

    /** The first render: rotation 0, not spinning, nothing scheduled. */
    constructor(options: seq<ResolvedOption>, hasHandler: bool)
      ensures Valid()
      ensures this.options == options && this.hasHandler == hasHandler
      ensures rotation == 0.0 && !spinning && !framePending && mounted && ended == []
    {
      this.options := options;
      this.hasHandler := hasHandler;
      rotation := 0.0;
      rotationRef := 0.0;
      spinning := false;
      framePending := false;
      mounted := true;
      winnerIdx := 0;
      totalRotation := 0.0;
      startRotation := 0.0;
      startTime := 0.0;
      ended := [];
    }

    /**
     * `spin()`, with `roll`, `u` and `s` the three `Math.random()` draws in the order
     * they are made and `now` the value of `performance.now()`. A spin in progress
     * makes it a no-op. Otherwise the winner and the delta are fixed, the spin starts
     * from the latest rotation and the first frame is scheduled.
     */
    method Spin(roll: real, u: real, s: real, now: real)
      requires Valid() && mounted
      requires spinning || (options != [] && Sum(WheelMath.Ratios(options)) != 0.0)
      modifies this
      ensures Valid()
      ensures old(spinning) ==> unchanged(this)
      ensures !old(spinning) ==>
        spinning && framePending && mounted
        && winnerIdx == Winner(WheelMath.Chances(options), roll)
        && totalRotation == SpinDelta(TargetAngle(WheelMath.Ratios(options), winnerIdx, u, s))
        && startRotation == old(rotationRef) && startTime == now
        && rotation == old(rotation) && ended == old(ended)
    {
      if spinning {
        return;
      }
      spinning := true;
      var w := WheelMath.PickWinnerIndex(options, roll);
      WinnerSpec(WheelMath.Chances(options), roll);
      var target := WheelMath.GetTargetAngleForIndex(options, w, u, s);
      winnerIdx := w;
      totalRotation := target + ExtraSpins;
      startTime := now;
      startRotation := rotationRef;
      framePending := true;
    }

    /**
     * One run of the scheduled `animate(now)`. The rotation follows the eased curve
     * from the start rotation; before the end the next frame is scheduled, at the end
     * the spin stops and the handler, if any, is called with the winner's label.
     */
    method Frame(now: real)
      requires Valid()
      modifies this
      ensures Valid()
      ensures !old(framePending) ==> unchanged(this)
      ensures old(framePending) ==>
        var p := Progress(now - startTime);
        rotation == FrameRotation(startRotation, totalRotation, startTime, now)
        && mounted && winnerIdx == old(winnerIdx) && totalRotation == old(totalRotation)
        && startRotation == old(startRotation) && startTime == old(startTime)
        && (p < 1.0 ==> spinning && framePending && ended == old(ended))
        && (p == 1.0 ==>
              rotation == startRotation + totalRotation && !spinning && !framePending
              && ended == old(ended) + (if hasHandler then [options[winnerIdx].name] else []))
    {
      if !framePending {
        return;
      }
      var progress := Progress(now - startTime);
      var eased := Eased(progress);
      var current := startRotation + totalRotation * eased;
      rotation := current;
      rotationRef := current;
      if progress < 1.0 {
        return;
      }
      framePending := false;
      var winnerLabel := options[winnerIdx].name;
      spinning := false;
      if hasHandler {
        ended := ended + [winnerLabel];
      }
    }

    /** The effect clean-up on unmount: the scheduled frame is cancelled. */
    method Unmount()
      requires Valid()
      modifies this
      ensures Valid()
      ensures !mounted && !framePending
      ensures rotation == old(rotation) && spinning == old(spinning) && ended == old(ended)
    {
      mounted := false;
      framePending := false;
    }
  }

  // ---------------------------------------------------------------------------
  // How the wheel moves
  // ---------------------------------------------------------------------------

  /** The rotation a frame at time `now` shows for a spin started at `startTime`. */
  function FrameRotation(startRotation: real, totalRotation: real, startTime: real, now: real): real
  {
    startRotation + totalRotation * Eased(Progress(now - startTime))
  }

  /**
   * Frames at later times show the wheel turned at least as far, from the start
   * rotation at the first instant up to the start rotation plus the delta at the end.
   */
  lemma FramesMoveForward(startRotation: real, totalRotation: real, startTime: real, t: real, t': real)
    requires totalRotation >= 0.0
    requires startTime <= t <= t'
    ensures startRotation <= FrameRotation(startRotation, totalRotation, startTime, t)
    ensures FrameRotation(startRotation, totalRotation, startTime, t)
      <= FrameRotation(startRotation, totalRotation, startTime, t')
    ensures FrameRotation(startRotation, totalRotation, startTime, t') <= startRotation + totalRotation
  {
    FrameNotBeforeStart(startRotation, totalRotation, startTime, t);
    FramesOrdered(startRotation, totalRotation, startTime, t, t');
    FrameNotPastEnd(startRotation, totalRotation, startTime, t');
  }

  lemma FrameNotBeforeStart(startRotation: real, totalRotation: real, startTime: real, t: real)
    requires totalRotation >= 0.0 && startTime <= t
    ensures startRotation <= FrameRotation(startRotation, totalRotation, startTime, t)
  {
    var e := Eased(Progress(t - startTime));
    EasedBounds(Progress(t - startTime));
    ScaleMonotone(totalRotation, 0.0, e);
  }

  lemma FramesOrdered(startRotation: real, totalRotation: real, startTime: real, t: real, t': real)
    requires totalRotation >= 0.0 && startTime <= t <= t'
    ensures FrameRotation(startRotation, totalRotation, startTime, t)
      <= FrameRotation(startRotation, totalRotation, startTime, t')
  {
    var p, p' := Progress(t - startTime), Progress(t' - startTime);
    ProgressMonotone(t - startTime, t' - startTime);
    EasedMonotone(p, p');
    ScaleMonotone(totalRotation, Eased(p), Eased(p'));
  }

  lemma FrameNotPastEnd(startRotation: real, totalRotation: real, startTime: real, t: real)
    requires totalRotation >= 0.0 && startTime <= t
    ensures FrameRotation(startRotation, totalRotation, startTime, t) <= startRotation + totalRotation
  {
    var e := Eased(Progress(t - startTime));
    EasedBounds(Progress(t - startTime));
    ScaleMonotone(totalRotation, e, 1.0);
    assert totalRotation * 1.0 == totalRotation;
  }

  lemma ProgressMonotone(x: real, x': real)
    requires 0.0 <= x <= x'
    ensures Progress(x) <= Progress(x')
  {
    assert x / Duration <= x' / Duration;
  }

  lemma ScaleMonotone(c: real, x: real, y: real)
    requires c >= 0.0 && x <= y
    ensures c * x <= c * y
  {
  }

  /** Every spin turns the wheel forward by more than nine and a half turns' worth of angle. */
  lemma SpinDeltaPositive(ratios: seq<real>, w: nat, u: real, s: real)
    requires Positive(ratios) && w < |ratios|
    requires 0.0 <= u < 1.0 && 0.0 <= s < 1.0
    ensures Sum(ratios) > 0.0
    ensures SpinDelta(TargetAngle(ratios, w, u, s)) > 19.5 * Pi
  {
    SumPositive(ratios);
    SlicesOrdered(ratios, w, w + 1);
    SlicesOrdered(ratios, w + 1, |ratios|);
    LandAngleInMiddle(SliceStart(ratios, w), SliceWidth(ratios, w), u);
    TurnsRange(s);
    assert WinnerLandAngle(ratios, w, u) < 2.0 * Pi;
    assert FullSpins(s) >= 10.0 * Pi;
  }

  // ---------------------------------------------------------------------------
  // Where the wheel stops
  // ---------------------------------------------------------------------------

  /**
   * The alignment the comment in `getTargetAngleForIndex` promises, under the condition
   * it silently assumes: a spin that starts from a whole number `m` of turns stops with
   * the winning slice under the pointer.
   */
  lemma SpinFromWholeTurnsShowsWinner(options: seq<ResolvedOption>, roll: real, u: real, s: real, m: int)
    requires options != [] && Positive(WheelMath.Ratios(options))
    requires 0.0 <= u < 1.0
    ensures var w := Winner(WheelMath.Chances(options), roll);
      0 <= w < |options| && Sum(WheelMath.Ratios(options)) > 0.0
      && UnderPointer(WheelMath.Ratios(options),
           2.0 * Pi * (m as real) + SpinDelta(TargetAngle(WheelMath.Ratios(options), w, u, s)), w)
  {
    var ratios := WheelMath.Ratios(options);
    var w := Winner(WheelMath.Chances(options), roll);
    WinnerSpec(WheelMath.Chances(options), roll);
    AlignedFromWholeTurns(ratios, w, u, s, m, 5);
    assert 2.0 * Pi * (5 as real) == ExtraSpins;
  }

  /** Two options of equal size. */
  const EvenPair: seq<real> := [1.0, 1.0]

  lemma EvenPairTarget()
    ensures Sum(EvenPair) == 2.0
    ensures SliceStart(EvenPair, 0) == 0.0
    ensures SliceStart(EvenPair, 1) == Pi
    ensures SliceStart(EvenPair, 2) == 2.0 * Pi
    ensures TargetAngle(EvenPair, 0, 0.5, 0.0) == 11.0 * Pi
  {
    assert EvenPair[..0] == [];
    assert EvenPair[..1] == [1.0];
    assert EvenPair[..2] == EvenPair;
    assert Sum([1.0]) == 1.0;
    SliceStartProportional(EvenPair, 0);
    SliceStartProportional(EvenPair, 1);
    SliceStartProportional(EvenPair, 2);
    assert (0.0 * 5.0).Floor == 0;
    assert WinnerLandAngle(EvenPair, 0, 0.5) == 0.5 * Pi;
  }

  /**
   * The rotation is cumulative, so the second spin of a mounted wheel starts where the
   * first stopped. With two equal slices, slice 0 winning twice, jitter 0.5 and the
   * five-turn draw: the first stop (21π) shows slice 0, the second (42π) shows slice 1.
   */
  lemma SecondSpinShowsOtherSlice()
    ensures var d := SpinDelta(TargetAngle(EvenPair, 0, 0.5, 0.0));
      Sum(EvenPair) == 2.0
      && d == 21.0 * Pi
      && UnderPointer(EvenPair, 0.0 + d, 0)
      && !UnderPointer(EvenPair, 0.0 + d + d, 0)
      && UnderPointer(EvenPair, 0.0 + d + d, 1)
  {
    EvenPairTarget();
    var d := SpinDelta(TargetAngle(EvenPair, 0, 0.5, 0.0));
    assert 1.5 * Pi - d == 0.5 * Pi + 2.0 * Pi * ((-10) as real);
    WrapShift(0.5 * Pi, -10);
    assert 1.5 * Pi - (d + d) == 1.5 * Pi + 2.0 * Pi * ((-21) as real);
    WrapShift(1.5 * Pi, -21);
  }

  /**
   * The delta that takes the current rotation into account: the part of the start
   * rotation beyond whole turns is taken back, so every spin stops at the target.
   */
  function AlignedSpinDelta(start: real, target: real): (d: real)
    ensures start + d == 2.0 * Pi * ((start / (2.0 * Pi)).Floor as real) + target + ExtraSpins
  {
    target + ExtraSpins - Wrap(start)
  }

  /** With the corrected delta, a spin from any rotation stops with the winner under the pointer. */
  lemma AlignedSpinShowsWinner(options: seq<ResolvedOption>, roll: real, u: real, s: real, start: real)
    requires options != [] && Positive(WheelMath.Ratios(options))
    requires 0.0 <= u < 1.0
    ensures var w := Winner(WheelMath.Chances(options), roll);
      0 <= w < |options| && Sum(WheelMath.Ratios(options)) > 0.0
      && UnderPointer(WheelMath.Ratios(options),
           start + AlignedSpinDelta(start, TargetAngle(WheelMath.Ratios(options), w, u, s)), w)
  {
    var w := Winner(WheelMath.Chances(options), roll);
    WinnerSpec(WheelMath.Chances(options), roll);
    var m := (start / (2.0 * Pi)).Floor;
    SpinFromWholeTurnsShowsWinner(options, roll, u, s, m);
  }
}
