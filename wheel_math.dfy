/**
 * `pickWinnerIndex` and `getTargetAngleForIndex` of `wheelMath.ts`, the versions the
 * spin hook calls, as loops over the resolved options. Each is proved equal to the
 * specification in `WheelGeometry`, whose properties are proved there.
 */
module WheelMath {
  import opened OptionsCore
  import opened WheelGeometry
  import opened Json

  /** The `resolvedChance` fields, in order. */
  function Chances(options: seq<ResolvedOption>): (cs: seq<real>)
    ensures |cs| == |options|
    ensures forall i :: 0 <= i < |options| ==> cs[i] == options[i].resolvedChance
  {
    seq(|options|, i requires 0 <= i < |options| => options[i].resolvedChance)
  }

  /** The `ratio` fields, in order. */
  function Ratios(options: seq<ResolvedOption>): (rs: seq<real>)
    ensures |rs| == |options|
    ensures forall i :: 0 <= i < |options| ==> rs[i] == options[i].ratio
  {
    seq(|options|, i requires 0 <= i < |options| => options[i].ratio)
  }

  /** `pickWinnerIndex(options)`, with `roll` the draw `Math.random() * 100`. */
  method PickWinnerIndex(options: seq<ResolvedOption>, roll: real) returns (w: int)
    ensures w == Winner(Chances(options), roll)
  {
    ghost var chances := Chances(options);
    var cumulative := 0.0;
    var i := 0;
    while i < |options|
      invariant 0 <= i <= |options|
      invariant cumulative == Sum(chances[..i])
      invariant WinnerFrom(chances, roll, i) == Winner(chances, roll)
    {
      SumPrefixStep(chances, i);
      cumulative := cumulative + options[i].resolvedChance;
      if roll <= cumulative {
        return i;
      }
      i := i + 1;
    }
    return |options| - 1;
  }

  /**
   * `getTargetAngleForIndex(options, winnerIndex)`, with `u` the landing jitter draw
   * and `s` the full-spin draw. The source reads `options[winnerIndex].ratio`, so the
   * index must be in range; the total ratio is a divisor.
   */
  method GetTargetAngleForIndex(options: seq<ResolvedOption>, winnerIndex: nat, u: real, s: real) returns (angle: real)
    requires winnerIndex < |options| && Sum(Ratios(options)) != 0.0
    ensures angle == TargetAngle(Ratios(options), winnerIndex, u, s)
  {
    ghost var ratios := Ratios(options);
    var totalRatio := Sum(Ratios(options));
    var startAngle := 0.0;
    var i := 0;
    while i < winnerIndex
      invariant 0 <= i <= winnerIndex
      invariant startAngle == SliceStart(ratios, i)
    {
      startAngle := startAngle + (options[i].ratio / totalRatio) * 2.0 * Pi;
      i := i + 1;
    }
    var sliceAngle := (options[winnerIndex].ratio / totalRatio) * 2.0 * Pi;
    var landAngle := startAngle + sliceAngle * (0.2 + u * 0.6);
    var fullSpins := ((5 + (s * 5.0).Floor) as real) * 2.0 * Pi;
    return fullSpins + (Pi * 1.5 - landAngle);
  }

  /** The chances of the records add up to their `resolvedChance` total. */
  lemma {:induction false} ChancesSum(rs: seq<ResolvedOption>)
    ensures Sum(Chances(rs)) == SumResolved(rs)
  {
    if rs != [] {
      var n := |rs| - 1;
      assert Chances(rs)[..n] == Chances(rs[..n]);
      ChancesSum(rs[..n]);
    }
  }

  /**
   * A successful resolution is a wheel the spin can use: at least one option, every
   * ratio positive (so every slice has positive width), every chance at least 0.
   */
  lemma ResolvedOptionsFormAWheel(configs: Json)
    requires Resolve(configs).Success?
    ensures var rs := Resolve(configs).value;
      rs != [] && Positive(Ratios(rs)) && NonNegative(Chances(rs)) && Sum(Ratios(rs)) > 0.0
  {
    ResolveSucceedsIff(configs);
    ResolvedOptionsProperties(configs);
    var rs := Resolve(configs).value;
    SumPositive(Ratios(rs));
  }

  /**
   * When some option is auto the resolved chances total exactly 100, so for every roll
   * in [0, 100) the winner is found by the loop and never by the fallback.
   */
  lemma AutoResolvedNeverFallsBack(configs: Json, roll: real)
    requires Resolve(configs).Success?
    requires configs.JArr? && AutoCount(configs.items) > 0
    requires 0.0 <= roll < 100.0
    ensures ReachesFrom(Chances(Resolve(configs).value), roll, 0)
  {
    ResolvedChancesTotal(configs);
    ChancesSum(Resolve(configs).value);
    FallbackNotTaken(Chances(Resolve(configs).value), roll);
  }
}
