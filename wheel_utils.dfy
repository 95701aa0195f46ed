/**
 * The older wheel helpers of `wheelUtils.ts`, used by the legacy screen: a laxer
 * `resolveChances` over typed records that carry a colour and a required ratio, and
 * copies of `pickWinnerIndex` and `getTargetAngleForIndex` over those records.
 */
module WheelUtils {
  import opened Wrappers
  import opened Json
  import OptionsCore
  import opened WheelGeometry

  /** The legacy `WheelOptionConfig`: the ratio and colour are required, the chance may be absent. */
  datatype LegacyConfig = LegacyConfig(name: string, ratio: real, color: string, chance: Option<real>)

  /** The legacy `WheelOption`: the config with `resolvedChance` added by object spread. */
  datatype LegacyOption = LegacyOption(name: string, ratio: real, color: string, chance: Option<real>, resolvedChance: real)

  datatype LegacyError =
    | EmptyWheel                                            // no option at all
    | NegativeChance(name: string, chance: real)            // the first negative explicit chance
    | ExplicitOverflow(total: real)                         // explicit chances above 100
    | TotalMismatch(total: real)                            // no auto option and total not 100
    | CannotDistribute(total: real, remaining: real, count: nat)

  /** The index of the first config with a negative explicit chance, or `|cs|`. */
  function FirstNegative(cs: seq<LegacyConfig>): (k: nat)
    ensures k <= |cs|
    ensures forall j :: 0 <= j < k ==> !(cs[j].chance.Some? && cs[j].chance.value < 0.0)
    ensures k < |cs| ==> cs[k].chance.Some? && cs[k].chance.value < 0.0
  {
    if cs == [] then 0
    else if cs[0].chance.Some? && cs[0].chance.value < 0.0 then 0
    else 1 + FirstNegative(cs[1..])
  }

  /** The explicit chances, added left to right. */
  function ExplicitSum(cs: seq<LegacyConfig>): real
  {
    if cs == [] then 0.0
    else ExplicitSum(cs[..|cs| - 1]) + (if cs[|cs| - 1].chance.Some? then cs[|cs| - 1].chance.value else 0.0)
  }

  /** How many configs have no chance. */
  function AutoCount(cs: seq<LegacyConfig>): nat
  {
    if cs == [] then 0 else AutoCount(cs[..|cs| - 1]) + (if cs[|cs| - 1].chance.None? then 1 else 0)
  }

  /** `{ ...opt, resolvedChance: opt.chance != null ? opt.chance : autoChance }`. */
  function Spread(c: LegacyConfig, share: real): LegacyOption
  {
    LegacyOption(c.name, c.ratio, c.color, c.chance, if c.chance.Some? then c.chance.value else share)
  }

  function SpreadAll(cs: seq<LegacyConfig>, share: real): (os: seq<LegacyOption>)
    ensures |os| == |cs|
    ensures forall i :: 0 <= i < |cs| ==> os[i] == Spread(cs[i], share)
  {
    seq(|cs|, i requires 0 <= i < |cs| => Spread(cs[i], share))
  }

  /** What `resolveChances(configs)` returns or throws. */
  function LegacyResolve(cs: seq<LegacyConfig>): Result<seq<LegacyOption>, LegacyError>
  {
    if cs == [] then Failure(EmptyWheel)
    else
      var k := FirstNegative(cs);
      if k < |cs| then Failure(NegativeChance(cs[k].name, cs[k].chance.value))
      else
        var total := ExplicitSum(cs);
        var autos := AutoCount(cs);
        if total > 100.0 then Failure(ExplicitOverflow(total))
        else if autos == 0 && OptionsCore.Abs(total - 100.0) > OptionsCore.Tolerance then Failure(TotalMismatch(total))
        else
          var share := OptionsCore.AutoShare(total, autos);
          if share < 0.0 then Failure(CannotDistribute(total, 100.0 - total, autos))
          else Success(SpreadAll(cs, share))
  }

  /**
   * The `for` loop of `resolveChances`: splits the configs into those with a chance
   * and those without, stopping at the first negative chance, whose index it reports
   * (`|configs|` when there is none).
   */
  method SplitByChance(configs: seq<LegacyConfig>) returns (explicitOptions: seq<LegacyConfig>, nullOptions: seq<LegacyConfig>, bad: nat)
    ensures bad == FirstNegative(configs)
    ensures bad == |configs| ==> ExplicitSum(explicitOptions) == ExplicitSum(configs) && |nullOptions| == AutoCount(configs)
  {
    explicitOptions, nullOptions := [], [];
    var i := 0;
    while i < |configs|
      invariant 0 <= i <= |configs|
      invariant forall j :: 0 <= j < i ==> !(configs[j].chance.Some? && configs[j].chance.value < 0.0)
      invariant ExplicitSum(explicitOptions) == ExplicitSum(configs[..i])
      invariant |nullOptions| == AutoCount(configs[..i])
    {
      var opt := configs[i];
      PrefixStep(configs, i);
      if opt.chance.Some? {
        if opt.chance.value < 0.0 {
          FirstNegativeIs(configs, i);
          return explicitOptions, nullOptions, i;
        }
        AppendStep(explicitOptions, opt);
        explicitOptions := explicitOptions + [opt];
      } else {
        nullOptions := nullOptions + [opt];
      }
      i := i + 1;
    }
    assert configs[..|configs|] == configs;
    FirstNegativeIs(configs, |configs|);
    bad := |configs|;
  }

  /** `resolveChances(configs)`: the split loop, the `reduce`, the checks and the `map`. */
  method ResolveChances(configs: seq<LegacyConfig>) returns (r: Result<seq<LegacyOption>, LegacyError>)
    ensures r == LegacyResolve(configs)
  {
    if |configs| == 0 {
      return Failure(EmptyWheel);
    }
    var explicitOptions, nullOptions, bad := SplitByChance(configs);
    if bad < |configs| {
      return Failure(NegativeChance(configs[bad].name, configs[bad].chance.value));
    }
    var explicitTotal := ExplicitSum(explicitOptions);
    if explicitTotal > 100.0 {
      return Failure(ExplicitOverflow(explicitTotal));
    }
    var remaining := 100.0 - explicitTotal;
    if |nullOptions| == 0 && OptionsCore.Abs(explicitTotal - 100.0) > 0.001 {
      return Failure(TotalMismatch(explicitTotal));
    }
    var autoChance := if |nullOptions| > 0 then remaining / (|nullOptions| as real) else 0.0;
    if autoChance < 0.0 {
      return Failure(CannotDistribute(explicitTotal, remaining, |nullOptions|));
    }
    var resolved: seq<LegacyOption> := [];
    var m := 0;
    while m < |configs|
      invariant 0 <= m <= |configs|
      invariant |resolved| == m
      invariant forall j :: 0 <= j < m ==> resolved[j] == Spread(configs[j], autoChance)
    {
      resolved := resolved + [Spread(configs[m], autoChance)];
      m := m + 1;
    }
    assert resolved == SpreadAll(configs, autoChance);
    return Success(resolved);
  }

  /** Extending a prefix by one config adds that config's chance and, when it has none, one auto option. */
  lemma PrefixStep(cs: seq<LegacyConfig>, i: nat)
    requires i < |cs|
    ensures ExplicitSum(cs[..i + 1]) == ExplicitSum(cs[..i]) + (if cs[i].chance.Some? then cs[i].chance.value else 0.0)
    ensures AutoCount(cs[..i + 1]) == AutoCount(cs[..i]) + (if cs[i].chance.None? then 1 else 0)
  {
    assert cs[..i + 1][..i] == cs[..i];
  }

  /** Appending an explicit config adds its chance to the sum. */
  lemma AppendStep(es: seq<LegacyConfig>, opt: LegacyConfig)
    requires opt.chance.Some?
    ensures ExplicitSum(es + [opt]) == ExplicitSum(es) + opt.chance.value
  {
    assert (es + [opt])[..|es|] == es;
  }

  lemma {:induction false} FirstNegativeIs(cs: seq<LegacyConfig>, i: nat)
    requires i <= |cs|
    requires forall j :: 0 <= j < i ==> !(cs[j].chance.Some? && cs[j].chance.value < 0.0)
    requires i < |cs| ==> cs[i].chance.Some? && cs[i].chance.value < 0.0
    ensures FirstNegative(cs) == i
  {
    if i > 0 {
      FirstNegativeIs(cs[1..], i - 1);
    }
  }

  /**
   * `resolveChances` succeeds exactly when the list is non-empty, no explicit chance
   * is negative, the explicit chances total at most 100, and either some option is
   * auto or the total is within 0.001 of 100; the `autoChance < 0` refusal is
   * unreachable.
   */
  lemma {:induction false} LegacyResolveSucceedsIff(cs: seq<LegacyConfig>)
    ensures LegacyResolve(cs).Success? <==>
      cs != []
      && (forall j :: 0 <= j < |cs| ==> !(cs[j].chance.Some? && cs[j].chance.value < 0.0))
      && ExplicitSum(cs) <= 100.0
      && (AutoCount(cs) > 0 || OptionsCore.Abs(ExplicitSum(cs) - 100.0) <= OptionsCore.Tolerance)
    ensures !(LegacyResolve(cs).Failure? && LegacyResolve(cs).error.CannotDistribute?)
  {
    if cs != [] && FirstNegative(cs) == |cs| {
      var total := ExplicitSum(cs);
      var autos := AutoCount(cs);
      if total <= 100.0 && autos > 0 {
        assert OptionsCore.AutoShare(total, autos) >= 0.0;
      }
    }
  }

  /**
   * A successful `resolveChances` keeps order and length, passes every field of every
   * config through unchanged (no ratio default, no ratio check), and sets
   * `resolvedChance` to the explicit chance or to the common auto share.
   */
  lemma {:induction false} LegacyResolvedShape(cs: seq<LegacyConfig>)
    requires LegacyResolve(cs).Success?
    ensures var os, share := LegacyResolve(cs).value, OptionsCore.AutoShare(ExplicitSum(cs), AutoCount(cs));
      |os| == |cs|
      && forall i :: 0 <= i < |os| ==>
        os[i].name == cs[i].name && os[i].ratio == cs[i].ratio && os[i].color == cs[i].color
        && os[i].chance == cs[i].chance
        && (cs[i].chance.Some? ==> os[i].resolvedChance == cs[i].chance.value)
        && (cs[i].chance.None? ==> os[i].resolvedChance == share)
  {
  }

  // ---------------------------------------------------------------------------
  // Agreement with the option resolver of `options-core.mjs`
  // ---------------------------------------------------------------------------

  /** A legacy config as the record `validateAndResolveOptions` would receive. */
  function ToConfigJson(c: LegacyConfig): Json
  {
    OptionsCore.ConfigJson(OptionsCore.OptionConfig(c.name, c.chance, Some(c.ratio)))
  }

  function ToConfigsJson(cs: seq<LegacyConfig>): (items: seq<Json>)
    ensures |items| == |cs|
    ensures forall i :: 0 <= i < |cs| ==> items[i] == ToConfigJson(cs[i])
  {
    seq(|cs|, i requires 0 <= i < |cs| => ToConfigJson(cs[i]))
  }

  /** The core checks of one converted config: with a non-empty label and a positive ratio, only a negative chance fails. */
  lemma ConvertedEntry(c: LegacyConfig)
    requires c.name != "" && c.ratio > 0.0
    ensures OptionsCore.EntryOk(ToConfigJson(c)) <==> !(c.chance.Some? && c.chance.value < 0.0)
    ensures OptionsCore.HasChance(ToConfigJson(c)) <==> c.chance.Some?
    ensures OptionsCore.ChanceValue(ToConfigJson(c)) == if c.chance.Some? then c.chance.value else 0.0
  {
    OptionsCore.ConfigJsonFields(OptionsCore.OptionConfig(c.name, c.chance, Some(c.ratio)));
  }

  lemma {:induction false} ConvertedTotals(cs: seq<LegacyConfig>)
    requires forall i :: 0 <= i < |cs| ==> cs[i].name != "" && cs[i].ratio > 0.0
    ensures OptionsCore.ExplicitTotal(ToConfigsJson(cs)) == ExplicitSum(cs)
    ensures OptionsCore.AutoCount(ToConfigsJson(cs)) == AutoCount(cs)
  {
    if cs != [] {
      var n := |cs| - 1;
      assert ToConfigsJson(cs)[..n] == ToConfigsJson(cs[..n]);
      ConvertedTotals(cs[..n]);
      ConvertedEntry(cs[n]);
    }
  }

  /** A converted list passes the core's entry checks exactly when it has no negative chance. */
  lemma ConvertedEntriesOk(cs: seq<LegacyConfig>)
    requires forall i :: 0 <= i < |cs| ==> cs[i].name != "" && cs[i].ratio > 0.0
    ensures (forall i :: 0 <= i < |cs| ==> OptionsCore.EntryOk(ToConfigsJson(cs)[i]))
      <==> (forall i :: 0 <= i < |cs| ==> !(cs[i].chance.Some? && cs[i].chance.value < 0.0))
  {
    forall i | 0 <= i < |cs|
      ensures OptionsCore.EntryOk(ToConfigsJson(cs)[i]) <==> !(cs[i].chance.Some? && cs[i].chance.value < 0.0)
    {
      ConvertedEntry(cs[i]);
    }
  }

  /**
   * On configs with non-empty labels and positive ratios the two resolvers agree on
   * whether the list is accepted.
   */
  lemma {:induction false} ResolversAgreeOnSuccess(cs: seq<LegacyConfig>)
    requires forall i :: 0 <= i < |cs| ==> cs[i].name != "" && cs[i].ratio > 0.0
    ensures OptionsCore.Resolve(JArr(ToConfigsJson(cs))).Success? <==> LegacyResolve(cs).Success?
  {
    ConvertedTotals(cs);
    ConvertedEntriesOk(cs);
    OptionsCore.ResolveSucceedsIff(JArr(ToConfigsJson(cs)));
    LegacyResolveSucceedsIff(cs);
  }

  /** ... and, when they accept it, give every option the same resolved chance. */
  lemma {:induction false} ResolversAgreeOnChances(cs: seq<LegacyConfig>)
    requires forall i :: 0 <= i < |cs| ==> cs[i].name != "" && cs[i].ratio > 0.0
    requires LegacyResolve(cs).Success?
    ensures OptionsCore.Resolve(JArr(ToConfigsJson(cs))).Success?
    ensures var core, legacy := OptionsCore.Resolve(JArr(ToConfigsJson(cs))).value, LegacyResolve(cs).value;
      |core| == |legacy| && forall i :: 0 <= i < |core| ==> core[i].resolvedChance == legacy[i].resolvedChance
  {
    var items := ToConfigsJson(cs);
    ResolversAgreeOnSuccess(cs);
    ConvertedTotals(cs);
    OptionsCore.ResolvedOptionsProperties(JArr(items));
    var core := OptionsCore.Resolve(JArr(items)).value;
    forall i | 0 <= i < |core|
      ensures core[i].resolvedChance == LegacyResolve(cs).value[i].resolvedChance
    {
      ConvertedEntry(cs[i]);
    }
  }

  /** The legacy resolver accepts a ratio of 0 and an empty label, which the core refuses. */
  lemma LegacyIsLaxer()
    ensures LegacyResolve([LegacyConfig("", 0.0, "#fff", None)]).Success?
    ensures OptionsCore.Resolve(JArr(ToConfigsJson([LegacyConfig("", 0.0, "#fff", None)]))).Failure?
  {
    var c := LegacyConfig("", 0.0, "#fff", None);
    OptionsCore.ConfigJsonFields(OptionsCore.OptionConfig(c.name, c.chance, Some(c.ratio)));
    assert !OptionsCore.EntryOk(ToConfigsJson([c])[0]);
    OptionsCore.ResolveSucceedsIff(JArr(ToConfigsJson([c])));
  }

  // ---------------------------------------------------------------------------
  // The legacy copies of the wheel arithmetic
  // ---------------------------------------------------------------------------

  function Chances(options: seq<LegacyOption>): (cs: seq<real>)
    ensures |cs| == |options|
    ensures forall i :: 0 <= i < |options| ==> cs[i] == options[i].resolvedChance
  {
    seq(|options|, i requires 0 <= i < |options| => options[i].resolvedChance)
  }

  function Ratios(options: seq<LegacyOption>): (rs: seq<real>)
    ensures |rs| == |options|
    ensures forall i :: 0 <= i < |options| ==> rs[i] == options[i].ratio
  {
    seq(|options|, i requires 0 <= i < |options| => options[i].ratio)
  }

  /** `pickWinnerIndex(options)` of `wheelUtils.ts`, with `roll` the draw `Math.random() * 100`. */
  method PickWinnerIndex(options: seq<LegacyOption>, roll: real) returns (w: int)
    ensures w == Winner(Chances(options), roll)
  {
    ghost var chances := Chances(options);
    var cumulative := 0.0;
    var i := 0;
    while i < |options|
      invariant 0 <= i <= |options|
      invariant cumulative == Sum(chances[..i])
      invariant WinnerFrom(chances, roll, i) == Winner(chances, roll)
    {
      SumPrefixStep(chances, i);
      cumulative := cumulative + options[i].resolvedChance;
      if roll <= cumulative {
        return i;
      }
      i := i + 1;
    }
    return |options| - 1;
  }

  /** `getTargetAngleForIndex(options, winnerIndex)` of `wheelUtils.ts`, with the draws `u` and `s`. */
  method GetTargetAngleForIndex(options: seq<LegacyOption>, winnerIndex: nat, u: real, s: real) returns (angle: real)
    requires winnerIndex < |options| && Sum(Ratios(options)) != 0.0
    ensures angle == TargetAngle(Ratios(options), winnerIndex, u, s)
  {
    ghost var ratios := Ratios(options);
    var totalRatio := Sum(Ratios(options));
    var startAngle := 0.0;
    var i := 0;
    while i < winnerIndex
      invariant 0 <= i <= winnerIndex
      invariant startAngle == SliceStart(ratios, i)
    {
      startAngle := startAngle + (options[i].ratio / totalRatio) * 2.0 * Pi;
      i := i + 1;
    }
    var sliceAngle := (options[winnerIndex].ratio / totalRatio) * 2.0 * Pi;
    var landAngle := startAngle + sliceAngle * (0.2 + u * 0.6);
    var fullSpins := ((5 + (s * 5.0).Floor) as real) * 2.0 * Pi;
    return fullSpins + (Pi * 1.5 - landAngle);
  }
}
