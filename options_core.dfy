/**
 * The option resolver shared by the running application and the build-time check
 * (`validateAndResolveOptions` and `summarizeResolvedOptions`): it validates an
 * untrusted list of option records, splits the unassigned percentage equally among
 * the options without a chance ("auto" options) and returns the list in its
 * original order with a `resolvedChance` on every entry.
 */
module OptionsCore {
  import opened Wrappers
  import opened Json

  /** The typed option record (`WheelOptionConfig`): an absent chance or ratio is `None`. */
  datatype OptionConfig = OptionConfig(name: string, chance: Option<real>, ratio: Option<real>)

  /** A typed record as the JavaScript object it is: absent fields are absent keys. */
  function ConfigJson(c: OptionConfig): Json
  {
    JObj(map["label" := JStr(c.name)]
      + (if c.chance.Some? then map["chance" := JNum(c.chance.value)] else map[])
      + (if c.ratio.Some? then map["ratio" := JNum(c.ratio.value)] else map[]))
  }

  function ConfigsJson(cs: seq<OptionConfig>): (j: Json)
    ensures j.JArr? && |j.items| == |cs|
    ensures forall i :: 0 <= i < |cs| ==> j.items[i] == ConfigJson(cs[i])
  {
    JArr(seq(|cs|, i requires 0 <= i < |cs| => ConfigJson(cs[i])))
  }

  /** `WheelOption`: every option with a definite ratio and a definite win percentage. */
  datatype ResolvedOption = ResolvedOption(name: string, chance: Option<real>, ratio: real, resolvedChance: real)

  /** Why one entry is refused, in the order the checks run. */
  datatype EntryFault =
    | NotAnObject       // `!opt || typeof opt !== 'object'`
    | BadLabel          // missing, empty or non-string label
    | BadRatio          // a present ratio that is not a number, or is <= 0
    | NonNumericChance  // a present chance that is not a number
    | NegativeChance    // a present chance below 0

  datatype ResolveError =
    | NoOptions                                          // not an array, or an empty one
    | BadEntry(index: nat, fault: EntryFault, entry: Json)
    | ExplicitOverflow(total: real)                      // explicit chances above 100
    | TotalMismatch(total: real)                         // no auto option and total not 100
    | CannotDistribute(total: real)                      // a negative auto share

  const Tolerance: real := 0.001

  function Abs(x: real): real { if x < 0.0 then -x else x }

  /** `opt.label` when it is a string, else the empty string. */
  function LabelText(opt: Json): string
  {
    var l := Get(opt, "label");
    if l.Some? && l.value.JStr? then l.value.s else ""
  }

  /** `opt.chance != null`: the option carries an explicit chance. */
  predicate HasChance(opt: Json) { !IsNullish(Get(opt, "chance")) }

  /** The explicit chance of a checked entry (0 for an auto entry). */
  function ChanceValue(opt: Json): real
  {
    var c := Get(opt, "chance");
    if c.Some? && c.value.JNum? then c.value.n else 0.0
  }

  /** `opt.ratio == null ? 1 : opt.ratio`, for a checked entry. */
  function RatioValue(opt: Json): real
  {
    var r := Get(opt, "ratio");
    if r.Some? && r.value.JNum? then r.value.n else 1.0
  }

  /** The per-entry checks of the validation loop, in the order the source makes them. */
  function EntryFaultOf(opt: Json): Option<EntryFault>
  {
    var lbl := Get(opt, "label");
    var ratio := Get(opt, "ratio");
    var chance := Get(opt, "chance");
    if !(opt.JObj? || opt.JArr?) then Some(NotAnObject)
    else if !(lbl.Some? && lbl.value.JStr? && lbl.value.s != "") then Some(BadLabel)
    else if !IsNullish(ratio) && !(ratio.value.JNum? && ratio.value.n > 0.0) then Some(BadRatio)
    else if !IsNullish(chance) && !chance.value.JNum? then Some(NonNumericChance)
    else if !IsNullish(chance) && chance.value.n < 0.0 then Some(NegativeChance)
    else None
  }

  /**
   * An entry passes exactly when it is an object with a non-empty string label, a
   * ratio that is absent or a positive number, and a chance that is absent or a
   * non-negative number; a reported fault is a real one, and every check before it
   * passed.
   */
  lemma EntryFaultMeaning(opt: Json)
    ensures EntryFaultOf(opt).None? <==>
      (opt.JObj? || opt.JArr?) && LabelText(opt) != ""
      && (IsNullish(Get(opt, "ratio")) || (Get(opt, "ratio").value.JNum? && Get(opt, "ratio").value.n > 0.0))
      && (IsNullish(Get(opt, "chance")) || (Get(opt, "chance").value.JNum? && ChanceValue(opt) >= 0.0))
    ensures EntryFaultOf(opt) == Some(NotAnObject) <==> !(opt.JObj? || opt.JArr?)
    ensures EntryFaultOf(opt) == Some(BadLabel) ==> LabelText(opt) == ""
    ensures EntryFaultOf(opt) == Some(BadRatio) ==>
      !IsNullish(Get(opt, "ratio")) && !(Get(opt, "ratio").value.JNum? && Get(opt, "ratio").value.n > 0.0)
    ensures EntryFaultOf(opt) == Some(NonNumericChance) ==> !IsNullish(Get(opt, "chance")) && !Get(opt, "chance").value.JNum?
    ensures EntryFaultOf(opt) == Some(NegativeChance) ==> HasChance(opt) && ChanceValue(opt) < 0.0
    ensures EntryFaultOf(opt).Some? && EntryFaultOf(opt).value != NotAnObject && EntryFaultOf(opt).value != BadLabel ==> LabelText(opt) != ""
    ensures EntryFaultOf(opt) == Some(NonNumericChance) || EntryFaultOf(opt) == Some(NegativeChance) ==>
      IsNullish(Get(opt, "ratio")) || (Get(opt, "ratio").value.JNum? && Get(opt, "ratio").value.n > 0.0)
  {
  }

  predicate EntryOk(opt: Json) { EntryFaultOf(opt).None? }

  /** The index of the first refused entry, or `|items|` when every entry passes. */
  function FirstBad(items: seq<Json>): (k: nat)
    ensures k <= |items|
    ensures forall j :: 0 <= j < k ==> EntryOk(items[j])
    ensures k < |items| ==> !EntryOk(items[k])
  {
    if items == [] then 0
    else if !EntryOk(items[0]) then 0
    else 1 + FirstBad(items[1..])
  }

  /** `explicitOptions.reduce((sum, opt) => sum + opt.chance, 0)`. */
  function ExplicitTotal(items: seq<Json>): real
  {
    if items == [] then 0.0 else ExplicitTotal(items[..|items| - 1]) + ChanceValue(items[|items| - 1])
  }

  /** `nullOptions.length`: how many entries have no chance. */
  function AutoCount(items: seq<Json>): nat
  {
    if items == [] then 0
    else AutoCount(items[..|items| - 1]) + (if HasChance(items[|items| - 1]) then 0 else 1)
  }

  /** `nullOptions.length > 0 ? remaining / nullOptions.length : 0`. */
  function AutoShare(total: real, autos: nat): real
  {
    if autos > 0 then (100.0 - total) / (autos as real) else 0.0
  }

  /** The output record of one checked entry. */
  function ResolveEntry(opt: Json, share: real): ResolvedOption
  {
    var c := Get(opt, "chance");
    ResolvedOption(
      LabelText(opt),
      if c.Some? && c.value.JNum? then Some(c.value.n) else None,
      RatioValue(opt),
      if HasChance(opt) then ChanceValue(opt) else share)
  }

  /** `configs.map(...)`: one output record per input entry, in input order. */
  function ResolveAll(items: seq<Json>, share: real): (rs: seq<ResolvedOption>)
    ensures |rs| == |items|
    ensures forall i :: 0 <= i < |items| ==> rs[i] == ResolveEntry(items[i], share)
  {
    if items == [] then []
    else ResolveAll(items[..|items| - 1], share) + [ResolveEntry(items[|items| - 1], share)]
  }

  /**
   * What `validateAndResolveOptions(configs)` returns or throws. It only succeeds on a
   * non-empty array, with one record per entry; a bad entry it reports is one that the
   * per-entry checks refuse, at a valid index.
   */
  function Resolve(configs: Json): (r: Result<seq<ResolvedOption>, ResolveError>)
    ensures r.Success? ==> configs.JArr? && 0 < |r.value| == |configs.items|
    ensures r.Failure? && r.error.BadEntry? ==>
      configs.JArr? && r.error.index < |configs.items| && r.error.entry == configs.items[r.error.index]
      && EntryFaultOf(r.error.entry) == Some(r.error.fault)
  {
    if !configs.JArr? || |configs.items| == 0 then Failure(NoOptions)
    else
      var items := configs.items;
      var k := FirstBad(items);
      if k < |items| then Failure(BadEntry(k, EntryFaultOf(items[k]).value, items[k]))
      else
        var total := ExplicitTotal(items);
        var autos := AutoCount(items);
        if total > 100.0 then Failure(ExplicitOverflow(total))
        else if autos == 0 && Abs(total - 100.0) > Tolerance then Failure(TotalMismatch(total))
        else
          var share := AutoShare(total, autos);
          if share < 0.0 then Failure(CannotDistribute(total))
          else Success(ResolveAll(items, share))
  }

  /**
   * `validateAndResolveOptions(configs)`: the validation loop, the `reduce` over the
   * explicit chances, the share computation and the `map`, in that order.
   */
  method ValidateAndResolveOptions(configs: Json) returns (r: Result<seq<ResolvedOption>, ResolveError>)
    ensures r == Resolve(configs)
  {
    if !configs.JArr? || |configs.items| == 0 {
      return Failure(NoOptions);
    }
    var items := configs.items;
    var bad, explicitOptions, nullOptions := ValidateEntries(items);
    if bad.Some? {
      return Failure(bad.value);
    }
    var explicitTotal := SumChances(explicitOptions);
    if explicitTotal > 100.0 {
      return Failure(ExplicitOverflow(explicitTotal));
    }
    if |nullOptions| == 0 && Abs(explicitTotal - 100.0) > Tolerance {
      return Failure(TotalMismatch(explicitTotal));
    }
    var remaining := 100.0 - explicitTotal;
    var autoChance := if |nullOptions| > 0 then remaining / (|nullOptions| as real) else 0.0;
    if autoChance < 0.0 {
      return Failure(CannotDistribute(explicitTotal));
    }
    var resolved := ResolveEach(items, autoChance);
    return Success(resolved);
  }

  /**
   * The validation loop: checks the entries in order, stops at the first refused one,
   * and otherwise splits the entries into those with and without an explicit chance.
   */
  method ValidateEntries(items: seq<Json>) returns (bad: Option<ResolveError>, explicitOptions: seq<Json>, nullOptions: seq<Json>)
    ensures bad.Some? <==> FirstBad(items) < |items|
    ensures bad.Some? ==> bad.value == BadEntry(FirstBad(items), EntryFaultOf(items[FirstBad(items)]).value, items[FirstBad(items)])
    ensures bad.None? ==> ExplicitTotal(explicitOptions) == ExplicitTotal(items) && |nullOptions| == AutoCount(items)
  {
    explicitOptions, nullOptions := [], [];
    var i := 0;
    while i < |items|
      invariant 0 <= i <= |items|
      invariant forall j :: 0 <= j < i ==> EntryOk(items[j])
      invariant ExplicitTotal(explicitOptions) == ExplicitTotal(items[..i])
      invariant |nullOptions| == AutoCount(items[..i])
    {
      var opt := items[i];
      var fault := EntryFaultOf(opt);
      if fault.Some? {
        FirstBadIs(items, i);
        return Some(BadEntry(i, fault.value, opt)), explicitOptions, nullOptions;
      }
      TotalsStep(items, i);
      if HasChance(opt) {
        ExplicitAppend(explicitOptions, opt);
        explicitOptions := explicitOptions + [opt];
      } else {
        nullOptions := nullOptions + [opt];
      }
      i := i + 1;
    }
    assert items[..|items|] == items;
    FirstBadIs(items, |items|);
    return None, explicitOptions, nullOptions;
  }

  /** Extending a prefix by one entry adds its chance to the total and, when it has none, one auto entry. */
  lemma TotalsStep(items: seq<Json>, i: nat)
    requires i < |items|
    ensures ExplicitTotal(items[..i + 1]) == ExplicitTotal(items[..i]) + ChanceValue(items[i])
    ensures AutoCount(items[..i + 1]) == AutoCount(items[..i]) + (if HasChance(items[i]) then 0 else 1)
  {
    assert items[..i + 1][..i] == items[..i];
  }

  /** Appending an entry adds its chance to the total. */
  lemma ExplicitAppend(es: seq<Json>, opt: Json)
    ensures ExplicitTotal(es + [opt]) == ExplicitTotal(es) + ChanceValue(opt)
  {
    assert (es + [opt])[..|es|] == es;
  }

  /** When every entry before `i` passes and entry `i` (if any) does not, `i` is `FirstBad`. */
  lemma {:induction false} FirstBadIs(items: seq<Json>, i: nat)
    requires i <= |items|
    requires forall j :: 0 <= j < i ==> EntryOk(items[j])
    requires i < |items| ==> !EntryOk(items[i])
    ensures FirstBad(items) == i
  {
    if i > 0 {
      FirstBadIs(items[1..], i - 1);
    }
  }

  /** `explicitOptions.reduce((sum, opt) => sum + opt.chance, 0)`. */
  method SumChances(explicitOptions: seq<Json>) returns (total: real)
    ensures total == ExplicitTotal(explicitOptions)
  {
    total := 0.0;
    var k := 0;
    while k < |explicitOptions|
      invariant 0 <= k <= |explicitOptions|
      invariant total == ExplicitTotal(explicitOptions[..k])
    {
      assert explicitOptions[..k + 1][..k] == explicitOptions[..k];
      total := total + ChanceValue(explicitOptions[k]);
      k := k + 1;
    }
    assert explicitOptions[..|explicitOptions|] == explicitOptions;
  }

  /** The final `map`: one output record per entry, in input order. */
  method ResolveEach(items: seq<Json>, autoChance: real) returns (resolved: seq<ResolvedOption>)
    ensures resolved == ResolveAll(items, autoChance)
  {
    resolved := [];
    var m := 0;
    while m < |items|
      invariant 0 <= m <= |items|
      invariant |resolved| == m
      invariant forall j :: 0 <= j < m ==> resolved[j] == ResolveEntry(items[j], autoChance)
    {
      resolved := resolved + [ResolveEntry(items[m], autoChance)];
      m := m + 1;
    }
  }

  // ---------------------------------------------------------------------------
  // Properties of the resolution
  // ---------------------------------------------------------------------------

  /** The sum of the `resolvedChance` fields, left to right. */
  function SumResolved(rs: seq<ResolvedOption>): real
  {
    if rs == [] then 0.0 else SumResolved(rs[..|rs| - 1]) + rs[|rs| - 1].resolvedChance
  }

  /** The resolved chance of one record: its explicit chance, or the auto share. */
  lemma ResolvedChanceOf(opt: Json, share: real)
    ensures ResolveEntry(opt, share).resolvedChance == ChanceValue(opt) + (if HasChance(opt) then 0.0 else share)
  {
  }

  /** `k` auto options' worth of `share`, added up one at a time. */
  function Shares(k: nat, share: real): real
  {
    if k == 0 then 0.0 else Shares(k - 1, share) + share
  }

  lemma {:induction false} SharesIsProduct(k: nat, share: real)
    ensures Shares(k, share) == (k as real) * share
  {
    if k > 0 {
      SharesIsProduct(k - 1, share);
    }
  }

  /** The resolved chances add up to the explicit total plus one share per auto option. */
  lemma {:induction false} SumOfResolveAll(items: seq<Json>, share: real)
    ensures SumResolved(ResolveAll(items, share)) == ExplicitTotal(items) + Shares(AutoCount(items), share)
  {
    if items != [] {
      var n := |items| - 1;
      var init, last := items[..n], items[n];
      var rs := ResolveAll(items, share);
      assert rs[..n] == ResolveAll(init, share);
      SumOfResolveAll(init, share);
      ResolvedChanceOf(last, share);
      assert SumResolved(rs) == SumResolved(rs[..n]) + ResolveEntry(last, share).resolvedChance;
      assert ExplicitTotal(items) == ExplicitTotal(init) + ChanceValue(last);
      if !HasChance(last) {
        assert AutoCount(items) == AutoCount(init) + 1;
        assert Shares(AutoCount(items), share) == Shares(AutoCount(init), share) + share;
      } else {
        assert AutoCount(items) == AutoCount(init);
      }
    }
  }

  /** Every explicit chance of a checked list is at least 0, and so is their total. */
  lemma {:induction false} ExplicitTotalNonNegative(items: seq<Json>)
    requires forall j :: 0 <= j < |items| ==> EntryOk(items[j])
    ensures ExplicitTotal(items) >= 0.0
  {
    if items != [] {
      ExplicitTotalNonNegative(items[..|items| - 1]);
      assert EntryOk(items[|items| - 1]);
    }
  }

  /**
   * Resolution succeeds exactly when the input is a non-empty array of entries that
   * pass their checks, whose explicit chances total at most 100, and either some
   * option is auto or the total is within 0.001 of 100. The `autoChance < 0`
   * refusal can therefore never happen.
   */
  lemma ResolveSucceedsIff(configs: Json)
    ensures Resolve(configs).Success? <==>
      configs.JArr? && |configs.items| > 0
      && (forall j :: 0 <= j < |configs.items| ==> EntryOk(configs.items[j]))
      && ExplicitTotal(configs.items) <= 100.0
      && (AutoCount(configs.items) > 0 || Abs(ExplicitTotal(configs.items) - 100.0) <= Tolerance)
    ensures !(Resolve(configs).Failure? && Resolve(configs).error.CannotDistribute?)
  {
    if configs.JArr? && |configs.items| > 0 && FirstBad(configs.items) == |configs.items| {
      var items := configs.items;
      var total := ExplicitTotal(items);
      var autos := AutoCount(items);
      if total <= 100.0 && autos > 0 {
        assert 100.0 - total >= 0.0;
        assert AutoShare(total, autos) >= 0.0;
      }
    }
  }

  /**
   * Entries are checked in input order: when resolution refuses an entry, it is
   * the first entry failing a check, every earlier entry passed them all, and the
   * fault is the first check (object, label, ratio, chance type, chance sign) it fails.
   */
  lemma ResolveReportsFirstBadEntry(items: seq<Json>, k: nat)
    requires k < |items|
    requires forall j :: 0 <= j < k ==> EntryOk(items[j])
    requires !EntryOk(items[k])
    ensures Resolve(JArr(items)) == Failure(BadEntry(k, EntryFaultOf(items[k]).value, items[k]))
  {
    assert FirstBad(items) == k;
  }

  /**
   * One output record as the `map` builds it from a checked entry: label and chance
   * copied, ratio defaulted to 1, `resolvedChance` the explicit chance or the auto
   * share; the ratio is positive and the resolved chance at least 0.
   */
  predicate ResolvedFrom(e: ResolvedOption, opt: Json, share: real)
  {
    e.name == LabelText(opt) && e.name != ""
    && (e.chance.Some? <==> HasChance(opt))
    && (e.chance.Some? ==> e.chance.value == ChanceValue(opt) == e.resolvedChance)
    && (e.chance.None? ==> e.resolvedChance == share)
    && (IsNullish(Get(opt, "ratio")) ==> e.ratio == 1.0)
    && (!IsNullish(Get(opt, "ratio")) ==> JNum(e.ratio) == Get(opt, "ratio").value)
    && e.ratio > 0.0
    && e.resolvedChance >= 0.0
  }

  lemma ResolveEntryIsResolvedFrom(opt: Json, share: real)
    requires EntryOk(opt) && share >= 0.0
    ensures ResolvedFrom(ResolveEntry(opt, share), opt, share)
  {
  }

  /**
   * What a successful resolution returns: one record per entry, in input order,
   * each built from its entry as `ResolvedFrom` says, with the common auto share.
   */
  lemma ResolvedOptionsProperties(configs: Json)
    requires Resolve(configs).Success?
    ensures configs.JArr?
    ensures var items, rs := configs.items, Resolve(configs).value;
      var share := AutoShare(ExplicitTotal(items), AutoCount(items));
      |rs| == |items| && forall i :: 0 <= i < |rs| ==> ResolvedFrom(rs[i], items[i], share)
  {
    ResolveSucceedsIff(configs);
    var items := configs.items;
    var share := AutoShare(ExplicitTotal(items), AutoCount(items));
    var rs := Resolve(configs).value;
    assert rs == ResolveAll(items, share);
    forall i | 0 <= i < |rs| ensures ResolvedFrom(rs[i], items[i], share) {
      ResolveEntryIsResolvedFrom(items[i], share);
    }
  }

  /**
   * The resolved chances of a successful resolution total exactly 100 when some
   * option is auto, and lie within 0.001 of 100 otherwise.
   */
  lemma ResolvedChancesTotal(configs: Json)
    requires Resolve(configs).Success?
    ensures configs.JArr?
    ensures var items, rs := configs.items, Resolve(configs).value;
      (AutoCount(items) > 0 ==> SumResolved(rs) == 100.0)
      && (AutoCount(items) == 0 ==> Abs(SumResolved(rs) - 100.0) <= Tolerance)
  {
    ResolveSucceedsIff(configs);
    var items := configs.items;
    var total := ExplicitTotal(items);
    var autos := AutoCount(items);
    var share := AutoShare(total, autos);
    assert Resolve(configs).value == ResolveAll(items, share);
    SumOfResolveAll(items, share);
    if autos > 0 {
      SharesOfAutoShare(total, autos);
    }
  }

  /** The auto options together receive exactly what the explicit ones leave. */
  lemma SharesOfAutoShare(total: real, autos: nat)
    requires autos > 0
    ensures Shares(autos, AutoShare(total, autos)) == 100.0 - total
  {
    var share := (100.0 - total) / (autos as real);
    SharesIsProduct(autos, share);
    assert (autos as real) * share == 100.0 - total;
  }

  // ---------------------------------------------------------------------------
  // summarizeResolvedOptions
  // ---------------------------------------------------------------------------

  /** The breakdown the build-time check prints. */
  datatype Summary = Summary(missingChanceCount: nat, missingRatioCount: nat, autoChance: real, totalRatio: real)

  /** `resolvedOptions.filter((opt) => opt.chance == null).length`. */
  function CountMissingChance(rs: seq<ResolvedOption>): nat
  {
    if rs == [] then 0
    else CountMissingChance(rs[..|rs| - 1]) + (if rs[|rs| - 1].chance.None? then 1 else 0)
  }

  /** `rawOptions.filter((opt) => opt.ratio == null).length`. */
  function CountMissingRatio(raw: seq<Json>): nat
  {
    if raw == [] then 0
    else CountMissingRatio(raw[..|raw| - 1]) + (if IsNullish(Get(raw[|raw| - 1], "ratio")) then 1 else 0)
  }

  /** `resolvedOptions.find((opt) => opt.chance == null)?.resolvedChance`. */
  function FindAutoChance(rs: seq<ResolvedOption>): Option<real>
  {
    if rs == [] then None
    else if rs[0].chance.None? then Some(rs[0].resolvedChance)
    else FindAutoChance(rs[1..])
  }

  /** `resolvedOptions.reduce((sum, opt) => sum + opt.ratio, 0)`. */
  function TotalRatio(rs: seq<ResolvedOption>): real
  {
    if rs == [] then 0.0 else TotalRatio(rs[..|rs| - 1]) + rs[|rs| - 1].ratio
  }

  /** `summarizeResolvedOptions(rawOptions, resolvedOptions)`; `null.ratio` would throw. */
  function SummarizeResolvedOptions(raw: seq<Json>, rs: seq<ResolvedOption>): Summary
    requires forall i :: 0 <= i < |raw| ==> raw[i] != JNull
  {
    var missingChanceCount := CountMissingChance(rs);
    var found := FindAutoChance(rs);
    Summary(
      missingChanceCount,
      CountMissingRatio(raw),
      if missingChanceCount > 0 then (if found.Some? then found.value else 0.0) else 0.0,
      TotalRatio(rs))
  }

  lemma {:induction false} CountMissingChanceOfResolveAll(items: seq<Json>, share: real)
    requires forall j :: 0 <= j < |items| ==> EntryOk(items[j])
    ensures CountMissingChance(ResolveAll(items, share)) == AutoCount(items)
  {
    if items != [] {
      var n := |items| - 1;
      assert ResolveAll(items, share)[..n] == ResolveAll(items[..n], share);
      CountMissingChanceOfResolveAll(items[..n], share);
      assert EntryOk(items[n]);
    }
  }

  lemma {:induction false} FindAutoChanceIsShare(rs: seq<ResolvedOption>, share: real)
    requires forall i :: 0 <= i < |rs| && rs[i].chance.None? ==> rs[i].resolvedChance == share
    ensures FindAutoChance(rs).Some? ==> FindAutoChance(rs).value == share
    ensures CountMissingChance(rs) > 0 ==> FindAutoChance(rs).Some?
  {
    if rs != [] {
      FindAutoChanceIsShare(rs[1..], share);
      if CountMissingChance(rs) > 0 && rs[0].chance.Some? {
        CountMissingChanceTail(rs);
      }
    }
  }

  /** Counting from the front: the first record adds one when it has no chance. */
  lemma {:induction false} CountMissingChanceTail(rs: seq<ResolvedOption>)
    requires rs != []
    ensures CountMissingChance(rs) == (if rs[0].chance.None? then 1 else 0) + CountMissingChance(rs[1..])
  {
    if |rs| > 1 {
      var n := |rs| - 1;
      assert rs[1..][..n - 1] == rs[..n][1..];
      CountMissingChanceTail(rs[..n]);
    }
  }

  lemma {:induction false} TotalRatioPositive(rs: seq<ResolvedOption>)
    requires rs != []
    requires forall i :: 0 <= i < |rs| ==> rs[i].ratio > 0.0
    ensures TotalRatio(rs) > 0.0
  {
    if |rs| > 1 {
      TotalRatioPositive(rs[..|rs| - 1]);
    }
  }

  /**
   * The summary of a successful resolution: `missingChanceCount` is the number of
   * auto options, `autoChance` their common share (0 when there is none),
   * `missingRatioCount` the number of raw entries without a ratio and `totalRatio`
   * the (positive) total of the resolved ratios.
   */
  lemma {:induction false} SummaryOfResolution(raw: seq<Json>)
    requires Resolve(JArr(raw)).Success?
    ensures forall i :: 0 <= i < |raw| ==> raw[i] != JNull
    ensures var rs := Resolve(JArr(raw)).value;
      var s := SummarizeResolvedOptions(raw, rs);
      s.missingChanceCount == AutoCount(raw)
      && s.missingRatioCount == CountMissingRatio(raw)
      && s.autoChance == AutoShare(ExplicitTotal(raw), AutoCount(raw))
      && s.totalRatio == TotalRatio(rs) && s.totalRatio > 0.0
  {
    ResolveSucceedsIff(JArr(raw));
    var share := AutoShare(ExplicitTotal(raw), AutoCount(raw));
    var rs := Resolve(JArr(raw)).value;
    assert rs == ResolveAll(raw, share);
    forall i | 0 <= i < |raw| ensures raw[i] != JNull {
      assert EntryOk(raw[i]);
    }
    ResolvedOptionsProperties(JArr(raw));
    CountMissingChanceOfResolveAll(raw, share);
    FindAutoChanceIsShare(rs, share);
    TotalRatioPositive(rs);
    var s := SummarizeResolvedOptions(raw, rs);
    assert s.missingChanceCount == AutoCount(raw);
    assert s.autoChance == share;
  }

  // ---------------------------------------------------------------------------
  // Worked examples
  // ---------------------------------------------------------------------------

  /** The fields a typed record's object carries. */
  lemma ConfigJsonFields(c: OptionConfig)
    ensures Get(ConfigJson(c), "label") == Some(JStr(c.name))
    ensures Get(ConfigJson(c), "chance") == if c.chance.Some? then Some(JNum(c.chance.value)) else None
    ensures Get(ConfigJson(c), "ratio") == if c.ratio.Some? then Some(JNum(c.ratio.value)) else None
  {
  }

  /** Explicit chances 40 and 30, one auto option with a ratio and one without. */
  const TwoAutoConfigs: seq<OptionConfig> := [
    OptionConfig("A", Some(40.0), Some(1.0)), OptionConfig("B", Some(30.0), Some(1.0)),
    OptionConfig("C", None, Some(1.0)), OptionConfig("D", None, None)]

  /** What the checks make of a typed record's object. */
  lemma ConfigEntryFacts(c: OptionConfig)
    ensures HasChance(ConfigJson(c)) <==> c.chance.Some?
    ensures ChanceValue(ConfigJson(c)) == if c.chance.Some? then c.chance.value else 0.0
    ensures RatioValue(ConfigJson(c)) == if c.ratio.Some? then c.ratio.value else 1.0
    ensures EntryOk(ConfigJson(c)) <==>
      c.name != "" && !(c.ratio.Some? && c.ratio.value <= 0.0) && !(c.chance.Some? && c.chance.value < 0.0)
  {
    ConfigJsonFields(c);
  }

  /** The record a typed record resolves to: its own fields, the default ratio 1, and the share when it has no chance. */
  lemma ConfigResolves(c: OptionConfig, share: real)
    ensures ResolveEntry(ConfigJson(c), share) == ResolvedOption(c.name, c.chance,
      if c.ratio.Some? then c.ratio.value else 1.0, if c.chance.Some? then c.chance.value else share)
  {
    ConfigJsonFields(c);
  }

  /** The chance facts of each example entry. */
  lemma TwoAutoEntries()
    ensures var items := ConfigsJson(TwoAutoConfigs).items;
      |items| == 4
      && (forall i :: 0 <= i < 4 ==> EntryOk(items[i]))
      && HasChance(items[0]) && ChanceValue(items[0]) == 40.0
      && HasChance(items[1]) && ChanceValue(items[1]) == 30.0
      && !HasChance(items[2]) && !HasChance(items[3])
  {
    var cs := TwoAutoConfigs;
    var items := ConfigsJson(cs).items;
    ConfigEntryFacts(cs[0]);
    ConfigEntryFacts(cs[1]);
    ConfigEntryFacts(cs[2]);
    ConfigEntryFacts(cs[3]);
    assert EntryOk(items[0]) && EntryOk(items[1]) && EntryOk(items[2]) && EntryOk(items[3]);
  }

  lemma ExampleTwoAutoTotals()
    ensures var items := ConfigsJson(TwoAutoConfigs).items;
      FirstBad(items) == 4 && ExplicitTotal(items) == 70.0 && AutoCount(items) == 2
  {
    var items := ConfigsJson(TwoAutoConfigs).items;
    TwoAutoEntries();
    FirstBadIs(items, 4);
    var p1, p2, p3 := items[..1], items[..2], items[..3];
    assert p1[..0] == [] && p2[..1] == p1 && p3[..2] == p2 && items[..3] == p3;
    assert p1[0] == items[0] && p2[1] == items[1] && p3[2] == items[2];
    assert ExplicitTotal(p1) == 40.0 && AutoCount(p1) == 0;
    assert ExplicitTotal(p2) == 70.0 && AutoCount(p2) == 0;
    assert ExplicitTotal(p3) == 70.0 && AutoCount(p3) == 1;
  }

  lemma ExampleTwoAutoRecords()
    ensures ResolveAll(ConfigsJson(TwoAutoConfigs).items, 15.0) == [
      ResolvedOption("A", Some(40.0), 1.0, 40.0), ResolvedOption("B", Some(30.0), 1.0, 30.0),
      ResolvedOption("C", None, 1.0, 15.0), ResolvedOption("D", None, 1.0, 15.0)]
  {
    var cs := TwoAutoConfigs;
    var rs := ResolveAll(ConfigsJson(cs).items, 15.0);
    ConfigResolves(cs[0], 15.0);
    ConfigResolves(cs[1], 15.0);
    ConfigResolves(cs[2], 15.0);
    ConfigResolves(cs[3], 15.0);
    assert rs[0] == ResolvedOption("A", Some(40.0), 1.0, 40.0);
    assert rs[1] == ResolvedOption("B", Some(30.0), 1.0, 30.0);
    assert rs[2] == ResolvedOption("C", None, 1.0, 15.0);
    assert rs[3] == ResolvedOption("D", None, 1.0, 15.0);
  }

  /** With explicit chances 40 and 30, each of the two auto options gets 15. */
  lemma ExampleTwoAutoOptions()
    ensures Resolve(ConfigsJson(TwoAutoConfigs)) == Success([
      ResolvedOption("A", Some(40.0), 1.0, 40.0), ResolvedOption("B", Some(30.0), 1.0, 30.0),
      ResolvedOption("C", None, 1.0, 15.0), ResolvedOption("D", None, 1.0, 15.0)])
  {
    ExampleTwoAutoTotals();
    ExampleTwoAutoRecords();
    assert AutoShare(70.0, 2) == 15.0;
  }

  /** Two explicit chances of 60 overflow 100. */
  lemma ExampleOverflow()
    ensures Resolve(ConfigsJson([OptionConfig("A", Some(60.0), Some(1.0)), OptionConfig("B", Some(60.0), Some(1.0))]))
      == Failure(ExplicitOverflow(120.0))
  {
    var cs := [OptionConfig("A", Some(60.0), Some(1.0)), OptionConfig("B", Some(60.0), Some(1.0))];
    var items := ConfigsJson(cs).items;
    ConfigJsonFields(cs[0]);
    ConfigJsonFields(cs[1]);
    assert items[..1][..0] == [] && items[..1] == items[..|items| - 1];
    assert ExplicitTotal(items[..1]) == 60.0;
    assert items[..2] == items;
    FirstBadIs(items, 2);
  }

  /** A negative chance is refused at its entry. */
  lemma ExampleNegativeChance()
    ensures Resolve(ConfigsJson([OptionConfig("A", Some(-1.0), Some(1.0))]))
      == Failure(BadEntry(0, NegativeChance, ConfigJson(OptionConfig("A", Some(-1.0), Some(1.0)))))
  {
    ConfigJsonFields(OptionConfig("A", Some(-1.0), Some(1.0)));
  }
}
