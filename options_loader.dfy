/**
 * The payload handling of `optionsLoader.ts`: the JSON returned by the options
 * endpoint becomes a list of typed option records (`toWheelOptionConfigs`), with
 * string cells coerced to numbers (`toOptionalNumber`), and the list then goes to
 * the option resolver. The fetch itself is not part of this model.
 *
 * JavaScript's `Number(string)` is split in two: the part this model states (it
 * trims whitespace and reads an empty string as 0) and a parameter `parse` for the
 * numeric-literal grammar, which answers `None` where `Number` gives NaN or an
 * infinite value.
 */
module OptionsLoader {
  import opened Wrappers
  import opened Json
  import opened Text
  import OptionsCore

  /** A numeric-literal reader: `Some(x)` for a literal whose value is the finite `x`, else `None`. */
  type Parser = string -> Option<real>

  /** Why a payload is refused. */
  datatype LoadError =
    | EndpointError(message: string)                            // `{ ok: false, ... }`
    | NotAnOptionsList                                          // neither an array nor `{ options: [...] }`
    | InvalidEntry(index: nat)                                  // a row that is not an object
    | InvalidNumber(lbl: string, field: string, value: Json)  // a chance or ratio that is not a number

  const DefaultEndpointError: string := "Options endpoint returned an error."

  /** `isJsonRecord(value)`: an object that is neither `null` nor an array. */
  predicate IsJsonRecord(v: Json) { v.JObj? }

  /** `Number(s)` on a string, and the `Number.isFinite` test on its result. */
  function NumberOf(s: string, parse: Parser): Option<real>
  {
    var t := Trim(s);
    if t == "" then Some(0.0) else parse(t)
  }

  /** `s.replace(/%$/, '')`: one `%` at the very end is removed. */
  function StripPercent(s: string): (r: string)
    ensures s != [] && s[|s| - 1] == '%' ==> r == s[..|s| - 1]
    ensures !(s != [] && s[|s| - 1] == '%') ==> r == s
  {
    if s != [] && s[|s| - 1] == '%' then s[..|s| - 1] else s
  }

  /** `toOptionalNumber(value, fieldName, label)`: a present cell as a finite number, or an error. */
  function ToOptionalNumber(value: Option<Json>, field: string, lbl: string, parse: Parser): Result<Option<real>, LoadError>
  {
    if IsNullish(value) then Success(None)
    else match value.value
      case JNum(n) => Success(Some(n))
      case JStr(s) =>
        var trimmed := Trim(s);
        if trimmed == "" then Success(None)
        else
          var parsed := NumberOf(StripPercent(trimmed), parse);
          if parsed.None? then Failure(InvalidNumber(lbl, field, value.value)) else Success(Some(parsed.value))
      case _ => Failure(InvalidNumber(lbl, field, value.value))
  }

  /** The label a row's errors carry: the row's label, or `<index:i>` when it is empty. */
  function RowName(lbl: string, index: nat): string
  {
    if lbl != "" then lbl else "<index:" + NatToString(index) + ">"
  }

  /** `typeof item.label === 'string' ? item.label.trim() : ''`. */
  function RowLabel(item: Json): string
  {
    var l := Get(item, "label");
    if l.Some? && l.value.JStr? then Trim(l.value.s) else ""
  }

  /** The `map` callback for the row at `index`. */
  function ConvertRow(item: Json, index: nat, parse: Parser): Result<OptionsCore.OptionConfig, LoadError>
  {
    if !IsJsonRecord(item) then Failure(InvalidEntry(index))
    else
      var lbl := RowLabel(item);
      var chance := ToOptionalNumber(Get(item, "chance"), "chance", RowName(lbl, index), parse);
      if chance.Failure? then Failure(chance.error)
      else
        var ratio := ToOptionalNumber(Get(item, "ratio"), "ratio", RowName(lbl, index), parse);
        if ratio.Failure? then Failure(ratio.error)
        else Success(OptionsCore.OptionConfig(lbl, chance.value, ratio.value))
  }

  /** A row conversion: the `map` callback with everything but the row and its index fixed. */
  type RowConverter = (Json, nat) -> Result<OptionsCore.OptionConfig, LoadError>

  /** `rows.map(convert)` over the first `n` rows: the converted rows in order, or the first failing row's error. */
  function MapRows(rows: seq<Json>, n: nat, convert: RowConverter): (r: Result<seq<OptionsCore.OptionConfig>, LoadError>)
    requires n <= |rows|
    ensures r.Success? ==> |r.value| == n
    ensures r.Success? ==> forall k :: 0 <= k < n ==> convert(rows[k], k) == Success(r.value[k])
  {
    if n == 0 then Success([])
    else
      var prev := MapRows(rows, n - 1, convert);
      if prev.Failure? then prev
      else
        var last := convert(rows[n - 1], n - 1);
        if last.Failure? then Failure(last.error) else Success(prev.value + [last.value])
  }

  /** The payload's `rows.map(...)`. */
  function ConvertRows(rows: seq<Json>, parse: Parser): Result<seq<OptionsCore.OptionConfig>, LoadError>
  {
    MapRows(rows, |rows|, (item: Json, index: nat) => ConvertRow(item, index, parse))
  }

  /** The `filter` predicate: a row with no label, no chance and no ratio is a blank spreadsheet line. */
  predicate Kept(c: OptionsCore.OptionConfig)
  {
    c.name != "" || c.chance.Some? || c.ratio.Some?
  }

  function Filter(cs: seq<OptionsCore.OptionConfig>): (r: seq<OptionsCore.OptionConfig>)
    ensures |r| <= |cs|
    ensures forall k :: 0 <= k < |r| ==> Kept(r[k])
  {
    if cs == [] then [] else (if Kept(cs[0]) then [cs[0]] else []) + Filter(cs[1..])
  }

  /** Where the rows come from: a bare array, or the `options` property of an object. */
  function RawOptions(payload: Json): Option<seq<Json>>
  {
    if payload.JArr? then Some(payload.items)
    else if IsJsonRecord(payload) && Get(payload, "options").Some? && Get(payload, "options").value.JArr?
    then Some(Get(payload, "options").value.items)
    else None
  }

  /** `toWheelOptionConfigs(payload)`. */
  function ToWheelOptionConfigs(payload: Json, parse: Parser): Result<seq<OptionsCore.OptionConfig>, LoadError>
  {
    if IsJsonRecord(payload) && Get(payload, "ok") == Some(JBool(false)) then
      var e := Get(payload, "error");
      Failure(EndpointError(if e.Some? && e.value.JStr? then e.value.s else DefaultEndpointError))
    else
      var raw := RawOptions(payload);
      if raw.None? then Failure(NotAnOptionsList)
      else
        var converted := ConvertRows(raw.value, parse);
        if converted.Failure? then Failure(converted.error) else Success(Filter(converted.value))
  }

  /** The loader followed by the resolver, as `loadWheelOptionsFromGoogleSheet` chains them. */
  datatype PipelineError = Load(load: LoadError) | Resolve(resolve: OptionsCore.ResolveError)

  function LoadAndResolve(payload: Json, parse: Parser): Result<seq<OptionsCore.ResolvedOption>, PipelineError>
  {
    var configs := ToWheelOptionConfigs(payload, parse);
    if configs.Failure? then Failure(Load(configs.error))
    else
      var resolved := OptionsCore.Resolve(OptionsCore.ConfigsJson(configs.value));
      if resolved.Failure? then Failure(Resolve(resolved.error)) else Success(resolved.value)
  }


  // ---------------------------------------------------------------------------
  // Properties of the number coercion
  // ---------------------------------------------------------------------------

  /**
   * What `toOptionalNumber` does with each kind of cell: `null` and `undefined` are
   * absent, a number is itself, a blank string is absent, any other string is read
   * after dropping one trailing `%`, and booleans, arrays and objects are refused.
   */
  lemma ToOptionalNumberCases(value: Option<Json>, field: string, lbl: string, parse: Parser)
    ensures IsNullish(value) ==> ToOptionalNumber(value, field, lbl, parse) == Success(None)
    ensures value.Some? && value.value.JNum? ==> ToOptionalNumber(value, field, lbl, parse) == Success(Some(value.value.n))
    ensures value.Some? && value.value.JStr? && Trim(value.value.s) == "" ==> ToOptionalNumber(value, field, lbl, parse) == Success(None)
    ensures value.Some? && value.value.JStr? && Trim(value.value.s) != "" ==>
      ToOptionalNumber(value, field, lbl, parse) ==
        (var x := NumberOf(StripPercent(Trim(value.value.s)), parse);
         if x.Some? then Success(Some(x.value)) else Failure(InvalidNumber(lbl, field, value.value)))
    ensures value.Some? && (value.value.JBool? || value.value.JArr? || value.value.JObj?) ==>
      ToOptionalNumber(value, field, lbl, parse) == Failure(InvalidNumber(lbl, field, value.value))
  {
  }

  /** A string with no surrounding whitespace keeps its trim when a `%` is appended. */
  lemma TrimWithPercent(t: string)
    requires t != [] && Trim(t) == t
    ensures Trim(t + "%") == t + "%"
  {
    TrimShape(t);
    assert !IsSpace(t[0]);
    var p := t + "%";
    assert p[0] == t[0];
    assert TrimStart(p) == p;
    assert p[|p| - 1] == '%';
    assert TrimEnd(p) == p;
  }

  /** A cell that is already trimmed and not blank is read after dropping a trailing `%`. */
  lemma TrimmedCell(s: string, field: string, lbl: string, parse: Parser)
    requires s != [] && Trim(s) == s
    ensures ToOptionalNumber(Some(JStr(s)), field, lbl, parse) ==
      (var x := NumberOf(StripPercent(s), parse);
       if x.Some? then Success(Some(x.value)) else Failure(InvalidNumber(lbl, field, JStr(s))))
  {
    ToOptionalNumberCases(Some(JStr(s)), field, lbl, parse);
  }

  lemma StripAppendedPercent(t: string)
    ensures StripPercent(t + "%") == t
  {
    assert (t + "%")[..|t|] == t;
  }

  /** Two trimmed cells that agree once a trailing `%` is dropped are read alike. */
  lemma SameReadingAfterStrip(t: string, p: string, field: string, lbl: string, parse: Parser)
    requires t != [] && Trim(t) == t && p != [] && Trim(p) == p
    requires StripPercent(p) == StripPercent(t)
    ensures var a := ToOptionalNumber(Some(JStr(p)), field, lbl, parse);
      var b := ToOptionalNumber(Some(JStr(t)), field, lbl, parse);
      (a.Success? <==> b.Success?) && (a.Success? ==> a == b)
  {
    TrimmedCell(p, field, lbl, parse);
    TrimmedCell(t, field, lbl, parse);
  }

  /**
   * A cell `"x%"` reads the same as the cell `"x"`: the percent sign is only
   * decoration (the refusal differs only in the raw value it quotes).
   */
  lemma PercentSignIgnored(signed: string, field: string, lbl: string, parse: Parser)
    requires signed != [] && Trim(signed) == signed && signed[|signed| - 1] == '%'
    requires var t := signed[..|signed| - 1]; t != [] && Trim(t) == t && t[|t| - 1] != '%'
    ensures var t := signed[..|signed| - 1];
      var a := ToOptionalNumber(Some(JStr(signed)), field, lbl, parse);
      var b := ToOptionalNumber(Some(JStr(t)), field, lbl, parse);
      (a.Success? <==> b.Success?) && (a.Success? ==> a == b)
  {
    var t := signed[..|signed| - 1];
    assert StripPercent(t) == t;
    SameReadingAfterStrip(t, signed, field, lbl, parse);
  }

  /** A lone `"%"` is not blank, and reads as `Number("")`, which is 0. */
  lemma LonePercentIsZero(field: string, lbl: string, parse: Parser)
    ensures ToOptionalNumber(Some(JStr("%")), field, lbl, parse) == Success(Some(0.0))
  {
    assert !IsSpace('%');
    assert NoSpace("%");
    TrimNoSpace("%");
    assert StripPercent("%") == "";
    assert NumberOf("", parse) == Some(0.0);
    ToOptionalNumberCases(Some(JStr("%")), field, lbl, parse);
  }

  // ---------------------------------------------------------------------------
  // Properties of the payload conversion
  // ---------------------------------------------------------------------------

  /** `{ ok: false }` is an endpoint error carrying the payload's `error` string, or the fixed message. */
  lemma EndpointErrorReported(fields: map<string, Json>, parse: Parser)
    requires "ok" in fields && fields["ok"] == JBool(false)
    ensures ToWheelOptionConfigs(JObj(fields), parse) ==
      Failure(EndpointError(if "error" in fields && fields["error"].JStr? then fields["error"].s else DefaultEndpointError))
  {
  }

  /**
   * The rows are the payload itself when it is an array, or its `options` array; any
   * other payload (a string, a number, `null`, an object without an `options` array)
   * is refused unless it is an `ok: false` error.
   */
  lemma RowsSource(payload: Json, parse: Parser)
    ensures payload.JArr? ==> RawOptions(payload) == Some(payload.items)
    ensures payload.JObj? && "options" in payload.fields && payload.fields["options"].JArr? ==>
      RawOptions(payload) == Some(payload.fields["options"].items)
    ensures RawOptions(payload).None? && !(IsJsonRecord(payload) && Get(payload, "ok") == Some(JBool(false))) ==>
      ToWheelOptionConfigs(payload, parse) == Failure(NotAnOptionsList)
  {
  }

  /** When every one of the first `n` rows converts, so does the whole prefix. */
  lemma {:induction false} PrefixConverts(rows: seq<Json>, n: nat, convert: RowConverter)
    requires n <= |rows|
    requires forall j :: 0 <= j < n ==> convert(rows[j], j).Success?
    ensures MapRows(rows, n, convert).Success?
  {
    if n > 0 {
      PrefixConverts(rows, n - 1, convert);
    }
  }

  /**
   * Rows are converted in order and the first row that fails stops the conversion:
   * when rows before `k` convert and row `k` does not, every prefix that holds row `k`
   * converts to row `k`'s error.
   */
  lemma {:induction false} FirstFailingRowReported(rows: seq<Json>, k: nat, n: nat, convert: RowConverter)
    requires k < n <= |rows|
    requires forall j :: 0 <= j < k ==> convert(rows[j], j).Success?
    requires convert(rows[k], k).Failure?
    ensures MapRows(rows, n, convert) == Failure(convert(rows[k], k).error)
  {
    if n == k + 1 {
      PrefixConverts(rows, k, convert);
    } else {
      FirstFailingRowReported(rows, k, n - 1, convert);
    }
  }

  /**
   * The payload's rows convert exactly when every row does, into the converted rows
   * in order; otherwise the payload is refused with the error of the first failing row.
   */
  lemma PayloadRowsConverted(rows: seq<Json>, parse: Parser)
    ensures (forall j :: 0 <= j < |rows| ==> ConvertRow(rows[j], j, parse).Success?) ==>
      ConvertRows(rows, parse).Success?
    ensures ConvertRows(rows, parse).Success? ==>
      (|ConvertRows(rows, parse).value| == |rows|
       && forall j :: 0 <= j < |rows| ==> ConvertRow(rows[j], j, parse) == Success(ConvertRows(rows, parse).value[j]))
    ensures forall k :: 0 <= k < |rows| ==>
      (ConvertRow(rows[k], k, parse).Failure? && (forall j :: 0 <= j < k ==> ConvertRow(rows[j], j, parse).Success?)) ==>
      ConvertRows(rows, parse) == Failure(ConvertRow(rows[k], k, parse).error)
  {
    var convert: RowConverter := (item: Json, index: nat) => ConvertRow(item, index, parse);
    if forall j :: 0 <= j < |rows| ==> ConvertRow(rows[j], j, parse).Success? {
      PrefixConverts(rows, |rows|, convert);
    }
    forall k | 0 <= k < |rows| && ConvertRow(rows[k], k, parse).Failure? &&
      (forall j :: 0 <= j < k ==> ConvertRow(rows[j], j, parse).Success?)
      ensures ConvertRows(rows, parse) == Failure(ConvertRow(rows[k], k, parse).error)
    {
      FirstFailingRowReported(rows, k, |rows|, convert);
    }
  }

  /** A row that is not an object is refused with its index. */
  lemma NonRecordRowRefused(item: Json, index: nat, parse: Parser)
    requires !item.JObj?
    ensures ConvertRow(item, index, parse) == Failure(InvalidEntry(index))
  {
  }

  /** A converted row carries the trimmed label (or `''` for a non-string label) and the coerced numbers. */
  lemma ConvertedRowFields(item: Json, index: nat, parse: Parser)
    requires ConvertRow(item, index, parse).Success?
    ensures var c := ConvertRow(item, index, parse).value;
      item.JObj?
      && (Get(item, "label").Some? && Get(item, "label").value.JStr? ==> c.name == Trim(Get(item, "label").value.s))
      && (!(Get(item, "label").Some? && Get(item, "label").value.JStr?) ==> c.name == "")
      && Trim(c.name) == c.name
      && ToOptionalNumber(Get(item, "chance"), "chance", RowName(c.name, index), parse) == Success(c.chance)
      && ToOptionalNumber(Get(item, "ratio"), "ratio", RowName(c.name, index), parse) == Success(c.ratio)
  {
    var l := Get(item, "label");
    if l.Some? && l.value.JStr? {
      TrimIdempotent(l.value.s);
    }
  }

  /** Filtering distributes over concatenation, so the kept rows stay in input order. */
  lemma {:induction false} FilterAppend(xs: seq<OptionsCore.OptionConfig>, ys: seq<OptionsCore.OptionConfig>)
    ensures Filter(xs + ys) == Filter(xs) + Filter(ys)
  {
    if xs == [] {
      assert xs + ys == ys;
    } else {
      assert (xs + ys)[0] == xs[0];
      assert (xs + ys)[1..] == xs[1..] + ys;
      FilterAppend(xs[1..], ys);
    }
  }

  /** A row survives the filter exactly when it is not blank. */
  lemma {:induction false} FilterMembership(cs: seq<OptionsCore.OptionConfig>, c: OptionsCore.OptionConfig)
    ensures c in Filter(cs) <==> c in cs && Kept(c)
  {
    if cs != [] {
      FilterMembership(cs[1..], c);
      assert cs == [cs[0]] + cs[1..];
    }
  }

  /** Without blank rows, the filter changes nothing. */
  lemma {:induction false} FilterAllKept(cs: seq<OptionsCore.OptionConfig>)
    requires forall k :: 0 <= k < |cs| ==> Kept(cs[k])
    ensures Filter(cs) == cs
  {
    if cs != [] {
      FilterAllKept(cs[1..]);
    }
  }

  // ---------------------------------------------------------------------------
  // The loader and the resolver together
  // ---------------------------------------------------------------------------

  /**
   * A loaded record always reaches the resolver's checks as an object with a string
   * label and numeric chance and ratio, so only three of its checks can refuse it: an
   * empty label, a ratio that is not positive and a negative chance.
   */
  lemma LoadedRecordChecks(c: OptionsCore.OptionConfig)
    ensures var fault := OptionsCore.EntryFaultOf(OptionsCore.ConfigJson(c));
      (fault == Some(OptionsCore.BadLabel) <==> c.name == "")
      && (fault == Some(OptionsCore.BadRatio) <==> c.name != "" && c.ratio.Some? && c.ratio.value <= 0.0)
      && (fault == Some(OptionsCore.NegativeChance) <==>
          c.name != "" && !(c.ratio.Some? && c.ratio.value <= 0.0) && c.chance.Some? && c.chance.value < 0.0)
      && (fault.None? <==> c.name != "" && !(c.ratio.Some? && c.ratio.value <= 0.0) && !(c.chance.Some? && c.chance.value < 0.0))
  {
    OptionsCore.ConfigJsonFields(c);
  }

  /** A row with a blank label and a chance converts to a record with an empty label. */
  lemma BlankLabelRowConverts(parse: Parser)
    ensures ConvertRow(JObj(map["label" := JStr(" "), "chance" := JNum(100.0)]), 0, parse)
      == Success(OptionsCore.OptionConfig("", Some(100.0), None))
  {
    var row := JObj(map["label" := JStr(" "), "chance" := JNum(100.0)]);
    assert Trim(" ") == "" by {
      assert TrimStart(" ") == TrimStart(" "[1..]);
      assert " "[1..] == "";
    }
    assert Get(row, "label") == Some(JStr(" "));
    assert RowLabel(row) == "";
    assert Get(row, "chance") == Some(JNum(100.0));
    ToOptionalNumberCases(Get(row, "chance"), "chance", RowName("", 0), parse);
    assert Get(row, "ratio") == None;
    ToOptionalNumberCases(Get(row, "ratio"), "ratio", RowName("", 0), parse);
  }

  /** The record with an empty label but a chance survives the filter. */
  lemma BlankLabelRecordKept()
    ensures Filter([OptionsCore.OptionConfig("", Some(100.0), None)]) == [OptionsCore.OptionConfig("", Some(100.0), None)]
  {
    var c := OptionsCore.OptionConfig("", Some(100.0), None);
    assert Filter([c]) == [c] + Filter([]);
  }

  /** The record with an empty label survives the filter and the resolver refuses it at index 0. */
  lemma BlankLabelRecordRefused()
    ensures Filter([OptionsCore.OptionConfig("", Some(100.0), None)]) == [OptionsCore.OptionConfig("", Some(100.0), None)]
    ensures OptionsCore.Resolve(OptionsCore.ConfigsJson([OptionsCore.OptionConfig("", Some(100.0), None)]))
      == Failure(OptionsCore.BadEntry(0, OptionsCore.BadLabel,
        OptionsCore.ConfigJson(OptionsCore.OptionConfig("", Some(100.0), None))))
  {
    var c := OptionsCore.OptionConfig("", Some(100.0), None);
    BlankLabelRecordKept();
    LoadedRecordChecks(c);
    var items := OptionsCore.ConfigsJson([c]).items;
    assert !OptionsCore.EntryOk(items[0]);
    assert OptionsCore.FirstBad(items) == 0;
  }

  /** The one-row payload with a blank label converts to the one record with an empty label. */
  lemma BlankLabelPayloadLoads(parse: Parser)
    ensures ToWheelOptionConfigs(JArr([JObj(map["label" := JStr(" "), "chance" := JNum(100.0)])]), parse)
      == Success([OptionsCore.OptionConfig("", Some(100.0), None)])
  {
    var row := JObj(map["label" := JStr(" "), "chance" := JNum(100.0)]);
    var c := OptionsCore.OptionConfig("", Some(100.0), None);
    var payload := JArr([row]);
    assert RawOptions(payload) == Some([row]);
    assert ConvertRows([row], parse) == Success([c]) by {
      BlankLabelRowConverts(parse);
      PayloadRowsConverted([row], parse);
      assert [row][0] == row;
      var converted := ConvertRows([row], parse);
      assert converted.Success? && |converted.value| == 1 && converted.value[0] == c;
      assert converted.value == [c];
    }
    BlankLabelRecordKept();
  }

  /**
   * A payload row with a chance but a blank label survives the loader's filter and is
   * then refused by the resolver with a bad-label error.
   */
  lemma BlankLabelWithChanceRefused(parse: Parser)
    ensures LoadAndResolve(JArr([JObj(map["label" := JStr(" "), "chance" := JNum(100.0)])]), parse)
      == Failure(Resolve(OptionsCore.BadEntry(0, OptionsCore.BadLabel,
        OptionsCore.ConfigJson(OptionsCore.OptionConfig("", Some(100.0), None)))))
  {
    BlankLabelPayloadLoads(parse);
    BlankLabelRecordRefused();
  }
}
