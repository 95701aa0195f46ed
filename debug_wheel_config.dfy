/**
 * `src/features/debug/debugWheelConfig.ts`: the fixed player and six-option wheel
 * of the debug screen, and the test on the page location that selects it.
 */
module DebugWheelConfig {
  import opened Wrappers
  import opened Json
  import opened Text
  import opened OptionsCore
  import opened PlayerInput
  import PlayerForm

  const DebugPlayer: PlayerInfo := PlayerInfo("debug@example.com", "+84 999 999 999")

  lemma DebugEmailNoSpace()
    ensures NoSpace(DebugPlayer.email)
  {
  }

  lemma DebugEmailSplits()
    ensures EmailSplit(DebugPlayer.email, 5)
  {
    var e := DebugPlayer.email;
    assert e[5] == '@' && e[13] == '.';
    assert Plain(e[..5]);
    assert Plain(e[6..]);
  }

  /** The debug email matches the email expression and has nothing to trim. */
  lemma DebugEmailMatches()
    ensures EmailPattern(DebugPlayer.email) && Trim(DebugPlayer.email) == DebugPlayer.email
  {
    DebugEmailNoSpace();
    TrimNoSpace(DebugPlayer.email);
    DebugEmailSplits();
    SplitMatches(DebugPlayer.email, 5);
  }

  lemma DebugPhoneTrimmed()
    ensures Trim(DebugPlayer.phone) == DebugPlayer.phone
  {
    var p := DebugPlayer.phone;
    assert p[0] == '+' && p[|p| - 1] == '9';
    TrimUnchanged(p);
  }

  lemma DebugPhoneBody()
    ensures PhoneBody(DebugPlayer.phone[1..])
  {
  }

  /** The debug phone matches the phone expression and has nothing to trim. */
  lemma DebugPhoneMatches()
    ensures PhonePattern(DebugPlayer.phone) && Trim(DebugPlayer.phone) == DebugPlayer.phone
  {
    var p := DebugPlayer.phone;
    assert PhonePattern(p) by {
      DebugPhoneBody();
      assert p[0] == '+';
      PlusBodyMatches(p);
    }
    assert Trim(p) == p by {
      DebugPhoneTrimmed();
    }
  }

  /**
   * The debug player is one the standard form would accept as typed, and submitting
   * it hands on the same contact.
   */
  lemma DebugPlayerAccepted()
    ensures PlayerForm.CheckFields(DebugPlayer.email, DebugPlayer.phone) == NoErrors
    ensures PlayerForm.Submission(DebugPlayer.email, DebugPlayer.phone) == DebugPlayer
  {
    DebugEmailMatches();
    DebugPhoneMatches();
  }

  /** `DEBUG_WHEEL_OPTIONS_CONFIG`: six options whose chances add up to 100. */
  const DebugConfigs: seq<OptionConfig> := [
    OptionConfig("Debug Option A", Some(15.0), Some(1.0)),
    OptionConfig("Debug Option B", Some(20.0), Some(1.4)),
    OptionConfig("Debug Option C", Some(10.0), Some(0.8)),
    OptionConfig("Debug Option D", Some(18.0), Some(1.3)),
    OptionConfig("Debug Option E", Some(12.0), Some(0.9)),
    OptionConfig("Debug Option F", Some(25.0), Some(1.6))]

  /** `DEBUG_WHEEL_OPTIONS`: what resolving the configs at module load yields. */
  const DebugOptions: seq<ResolvedOption> := [
    ResolvedOption("Debug Option A", Some(15.0), 1.0, 15.0),
    ResolvedOption("Debug Option B", Some(20.0), 1.4, 20.0),
    ResolvedOption("Debug Option C", Some(10.0), 0.8, 10.0),
    ResolvedOption("Debug Option D", Some(18.0), 1.3, 18.0),
    ResolvedOption("Debug Option E", Some(12.0), 0.9, 12.0),
    ResolvedOption("Debug Option F", Some(25.0), 1.6, 25.0)]

  /** A typed record with a label, a non-negative chance and a positive ratio. */
  predicate ExplicitConfig(c: OptionConfig)
  {
    c.name != "" && c.chance.Some? && c.chance.value >= 0.0 && c.ratio.Some? && c.ratio.value > 0.0
  }

  /** The chances of explicit records, added up in order. */
  function ChanceSum(cs: seq<OptionConfig>): real
  {
    if cs == [] then 0.0
    else ChanceSum(cs[..|cs| - 1]) + (if cs[|cs| - 1].chance.Some? then cs[|cs| - 1].chance.value else 0.0)
  }

  /** What resolution makes of an explicit record: everything kept, its chance its share. */
  function ResolvedConfig(c: OptionConfig): ResolvedOption
    requires ExplicitConfig(c)
  {
    ResolvedOption(c.name, c.chance, c.ratio.value, c.chance.value)
  }

  lemma ExplicitEntry(c: OptionConfig, share: real)
    requires ExplicitConfig(c)
    ensures EntryOk(ConfigJson(c)) && HasChance(ConfigJson(c))
    ensures ChanceValue(ConfigJson(c)) == c.chance.value
    ensures ResolveEntry(ConfigJson(c), share) == ResolvedConfig(c)
  {
    ConfigJsonFields(c);
  }

  /** The prefix of the converted list is the conversion of the prefix. */
  lemma ConfigsJsonPrefix(cs: seq<OptionConfig>, n: nat)
    requires n <= |cs|
    ensures ConfigsJson(cs).items[..n] == ConfigsJson(cs[..n]).items
  {
  }

  /** The explicit total of explicit records is the sum of their chances. */
  lemma {:induction false} ExplicitTotalOfExplicit(cs: seq<OptionConfig>)
    requires forall i :: 0 <= i < |cs| ==> ExplicitConfig(cs[i])
    ensures ExplicitTotal(ConfigsJson(cs).items) == ChanceSum(cs)
  {
    if cs != [] {
      var n := |cs| - 1;
      ExplicitTotalOfExplicit(cs[..n]);
      ConfigsJsonPrefix(cs, n);
      ExplicitEntry(cs[n], 0.0);
    }
  }

  /** Explicit records hold no auto entry. */
  lemma {:induction false} NoAutoInExplicit(cs: seq<OptionConfig>)
    requires forall i :: 0 <= i < |cs| ==> ExplicitConfig(cs[i])
    ensures AutoCount(ConfigsJson(cs).items) == 0
  {
    if cs != [] {
      var n := |cs| - 1;
      NoAutoInExplicit(cs[..n]);
      ConfigsJsonPrefix(cs, n);
      ExplicitEntry(cs[n], 0.0);
    }
  }

  /**
   * A list of explicit records passes every entry check, has no auto entry, totals
   * the sum of its chances and resolves record by record into `ResolvedConfig`.
   */
  lemma ExplicitConfigsResolve(cs: seq<OptionConfig>, share: real)
    requires forall i :: 0 <= i < |cs| ==> ExplicitConfig(cs[i])
    ensures FirstBad(ConfigsJson(cs).items) == |cs|
    ensures ExplicitTotal(ConfigsJson(cs).items) == ChanceSum(cs)
    ensures AutoCount(ConfigsJson(cs).items) == 0
    ensures forall i :: 0 <= i < |cs| ==> ResolveAll(ConfigsJson(cs).items, share)[i] == ResolvedConfig(cs[i])
  {
    var items := ConfigsJson(cs).items;
    forall i | 0 <= i < |cs| ensures EntryOk(items[i]) && ResolveEntry(items[i], share) == ResolvedConfig(cs[i]) {
      ExplicitEntry(cs[i], share);
    }
    FirstBadIs(items, |cs|);
    ExplicitTotalOfExplicit(cs);
    NoAutoInExplicit(cs);
  }

  lemma DebugChanceSum()
    ensures ChanceSum(DebugConfigs) == 100.0
  {
    var cs := DebugConfigs;
    assert cs[..5][..4] == cs[..4] && cs[..4][..3] == cs[..3] && cs[..3][..2] == cs[..2];
    assert cs[..2][..1] == cs[..1] && cs[..1][..0] == [];
    assert ChanceSum(cs[..1]) == 15.0;
    assert ChanceSum(cs[..2]) == 35.0;
    assert ChanceSum(cs[..3]) == 45.0;
    assert ChanceSum(cs[..4]) == 63.0;
    assert ChanceSum(cs[..5]) == 75.0;
  }

  lemma DebugConfigsExplicit()
    ensures forall i :: 0 <= i < |DebugConfigs| ==> ExplicitConfig(DebugConfigs[i])
  {
  }

  /** Each debug record resolves into the matching entry of `DebugOptions`. */
  lemma DebugRecordsResolved()
    ensures forall i :: 0 <= i < 6 ==> ResolvedConfig(DebugConfigs[i]) == DebugOptions[i]
  {
  }

  /** Every debug entry passes the checks and none is auto. */
  lemma DebugEntriesPass()
    ensures FirstBad(ConfigsJson(DebugConfigs).items) == 6
    ensures AutoCount(ConfigsJson(DebugConfigs).items) == 0
  {
    DebugConfigsExplicit();
    ExplicitConfigsResolve(DebugConfigs, 0.0);
  }

  /** The debug chances total exactly 100. */
  lemma DebugExplicitTotal()
    ensures ExplicitTotal(ConfigsJson(DebugConfigs).items) == 100.0
  {
    DebugConfigsExplicit();
    ExplicitConfigsResolve(DebugConfigs, 0.0);
    DebugChanceSum();
  }

  lemma DebugResolveAll()
    ensures ResolveAll(ConfigsJson(DebugConfigs).items, 0.0) == DebugOptions
  {
    DebugConfigsExplicit();
    ExplicitConfigsResolve(DebugConfigs, 0.0);
    DebugRecordsResolved();
  }

  /**
   * Resolution succeeds, so loading the module does not throw, and each debug
   * option keeps its label, chance and ratio, with its chance as its win percentage.
   */
  lemma DebugOptionsResolve()
    ensures Resolve(ConfigsJson(DebugConfigs)) == Success(DebugOptions)
  {
    DebugEntriesPass();
    DebugExplicitTotal();
    DebugResolveAll();
    assert AutoShare(100.0, 0) == 0.0;
  }

  // ---------------------------------------------------------------------------
  // isDebugWheelEndpoint
  // ---------------------------------------------------------------------------

  /** The parts of `window.location` the test reads. */
  datatype Location = Location(pathname: string, hash: string, search: string)

  /** The length of the leading run of `s` that holds no `sep`. */
  function RunBefore(s: string, sep: char): (n: nat)
    ensures n <= |s|
    ensures forall i :: 0 <= i < n ==> s[i] != sep
    ensures n == |s| || s[n] == sep
  {
    if s == [] || s[0] == sep then 0 else 1 + RunBefore(s[1..], sep)
  }

  /** Splitting on `&`, keeping empty pieces. */
  function SplitAmp(s: string): (r: seq<string>)
    ensures r != []
    ensures forall i :: 0 <= i < |r| ==> forall k :: 0 <= k < |r[i]| ==> r[i][k] != '&'
    decreases |s|
  {
    var n := RunBefore(s, '&');
    if n == |s| then [s] else [s[..n]] + SplitAmp(s[n + 1..])
  }

  function JoinAmp(xs: seq<string>): string
    requires xs != []
  {
    if |xs| == 1 then xs[0] else xs[0] + "&" + JoinAmp(xs[1..])
  }

  /** Splitting loses nothing: joining the pieces with `&` gives the string back. */
  lemma {:induction false} SplitAmpJoins(s: string)
    ensures JoinAmp(SplitAmp(s)) == s
    decreases |s|
  {
    var n := RunBefore(s, '&');
    if n < |s| {
      SplitAmpJoins(s[n + 1..]);
      assert s == s[..n] + "&" + s[n + 1..];
    }
  }

  /** The form-urlencoded `+`, which reads as a space. */
  function PlusToSpace(s: string): (r: string)
    ensures |r| == |s|
    ensures forall i :: 0 <= i < |s| ==> r[i] == if s[i] == '+' then ' ' else s[i]
  {
    if s == [] then [] else [if s[0] == '+' then ' ' else s[0]] + PlusToSpace(s[1..])
  }

  /** One `name=value` piece: split at the first `=`; no `=` means an empty value. */
  function PairOf(piece: string): (string, string)
  {
    var n := RunBefore(piece, '=');
    if n == |piece| then (PlusToSpace(piece), "")
    else (PlusToSpace(piece[..n]), PlusToSpace(piece[n + 1..]))
  }

  /** The name-value list, in order, of the non-empty pieces. */
  function PairsOf(pieces: seq<string>): (ps: seq<(string, string)>)
  {
    if pieces == [] then []
    else (if pieces[0] == "" then [] else [PairOf(pieces[0])]) + PairsOf(pieces[1..])
  }

  /** The value of the first pair named `key`. */
  function FirstValue(ps: seq<(string, string)>, key: string): (r: Option<string>)
    ensures r.None? <==> forall i :: 0 <= i < |ps| ==> ps[i].0 != key
    ensures r.Some? ==>
      exists i :: 0 <= i < |ps| && ps[i] == (key, r.value) && forall j :: 0 <= j < i ==> ps[j].0 != key
  {
    if ps == [] then None
    else if ps[0].0 == key then Some(ps[0].1)
    else
      var rest := FirstValue(ps[1..], key);
      assert forall i :: 0 < i < |ps| ==> ps[i] == ps[1..][i - 1];
      rest
  }

  /** `new URLSearchParams(search).get(key)`: a leading `?` is dropped first. */
  function QueryGet(search: string, key: string): Option<string>
  {
    var body := if search != [] && search[0] == '?' then search[1..] else search;
    FirstValue(PairsOf(SplitAmp(body)), key)
  }

  /** `isDebugWheelEndpoint(location)`. */
  predicate IsDebugWheelEndpoint(loc: Location)
  {
    var path := Lower(loc.pathname);
    var hash := Lower(loc.hash);
    EndsWith(path, "/debug-wheel") || hash == "#/debug-wheel" || hash == "#debug-wheel"
    || QueryGet(loc.search, "debugWheel") == Some("1")
  }

  lemma LowerIdempotent(s: string)
    ensures Lower(Lower(s)) == Lower(s)
  {
    assert forall i :: 0 <= i < |s| ==> LowerChar(LowerChar(s[i])) == LowerChar(s[i]);
  }

  /**
   * The path and the hash are compared without regard to ASCII case: lower-casing
   * them beforehand changes nothing. The query is not lower-cased.
   */
  lemma PathAndHashIgnoreCase(loc: Location)
    ensures IsDebugWheelEndpoint(loc) == IsDebugWheelEndpoint(Location(Lower(loc.pathname), Lower(loc.hash), loc.search))
  {
    LowerIdempotent(loc.pathname);
    LowerIdempotent(loc.hash);
  }

  /** A pathname whose last segment is `debug-wheel`, in any case, selects the debug screen. */
  lemma DebugPathSelects(prefix: string, tail: string, hash: string, search: string)
    requires Lower(tail) == "/debug-wheel"
    ensures IsDebugWheelEndpoint(Location(prefix + tail, hash, search))
  {
    var p := prefix + tail;
    assert Lower(p)[|p| - 12..] == Lower(tail) by {
      forall i | 0 <= i < 12 ensures Lower(p)[|p| - 12 + i] == Lower(tail)[i] {
        assert p[|prefix| + i] == tail[i];
      }
    }
  }

  /** With no `&` in `s`, splitting gives `s` alone. */
  lemma SplitAmpWhole(s: string)
    requires '&' !in s
    ensures SplitAmp(s) == [s]
  {
    forall k | 0 <= k < |s| ensures s[k] != '&' {
      assert s[k] in s;
    }
  }

  /** A piece without `+` decodes to itself. */
  lemma PlusFree(s: string)
    requires '+' !in s
    ensures PlusToSpace(s) == s
  {
    forall k | 0 <= k < |s| ensures s[k] != '+' {
      assert s[k] in s;
    }
  }

  /** `name=value`, with no `&` and no `=` in the name, is one piece that splits back into the two. */
  lemma JoinedPair(name: string, value: string)
    requires '&' !in name && '=' !in name && '+' !in name
    requires '&' !in value && '+' !in value
    ensures SplitAmp(name + "=" + value) == [name + "=" + value]
    ensures PairOf(name + "=" + value) == (name, value)
  {
    var body := name + "=" + value;
    forall k | 0 <= k < |body| ensures body[k] != '&' {
      if k < |name| {
        assert body[k] == name[k] && name[k] in name;
      } else if k > |name| {
        assert body[k] == value[k - |name| - 1] && value[k - |name| - 1] in value;
      }
    }
    SplitAmpWhole(body);
    forall k | 0 <= k < |name| ensures body[k] != '=' {
      assert body[k] == name[k] && name[k] in name;
    }
    assert body[|name|] == '=';
    assert RunBefore(body, '=') == |name|;
    assert body[..|name|] == name && body[|name| + 1..] == value;
    PlusFree(name);
    PlusFree(value);
  }

  /** A query of one `name=value` pair answers for that name and no other. */
  lemma QueryOfOnePair(name: string, value: string, key: string)
    requires '&' !in name && '=' !in name && '+' !in name && name != ""
    requires '&' !in value && '+' !in value
    ensures QueryGet("?" + name + "=" + value, key) == if name == key then Some(value) else None
  {
    var body := name + "=" + value;
    assert ("?" + name + "=" + value)[1..] == body;
    JoinedPair(name, value);
    assert PairsOf([body]) == [PairOf(body)] + PairsOf([]);
  }

  /** A URL with none of the markers is not the debug endpoint. */
  lemma PlainHomeIsNotDebug()
    ensures !IsDebugWheelEndpoint(Location("/", "", ""))
  {
    SplitAmpWhole("");
    assert PairsOf([""]) == [] + PairsOf([]);
  }

  /** `?debugWheel=1` selects the debug screen. */
  lemma FlagQuerySelects()
    ensures IsDebugWheelEndpoint(Location("/", "", "?debugWheel=1"))
  {
    FlagSpelledOut();
    QueryOfOnePair("debugWheel", "1", "debugWheel");
  }

  lemma FlagSpelledOut()
    ensures "?debugWheel=1" == "?" + "debugWheel" + "=" + "1"
  {
  }

  /** The query name is matched exactly: `?debugwheel=1` selects nothing. */
  lemma FlagNameIsCaseSensitive()
    ensures !IsDebugWheelEndpoint(Location("/", "", "?" + "debugwheel" + "=" + "1"))
  {
    QueryOfOnePair("debugwheel", "1", "debugWheel");
  }

  /** Only the value `1` counts: `?debugWheel=true` selects nothing. */
  lemma FlagValueMustBeOne()
    ensures !IsDebugWheelEndpoint(Location("/", "", "?" + "debugWheel" + "=" + "true"))
  {
    QueryOfOnePair("debugWheel", "true", "debugWheel");
  }
}
