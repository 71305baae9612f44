/** The checks applied to the options of the `supvisors` section of the
    configuration file, and the method that stores the checked values. */
module Options {
  import opened Wrappers
  import Utils

  /** The ValueError each check raises, with the value it rejected. */
  datatype OptionError =
    | MissingSection
    | InvalidPort(port: int)
    | InvalidTimeout(timeout: int)
    | InvalidConciliationStrategy(name: string)
    | InvalidStartingStrategy(name: string)
    | TooFewPeriods
    | TooManyPeriods
    | PeriodOutOfRange(period: int)
    | PeriodNotMultipleOfFive(period: int)
    | InvalidHisto(histo: int)

  // ---------------------------------------------------------------------------
  // Range checks

  function ToPortNum(value: int): (r: Result<int, OptionError>)
    ensures r.Success? <==> 1 <= value <= 65535
    ensures r.Success? ==> r.value == value
    ensures r.Failure? ==> r.error == InvalidPort(value)
  {
    if 0 < value <= 65535 then Success(value) else Failure(InvalidPort(value))
  }

  function ToTimeout(value: int): (r: Result<int, OptionError>)
    ensures r.Success? <==> 1 <= value <= 1000
    ensures r.Success? ==> r.value == value
    ensures r.Failure? ==> r.error == InvalidTimeout(value)
  {
    if 0 < value <= 1000 then Success(value) else Failure(InvalidTimeout(value))
  }

  function ToHisto(value: int): (r: Result<int, OptionError>)
    ensures r.Success? <==> 10 <= value <= 1500
    ensures r.Success? ==> r.value == value
    ensures r.Failure? ==> r.error == InvalidHisto(value)
  {
    if 10 <= value <= 1500 then Success(value) else Failure(InvalidHisto(value))
  }

  // ---------------------------------------------------------------------------
  // Strategy names. `e` is the strategy enumeration as the decorator builds
  // it; a name its `string_map` does not hold is the None that the converters
  // reject.

  function ToConciliationStrategy(value: string, e: Utils.Enumeration<int>): (r: Result<int, OptionError>)
    ensures r.Failure? <==> value !in Utils.Strings(e)
    ensures r.Success? ==> r.value == e.stringMap[value]
    ensures r.Failure? ==> r.error == InvalidConciliationStrategy(value)
  {
    match Utils.FromString(e, value)
    case Some(v) => Success(v)
    case None => Failure(InvalidConciliationStrategy(value))
  }

  function ToStartingStrategy(value: string, e: Utils.Enumeration<int>): (r: Result<int, OptionError>)
    ensures r.Failure? <==> value !in Utils.Strings(e)
    ensures r.Success? ==> r.value == e.stringMap[value]
    ensures r.Failure? ==> r.error == InvalidStartingStrategy(value)
  {
    match Utils.FromString(e, value)
    case Some(v) => Success(v)
    case None => Failure(InvalidStartingStrategy(value))
  }

  // ---------------------------------------------------------------------------
  // Statistics periods

  predicate ValidPeriod(v: int) {
    5 <= v <= 3600 && v % 5 == 0
  }

  /** The error for a rejected period: the range is checked before the step. */
  function PeriodError(v: int): OptionError {
    if 5 > v || v > 3600 then PeriodOutOfRange(v) else PeriodNotMultipleOfFive(v)
  }

  /** The first period that fails a check, if any. */
  function FirstInvalid(value: seq<int>): (r: Option<int>)
    ensures r.None? <==> forall i :: 0 <= i < |value| ==> ValidPeriod(value[i])
    ensures r.Some? ==> exists i :: (0 <= i < |value| && value[i] == r.value && !ValidPeriod(value[i])
      && forall j :: 0 <= j < i ==> ValidPeriod(value[j]))
  {
    if value == [] then None
    else if !ValidPeriod(value[0]) then Some(value[0])
    else
      var r := FirstInvalid(value[1..]);
      if r.Some? then
        var i :| 0 <= i < |value[1..]| && value[1..][i] == r.value && !ValidPeriod(value[1..][i])
          && forall j :: 0 <= j < i ==> ValidPeriod(value[1..][j]);
        assert value[i + 1] == r.value && forall j :: 0 <= j < i + 1 ==> ValidPeriod(value[j]);
        r
      else r
  }

  predicate Ascending(s: seq<int>) {
    forall i, j :: 0 <= i < j < |s| ==> s[i] <= s[j]
  }

  function Insert(x: int, s: seq<int>): (r: seq<int>)
    requires Ascending(s)
    ensures Ascending(r) && multiset(r) == multiset(s) + multiset{x}
  {
    if s == [] || x <= s[0] then
      assert forall k :: 0 <= k < |s| ==> x <= s[0] <= s[k];
      AscendingCons(x, s);
      [x] + s
    else
      assert s == [s[0]] + s[1..];
      var t := Insert(x, s[1..]);
      InsertBound(s[0], x, s[1..], t);
      AscendingCons(s[0], t);
      [s[0]] + t
  }

  lemma AscendingCons(x: int, s: seq<int>)
    requires Ascending(s) && forall k :: 0 <= k < |s| ==> x <= s[k]
    ensures Ascending([x] + s)
  {
  }

  /** What goes in after a lower bound of both the sequence and the inserted
      value stays above that bound. */
  lemma InsertBound(b: int, x: int, s: seq<int>, t: seq<int>)
    requires b <= x && forall k :: 0 <= k < |s| ==> b <= s[k]
    requires multiset(t) == multiset(s) + multiset{x}
    ensures forall k :: 0 <= k < |t| ==> b <= t[k]
  {
    forall k | 0 <= k < |t| ensures b <= t[k] {
      assert t[k] in multiset(t);
      assert t[k] == x || t[k] in s;
    }
  }

  /** Python's `sorted` on integers. */
  function SortAscending(s: seq<int>): (r: seq<int>)
    ensures Ascending(r) && multiset(r) == multiset(s)
  {
    if s == [] then []
    else
      assert s == [s[0]] + s[1..];
      Insert(s[0], SortAscending(s[1..]))
  }

  /** `filter(None, ...)`: drops the zeros. */
  function NonZero(s: seq<int>): (r: seq<int>)
    ensures forall x :: x in r <==> x in s && x != 0
  {
    if s == [] then []
    else if s[0] == 0 then NonZero(s[1..])
    else [s[0]] + NonZero(s[1..])
  }

  lemma {:induction false} NonZeroKeepsNonZeros(s: seq<int>)
    requires forall i :: 0 <= i < |s| ==> s[i] != 0
    ensures NonZero(s) == s
  {
    if s != [] {
      NonZeroKeepsNonZeros(s[1..]);
    }
  }

  /** `to_periods`: one to three periods, each in [5;3600] and a multiple of 5,
      returned in ascending order; the first failing check decides the error. */
  function PeriodsResult(value: seq<int>): (r: Result<seq<int>, OptionError>)
    ensures |value| == 0 ==> r == Failure(TooFewPeriods)
    ensures |value| > 3 ==> r == Failure(TooManyPeriods)
    ensures r.Success? <==> 1 <= |value| <= 3 && forall i :: 0 <= i < |value| ==> ValidPeriod(value[i])
    ensures r.Success? ==> Ascending(r.value) && multiset(r.value) == multiset(value)
    ensures 1 <= |value| <= 3 && r.Failure? ==>
      exists i :: (0 <= i < |value| && !ValidPeriod(value[i]) && r.error == PeriodError(value[i])
        && forall j :: 0 <= j < i ==> ValidPeriod(value[j]))
  {
    if |value| == 0 then Failure(TooFewPeriods)
    else if |value| > 3 then Failure(TooManyPeriods)
    else match FirstInvalid(value)
      case Some(v) => Failure(PeriodError(v))
      case None =>
        NonZeroKeepsNonZeros(value);
        Success(SortAscending(NonZero(value)))
  }

  /** The loop of `to_periods`: checks and appends the periods one by one,
      then sorts what is left once zeros are filtered out. */
  method ToPeriods(value: seq<int>) returns (r: Result<seq<int>, OptionError>)
    ensures r == PeriodsResult(value)
  {
    if |value| == 0 {
      return Failure(TooFewPeriods);
    }
    if |value| > 3 {
      return Failure(TooManyPeriods);
    }
    var periods: seq<int> := [];
    for i := 0 to |value|
      invariant periods == value[..i]
      invariant forall j :: 0 <= j < i ==> ValidPeriod(value[j])
    {
      var period := value[i];
      if 5 > period || period > 3600 {
        FirstInvalidAt(value, i);
        return Failure(PeriodOutOfRange(period));
      }
      if period % 5 != 0 {
        FirstInvalidAt(value, i);
        return Failure(PeriodNotMultipleOfFive(period));
      }
      periods := periods + [period];
    }
    assert periods == value;
    r := Success(SortAscending(NonZero(periods)));
  }

  lemma {:induction false} FirstInvalidAt(value: seq<int>, i: nat)
    requires i < |value| && !ValidPeriod(value[i])
    requires forall j :: 0 <= j < i ==> ValidPeriod(value[j])
    ensures FirstInvalid(value) == Some(value[i])
  {
    if i > 0 {
      FirstInvalidAt(value[1..], i - 1);
    }
  }

  // ---------------------------------------------------------------------------
  // address_list

  function FirstIndex(s: seq<string>, x: string): (k: nat)
    requires x in s
    ensures k < |s| && s[k] == x && x !in s[..k]
  {
    if s[0] == x then 0 else 1 + FirstIndex(s[1..], x)
  }

  /** Keeps the first occurrence of each non-empty name not in `seen`. */
  function Dedup(names: seq<string>, seen: set<string>): (r: seq<string>)
    ensures forall x :: x in r <==> x in names && x != "" && x !in seen
    ensures forall i, j :: 0 <= i < j < |r| ==> r[i] != r[j]
    ensures forall i, j :: 0 <= i < j < |r| ==> FirstIndex(names, r[i]) < FirstIndex(names, r[j])
  {
    if names == [] then []
    else
      var x := names[0];
      assert names == [x] + names[1..];
      if x == "" || x in seen then
        var r := Dedup(names[1..], seen);
        assert forall i :: 0 <= i < |r| ==> r[i] in r;
        DedupTail(names, r);
        r
      else
        var r := Dedup(names[1..], seen + {x});
        assert forall i :: 0 <= i < |r| ==> r[i] in r;
        DedupTail(names, r);
        [x] + r
  }

  /** Names found after the head, none equal to it, are found one place
      further in the whole list. */
  lemma DedupTail(names: seq<string>, r: seq<string>)
    requires names != []
    requires forall i :: 0 <= i < |r| ==> r[i] in names[1..] && r[i] != names[0]
    ensures forall i :: 0 <= i < |r| ==> FirstIndex(names, r[i]) == 1 + FirstIndex(names[1..], r[i])
  {
  }

  /** The address list keeps the first occurrence of each non-empty name, in
      the order of the input. */
  function AddressList(names: seq<string>): (r: seq<string>)
    ensures forall x :: x in r <==> x in names && x != ""
    ensures forall i, j :: 0 <= i < j < |r| ==> r[i] != r[j]
    ensures forall i, j :: 0 <= i < j < |r| ==> FirstIndex(names, r[i]) < FirstIndex(names, r[j])
  {
    Dedup(names, {})
  }

  // ---------------------------------------------------------------------------
  // server_configs_from_parser

  /** The entries of the `supvisors` section, already converted from text;
      None for an entry that is absent and takes its default. */
  datatype RawOptions = RawOptions(
    hasSection: bool,
    addressList: Option<seq<string>>,
    internalPort: Option<int>,
    eventPort: Option<int>,
    autoFence: Option<bool>,
    synchroTimeout: Option<int>,
    conciliationStrategy: Option<string>,
    startingStrategy: Option<string>,
    statsPeriods: Option<seq<int>>,
    statsHisto: Option<int>,
    statsIrixMode: Option<bool>)

  /** What the section is read against: the host name (default of the address
      list) and the two strategy enumerations. */
  datatype Environment = Environment(
    hostname: string,
    conciliation: Utils.Enumeration<int>,
    starting: Utils.Enumeration<int>)

  function GetDefault<T>(entry: Option<T>, default: T): T {
    match entry case Some(v) => v case None => default
  }

  /** The values the options holder carries; None until assigned. */
  datatype Settings = Settings(
    addressList: Option<seq<string>>,
    internalPort: Option<int>,
    eventPort: Option<int>,
    autoFence: Option<bool>,
    synchroTimeout: Option<int>,
    conciliationStrategy: Option<int>,
    startingStrategy: Option<int>,
    statsPeriods: Option<seq<int>>,
    statsHisto: Option<int>,
    statsIrixMode: Option<bool>)

  type Outcome = (Settings, Option<OptionError>)

  /** What the configuration step leaves in the holder, starting from `s`,
      and the error it raises, if any: the values are checked and stored one
      after the other, and the first failing check stops the step with every
      earlier value already stored. */
  function Configure(s: Settings, raw: RawOptions, env: Environment): Outcome {
    if !raw.hasSection then (s, Some(MissingSection))
    else StoreInternalPort(s.(addressList := Some(AddressList(GetDefault(raw.addressList, [env.hostname])))), raw, env)
  }

  function StoreInternalPort(s: Settings, raw: RawOptions, env: Environment): Outcome {
    match ToPortNum(GetDefault(raw.internalPort, 65001))
    case Failure(e) => (s, Some(e))
    case Success(v) => StoreEventPort(s.(internalPort := Some(v)), raw, env)
  }

  function StoreEventPort(s: Settings, raw: RawOptions, env: Environment): Outcome {
    match ToPortNum(GetDefault(raw.eventPort, 65002))
    case Failure(e) => (s, Some(e))
    case Success(v) => StoreTimeout(s.(eventPort := Some(v), autoFence := Some(GetDefault(raw.autoFence, false))), raw, env)
  }

  function StoreTimeout(s: Settings, raw: RawOptions, env: Environment): Outcome {
    match ToTimeout(GetDefault(raw.synchroTimeout, 15))
    case Failure(e) => (s, Some(e))
    case Success(v) => StoreConciliation(s.(synchroTimeout := Some(v)), raw, env)
  }

  function StoreConciliation(s: Settings, raw: RawOptions, env: Environment): Outcome {
    match ToConciliationStrategy(GetDefault(raw.conciliationStrategy, "USER"), env.conciliation)
    case Failure(e) => (s, Some(e))
    case Success(v) => StoreStarting(s.(conciliationStrategy := Some(v)), raw, env)
  }

  function StoreStarting(s: Settings, raw: RawOptions, env: Environment): Outcome {
    match ToStartingStrategy(GetDefault(raw.startingStrategy, "CONFIG"), env.starting)
    case Failure(e) => (s, Some(e))
    case Success(v) => StorePeriods(s.(startingStrategy := Some(v)), raw)
  }

  function StorePeriods(s: Settings, raw: RawOptions): Outcome {
    match PeriodsResult(GetDefault(raw.statsPeriods, [10]))
    case Failure(e) => (s, Some(e))
    case Success(v) => StoreHisto(s.(statsPeriods := Some(v)), raw)
  }

  function StoreHisto(s: Settings, raw: RawOptions): Outcome {
    match ToHisto(GetDefault(raw.statsHisto, 200))
    case Failure(e) => (s, Some(e))
    case Success(v) => (s.(statsHisto := Some(v), statsIrixMode := Some(GetDefault(raw.statsIrixMode, false))), None)
  }

  /** Every entry left to its default. */
  const DefaultEntries := RawOptions(true, None, None, None, None, None, None, None, None, None, None)

  /** Without any entry, the defaults pass every check and are stored. */
  lemma DefaultsAreValid(s: Settings, env: Environment)
    requires "USER" in env.conciliation.stringMap && "CONFIG" in env.starting.stringMap
    ensures var (t, err) := Configure(s, DefaultEntries, env);
      && err.None?
      && t.internalPort == Some(65001) && t.eventPort == Some(65002) && t.autoFence == Some(false)
      && t.synchroTimeout == Some(15) && t.statsPeriods == Some([10]) && t.statsHisto == Some(200)
      && t.addressList == Some(if env.hostname == "" then [] else [env.hostname])
  {
    var r := PeriodsResult([10]);
    assert ValidPeriod(10);
    assert multiset(r.value) == multiset{10};
    assert r.value == [10] by {
      assert |r.value| == 1;
      assert r.value[0] in multiset(r.value);
    }
    var h := env.hostname;
    assert [h][1..] == [];
    if h == "" {
      assert Dedup([h], {}) == Dedup([], {}) == [];
    } else {
      assert Dedup([h], {}) == [h] + Dedup([], {h}) == [h];
    }
  }

  /** The configuration step succeeds exactly when every check passes, and then
      every value is stored. */
  lemma ConfigureSucceedsIffAllChecksPass(s: Settings, raw: RawOptions, env: Environment)
    ensures var (t, err) := Configure(s, raw, env);
      err.None? <==>
        && raw.hasSection
        && ToPortNum(GetDefault(raw.internalPort, 65001)).Success?
        && ToPortNum(GetDefault(raw.eventPort, 65002)).Success?
        && ToTimeout(GetDefault(raw.synchroTimeout, 15)).Success?
        && GetDefault(raw.conciliationStrategy, "USER") in env.conciliation.stringMap
        && GetDefault(raw.startingStrategy, "CONFIG") in env.starting.stringMap
        && PeriodsResult(GetDefault(raw.statsPeriods, [10])).Success?
        && ToHisto(GetDefault(raw.statsHisto, 200)).Success?
    ensures var (t, err) := Configure(s, raw, env);
      err.None? ==>
        && t.addressList.Some? && t.internalPort.Some? && t.eventPort.Some? && t.autoFence.Some?
        && t.synchroTimeout.Some? && t.conciliationStrategy.Some? && t.startingStrategy.Some?
        && t.statsPeriods.Some? && t.statsHisto.Some? && t.statsIrixMode.Some?
  {
  }

  /** The holder of the options, whose fields the configuration step assigns. */
  class SupvisorsOptions {
    var addressList: Option<seq<string>>
    var internalPort: Option<int>
    var eventPort: Option<int>
    var autoFence: Option<bool>
    var synchroTimeout: Option<int>
    var conciliationStrategy: Option<int>
    var startingStrategy: Option<int>
    var statsPeriods: Option<seq<int>>
    var statsHisto: Option<int>
    var statsIrixMode: Option<bool>

    function Values(): Settings reads this {
      Settings(addressList, internalPort, eventPort, autoFence, synchroTimeout,
               conciliationStrategy, startingStrategy, statsPeriods, statsHisto, statsIrixMode)
    }

    constructor ()
      ensures Values() == Settings(None, None, None, None, None, None, None, None, None, None)
    {
      addressList, internalPort, eventPort, autoFence, synchroTimeout := None, None, None, None, None;
      conciliationStrategy, startingStrategy, statsPeriods, statsHisto, statsIrixMode := None, None, None, None, None;
    }

    /** Reads the `supvisors` section into the fields, one after the other. */
    method ServerConfigsFromParser(raw: RawOptions, env: Environment) returns (err: Option<OptionError>)
      modifies this
      ensures (Values(), err) == Configure(old(Values()), raw, env)
    {
      if !raw.hasSection {
        return Some(MissingSection);
      }
      ghost var goal := Configure(Values(), raw, env);
      addressList := Some(AddressList(GetDefault(raw.addressList, [env.hostname])));
      assert goal == StoreInternalPort(Values(), raw, env);
      var port := ToPortNum(GetDefault(raw.internalPort, 65001));
      if port.Failure? {
        return Some(port.error);
      }
      internalPort := Some(port.value);
      assert goal == StoreEventPort(Values(), raw, env);
      port := ToPortNum(GetDefault(raw.eventPort, 65002));
      if port.Failure? {
        return Some(port.error);
      }
      eventPort := Some(port.value);
      autoFence := Some(GetDefault(raw.autoFence, false));
      assert goal == StoreTimeout(Values(), raw, env);
      var timeout := ToTimeout(GetDefault(raw.synchroTimeout, 15));
      if timeout.Failure? {
        return Some(timeout.error);
      }
      synchroTimeout := Some(timeout.value);
      assert goal == StoreConciliation(Values(), raw, env);
      err := StrategiesAndStatsFromParser(raw, env);
    }

    /** The second half of the section: the strategies and the statistics. */
    method StrategiesAndStatsFromParser(raw: RawOptions, env: Environment) returns (err: Option<OptionError>)
      modifies this
      ensures (Values(), err) == StoreConciliation(old(Values()), raw, env)
    {
      ghost var goal := StoreConciliation(Values(), raw, env);
      var strategy := ToConciliationStrategy(GetDefault(raw.conciliationStrategy, "USER"), env.conciliation);
      if strategy.Failure? {
        return Some(strategy.error);
      }
      conciliationStrategy := Some(strategy.value);
      assert goal == StoreStarting(Values(), raw, env);
      strategy := ToStartingStrategy(GetDefault(raw.startingStrategy, "CONFIG"), env.starting);
      if strategy.Failure? {
        return Some(strategy.error);
      }
      startingStrategy := Some(strategy.value);
      assert goal == StorePeriods(Values(), raw);
      err := StatsFromParser(raw);
    }

    /** The statistics options, last in the section. */
    method StatsFromParser(raw: RawOptions) returns (err: Option<OptionError>)
      modifies this
      ensures (Values(), err) == StorePeriods(old(Values()), raw)
    {
      ghost var goal := StorePeriods(Values(), raw);
      var periods := ToPeriods(GetDefault(raw.statsPeriods, [10]));
      if periods.Failure? {
        return Some(periods.error);
      }
      statsPeriods := Some(periods.value);
      assert goal == StoreHisto(Values(), raw);
      var histo := ToHisto(GetDefault(raw.statsHisto, 200));
      if histo.Failure? {
        return Some(histo.error);
      }
      statsHisto := Some(histo.value);
      statsIrixMode := Some(GetDefault(raw.statsIrixMode, false));
      return None;
    }
  }
}
