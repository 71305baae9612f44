/** The client-side record of one application's status, as the Java client
    builds it from a status map, and the rule its documentation gives for how
    an application's state and failure flags follow from its processes. */
module ApplicationInfo {
  import opened Wrappers
  import P = Processes

  /** The application states, with the integer codes the enumeration carries. */
  datatype State = STOPPED | STARTING | RUNNING | STOPPING {

    function Value(): int {
      match this
      case STOPPED => 0
      case STARTING => 1
      case RUNNING => 2
      case STOPPING => 3
    }

    /** The constant's name, as `valueOf` expects it and `toString` prints it. */
    function Name(): string {
      match this
      case STOPPED => "STOPPED"
      case STARTING => "STARTING"
      case RUNNING => "RUNNING"
      case STOPPING => "STOPPING"
    }
  }

  /** The four codes are distinct and are exactly 0, 1, 2 and 3. */
  lemma ValueIsCode(s: State, t: State)
    ensures 0 <= s.Value() <= 3
    ensures s.Value() == t.Value() ==> s == t
  {
  }

  /** `State.valueOf`: the constant whose name is exactly `name`, if any. */
  function ValueOf(name: string): (r: Option<State>)
    ensures r.Some? <==> name in {"STOPPED", "STARTING", "RUNNING", "STOPPING"}
    ensures r.Some? ==> r.value.Name() == name
  {
    if name == "STOPPED" then Some(STOPPED)
    else if name == "STARTING" then Some(STARTING)
    else if name == "RUNNING" then Some(RUNNING)
    else if name == "STOPPING" then Some(STOPPING)
    else None
  }

  lemma ValueOfName(s: State)
    ensures ValueOf(s.Name()) == Some(s)
  {
  }

  /** The status map as received, with its four entries already typed. */
  datatype RawApplicationInfo =
    RawApplicationInfo(applicationName: string, statename: string, majorFailure: bool, minorFailure: bool)

  /** What the constructor raises: `valueOf` found no constant of that name. */
  datatype ParseError = IllegalStateName(name: string)

  /** The immutable status record of one application. */
  datatype SupvisorsApplicationInfo =
    SupvisorsApplicationInfo(applicationName: string, statename: State, majorFailure: bool, minorFailure: bool)
  {
    function GetName(): string { applicationName }

    function GetState(): State { statename }

    function HasMajorFailure(): bool { majorFailure }

    function HasMinorFailure(): bool { minorFailure }

    function ToString(): string {
      Prefix + applicationName
      + " state=" + statename.Name()
      + " majorFailure=" + BoolString(majorFailure)
      + " minorFailure=" + BoolString(minorFailure) + ")"
    }
  }

  const Prefix := "SupvisorsApplicationInfo(name="

  /** How Java prints a boolean. */
  function BoolString(b: bool): string {
    if b then "true" else "false"
  }

  /** The constructor: reads the four entries; an unknown state name makes it
      raise, any other input succeeds and every getter returns what was read. */
  function Parse(raw: RawApplicationInfo): (r: Result<SupvisorsApplicationInfo, ParseError>)
    ensures r.Success? <==> raw.statename in {"STOPPED", "STARTING", "RUNNING", "STOPPING"}
    ensures r.Failure? ==> r.error == IllegalStateName(raw.statename)
    ensures r.Success? ==>
      && r.value.GetName() == raw.applicationName
      && r.value.GetState().Name() == raw.statename
      && r.value.HasMajorFailure() == raw.majorFailure
      && r.value.HasMinorFailure() == raw.minorFailure
  {
    match ValueOf(raw.statename)
    case None => Failure(IllegalStateName(raw.statename))
    case Some(s) => Success(SupvisorsApplicationInfo(raw.applicationName, s, raw.majorFailure, raw.minorFailure))
  }

  /** Every record is what `Parse` gives for the map holding its own fields. */
  lemma ParseOfFields(info: SupvisorsApplicationInfo)
    ensures Parse(RawApplicationInfo(info.applicationName, info.statename.Name(),
                                     info.majorFailure, info.minorFailure)) == Success(info)
  {
    ValueOfName(info.statename);
  }

  // ---------------------------------------------------------------------------
  // Reading a `toString` text back, from its right end.

  predicate EndsWith(s: string, suffix: string) {
    |suffix| <= |s| && s[|s| - |suffix|..] == suffix
  }

  function DropSuffix(s: string, suffix: string): Option<string> {
    if EndsWith(s, suffix) then Some(s[..|s| - |suffix|]) else None
  }

  function ReadBool(s: string): Option<(string, bool)> {
    if EndsWith(s, "true") then Some((s[..|s| - 4], true))
    else if EndsWith(s, "false") then Some((s[..|s| - 5], false))
    else None
  }

  function ReadState(s: string): Option<(string, State)> {
    if EndsWith(s, "STOPPED") then Some((s[..|s| - 7], STOPPED))
    else if EndsWith(s, "STARTING") then Some((s[..|s| - 8], STARTING))
    else if EndsWith(s, "RUNNING") then Some((s[..|s| - 7], RUNNING))
    else if EndsWith(s, "STOPPING") then Some((s[..|s| - 8], STOPPING))
    else None
  }

  /** Recovers the record from a text shaped like `toString`'s output. */
  function ReadToString(s: string): Option<SupvisorsApplicationInfo> {
    match DropSuffix(s, ")")
    case None => None
    case Some(s1) =>
      match ReadBool(s1)
      case None => None
      case Some((s2, minor)) =>
        match DropSuffix(s2, " minorFailure=")
        case None => None
        case Some(s3) =>
          match ReadBool(s3)
          case None => None
          case Some((s4, major)) =>
            match DropSuffix(s4, " majorFailure=")
            case None => None
            case Some(s5) =>
              match ReadState(s5)
              case None => None
              case Some((s6, state)) =>
                match DropSuffix(s6, " state=")
                case None => None
                case Some(s7) =>
                  if |Prefix| <= |s7| && s7[..|Prefix|] == Prefix
                  then Some(SupvisorsApplicationInfo(s7[|Prefix|..], state, major, minor))
                  else None
  }

  lemma DropAppended(a: string, b: string)
    ensures DropSuffix(a + b, b) == Some(a)
  {
    assert (a + b)[|a + b| - |b|..] == b;
    assert (a + b)[..|a + b| - |b|] == a;
  }

  lemma ReadBoolAppended(a: string, b: bool)
    ensures ReadBool(a + BoolString(b)) == Some((a, b))
  {
    var s := a + BoolString(b);
    DropAppended(a, BoolString(b));
    if !b {
      assert s[|s| - 4..] == "alse";
    }
  }

  /** Two suffixes of one text: the shorter is the tail of the longer. */
  lemma SuffixOfSuffix(s: string, x: string, y: string)
    requires EndsWith(s, x) && EndsWith(s, y) && |x| <= |y|
    ensures y[|y| - |x|..] == x
  {
    assert y[|y| - |x|..] == s[|s| - |x|..];
  }

  lemma ReadStateAppended(a: string, st: State)
    ensures ReadState(a + st.Name()) == Some((a, st))
  {
    var s := a + st.Name();
    DropAppended(a, st.Name());
    if EndsWith(s, "STOPPED") && st != STOPPED {
      SuffixOfSuffix(s, "STOPPED", st.Name());
      assert false;
    }
    if EndsWith(s, "STARTING") && st != STARTING {
      if st == STOPPING {
        SuffixOfSuffix(s, "STARTING", "STOPPING");
      } else {
        SuffixOfSuffix(s, st.Name(), "STARTING");
      }
      assert false;
    }
    if EndsWith(s, "RUNNING") && st == STOPPING {
      SuffixOfSuffix(s, "RUNNING", "STOPPING");
      assert false;
    }
  }

  /** `toString` loses nothing: the record can be read back from its text. */
  lemma {:induction false} ToStringReadsBack(info: SupvisorsApplicationInfo)
    ensures ReadToString(info.ToString()) == Some(info)
  {
    var s7 := Prefix + info.applicationName;
    var s6 := s7 + " state=";
    var s5 := s6 + info.statename.Name();
    var s4 := s5 + " majorFailure=";
    var s3 := s4 + BoolString(info.majorFailure);
    var s2 := s3 + " minorFailure=";
    var s1 := s2 + BoolString(info.minorFailure);
    assert info.ToString() == s1 + ")";
    DropAppended(s1, ")");
    ReadBoolAppended(s2, info.minorFailure);
    DropAppended(s3, " minorFailure=");
    ReadBoolAppended(s4, info.majorFailure);
    DropAppended(s5, " majorFailure=");
    ReadStateAppended(s6, info.statename);
    DropAppended(s7, " state=");
    assert s7[..|Prefix|] == Prefix;
    assert s7[|Prefix|..] == info.applicationName;
  }

  // ---------------------------------------------------------------------------
  // The documented derivation of an application's state and failure flags.
  // The server computes these; the client only documents the rule, so it is
  // stated here as a relation that leaves open what the text leaves open.

  /** What the rule needs to know of each process of the application. */
  datatype ProcessStatus = ProcessStatus(state: P.ProcessState, required: bool, expectedExit: bool)

  predicate AnyIn(ps: seq<ProcessStatus>, s: P.ProcessState) {
    exists p :: p in ps && p.state == s
  }

  predicate AllStopped(ps: seq<ProcessStatus>) {
    forall p :: p in ps ==> P.IsStoppedState(p.state)
  }

  /** The four sentences of the enumeration's documentation, each read as
      "if the processes look like this, the application is in that state". */
  predicate StateRuleAllows(ps: seq<ProcessStatus>, st: State) {
    && (AnyIn(ps, P.STARTING) ==> st == STARTING)
    && (AnyIn(ps, P.STOPPING) && !AnyIn(ps, P.STARTING) ==> st == STOPPING)
    && (AnyIn(ps, P.RUNNING) && !AnyIn(ps, P.STARTING) && !AnyIn(ps, P.STOPPING) ==> st == RUNNING)
    && (AllStopped(ps) ==> st == STOPPED)
  }

  /** The state the documentation fixes, or None where it fixes none. */
  function DocumentedState(ps: seq<ProcessStatus>): (r: Option<State>)
    ensures forall st :: StateRuleAllows(ps, st) <==> (r.None? || r == Some(st))
    ensures r.None? <==>
      !AnyIn(ps, P.STARTING) && !AnyIn(ps, P.STOPPING) && !AnyIn(ps, P.RUNNING) && AnyIn(ps, P.BACKOFF)
  {
    if AnyIn(ps, P.STARTING) then Some(STARTING)
    else if AnyIn(ps, P.STOPPING) then Some(STOPPING)
    else if AnyIn(ps, P.RUNNING) then Some(RUNNING)
    else if AllStopped(ps) then Some(STOPPED)
    else None
  }

  /** The rule leaves the state open only when a process is in BACKOFF. */
  lemma NoBackoffDetermined(ps: seq<ProcessStatus>)
    requires !AnyIn(ps, P.BACKOFF)
    ensures DocumentedState(ps).Some?
  {
  }

  /** An application without processes is STOPPED. */
  lemma NoProcessIsStopped()
    ensures DocumentedState([]) == Some(STOPPED)
  {
  }

  /** The state depends on which states occur, not on order or repetition. */
  lemma DocumentedStateOrderFree(a: seq<ProcessStatus>, b: seq<ProcessStatus>)
    requires forall p :: p in a <==> p in b
    ensures DocumentedState(a) == DocumentedState(b)
  {
    assert forall s :: AnyIn(a, s) <==> AnyIn(b, s);
  }

  /** At least one required process is stopped. */
  predicate RequiredStopped(ps: seq<ProcessStatus>) {
    exists p :: p in ps && p.required && P.IsStoppedState(p.state)
  }

  /** At least one optional process has stopped unexpectedly. */
  predicate OptionalCrashed(ps: seq<ProcessStatus>) {
    exists p :: p in ps && !p.required && P.IsCrashedState(p.state, p.expectedExit)
  }

  /** The failure-flag comments: they speak of the running application, so they
      bind the flags only when the application is RUNNING. */
  predicate FlagsRuleAllows(ps: seq<ProcessStatus>, st: State, major: bool, minor: bool) {
    st == RUNNING ==> major == RequiredStopped(ps) && minor == OptionalCrashed(ps)
  }

  /** A status record agrees with the documentation for these processes. */
  predicate Documented(info: SupvisorsApplicationInfo, ps: seq<ProcessStatus>) {
    && StateRuleAllows(ps, info.statename)
    && FlagsRuleAllows(ps, info.statename, info.majorFailure, info.minorFailure)
  }

  /** The documented rule never contradicts itself: every list of processes
      has a record that agrees with it. */
  lemma DocumentedIsSatisfiable(name: string, ps: seq<ProcessStatus>)
    ensures exists info: SupvisorsApplicationInfo :: info.applicationName == name && Documented(info, ps)
  {
    var st := match DocumentedState(ps) case Some(s) => s case None => RUNNING;
    var info := SupvisorsApplicationInfo(name, st, RequiredStopped(ps), OptionalCrashed(ps));
    assert Documented(info, ps);
  }

  /** A running application: whatever else the processes do, the major
      failure flag says exactly whether a required process is stopped, and
      the minor flag exactly whether an optional process stopped
      unexpectedly. */
  lemma RunningFailureFlags(info: SupvisorsApplicationInfo, ps: seq<ProcessStatus>)
    requires Documented(info, ps)
    requires AnyIn(ps, P.RUNNING) && !AnyIn(ps, P.STARTING) && !AnyIn(ps, P.STOPPING)
    ensures info.statename == RUNNING
    ensures info.majorFailure <==> RequiredStopped(ps)
    ensures info.minorFailure <==> OptionalCrashed(ps)
  {
  }

  /** The two flags are independent: a running application can report both a
      major and a minor failure at once. */
  lemma BothFailures(info: SupvisorsApplicationInfo)
    requires Documented(info, [ProcessStatus(P.RUNNING, true, false), ProcessStatus(P.STOPPED, true, false),
                               ProcessStatus(P.EXITED, false, false)])
    ensures info.statename == RUNNING && info.majorFailure && info.minorFailure
  {
    var ps := [ProcessStatus(P.RUNNING, true, false), ProcessStatus(P.STOPPED, true, false),
               ProcessStatus(P.EXITED, false, false)];
    assert ps[0] in ps && ps[1] in ps && ps[2] in ps;
    assert !AnyIn(ps, P.STARTING) && !AnyIn(ps, P.STOPPING);
  }
}
