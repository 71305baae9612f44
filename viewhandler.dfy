/** The order in which the web page lists processes: applications in
    alphabetical blocks; inside a block, the processes named in the group
    configuration first, in configuration order, then the others by name. */
module ViewHandler {

  /** One process entry as the page receives it; `others` holds the remaining
      fields, which the ordering carries along untouched. */
  datatype ProcessRow = ProcessRow(applicationName: string, processName: string, others: map<string, string>)

  // ---------------------------------------------------------------------------
  // String order (code point by code point, a prefix first)

  predicate StrLe(a: string, b: string)
    decreases |a|
  {
    a == [] || (b != [] && (a[0] < b[0] || (a[0] == b[0] && StrLe(a[1..], b[1..]))))
  }

  predicate StrLt(a: string, b: string) {
    StrLe(a, b) && a != b
  }

  lemma {:induction false} StrLeTotal(a: string, b: string)
    ensures StrLe(a, b) || StrLe(b, a)
    decreases |a|
  {
    if a != [] && b != [] && a[0] == b[0] {
      StrLeTotal(a[1..], b[1..]);
    }
  }

  lemma {:induction false} StrLeAntisymmetric(a: string, b: string)
    requires StrLe(a, b) && StrLe(b, a)
    ensures a == b
    decreases |a|
  {
    if a != [] {
      StrLeAntisymmetric(a[1..], b[1..]);
      assert a == [a[0]] + a[1..] && b == [b[0]] + b[1..];
    }
  }

  lemma {:induction false} StrLeReflexive(a: string)
    ensures StrLe(a, a)
    decreases |a|
  {
    if a != [] {
      StrLeReflexive(a[1..]);
    }
  }

  lemma {:induction false} StrLeTransitive(a: string, b: string, c: string)
    requires StrLe(a, b) && StrLe(b, c)
    ensures StrLe(a, c)
    decreases |a|
  {
    if a != [] && b != [] && c != [] && a[0] == b[0] == c[0] {
      StrLeTransitive(a[1..], b[1..], c[1..]);
    }
  }

  lemma StrLtTransitive(a: string, b: string, c: string)
    requires StrLt(a, b) && StrLt(b, c)
    ensures StrLt(a, c)
  {
    StrLeTransitive(a, b, c);
    if a == c {
      StrLeAntisymmetric(b, c);
    }
  }

  // ---------------------------------------------------------------------------
  // Sort keys inside an application block

  /** The position of a configured name (its first one), or the name itself
      for a process the configuration does not know. */
  datatype SortKey = Index(position: nat) | Name(name: string)

  /** Positions order before names: only ever compared within one of the two
      lists, this makes the concatenation of the lists ordered too. */
  predicate KeyLe(x: SortKey, y: SortKey) {
    match (x, y)
    case (Index(i), Index(j)) => i <= j
    case (Index(_), Name(_)) => true
    case (Name(_), Index(_)) => false
    case (Name(a), Name(b)) => StrLe(a, b)
  }

  lemma KeyLeTotal(x: SortKey, y: SortKey)
    ensures KeyLe(x, y) || KeyLe(y, x)
  {
    if x.Name? && y.Name? {
      StrLeTotal(x.name, y.name);
    }
  }

  lemma KeyLeReflexive(x: SortKey)
    ensures KeyLe(x, x)
  {
    if x.Name? {
      StrLeReflexive(x.name);
    }
  }

  lemma KeyLeTransitive(x: SortKey, y: SortKey, z: SortKey)
    requires KeyLe(x, y) && KeyLe(y, z)
    ensures KeyLe(x, z)
  {
    if x.Name? && y.Name? && z.Name? {
      StrLeTransitive(x.name, y.name, z.name);
    }
  }

  function IndexOf(ordering: seq<string>, name: string): (k: nat)
    requires name in ordering
    ensures k < |ordering| && ordering[k] == name && name !in ordering[..k]
  {
    if ordering[0] == name then 0 else 1 + IndexOf(ordering[1..], name)
  }

  predicate Known(p: ProcessRow, ordering: seq<string>) {
    p.processName in ordering
  }

  function RowKey(p: ProcessRow, ordering: seq<string>): SortKey {
    if Known(p, ordering) then Index(IndexOf(ordering, p.processName)) else Name(p.processName)
  }

  // ---------------------------------------------------------------------------
  // Stable insertion sort on RowKey

  predicate SortedByKey(s: seq<ProcessRow>, ordering: seq<string>) {
    forall i, j :: 0 <= i < j < |s| ==> KeyLe(RowKey(s[i], ordering), RowKey(s[j], ordering))
  }

  /** A sorted list stays sorted with an entry in front whose key is not
      above the first key. */
  lemma SortedCons(h: ProcessRow, u: seq<ProcessRow>, ordering: seq<string>)
    requires SortedByKey(u, ordering)
    requires u != [] ==> KeyLe(RowKey(h, ordering), RowKey(u[0], ordering))
    ensures SortedByKey([h] + u, ordering)
  {
    forall j | 0 < j < |u| ensures KeyLe(RowKey(h, ordering), RowKey(u[j], ordering)) {
      KeyLeTransitive(RowKey(h, ordering), RowKey(u[0], ordering), RowKey(u[j], ordering));
    }
  }

  /** Puts `x` before the first entry whose key is not below its own, so that
      `x` precedes the entries with an equal key. */
  function Insert(x: ProcessRow, t: seq<ProcessRow>, ordering: seq<string>): (r: seq<ProcessRow>)
    requires SortedByKey(t, ordering)
    ensures SortedByKey(r, ordering)
    ensures multiset(r) == multiset(t) + multiset{x}
    ensures r[0] == x || (t != [] && r[0] == t[0])
  {
    if t == [] || KeyLe(RowKey(x, ordering), RowKey(t[0], ordering)) then
      SortedCons(x, t, ordering);
      [x] + t
    else
      var u := Insert(x, t[1..], ordering);
      assert t == [t[0]] + t[1..];
      KeyLeTotal(RowKey(x, ordering), RowKey(t[0], ordering));
      SortedCons(t[0], u, ordering);
      [t[0]] + u
  }

  /** Python's stable `sorted` with the key RowKey. */
  function SortByKey(s: seq<ProcessRow>, ordering: seq<string>): (r: seq<ProcessRow>)
    ensures SortedByKey(r, ordering)
    ensures multiset(r) == multiset(s)
  {
    if s == [] then []
    else
      assert s == [s[0]] + s[1..];
      Insert(s[0], SortByKey(s[1..], ordering), ordering)
  }

  // ---------------------------------------------------------------------------
  // The application names, sorted

  predicate StrictlySorted(names: seq<string>) {
    forall i, j :: 0 <= i < j < |names| ==> StrLt(names[i], names[j])
  }

  lemma StrictlySortedCons(h: string, u: seq<string>)
    requires StrictlySorted(u)
    requires u != [] ==> StrLt(h, u[0])
    ensures StrictlySorted([h] + u)
  {
    forall j | 0 < j < |u| ensures StrLt(h, u[j]) {
      StrLtTransitive(h, u[0], u[j]);
    }
  }

  function InsertName(x: string, t: seq<string>): (r: seq<string>)
    requires StrictlySorted(t)
    ensures StrictlySorted(r)
    ensures forall y :: y in r <==> y == x || y in t
    ensures r != [] && (r[0] == x || (t != [] && r[0] == t[0]))
  {
    if t == [] || StrLt(x, t[0]) then
      StrictlySortedCons(x, t);
      [x] + t
    else if x == t[0] then t
    else
      var u := InsertName(x, t[1..]);
      StrLeTotal(x, t[0]);
      StrictlySortedCons(t[0], u);
      [t[0]] + u
  }

  /** `sorted({process['application_name'] for process in processes})`. */
  function AppNames(ps: seq<ProcessRow>): (r: seq<string>)
    ensures StrictlySorted(r)
    ensures forall a :: a in r <==> exists p :: p in ps && p.applicationName == a
  {
    if ps == [] then []
    else
      var r := InsertName(ps[0].applicationName, AppNames(ps[1..]));
      assert forall p :: p in ps <==> p == ps[0] || p in ps[1..];
      r
  }

  // ---------------------------------------------------------------------------
  // The lists of one application

  function KnownOf(ps: seq<ProcessRow>, a: string, ordering: seq<string>): seq<ProcessRow> {
    if ps == [] then []
    else
      (if ps[0].applicationName == a && Known(ps[0], ordering) then [ps[0]] else []) + KnownOf(ps[1..], a, ordering)
  }

  function UnknownOf(ps: seq<ProcessRow>, a: string, ordering: seq<string>): seq<ProcessRow> {
    if ps == [] then []
    else
      (if ps[0].applicationName == a && !Known(ps[0], ordering) then [ps[0]] else []) + UnknownOf(ps[1..], a, ordering)
  }

  /** The block of application `a`: the known list, then the unknown list. */
  function Block(ps: seq<ProcessRow>, a: string, ordering: seq<string>): seq<ProcessRow> {
    SortByKey(KnownOf(ps, a, ordering), ordering) + SortByKey(UnknownOf(ps, a, ordering), ordering)
  }

  /** The blocks of the applications `apps`, in that order; `config` gives the
      process names of a group configuration, in order. */
  function Blocks(ps: seq<ProcessRow>, apps: seq<string>, config: string -> seq<string>): seq<ProcessRow> {
    if apps == [] then [] else Block(ps, apps[0], config(apps[0])) + Blocks(ps, apps[1..], config)
  }

  /** The whole ordering: an empty list gives an empty list. */
  function ByConfig(ps: seq<ProcessRow>, config: string -> seq<string>): (r: seq<ProcessRow>)
    ensures ps == [] ==> r == []
  {
    Blocks(ps, AppNames(ps), config)
  }

  /** `sort_processes_by_config`: extends the result block by block. */
  method SortProcessesByConfig(ps: seq<ProcessRow>, config: string -> seq<string>) returns (sorted: seq<ProcessRow>)
    ensures sorted == ByConfig(ps, config)
    ensures multiset(sorted) == multiset(ps)
    ensures Ordered(sorted, config)
    ensures forall a, k :: Select(sorted, a, config(a), k) == Select(ps, a, config(a), k)
  {
    sorted := [];
    if |ps| > 0 {
      var apps := AppNames(ps);
      for i := 0 to |apps|
        invariant sorted + Blocks(ps, apps[i..], config) == Blocks(ps, apps, config)
      {
        var ordering := config(apps[i]);
        var known := SortByKey(KnownOf(ps, apps[i], ordering), ordering);
        var unknown := SortByKey(UnknownOf(ps, apps[i], ordering), ordering);
        BlocksStep(ps, apps, i, config);
        ExtendTwice(sorted, known, unknown, Blocks(ps, apps[i + 1..], config));
        sorted := sorted + known;
        sorted := sorted + unknown;
      }
      assert apps[|apps|..] == [];
    }
    ByConfigIsPermutation(ps, config);
    ByConfigIsOrdered(ps, config);
    ByConfigIsStable(ps, config);
  }

  lemma ExtendTwice(s: seq<ProcessRow>, known: seq<ProcessRow>, unknown: seq<ProcessRow>, rest: seq<ProcessRow>)
    ensures s + known + unknown + rest == s + ((known + unknown) + rest)
  {
  }

  lemma BlocksStep(ps: seq<ProcessRow>, apps: seq<string>, i: nat, config: string -> seq<string>)
    requires i < |apps|
    ensures Blocks(ps, apps[i..], config) == Block(ps, apps[i], config(apps[i])) + Blocks(ps, apps[i + 1..], config)
  {
    assert apps[i..][1..] == apps[i + 1..];
  }

  // ---------------------------------------------------------------------------
  // Permutation

  /** The entries of `ps` whose application is one of `apps`. */
  function OfApps(ps: seq<ProcessRow>, apps: seq<string>): (r: seq<ProcessRow>) {
    if ps == [] then []
    else
      (if ps[0].applicationName in apps then [ps[0]] else []) + OfApps(ps[1..], apps)
  }

  lemma {:induction false} KnownUnknownSplit(ps: seq<ProcessRow>, a: string, ordering: seq<string>)
    ensures multiset(KnownOf(ps, a, ordering)) + multiset(UnknownOf(ps, a, ordering)) == multiset(OfApps(ps, [a]))
  {
    if ps != [] {
      KnownUnknownSplit(ps[1..], a, ordering);
    }
  }

  lemma {:induction false} OfAppsSplit(ps: seq<ProcessRow>, apps: seq<string>)
    requires apps != [] && apps[0] !in apps[1..]
    ensures multiset(OfApps(ps, apps)) == multiset(OfApps(ps, [apps[0]])) + multiset(OfApps(ps, apps[1..]))
  {
    if ps != [] {
      OfAppsSplit(ps[1..], apps);
      assert ps[0].applicationName in apps <==> ps[0].applicationName == apps[0] || ps[0].applicationName in apps[1..];
    }
  }

  lemma {:induction false} OfAppsAll(ps: seq<ProcessRow>, apps: seq<string>)
    requires forall p :: p in ps ==> p.applicationName in apps
    ensures OfApps(ps, apps) == ps
  {
    if ps != [] {
      assert ps[0] in ps;
      assert forall p :: p in ps[1..] ==> p in ps;
      OfAppsAll(ps[1..], apps);
      assert ps == [ps[0]] + ps[1..];
    }
  }

  lemma {:induction false} OfAppsNone(ps: seq<ProcessRow>)
    ensures OfApps(ps, []) == []
  {
    if ps != [] {
      OfAppsNone(ps[1..]);
    }
  }

  lemma HeadNotInTail(apps: seq<string>)
    requires StrictlySorted(apps) && apps != []
    ensures apps[0] !in apps[1..] && StrictlySorted(apps[1..])
  {
    forall i, j | 0 <= i < j < |apps| - 1 ensures StrLt(apps[1..][i], apps[1..][j]) {
      assert apps[1..][i] == apps[i + 1] && apps[1..][j] == apps[j + 1];
    }
    forall j | 0 <= j < |apps| - 1 ensures apps[1..][j] != apps[0] {
      assert StrLt(apps[0], apps[j + 1]);
    }
  }

  lemma {:induction false} BlocksPermutation(ps: seq<ProcessRow>, apps: seq<string>, config: string -> seq<string>)
    requires StrictlySorted(apps)
    ensures multiset(Blocks(ps, apps, config)) == multiset(OfApps(ps, apps))
  {
    if apps == [] {
      OfAppsNone(ps);
    } else {
      HeadNotInTail(apps);
      BlocksPermutation(ps, apps[1..], config);
      KnownUnknownSplit(ps, apps[0], config(apps[0]));
      OfAppsSplit(ps, apps);
    }
  }

  /** Every process lands in exactly one place of the result. */
  lemma ByConfigIsPermutation(ps: seq<ProcessRow>, config: string -> seq<string>)
    ensures multiset(ByConfig(ps, config)) == multiset(ps)
  {
    var apps := AppNames(ps);
    BlocksPermutation(ps, apps, config);
    OfAppsAll(ps, apps);
  }

  // ---------------------------------------------------------------------------
  // Order

  /** `p` may come before `q`: a smaller application name, or the same
      application and a key not above. */
  predicate RowLe(p: ProcessRow, q: ProcessRow, config: string -> seq<string>) {
    || StrLt(p.applicationName, q.applicationName)
    || (p.applicationName == q.applicationName
        && KeyLe(RowKey(p, config(p.applicationName)), RowKey(q, config(q.applicationName))))
  }

  predicate Ordered(s: seq<ProcessRow>, config: string -> seq<string>) {
    forall i, j :: 0 <= i < j < |s| ==> RowLe(s[i], s[j], config)
  }

  lemma {:induction false} KnownOfFacts(ps: seq<ProcessRow>, a: string, ordering: seq<string>)
    ensures forall p :: p in KnownOf(ps, a, ordering) ==> p in ps && p.applicationName == a && Known(p, ordering)
  {
    if ps != [] {
      KnownOfFacts(ps[1..], a, ordering);
    }
  }

  lemma {:induction false} UnknownOfFacts(ps: seq<ProcessRow>, a: string, ordering: seq<string>)
    ensures forall p :: p in UnknownOf(ps, a, ordering) ==> p in ps && p.applicationName == a && !Known(p, ordering)
  {
    if ps != [] {
      UnknownOfFacts(ps[1..], a, ordering);
    }
  }

  lemma SortedMembers(s: seq<ProcessRow>, ordering: seq<string>)
    ensures forall p :: p in SortByKey(s, ordering) ==> p in s
  {
    var r := SortByKey(s, ordering);
    forall p | p in r ensures p in s {
      assert p in multiset(r);
    }
  }

  lemma BlockMembers(ps: seq<ProcessRow>, a: string, ordering: seq<string>)
    ensures forall p :: p in SortByKey(KnownOf(ps, a, ordering), ordering) ==> p in ps && p.applicationName == a && Known(p, ordering)
    ensures forall p :: p in SortByKey(UnknownOf(ps, a, ordering), ordering) ==> p in ps && p.applicationName == a && !Known(p, ordering)
  {
    KnownOfFacts(ps, a, ordering);
    UnknownOfFacts(ps, a, ordering);
    SortedMembers(KnownOf(ps, a, ordering), ordering);
    SortedMembers(UnknownOf(ps, a, ordering), ordering);
  }

  /** Two ordered lists, every entry of the first not above any of the second,
      make an ordered list. */
  lemma OrderedConcat(x: seq<ProcessRow>, y: seq<ProcessRow>, config: string -> seq<string>)
    requires Ordered(x, config) && Ordered(y, config)
    requires forall p, q :: p in x && q in y ==> RowLe(p, q, config)
    ensures Ordered(x + y, config)
  {
    var b := x + y;
    forall i, j | 0 <= i < j < |b| ensures RowLe(b[i], b[j], config) {
      if j < |x| {
        assert b[i] == x[i] && b[j] == x[j];
      } else if i >= |x| {
        assert b[i] == y[i - |x|] && b[j] == y[j - |x|];
      } else {
        assert b[i] == x[i] && b[j] == y[j - |x|];
      }
    }
  }

  /** A list sorted by key, all of one application, is ordered. */
  lemma SortedIsOrdered(s: seq<ProcessRow>, a: string, config: string -> seq<string>)
    requires SortedByKey(s, config(a))
    requires forall p :: p in s ==> p.applicationName == a
    ensures Ordered(s, config)
  {
    forall i, j | 0 <= i < j < |s| ensures RowLe(s[i], s[j], config) {
      assert s[i] in s && s[j] in s;
    }
  }

  lemma BlockFacts(ps: seq<ProcessRow>, a: string, config: string -> seq<string>)
    ensures forall p :: p in Block(ps, a, config(a)) ==> p in ps && p.applicationName == a
    ensures Ordered(Block(ps, a, config(a)), config)
  {
    var ordering := config(a);
    var known := SortByKey(KnownOf(ps, a, ordering), ordering);
    var unknown := SortByKey(UnknownOf(ps, a, ordering), ordering);
    BlockMembers(ps, a, ordering);
    SortedIsOrdered(known, a, config);
    SortedIsOrdered(unknown, a, config);
    forall p, q | p in known && q in unknown ensures RowLe(p, q, config) {
    }
    OrderedConcat(known, unknown, config);
  }

  lemma {:induction false} BlocksFacts(ps: seq<ProcessRow>, apps: seq<string>, config: string -> seq<string>)
    requires StrictlySorted(apps)
    ensures forall p :: p in Blocks(ps, apps, config) ==> p.applicationName in apps
    ensures Ordered(Blocks(ps, apps, config), config)
  {
    if apps != [] {
      var first := Block(ps, apps[0], config(apps[0]));
      var rest := Blocks(ps, apps[1..], config);
      assert Blocks(ps, apps, config) == first + rest;
      BlockFacts(ps, apps[0], config);
      BlocksFacts(ps, apps[1..], config);
      forall p, q | p in first && q in rest ensures RowLe(p, q, config) {
        var k :| 0 <= k < |apps[1..]| && apps[1..][k] == q.applicationName;
        assert StrLt(apps[0], apps[k + 1]);
      }
      OrderedConcat(first, rest, config);
      forall p | p in Blocks(ps, apps, config) ensures p.applicationName in apps {
        if p in first {
        } else {
          assert p in rest;
        }
      }
    }
  }

  /** Applications come in ascending name order, and inside an application the
      keys do not decrease. */
  lemma ByConfigIsOrdered(ps: seq<ProcessRow>, config: string -> seq<string>)
    ensures Ordered(ByConfig(ps, config), config)
  {
    BlocksFacts(ps, AppNames(ps), config);
  }

  /** What an ordered list looks like: each application is one contiguous
      block; inside it, configured processes come before the others, the
      configured ones in configuration order and the others in name order. */
  lemma OrderedMeans(s: seq<ProcessRow>, config: string -> seq<string>)
    requires Ordered(s, config)
    ensures forall i, j :: 0 <= i < j < |s| ==> StrLe(s[i].applicationName, s[j].applicationName)
    ensures forall i, j, k :: (0 <= i < j < k < |s| && s[i].applicationName == s[k].applicationName
      ==> s[j].applicationName == s[i].applicationName)
    ensures forall i, j :: (0 <= i < j < |s| && s[i].applicationName == s[j].applicationName
      && Known(s[j], config(s[j].applicationName))
      ==> Known(s[i], config(s[i].applicationName)))
    ensures forall i, j :: (0 <= i < j < |s| && s[i].applicationName == s[j].applicationName
      && Known(s[i], config(s[i].applicationName)) && Known(s[j], config(s[j].applicationName))
      ==> IndexOf(config(s[i].applicationName), s[i].processName) <= IndexOf(config(s[j].applicationName), s[j].processName))
    ensures forall i, j :: (0 <= i < j < |s| && s[i].applicationName == s[j].applicationName
      && !Known(s[i], config(s[i].applicationName)) && !Known(s[j], config(s[j].applicationName))
      ==> StrLe(s[i].processName, s[j].processName))
  {
    forall i, j | 0 <= i < j < |s| ensures StrLe(s[i].applicationName, s[j].applicationName) {
      assert RowLe(s[i], s[j], config);
      StrLeReflexive(s[i].applicationName);
    }
    forall i, j, k | 0 <= i < j < k < |s| && s[i].applicationName == s[k].applicationName
      ensures s[j].applicationName == s[i].applicationName
    {
      assert RowLe(s[i], s[j], config) && RowLe(s[j], s[k], config);
      if s[j].applicationName != s[i].applicationName {
        StrLeAntisymmetric(s[i].applicationName, s[j].applicationName);
      }
    }
  }

  // ---------------------------------------------------------------------------
  // Stability

  predicate Matches(p: ProcessRow, a: string, ordering: seq<string>, k: SortKey) {
    p.applicationName == a && RowKey(p, ordering) == k
  }

  /** The entries of `s` of application `a` whose key is `k`. */
  function Select(s: seq<ProcessRow>, a: string, ordering: seq<string>, k: SortKey): seq<ProcessRow> {
    if s == [] then []
    else
      (if Matches(s[0], a, ordering, k) then [s[0]] else []) + Select(s[1..], a, ordering, k)
  }

  lemma SelectOne(p: ProcessRow, a: string, ordering: seq<string>, k: SortKey)
    ensures Select([p], a, ordering, k) == if Matches(p, a, ordering, k) then [p] else []
  {
    assert [p][1..] == [];
  }

  lemma {:induction false} SelectConcat(s: seq<ProcessRow>, t: seq<ProcessRow>, a: string, ordering: seq<string>, k: SortKey)
    ensures Select(s + t, a, ordering, k) == Select(s, a, ordering, k) + Select(t, a, ordering, k)
  {
    if s == [] {
      assert s + t == t;
    } else {
      var h := if Matches(s[0], a, ordering, k) then [s[0]] else [];
      calc {
        Select(s + t, a, ordering, k);
        { assert (s + t)[0] == s[0] && (s + t)[1..] == s[1..] + t; }
        h + Select(s[1..] + t, a, ordering, k);
        { SelectConcat(s[1..], t, a, ordering, k); }
        h + (Select(s[1..], a, ordering, k) + Select(t, a, ordering, k));
        (h + Select(s[1..], a, ordering, k)) + Select(t, a, ordering, k);
        Select(s, a, ordering, k) + Select(t, a, ordering, k);
      }
    }
  }

  lemma SelectInsertNotFirst(x: ProcessRow, t: seq<ProcessRow>, a: string, ordering: seq<string>, k: SortKey)
    requires t != [] && !KeyLe(RowKey(x, ordering), RowKey(t[0], ordering))
    ensures Select([t[0]], a, ordering, k) + Select([x], a, ordering, k)
         == Select([x], a, ordering, k) + Select([t[0]], a, ordering, k)
  {
    SelectOne(x, a, ordering, k);
    SelectOne(t[0], a, ordering, k);
    if Matches(x, a, ordering, k) && Matches(t[0], a, ordering, k) {
      KeyLeReflexive(k);
    }
  }

  lemma Regroup<T>(a: seq<T>, b: seq<T>, c: seq<T>)
    requires a + b == b + a
    ensures a + (b + c) == b + (a + c)
  {
    calc {
      a + (b + c);
      (a + b) + c;
      (b + a) + c;
      b + (a + c);
    }
  }

  lemma {:induction false} SelectInsert(x: ProcessRow, t: seq<ProcessRow>, a: string, ordering: seq<string>, k: SortKey)
    requires SortedByKey(t, ordering)
    ensures Select(Insert(x, t, ordering), a, ordering, k) == Select([x], a, ordering, k) + Select(t, a, ordering, k)
  {
    if t == [] || KeyLe(RowKey(x, ordering), RowKey(t[0], ordering)) {
      assert Insert(x, t, ordering) == [x] + t;
      SelectConcat([x], t, a, ordering, k);
    } else {
      var u := Insert(x, t[1..], ordering);
      assert Insert(x, t, ordering) == [t[0]] + u;
      var sx := Select([x], a, ordering, k);
      var s0 := Select([t[0]], a, ordering, k);
      var rest := Select(t[1..], a, ordering, k);
      SelectInsert(x, t[1..], a, ordering, k);
      SelectConcat([t[0]], u, a, ordering, k);
      assert t == [t[0]] + t[1..];
      SelectConcat([t[0]], t[1..], a, ordering, k);
      SelectInsertNotFirst(x, t, a, ordering, k);
      Regroup(s0, sx, rest);
    }
  }

  lemma {:induction false} SelectSort(s: seq<ProcessRow>, a: string, ordering: seq<string>, k: SortKey)
    ensures Select(SortByKey(s, ordering), a, ordering, k) == Select(s, a, ordering, k)
  {
    if s != [] {
      var t := s[1..];
      var sorted := SortByKey(t, ordering);
      calc {
        Select(SortByKey(s, ordering), a, ordering, k);
        Select(Insert(s[0], sorted, ordering), a, ordering, k);
        { SelectInsert(s[0], sorted, a, ordering, k); }
        Select([s[0]], a, ordering, k) + Select(sorted, a, ordering, k);
        { SelectSort(t, a, ordering, k); }
        Select([s[0]], a, ordering, k) + Select(t, a, ordering, k);
        { SelectConcat([s[0]], t, a, ordering, k); assert s == [s[0]] + t; }
        Select(s, a, ordering, k);
      }
    }
  }

  lemma {:induction false} SelectKnownUnknown(ps: seq<ProcessRow>, a: string, ordering: seq<string>, k: SortKey)
    ensures k.Index? ==> (Select(KnownOf(ps, a, ordering), a, ordering, k) == Select(ps, a, ordering, k)
      && Select(UnknownOf(ps, a, ordering), a, ordering, k) == [])
    ensures k.Name? ==> (Select(UnknownOf(ps, a, ordering), a, ordering, k) == Select(ps, a, ordering, k)
      && Select(KnownOf(ps, a, ordering), a, ordering, k) == [])
  {
    if ps != [] {
      SelectKnownUnknown(ps[1..], a, ordering, k);
      var p := ps[0];
      var known := KnownOf(ps[1..], a, ordering);
      var unknown := UnknownOf(ps[1..], a, ordering);
      var here := Select([p], a, ordering, k);
      SelectOne(p, a, ordering, k);
      SelectConcat([p], ps[1..], a, ordering, k);
      assert ps == [p] + ps[1..];
      if p.applicationName == a && Known(p, ordering) {
        assert KnownOf(ps, a, ordering) == [p] + known;
        assert UnknownOf(ps, a, ordering) == unknown;
        SelectConcat([p], known, a, ordering, k);
        assert k.Name? ==> here == [];
      } else if p.applicationName == a {
        assert KnownOf(ps, a, ordering) == known;
        assert UnknownOf(ps, a, ordering) == [p] + unknown;
        SelectConcat([p], unknown, a, ordering, k);
        assert k.Index? ==> here == [];
      } else {
        assert KnownOf(ps, a, ordering) == known;
        assert UnknownOf(ps, a, ordering) == unknown;
        assert here == [];
      }
    }
  }

  lemma {:induction false} SelectOtherApp(s: seq<ProcessRow>, a: string, ordering: seq<string>, k: SortKey)
    requires forall p :: p in s ==> p.applicationName != a
    ensures Select(s, a, ordering, k) == []
  {
    if s != [] {
      assert s[0] in s;
      assert forall p :: p in s[1..] ==> p in s;
      SelectOtherApp(s[1..], a, ordering, k);
    }
  }

  lemma SelectBlock(ps: seq<ProcessRow>, a: string, config: string -> seq<string>, k: SortKey)
    ensures Select(Block(ps, a, config(a)), a, config(a), k) == Select(ps, a, config(a), k)
  {
    var ordering := config(a);
    SelectConcat(SortByKey(KnownOf(ps, a, ordering), ordering), SortByKey(UnknownOf(ps, a, ordering), ordering), a, ordering, k);
    SelectSort(KnownOf(ps, a, ordering), a, ordering, k);
    SelectSort(UnknownOf(ps, a, ordering), a, ordering, k);
    SelectKnownUnknown(ps, a, ordering, k);
  }

  lemma SelectOtherBlock(ps: seq<ProcessRow>, b: string, config: string -> seq<string>, a: string, k: SortKey)
    requires b != a
    ensures Select(Block(ps, b, config(b)), a, config(a), k) == []
  {
    BlockMembers(ps, b, config(b));
    SelectOtherApp(Block(ps, b, config(b)), a, config(a), k);
  }

  lemma {:induction false} SelectBlocks(ps: seq<ProcessRow>, apps: seq<string>, config: string -> seq<string>, a: string, k: SortKey)
    requires StrictlySorted(apps)
    ensures Select(Blocks(ps, apps, config), a, config(a), k) == if a in apps then Select(ps, a, config(a), k) else []
  {
    if apps != [] {
      var first := Block(ps, apps[0], config(apps[0]));
      var rest := Blocks(ps, apps[1..], config);
      assert Blocks(ps, apps, config) == first + rest;
      SelectConcat(first, rest, a, config(a), k);
      HeadNotInTail(apps);
      SelectBlocks(ps, apps[1..], config, a, k);
      assert apps == [apps[0]] + apps[1..];
      if apps[0] == a {
        SelectBlock(ps, a, config, k);
        assert Select(rest, a, config(a), k) == [];
      } else {
        SelectOtherBlock(ps, apps[0], config, a, k);
        assert a in apps <==> a in apps[1..];
      }
    }
  }

  /** Both sorts are stable: for every application and every key, the
      entries with that key keep their relative input order. */
  lemma ByConfigIsStable(ps: seq<ProcessRow>, config: string -> seq<string>)
    ensures forall a, k :: Select(ByConfig(ps, config), a, config(a), k) == Select(ps, a, config(a), k)
  {
    forall a, k ensures Select(ByConfig(ps, config), a, config(a), k) == Select(ps, a, config(a), k) {
      var apps := AppNames(ps);
      SelectBlocks(ps, apps, config, a, k);
      if a !in apps {
        SelectOtherApp(ps, a, config(a), k);
      }
    }
  }
}
