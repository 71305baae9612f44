/** The enumeration decorator (a name-to-value table and its inverse, built
    once from a class's attributes) and the extraction of a process payload. */
module Utils {
  import opened Wrappers

  // ---------------------------------------------------------------------------
  // enumeration_tools

  /** Attribute names starting with an underscore are private and are skipped. */
  predicate IsPublic(name: string) {
    !(|name| > 0 && name[0] == '_')
  }

  /** The class's attribute dictionary, as its items: names are distinct. */
  predicate DistinctNames<V>(attrs: seq<(string, V)>) {
    forall i, j :: 0 <= i < j < |attrs| ==> attrs[i].0 != attrs[j].0
  }

  /** The public attributes share no value. */
  predicate DistinctValues<V(==)>(attrs: seq<(string, V)>) {
    forall i, j :: 0 <= i < j < |attrs| && IsPublic(attrs[i].0) && IsPublic(attrs[j].0) ==>
      attrs[i].1 != attrs[j].1
  }

  function Public<V>(attrs: seq<(string, V)>): (r: seq<(string, V)>)
    ensures forall i :: 0 <= i < |r| ==> r[i] in attrs && IsPublic(r[i].0)
    ensures forall i :: 0 <= i < |attrs| && IsPublic(attrs[i].0) ==> attrs[i] in r
  {
    if attrs == [] then []
    else if IsPublic(attrs[0].0) then [attrs[0]] + Public(attrs[1..])
    else Public(attrs[1..])
  }

  /** A dictionary built by a comprehension over pairs: a later pair with the
      same key replaces an earlier one. */
  function ToMap<K(==), V>(pairs: seq<(K, V)>): (m: map<K, V>)
    ensures m.Keys == set x | x in pairs :: x.0
  {
    if pairs == [] then map[]
    else
      var last := pairs[|pairs| - 1];
      var rest := pairs[..|pairs| - 1];
      assert pairs == rest + [last];
      ToMap(rest)[last.0 := last.1]
  }

  function Swap<K, V>(pairs: seq<(K, V)>): (r: seq<(V, K)>)
    ensures |r| == |pairs| && forall i :: 0 <= i < |pairs| ==> r[i] == (pairs[i].1, pairs[i].0)
  {
    if pairs == [] then [] else [(pairs[0].1, pairs[0].0)] + Swap(pairs[1..])
  }

  /** The two tables the decorator attaches to an enumeration class. */
  datatype Enumeration<V(==)> = Enumeration(stringMap: map<string, V>, enumMap: map<V, string>)

  /** The decorator: `string_map` keeps the public attributes, `enum_map` is
      built from `string_map`'s items with keys and values swapped. */
  function EnumerationTools<V(==)>(attrs: seq<(string, V)>): Enumeration<V> {
    var items := Public(attrs);
    Enumeration(ToMap(items), ToMap(Swap(items)))
  }

  /** `to_string`: a plain lookup, None where the dictionary raises. */
  function ToString<V(==)>(e: Enumeration<V>, value: V): (r: Option<string>)
    ensures r.Some? <==> value in e.enumMap
    ensures r.Some? ==> r.value == e.enumMap[value]
  {
    if value in e.enumMap then Some(e.enumMap[value]) else None
  }

  /** `from_string`: a plain lookup, None where the dictionary raises. */
  function FromString<V(==)>(e: Enumeration<V>, name: string): (r: Option<V>)
    ensures r.Some? <==> name in e.stringMap
    ensures r.Some? ==> r.value == e.stringMap[name]
  {
    if name in e.stringMap then Some(e.stringMap[name]) else None
  }

  function Values<V(==)>(e: Enumeration<V>): set<V> { e.enumMap.Keys }

  function Strings<V(==)>(e: Enumeration<V>): set<string> { e.stringMap.Keys }

  lemma {:induction false} ToMapAt<K, V>(pairs: seq<(K, V)>, i: nat)
    requires i < |pairs|
    requires forall j :: 0 <= j < |pairs| && j != i ==> pairs[j].0 != pairs[i].0
    ensures pairs[i].0 in ToMap(pairs) && ToMap(pairs)[pairs[i].0] == pairs[i].1
  {
    var rest := pairs[..|pairs| - 1];
    if i < |pairs| - 1 {
      ToMapAt(rest, i);
    }
  }

  lemma {:induction false} PublicDistinct<V>(attrs: seq<(string, V)>)
    requires DistinctNames(attrs)
    ensures DistinctNames(Public(attrs))
    ensures DistinctValues(attrs) ==> forall i, j :: 0 <= i < j < |Public(attrs)| ==> Public(attrs)[i].1 != Public(attrs)[j].1
  {
    PublicNamesDistinct(attrs);
    if DistinctValues(attrs) {
      PublicValuesDistinct(attrs);
    }
  }

  lemma {:induction false} PublicNamesDistinct<V>(attrs: seq<(string, V)>)
    requires DistinctNames(attrs)
    ensures DistinctNames(Public(attrs))
  {
    if attrs != [] {
      var tail := attrs[1..];
      PublicNamesDistinct(tail);
      var p := Public(tail);
      if IsPublic(attrs[0].0) {
        assert Public(attrs) == [attrs[0]] + p;
        forall j | 0 <= j < |p| ensures p[j].0 != attrs[0].0 {
          assert p[j] in tail;
        }
      }
    }
  }

  lemma {:induction false} PublicValuesDistinct<V>(attrs: seq<(string, V)>)
    requires DistinctValues(attrs)
    ensures forall i, j :: 0 <= i < j < |Public(attrs)| ==> Public(attrs)[i].1 != Public(attrs)[j].1
  {
    if attrs != [] {
      var tail := attrs[1..];
      assert DistinctValues(tail);
      PublicValuesDistinct(tail);
      var p := Public(tail);
      if IsPublic(attrs[0].0) {
        assert Public(attrs) == [attrs[0]] + p;
        forall j | 0 <= j < |p| ensures p[j].1 != attrs[0].1 {
          assert p[j] in tail;
          var k :| 0 <= k < |tail| && tail[k] == p[j];
          assert attrs[k + 1] == p[j];
        }
      }
    }
  }

  /** `string_map` holds exactly the public attributes, each with its value. */
  lemma StringMapIsPublicAttributes<V>(attrs: seq<(string, V)>)
    requires DistinctNames(attrs)
    ensures var m := EnumerationTools(attrs).stringMap;
      && (forall n :: n in m <==> IsPublic(n) && exists i :: 0 <= i < |attrs| && attrs[i].0 == n)
      && (forall i :: 0 <= i < |attrs| && IsPublic(attrs[i].0) ==> m[attrs[i].0] == attrs[i].1)
  {
    var items := Public(attrs);
    PublicDistinct(attrs);
    forall n ensures n in ToMap(items) <==> IsPublic(n) && exists i :: 0 <= i < |attrs| && attrs[i].0 == n {
      if IsPublic(n) && exists i :: 0 <= i < |attrs| && attrs[i].0 == n {
        var i :| 0 <= i < |attrs| && attrs[i].0 == n;
        assert attrs[i] in items;
      }
    }
    forall i | 0 <= i < |attrs| && IsPublic(attrs[i].0) ensures ToMap(items)[attrs[i].0] == attrs[i].1 {
      assert attrs[i] in items;
      var k :| 0 <= k < |items| && items[k] == attrs[i];
      ToMapAt(items, k);
    }
  }

  /** Each public attribute is an entry of both tables. */
  lemma EntryAt<V>(attrs: seq<(string, V)>, k: nat)
    requires DistinctNames(attrs) && DistinctValues(attrs)
    requires k < |Public(attrs)|
    ensures var e := EnumerationTools(attrs); var x := Public(attrs)[k];
      && x.0 in e.stringMap && e.stringMap[x.0] == x.1
      && x.1 in e.enumMap && e.enumMap[x.1] == x.0
  {
    var items := Public(attrs);
    var sw := Swap(items);
    PublicNamesDistinct(attrs);
    PublicValuesDistinct(attrs);
    forall j | 0 <= j < |items| && j != k ensures items[j].0 != items[k].0 && sw[j].0 != sw[k].0 {
      if j < k {
        assert items[j].0 != items[k].0 && items[j].1 != items[k].1;
      } else {
        assert items[k].0 != items[j].0 && items[k].1 != items[j].1;
      }
    }
    ToMapAt(items, k);
    ToMapAt(sw, k);
  }

  lemma NameEntry<V>(attrs: seq<(string, V)>, n: string)
    requires DistinctNames(attrs) && DistinctValues(attrs)
    requires n in EnumerationTools(attrs).stringMap
    ensures var e := EnumerationTools(attrs);
      e.stringMap[n] in e.enumMap && e.enumMap[e.stringMap[n]] == n
  {
    var items := Public(attrs);
    assert n in set x | x in items :: x.0;
    var x :| x in items && x.0 == n;
    var k :| 0 <= k < |items| && items[k] == x;
    EntryAt(attrs, k);
  }

  lemma ValueEntry<V>(attrs: seq<(string, V)>, v: V)
    requires DistinctNames(attrs) && DistinctValues(attrs)
    requires v in EnumerationTools(attrs).enumMap
    ensures var e := EnumerationTools(attrs);
      e.enumMap[v] in e.stringMap && e.stringMap[e.enumMap[v]] == v
  {
    var sw := Swap(Public(attrs));
    assert v in set y | y in sw :: y.0;
    var y :| y in sw && y.0 == v;
    var k :| 0 <= k < |sw| && sw[k] == y;
    EntryAt(attrs, k);
  }

  /** With distinct values, `enum_map` inverts `string_map`, in both directions. */
  lemma EnumMapInvertsStringMap<V>(attrs: seq<(string, V)>)
    requires DistinctNames(attrs) && DistinctValues(attrs)
    ensures var e := EnumerationTools(attrs);
      && e.enumMap.Keys == e.stringMap.Values
      && (forall n :: n in e.stringMap ==> e.enumMap[e.stringMap[n]] == n)
      && (forall v :: v in e.enumMap ==> e.stringMap[e.enumMap[v]] == v)
  {
    var e := EnumerationTools(attrs);
    forall n | n in e.stringMap
      ensures e.stringMap[n] in e.enumMap && e.enumMap[e.stringMap[n]] == n
    {
      NameEntry(attrs, n);
    }
    forall v | v in e.enumMap
      ensures e.enumMap[v] in e.stringMap && e.stringMap[e.enumMap[v]] == v
    {
      ValueEntry(attrs, v);
    }
  }

  /** `values()` and `strings()` list the public values and names. */
  lemma ValuesAndStrings<V>(attrs: seq<(string, V)>)
    requires DistinctNames(attrs) && DistinctValues(attrs)
    ensures var e := EnumerationTools(attrs);
      && Strings(e) == (set x | x in attrs && IsPublic(x.0) :: x.0)
      && Values(e) == (set x | x in attrs && IsPublic(x.0) :: x.1)
  {
    StringsArePublicNames(attrs);
    ValuesArePublicValues(attrs);
  }

  lemma StringsArePublicNames<V>(attrs: seq<(string, V)>)
    ensures Strings(EnumerationTools(attrs)) == (set x | x in attrs && IsPublic(x.0) :: x.0)
  {
    var items := Public(attrs);
    assert Strings(EnumerationTools(attrs)) == set x | x in items :: x.0;
    forall x ensures x in items <==> x in attrs && IsPublic(x.0) {
      if x in attrs && IsPublic(x.0) {
        var k :| 0 <= k < |attrs| && attrs[k] == x;
      }
    }
  }

  lemma SwapMembers<K, V>(pairs: seq<(K, V)>)
    ensures forall x :: x in Swap(pairs) <==> (x.1, x.0) in pairs
  {
    var sw := Swap(pairs);
    forall x ensures x in sw <==> (x.1, x.0) in pairs {
      if x in sw {
        var k :| 0 <= k < |sw| && sw[k] == x;
        assert pairs[k] == (x.1, x.0);
      }
      if (x.1, x.0) in pairs {
        var k :| 0 <= k < |pairs| && pairs[k] == (x.1, x.0);
        assert sw[k] == x;
      }
    }
  }

  lemma ValuesArePublicValues<V>(attrs: seq<(string, V)>)
    ensures Values(EnumerationTools(attrs)) == (set x | x in attrs && IsPublic(x.0) :: x.1)
  {
    var items := Public(attrs);
    var sw := Swap(items);
    SwapMembers(items);
    var lhs := Values(EnumerationTools(attrs));
    var rhs := set x | x in attrs && IsPublic(x.0) :: x.1;
    assert lhs == set y | y in sw :: y.0;
    forall v ensures v in lhs <==> v in rhs {
      if v in lhs {
        var y :| y in sw && y.0 == v;
        var x := (y.1, y.0);
        assert x in items;
      }
      if v in rhs {
        var x :| x in attrs && IsPublic(x.0) && x.1 == v;
        var k :| 0 <= k < |attrs| && attrs[k] == x;
        assert x in items;
        assert (x.1, x.0) in sw;
      }
    }
  }

  /** With distinct values, the conversions undo each other. */
  lemma ConversionsRoundTrip<V>(attrs: seq<(string, V)>)
    requires DistinctNames(attrs) && DistinctValues(attrs)
    ensures var e := EnumerationTools(attrs);
      && (forall s :: s in Strings(e) ==> FromString(e, s).Some? && ToString(e, FromString(e, s).value) == Some(s))
      && (forall v :: v in Values(e) ==> ToString(e, v).Some? && FromString(e, ToString(e, v).value) == Some(v))
  {
    EnumMapInvertsStringMap(attrs);
  }

  // ---------------------------------------------------------------------------
  // extract_process_info

  /** The values a process information dictionary holds. */
  datatype Value = Str(s: string) | Int(i: int) | Bool(b: bool) | Nil

  /** Python truthiness. */
  predicate Truthy(v: Value) {
    match v
    case Str(s) => s != ""
    case Int(i) => i != 0
    case Bool(b) => b
    case Nil => false
  }

  const PayloadKeys: seq<string> :=
    ["name", "group", "state", "start", "stop", "now", "pid", "description", "spawnerr"]

  /** The subset of a process's information that is kept, plus `expected`;
      None where a key is missing and the comprehension raises. */
  function ExtractProcessInfo(info: map<string, Value>): (r: Option<map<string, Value>>)
    ensures r.Some? <==> forall k :: k in PayloadKeys ==> k in info
    ensures r.Some? ==> r.value.Keys == (set k | k in PayloadKeys) + {"expected"}
    ensures r.Some? ==> forall k :: k in PayloadKeys ==> r.value[k] == info[k]
    ensures r.Some? ==> r.value["expected"] == Bool(!Truthy(info["spawnerr"]))
  {
    if forall k :: k in PayloadKeys ==> k in info then
      var payload := map k | k in PayloadKeys :: info[k];
      Some(payload["expected" := Bool(!Truthy(info["spawnerr"]))])
    else None
  }

  /** A process is expected exactly when its spawn error text is empty. */
  lemma ExpectedIffNoSpawnError(info: map<string, Value>, err: string)
    requires forall k :: k in PayloadKeys ==> k in info
    requires info["spawnerr"] == Str(err)
    ensures ExtractProcessInfo(info).value["expected"] == Bool(err == "")
  {
  }
}
