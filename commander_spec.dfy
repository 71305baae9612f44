/** The tables of the start and stop sequencers as values, and what each
    sequencing step does to them. The sequencer class is proved against
    these functions. */
module CommanderSpec {
  import opened Wrappers
  import opened Processes

  /** Process groups of one application, by process rank. */
  type Sequence = map<int, seq<Process>>
  /** Sequences by application name. */
  type Planned = map<string, Sequence>

  /** `planned_sequence` (application rank → application → process rank →
      processes), `planned_jobs` (application → process rank → processes) and
      `current_jobs` (application → processes commanded and not yet settled). */
  datatype Tables = Tables(
    plannedSequence: map<int, Planned>,
    plannedJobs: Planned,
    currentJobs: map<string, seq<Process>>)

  const NoJobs := Tables(map[], map[], map[])

  /** `in_progress`. */
  predicate Busy(t: Tables) {
    t.plannedSequence != map[] || t.plannedJobs != map[] || t.currentJobs != map[]
  }

  /** `has_application`. */
  predicate Scheduled(t: Tables, name: string) {
    || (exists r :: r in t.plannedSequence && name in t.plannedSequence[r])
    || name in t.plannedJobs
    || name in t.currentJobs
  }

  /** No empty container at any level: every rank plans an application,
      every planned application has a group, every commanded application has
      a live job. */
  predicate WellFormed(t: Tables) {
    && (forall r :: r in t.plannedSequence ==> t.plannedSequence[r] != map[] && NonEmptySequences(t.plannedSequence[r]))
    && NonEmptySequences(t.plannedJobs)
    && (forall a :: a in t.currentJobs ==> t.currentJobs[a] != [])
  }

  predicate NonEmptySequences(planned: Planned) {
    forall a :: a in planned ==> planned[a] != map[]
  }

  /** An application is scheduled somewhere exactly when work is in progress,
      provided no table holds an empty container. */
  lemma BusyIffSomeApplication(t: Tables)
    requires WellFormed(t)
    ensures Busy(t) <==> exists name :: Scheduled(t, name)
  {
    if t.plannedSequence != map[] {
      var r := Pick(t.plannedSequence.Keys);
      var name := Pick(t.plannedSequence[r].Keys);
      assert Scheduled(t, name);
    } else if t.plannedJobs != map[] {
      var name := Pick(t.plannedJobs.Keys);
      assert Scheduled(t, name);
    } else if t.currentJobs != map[] {
      var name := Pick(t.currentJobs.Keys);
      assert Scheduled(t, name);
    }
  }

  // ---------------------------------------------------------------------------
  // The processes a table may hold (what the sequencer may write to)

  predicate ListIn(s: seq<Process>, world: set<Process>) {
    forall i :: 0 <= i < |s| ==> s[i] in world
  }

  predicate SequenceIn(s: Sequence, world: set<Process>) {
    forall k :: k in s ==> ListIn(s[k], world)
  }

  predicate PlannedIn(planned: Planned, world: set<Process>) {
    forall a :: a in planned ==> SequenceIn(planned[a], world)
  }

  predicate TablesIn(t: Tables, world: set<Process>) {
    && (forall r :: r in t.plannedSequence ==> PlannedIn(t.plannedSequence[r], world))
    && PlannedIn(t.plannedJobs, world)
    && (forall a :: a in t.currentJobs ==> ListIn(t.currentJobs[a], world))
  }

  // ---------------------------------------------------------------------------
  // `pop(min(keys))`

  lemma Pick<T>(s: set<T>) returns (x: T)
    requires s != {}
    ensures x in s
  {
    x :| x in s;
  }

  predicate IsLeast(k: int, keys: set<int>) {
    k in keys && forall j :: j in keys ==> k <= j
  }

  lemma {:induction false} LeastExists(keys: set<int>)
    requires keys != {}
    ensures exists k :: IsLeast(k, keys)
    decreases |keys|
  {
    var x := Pick(keys);
    if keys == {x} {
      assert IsLeast(x, keys);
    } else {
      LeastExists(keys - {x});
      var m :| IsLeast(m, keys - {x});
      forall j | j in keys ensures x <= j || m <= j {
        if j != x {
          assert j in keys - {x};
        }
      }
      if x < m {
        assert IsLeast(x, keys);
      } else {
        assert IsLeast(m, keys);
      }
    }
  }

  ghost function Least(keys: set<int>): (k: int)
    requires keys != {}
    ensures IsLeast(k, keys)
  {
    LeastExists(keys);
    var k :| IsLeast(k, keys);
    k
  }

  // ---------------------------------------------------------------------------
  // process_application_jobs

  /** The processes of `s` a job is started for, in order. */
  function Filter(s: seq<Process>, ok: set<Process>): (r: seq<Process>)
    ensures forall i :: 0 <= i < |r| ==> r[i] in s && r[i] in ok
    ensures forall i :: 0 <= i < |s| && s[i] in ok ==> s[i] in r
  {
    if s == [] then []
    else (if s[0] in ok then [s[0]] else []) + Filter(s[1..], ok)
  }

  lemma {:induction false} FilterPrefix(s: seq<Process>, i: nat, ok: set<Process>)
    requires i < |s|
    ensures Filter(s[..i + 1], ok) == Filter(s[..i], ok) + (if s[i] in ok then [s[i]] else [])
  {
    if i > 0 {
      assert s[..i + 1][1..] == s[1..][..i];
      assert s[..i][1..] == s[1..][..i - 1];
      FilterPrefix(s[1..], i - 1, ok);
    } else {
      assert s[..1][1..] == [];
    }
  }

  /** The groups of `s` ranked above `k`. */
  function Above(s: Sequence, k: int): (r: Sequence) {
    map j | j in s && j > k :: s[j]
  }

  /** The `while` loop of `process_application_jobs`: pops the lowest group
      until one of them yields a job or none is left. Returns what is left of
      the sequence and the jobs of the last group popped. */
  ghost function NextJobs(s: Sequence, ok: set<Process>): (Sequence, seq<Process>)
    decreases |s.Keys|
  {
    if s == map[] then (s, [])
    else
      var k := Least(s.Keys);
      var jobs := Filter(s[k], ok);
      if jobs != [] then (s - {k}, jobs) else NextJobs(s - {k}, ok)
  }

  /** No job comes out exactly when no group yields one, and then the whole
      sequence is used up; otherwise the jobs are those of the lowest group
      that yields any, and only the groups above it are left. */
  lemma {:induction false} NextJobsSpec(s: Sequence, ok: set<Process>)
    ensures var (rest, jobs) := NextJobs(s, ok);
      && (jobs == [] <==> forall k :: k in s ==> Filter(s[k], ok) == [])
      && (jobs == [] ==> rest == map[])
      && (jobs != [] ==> exists k :: (k in s && jobs == Filter(s[k], ok) && rest == Above(s, k)
            && forall j :: j in s && j < k ==> Filter(s[j], ok) == []))
    decreases |s.Keys|
  {
    if s != map[] {
      var k := Least(s.Keys);
      var rest := s - {k};
      assert rest == Above(s, k);
      if Filter(s[k], ok) == [] {
        NextJobsSpec(rest, ok);
        var res := NextJobs(rest, ok);
        forall j | j in s && j != k ensures j in rest && rest[j] == s[j] {
        }
        if res.1 != [] {
          var k' :| k' in rest && res.1 == Filter(rest[k'], ok) && res.0 == Above(rest, k')
            && forall j :: j in rest && j < k' ==> Filter(rest[j], ok) == [];
          assert Above(rest, k') == Above(s, k');
        }
      }
    }
  }

  /** The jobs come from one group of the sequence, and what is left is part
      of the sequence. */
  lemma NextJobsFrom(s: Sequence, ok: set<Process>)
    ensures var (rest, jobs) := NextJobs(s, ok);
      && rest.Keys <= s.Keys && (forall k :: k in rest ==> rest[k] == s[k])
      && (s != map[] ==> rest.Keys < s.Keys)
      && (jobs != [] ==> exists k :: k in s && jobs == Filter(s[k], ok))
  {
    NextJobsSpec(s, ok);
    var (rest, jobs) := NextJobs(s, ok);
    if jobs != [] {
      var k :| k in s && jobs == Filter(s[k], ok) && rest == Above(s, k)
        && forall j :: j in s && j < k ==> Filter(s[j], ok) == [];
      assert k !in rest;
    }
  }

  /** What `process_application_jobs` does to the tables. */
  ghost function AppJobs(t: Tables, name: string, ok: set<Process>): Tables {
    if name !in t.plannedJobs then t
    else
      var (rest, jobs) := NextJobs(t.plannedJobs[name], ok);
      Tables(
        t.plannedSequence,
        if rest == map[] then t.plannedJobs - {name} else t.plannedJobs[name := rest],
        if jobs == [] then t.currentJobs - {name} else t.currentJobs[name := jobs])
  }

  /** After `process_application_jobs` the application is commanded only with
      a live job list and planned only with groups left; the groups left are
      all above the group popped last; the other applications are untouched. */
  lemma AppJobsSettles(t: Tables, name: string, ok: set<Process>)
    requires name in t.plannedJobs
    ensures var u := AppJobs(t, name, ok);
      && (name in u.currentJobs ==> u.currentJobs[name] != [] && forall i :: 0 <= i < |u.currentJobs[name]| ==> u.currentJobs[name][i] in ok)
      && (name in u.plannedJobs ==> u.plannedJobs[name] != map[] && u.plannedJobs[name].Keys < t.plannedJobs[name].Keys)
      && (name !in u.currentJobs ==> name !in u.plannedJobs)
      && u.plannedSequence == t.plannedSequence
      && (forall a :: a != name ==> (a in u.plannedJobs <==> a in t.plannedJobs) && (a in u.currentJobs <==> a in t.currentJobs))
      && (forall a :: a != name && a in u.plannedJobs ==> u.plannedJobs[a] == t.plannedJobs[a])
      && (forall a :: a != name && a in u.currentJobs ==> u.currentJobs[a] == t.currentJobs[a])
  {
    NextJobsSpec(t.plannedJobs[name], ok);
    NextJobsFrom(t.plannedJobs[name], ok);
  }

  lemma AppJobsKeepsWellFormed(t: Tables, name: string, ok: set<Process>)
    requires WellFormed(t)
    ensures WellFormed(AppJobs(t, name, ok))
  {
  }

  lemma AppJobsStaysIn(t: Tables, name: string, ok: set<Process>, world: set<Process>)
    requires TablesIn(t, world)
    ensures TablesIn(AppJobs(t, name, ok), world)
  {
    if name in t.plannedJobs {
      var s := t.plannedJobs[name];
      NextJobsFrom(s, ok);
      var (rest, jobs) := NextJobs(s, ok);
      if jobs != [] {
        var k :| k in s && jobs == Filter(s[k], ok);
        assert ListIn(s[k], world);
      }
    }
  }

  // ---------------------------------------------------------------------------
  // initial_jobs

  /** The tables once the applications `done` of the popped rank `rank` have
      been through `process_application_jobs`. */
  ghost function Partial(sequence: map<int, Planned>, rank: Planned, current: map<string, seq<Process>>,
                         done: set<string>, ok: set<Process>): Tables
  {
    Tables(sequence, PlannedAfter(rank, done, ok), CurrentAfter(rank, current, done, ok))
  }

  ghost function PlannedAfter(rank: Planned, done: set<string>, ok: set<Process>): Planned {
    map a | a in rank && (a in done ==> NextJobs(rank[a], ok).0 != map[])
      :: if a in done then NextJobs(rank[a], ok).0 else rank[a]
  }

  ghost function CurrentAfter(rank: Planned, current: map<string, seq<Process>>, done: set<string>,
                              ok: set<Process>): map<string, seq<Process>>
  {
    map a | a in current.Keys + rank.Keys
        && ((a in current && a !in done) || (a in done && a in rank && NextJobs(rank[a], ok).1 != []))
      :: if a in done && a in rank then NextJobs(rank[a], ok).1 else current[a]
  }

  lemma PartialStart(sequence: map<int, Planned>, rank: Planned, current: map<string, seq<Process>>, ok: set<Process>)
    ensures Partial(sequence, rank, current, {}, ok) == Tables(sequence, rank, current)
  {
  }

  lemma PartialStep(sequence: map<int, Planned>, rank: Planned, current: map<string, seq<Process>>,
                    done: set<string>, name: string, ok: set<Process>)
    requires name in rank && name !in done
    ensures AppJobs(Partial(sequence, rank, current, done, ok), name, ok)
         == Partial(sequence, rank, current, done + {name}, ok)
  {
    var before := Partial(sequence, rank, current, done, ok);
    assert name in before.plannedJobs && before.plannedJobs[name] == rank[name];
    var (rest, jobs) := NextJobs(rank[name], ok);
    var planned := PlannedAfter(rank, done, ok);
    var planned' := PlannedAfter(rank, done + {name}, ok);
    var p := if rest == map[] then planned - {name} else planned[name := rest];
    forall a ensures (a in p <==> a in planned') && (a in p ==> p[a] == planned'[a]) {
      PlannedAfterAt(rank, done, name, ok, a);
    }
    MapExt(p, planned');
    var cur := CurrentAfter(rank, current, done, ok);
    var cur' := CurrentAfter(rank, current, done + {name}, ok);
    var c := if jobs == [] then cur - {name} else cur[name := jobs];
    forall a ensures (a in c <==> a in cur') && (a in c ==> c[a] == cur'[a]) {
      CurrentAfterAt(rank, current, done, name, ok, a);
    }
    MapExt(c, cur');
  }

  lemma MapExt<K, V>(m: map<K, V>, m': map<K, V>)
    requires forall k :: (k in m <==> k in m') && (k in m ==> m[k] == m'[k])
    ensures m == m'
  {
  }

  lemma PlannedAfterAt(rank: Planned, done: set<string>, name: string, ok: set<Process>, a: string)
    requires name in rank && name !in done
    ensures var rest := NextJobs(rank[name], ok).0;
      var before := PlannedAfter(rank, done, ok);
      var after := PlannedAfter(rank, done + {name}, ok);
      var p := if rest == map[] then before - {name} else before[name := rest];
      (a in p <==> a in after) && (a in p ==> p[a] == after[a])
  {
    assert a in done + {name} <==> a in done || a == name;
  }

  lemma CurrentAfterAt(rank: Planned, current: map<string, seq<Process>>, done: set<string>, name: string,
                       ok: set<Process>, a: string)
    requires name in rank && name !in done
    ensures var jobs := NextJobs(rank[name], ok).1;
      var before := CurrentAfter(rank, current, done, ok);
      var after := CurrentAfter(rank, current, done + {name}, ok);
      var c := if jobs == [] then before - {name} else before[name := jobs];
      (a in c <==> a in after) && (a in c ==> c[a] == after[a])
  {
    assert a in done + {name} <==> a in done || a == name;
  }

  /** `process_application_jobs` applied to `names`, in turn. */
  ghost function AppJobsAll(t: Tables, names: seq<string>, ok: set<Process>): Tables {
    if names == [] then t
    else AppJobs(AppJobsAll(t, names[..|names| - 1], ok), names[|names| - 1], ok)
  }

  /** Scheduling the applications of a rank one after the other, in any
      order, gives the tables `Partial` describes. */
  lemma {:induction false} AppJobsAllIsPartial(sequence: map<int, Planned>, rank: Planned,
                                               current: map<string, seq<Process>>,
                                               names: seq<string>, done: set<string>, ok: set<Process>)
    requires forall i :: 0 <= i < |names| ==> names[i] in rank
    requires forall i, j :: 0 <= i < j < |names| ==> names[i] != names[j]
    requires forall x :: x in done <==> x in names
    ensures AppJobsAll(Tables(sequence, rank, current), names, ok) == Partial(sequence, rank, current, done, ok)
  {
    if names == [] {
      assert done == {};
      PartialStart(sequence, rank, current, ok);
    } else {
      var init := names[..|names| - 1];
      var last := names[|names| - 1];
      assert last !in init;
      AppJobsAllIsPartial(sequence, rank, current, init, done - {last}, ok);
      PartialStep(sequence, rank, current, done - {last}, last, ok);
      assert done - {last} + {last} == done;
    }
  }

  /** What `initial_jobs` does to the tables: the lowest rank is popped and
      becomes `planned_jobs`, then each of its applications goes through
      `process_application_jobs`. */
  ghost function Initial(t: Tables, ok: set<Process>): Tables {
    if t.plannedSequence == map[] then t
    else
      var m := Least(t.plannedSequence.Keys);
      var rank := t.plannedSequence[m];
      Partial(t.plannedSequence - {m}, rank, t.currentJobs, rank.Keys, ok)
  }

  /** `initial_jobs` removes exactly the lowest rank; every application of that
      rank ends up commanded with live jobs, or planned with groups left, or
      done with; nothing else is planned afterwards. */
  lemma InitialPopsLowestRank(t: Tables, ok: set<Process>)
    ensures t.plannedSequence == map[] ==> Initial(t, ok) == t
    ensures t.plannedSequence != map[] ==>
      var m := Least(t.plannedSequence.Keys);
      var u := Initial(t, ok);
      && u.plannedSequence == t.plannedSequence - {m}
      && u.plannedJobs.Keys <= t.plannedSequence[m].Keys
      && (forall a :: a in u.plannedJobs ==> u.plannedJobs[a] != map[])
      && (forall a :: a in t.plannedSequence[m] && a in u.currentJobs ==> u.currentJobs[a] != [])
      && (forall a :: a in t.plannedSequence[m] && a !in u.currentJobs ==> a !in u.plannedJobs)
      && (forall a :: a !in t.plannedSequence[m] ==> (a in u.currentJobs <==> a in t.currentJobs))
  {
    if t.plannedSequence != map[] {
      var rank := t.plannedSequence[Least(t.plannedSequence.Keys)];
      forall a | a in rank {
        NextJobsSpec(rank[a], ok);
      }
    }
  }

  /** When no application of the lowest rank has a group that commands a
      process and nothing is commanded yet, `initial_jobs` leaves no job at
      all: the tables stay busy exactly when a later rank is still planned.
      No pending job is left to settle, so that rank waits for the next
      command: `start_applications` or `stop_applications` (which call
      `initial_jobs`), `start_application` or `stop_application` (which pop
      the lowest rank themselves, see `Merge`), or a `start_process` or
      `stop_process` whose job, once settled by an event, calls
      `initial_jobs`. */
  lemma InitialStalls(t: Tables, ok: set<Process>)
    requires t.plannedSequence != map[] && t.currentJobs == map[]
    requires var rank := t.plannedSequence[Least(t.plannedSequence.Keys)];
      forall a, k :: a in rank && k in rank[a] ==> Filter(rank[a][k], ok) == []
    ensures var u := Initial(t, ok);
      && u.plannedSequence == t.plannedSequence - {Least(t.plannedSequence.Keys)}
      && u.plannedJobs == map[] && u.currentJobs == map[]
      && (Busy(u) <==> |t.plannedSequence.Keys| > 1)
  {
    var m := Least(t.plannedSequence.Keys);
    var rank := t.plannedSequence[m];
    forall a | a in rank
      ensures NextJobs(rank[a], ok) == (map[], [])
    {
      NextJobsSpec(rank[a], ok);
    }
    var u := Initial(t, ok);
    assert u.plannedJobs == map[];
    assert u.currentJobs == map[];
    var rest := t.plannedSequence.Keys - {m};
    assert u.plannedSequence.Keys == rest;
    assert |t.plannedSequence.Keys| == |rest| + 1;
  }

  lemma InitialKeepsWellFormed(t: Tables, ok: set<Process>)
    requires WellFormed(t)
    ensures WellFormed(Initial(t, ok))
  {
  }

  lemma InitialStaysIn(t: Tables, ok: set<Process>, world: set<Process>)
    requires TablesIn(t, world)
    ensures TablesIn(Initial(t, ok), world)
  {
    if t.plannedSequence != map[] {
      var m := Least(t.plannedSequence.Keys);
      var rank := t.plannedSequence[m];
      var u := Initial(t, ok);
      forall a | a in u.plannedJobs ensures SequenceIn(u.plannedJobs[a], world) {
        assert SequenceIn(rank[a], world);
        NextJobsFrom(rank[a], ok);
      }
      forall a | a in u.currentJobs ensures ListIn(u.currentJobs[a], world) {
        if a in rank.Keys {
          NextJobsFrom(rank[a], ok);
          var (rest, jobs) := NextJobs(rank[a], ok);
          if jobs != [] {
            var k :| k in rank[a] && jobs == Filter(rank[a][k], ok);
            assert ListIn(rank[a][k], world);
          }
        }
      }
    }
  }

  // ---------------------------------------------------------------------------
  // Filing an application's sequence

  /** An application as the sequencers see it: whether it is stopped or
      running, its ranks and its start and stop sequences. */
  datatype Application = Application(
    name: string,
    stopped: bool,
    running: bool,
    startRank: int,
    stopRank: int,
    startSequence: Sequence,
    stopSequence: Sequence)

  predicate ApplicationIn(app: Application, world: set<Process>) {
    SequenceIn(app.startSequence, world) && SequenceIn(app.stopSequence, world)
  }

  function File(t: Tables, rank: int, name: string, s: Sequence): Tables {
    var planned := if rank in t.plannedSequence then t.plannedSequence[rank] else map[];
    t.(plannedSequence := t.plannedSequence[rank := planned[name := s]])
  }

  /** `store_application_start_sequence`: the start sequence without group 0,
      filed under the application's start rank, when anything is left. */
  function StoreStart(t: Tables, app: Application): Tables {
    var s := app.startSequence - {0};
    if |s.Keys| > 0 then File(t, app.startRank, app.name, s) else t
  }

  /** `store_application_stop_sequence`: the whole stop sequence, filed under
      the application's stop rank, when it is not empty. */
  function StoreStop(t: Tables, app: Application): Tables {
    if app.stopSequence != map[] then File(t, app.stopRank, app.name, app.stopSequence) else t
  }

  /** No planned sequence holds a group 0. */
  predicate NoGroupZero(t: Tables) {
    forall r, a :: r in t.plannedSequence && a in t.plannedSequence[r] ==> 0 !in t.plannedSequence[r][a]
  }

  /** Storing a start sequence never plans group 0, adds nothing when only
      group 0 (or nothing) is there, and otherwise files exactly that sequence
      under the application's rank and name, leaving every other entry alone. */
  lemma StoreStartFiles(t: Tables, app: Application)
    ensures NoGroupZero(t) ==> NoGroupZero(StoreStart(t, app))
    ensures app.startSequence.Keys <= {0} ==> StoreStart(t, app) == t
    ensures !(app.startSequence.Keys <= {0}) ==>
      var u := StoreStart(t, app);
      && app.startRank in u.plannedSequence
      && u.plannedSequence[app.startRank][app.name] == app.startSequence - {0}
      && u.plannedSequence.Keys == t.plannedSequence.Keys + {app.startRank}
      && (forall r, a :: r in t.plannedSequence && a in t.plannedSequence[r] && (r, a) != (app.startRank, app.name)
            ==> a in u.plannedSequence[r] && u.plannedSequence[r][a] == t.plannedSequence[r][a])
      && u.plannedJobs == t.plannedJobs && u.currentJobs == t.currentJobs
  {
    var s := app.startSequence - {0};
    assert s.Keys == app.startSequence.Keys - {0};
    if !(app.startSequence.Keys <= {0}) {
      var k := Pick(app.startSequence.Keys - {0});
      assert k in s.Keys;
      FileKeepsOthers(t, app.startRank, app.name, s);
      if NoGroupZero(t) {
        var u := StoreStart(t, app);
        forall r, a | r in u.plannedSequence && a in u.plannedSequence[r] ensures 0 !in u.plannedSequence[r][a] {
          if (r, a) != (app.startRank, app.name) {
            assert r in t.plannedSequence;
          }
        }
      }
    }
  }

  /** Filing a sequence sets that one entry and leaves every other alone. */
  lemma FileKeepsOthers(t: Tables, rank: int, name: string, s: Sequence)
    ensures var u := File(t, rank, name, s);
      && rank in u.plannedSequence
      && u.plannedSequence[rank][name] == s
      && u.plannedSequence.Keys == t.plannedSequence.Keys + {rank}
      && (forall r, a :: r in u.plannedSequence && a in u.plannedSequence[r] && (r, a) != (rank, name)
            ==> r in t.plannedSequence && a in t.plannedSequence[r] && u.plannedSequence[r][a] == t.plannedSequence[r][a])
      && (forall r, a :: r in t.plannedSequence && a in t.plannedSequence[r] && (r, a) != (rank, name)
            ==> a in u.plannedSequence[r] && u.plannedSequence[r][a] == t.plannedSequence[r][a])
      && u.plannedJobs == t.plannedJobs && u.currentJobs == t.currentJobs
  {
  }

  /** Storing a stop sequence files it whole when it is not empty. */
  lemma StoreStopFiles(t: Tables, app: Application)
    ensures app.stopSequence == map[] ==> StoreStop(t, app) == t
    ensures app.stopSequence != map[] ==>
      var u := StoreStop(t, app);
      && app.stopRank in u.plannedSequence
      && u.plannedSequence[app.stopRank][app.name] == app.stopSequence
      && (forall r, a :: r in t.plannedSequence && a in t.plannedSequence[r] && (r, a) != (app.stopRank, app.name)
            ==> a in u.plannedSequence[r] && u.plannedSequence[r][a] == t.plannedSequence[r][a])
      && u.plannedJobs == t.plannedJobs && u.currentJobs == t.currentJobs
  {
  }

  lemma StoreKeepsWellFormed(t: Tables, app: Application)
    requires WellFormed(t)
    ensures WellFormed(StoreStart(t, app)) && WellFormed(StoreStop(t, app))
  {
    var s := app.startSequence - {0};
    if |s.Keys| > 0 {
      assert s != map[];
      FileKeepsWellFormed(t, app.startRank, app.name, s);
    }
    if app.stopSequence != map[] {
      FileKeepsWellFormed(t, app.stopRank, app.name, app.stopSequence);
    }
  }

  lemma FileKeepsWellFormed(t: Tables, rank: int, name: string, s: Sequence)
    requires WellFormed(t) && s != map[]
    ensures WellFormed(File(t, rank, name, s))
  {
    var u := File(t, rank, name, s);
    assert name in u.plannedSequence[rank];
  }

  lemma FileStaysIn(t: Tables, rank: int, name: string, s: Sequence, world: set<Process>)
    requires TablesIn(t, world) && SequenceIn(s, world)
    ensures TablesIn(File(t, rank, name, s), world)
  {
    var u := File(t, rank, name, s);
    forall r | r in u.plannedSequence ensures PlannedIn(u.plannedSequence[r], world) {
      if r != rank {
        assert u.plannedSequence[r] == t.plannedSequence[r];
      }
    }
  }

  lemma StoreStaysIn(t: Tables, app: Application, world: set<Process>)
    requires TablesIn(t, world) && ApplicationIn(app, world)
    ensures TablesIn(StoreStart(t, app), world) && TablesIn(StoreStop(t, app), world)
  {
    var s := app.startSequence - {0};
    assert SequenceIn(s, world);
    FileStaysIn(t, app.startRank, app.name, s, world);
    FileStaysIn(t, app.stopRank, app.name, app.stopSequence, world);
  }

  /** The applications of `apps` that `start_applications` files, in turn. */
  function StoreAllStart(t: Tables, apps: seq<Application>): Tables {
    if apps == [] then t
    else
      var last := apps[|apps| - 1];
      var u := StoreAllStart(t, apps[..|apps| - 1]);
      if last.stopped && last.startRank > 0 then StoreStart(u, last) else u
  }

  /** The applications of `apps` that `stop_applications` files, in turn. */
  function StoreAllStop(t: Tables, apps: seq<Application>): Tables {
    if apps == [] then t
    else
      var last := apps[|apps| - 1];
      var u := StoreAllStop(t, apps[..|apps| - 1]);
      if last.running && last.stopRank >= 0 then StoreStop(u, last) else u
  }

  /** `start_applications` files only stopped applications of positive rank,
      so it never plans rank 0 or below. */
  lemma {:induction false} StoreAllStartRanks(t: Tables, apps: seq<Application>)
    ensures StoreAllStart(t, apps).plannedSequence.Keys <= t.plannedSequence.Keys
      + set i | 0 <= i < |apps| && apps[i].stopped && apps[i].startRank > 0 :: apps[i].startRank
    ensures NoGroupZero(t) ==> NoGroupZero(StoreAllStart(t, apps))
  {
    if apps != [] {
      var init := apps[..|apps| - 1];
      StoreAllStartRanks(t, init);
      StoreStartFiles(StoreAllStart(t, init), apps[|apps| - 1]);
      assert forall i :: 0 <= i < |init| ==> init[i] == apps[i];
    }
  }

  // ---------------------------------------------------------------------------
  // Failures and events

  /** The starting failure strategy of an application. */
  datatype FailureStrategy = Abort | Stop | Continue

  /** `process_failure`: a required process under ABORT or STOP drops its
      application's planned jobs; nothing else changes. */
  function AfterFailure(t: Tables, required: bool, name: string, strategy: FailureStrategy): Tables {
    if required && (strategy == Abort || strategy == Stop) then t.(plannedJobs := t.plannedJobs - {name}) else t
  }

  lemma FailureOnlyDropsPlannedJobs(t: Tables, required: bool, name: string, strategy: FailureStrategy)
    ensures var u := AfterFailure(t, required, name, strategy);
      && u.plannedSequence == t.plannedSequence && u.currentJobs == t.currentJobs
      && (u != t ==> required && strategy != Continue && name in t.plannedJobs)
      && (required && strategy != Continue ==> name !in u.plannedJobs)
      && forall a :: a != name ==> (a in u.plannedJobs <==> a in t.plannedJobs)
  {
  }

  /** `list.remove`: drops the first occurrence. */
  function RemoveFirst(s: seq<Process>, p: Process): (r: seq<Process>)
    requires p in s
    ensures |r| == |s| - 1
    ensures multiset(r) == multiset(s) - multiset{p}
  {
    assert s == [s[0]] + s[1..];
    if s[0] == p then s[1..]
    else [s[0]] + RemoveFirst(s[1..], p)
  }

  lemma RemoveFirstIn(s: seq<Process>, p: Process, world: set<Process>)
    requires p in s && ListIn(s, world)
    ensures ListIn(RemoveFirst(s, p), world)
  {
    var r := RemoveFirst(s, p);
    forall i | 0 <= i < |r| ensures r[i] in world {
      assert r[i] in multiset(r);
    }
  }

  /** What follows when an application's job list empties: the entry goes;
      then its next group is scheduled, or, when no application is planned,
      the next rank. */
  ghost function JobsDone(t: Tables, name: string, ok: set<Process>): Tables {
    var u := t.(currentJobs := t.currentJobs - {name});
    if name in u.plannedJobs then AppJobs(u, name, ok)
    else if u.plannedJobs == map[] then Initial(u, ok)
    else u
  }

  /** A starting process leaves its job list in these states. */
  predicate LeavesStartJobs(s: Snapshot) {
    || s.state in {STOPPED, STOPPING, UNKNOWN, EXITED, FATAL}
    || (s.state == RUNNING && (!s.waitExit || s.ignoreWaitExit))
  }

  /** ... and counts as a failure in these. */
  predicate FailsToStart(s: Snapshot) {
    || s.state in {STOPPED, STOPPING, UNKNOWN, FATAL}
    || (s.state == EXITED && !(s.waitExit && s.expectedExit))
  }

  /** The first half of `on_event_in_sequence`: a process that leaves its
      job list is removed from it, and a failure applies the application's
      failure strategy. */
  function Departed(t: Tables, p: Process, s: Snapshot, strategy: FailureStrategy): (u: Tables)
    requires p.applicationName in t.currentJobs && p in t.currentJobs[p.applicationName]
    ensures p.applicationName in u.currentJobs
  {
    var name := p.applicationName;
    if !LeavesStartJobs(s) then t
    else
      var u := t.(currentJobs := t.currentJobs[name := RemoveFirst(t.currentJobs[name], p)]);
      if FailsToStart(s) then AfterFailure(u, s.required, name, strategy) else u
  }

  /** `on_event_in_sequence`, for a process of a current job list. */
  ghost function StartEventInSequence(t: Tables, p: Process, s: Snapshot, strategy: FailureStrategy,
                                      ok: set<Process>): Tables
    requires p.applicationName in t.currentJobs && p in t.currentJobs[p.applicationName]
  {
    var v := Departed(t, p, s, strategy);
    if v.currentJobs[p.applicationName] == [] then JobsDone(v, p.applicationName, ok) else v
  }

  predicate InSequence(p: Process, s: Sequence) {
    exists k :: k in s && p in s[k]
  }

  /** `on_event_out_of_sequence`: a crash of a process that is no longer
      planned, in an application still planned, is a failure. */
  function StartEventOutOfSequence(t: Tables, p: Process, s: Snapshot, strategy: FailureStrategy): Tables {
    var name := p.applicationName;
    if IsCrashedState(s.state, s.expectedExit) && name in t.plannedJobs && !InSequence(p, t.plannedJobs[name])
    then AfterFailure(t, s.required, name, strategy)
    else t
  }

  /** `Starter.on_event`. */
  ghost function StartEvent(t: Tables, p: Process, s: Snapshot, strategy: FailureStrategy, ok: set<Process>): Tables {
    var name := p.applicationName;
    if name in t.currentJobs && p in t.currentJobs[name] then StartEventInSequence(t, p, s, strategy, ok)
    else StartEventOutOfSequence(t, p, s, strategy)
  }

  /** `Stopper.on_event`. */
  ghost function StopEvent(t: Tables, p: Process, s: Snapshot, ok: set<Process>): Tables {
    var name := p.applicationName;
    if name in t.currentJobs && p in t.currentJobs[name] then
      var jobs := if IsStoppedState(s.state) then RemoveFirst(t.currentJobs[name], p) else t.currentJobs[name];
      var u := t.(currentJobs := t.currentJobs[name := jobs]);
      if jobs == [] then JobsDone(u, name, ok) else u
    else t
  }

  /** What each state does to a starting job list. */
  lemma StartEventByState(t: Tables, p: Process, s: Snapshot, strategy: FailureStrategy, ok: set<Process>)
    requires p.applicationName in t.currentJobs && p in t.currentJobs[p.applicationName]
    ensures s.state == STARTING || s.state == BACKOFF ==> StartEventInSequence(t, p, s, strategy, ok) == t
    ensures s.state == RUNNING && s.waitExit && !s.ignoreWaitExit ==> StartEventInSequence(t, p, s, strategy, ok) == t
    ensures s.state == RUNNING ==> !FailsToStart(s)
    ensures s.state == EXITED ==> LeavesStartJobs(s) && (FailsToStart(s) <==> !(s.waitExit && s.expectedExit))
    ensures s.state in {STOPPED, STOPPING, UNKNOWN, FATAL} ==> LeavesStartJobs(s) && FailsToStart(s)
    ensures FailsToStart(s) ==> LeavesStartJobs(s)
  {
  }

  /** While the job list keeps other processes, the event only removes the
      process and applies the failure strategy. */
  lemma StartEventKeepsOthers(t: Tables, p: Process, s: Snapshot, strategy: FailureStrategy, ok: set<Process>)
    requires p.applicationName in t.currentJobs && p in t.currentJobs[p.applicationName]
    requires LeavesStartJobs(s) && |t.currentJobs[p.applicationName]| > 1
    ensures var u := StartEventInSequence(t, p, s, strategy, ok);
      && u.currentJobs == t.currentJobs[p.applicationName := RemoveFirst(t.currentJobs[p.applicationName], p)]
      && u.plannedSequence == t.plannedSequence
      && u.plannedJobs == (if FailsToStart(s) then AfterFailure(t, s.required, p.applicationName, strategy) else t).plannedJobs
  {
  }

  /** The stopper removes a process from its job list only once it is stopped. */
  lemma StopEventOnlyWhenStopped(t: Tables, p: Process, s: Snapshot, ok: set<Process>)
    ensures !IsStoppedState(s.state) ==> StopEvent(t, p, s, ok) == t
    ensures IsStoppedState(s.state) && p.applicationName in t.currentJobs && p in t.currentJobs[p.applicationName]
      && |t.currentJobs[p.applicationName]| > 1
      ==> (StopEvent(t, p, s, ok)
        == t.(currentJobs := t.currentJobs[p.applicationName := RemoveFirst(t.currentJobs[p.applicationName], p)]))
  {
  }

  /** When the last job of an application settles, its entry goes and the
      application's next group is scheduled if it has one. */
  lemma JobsDoneSchedulesNext(t: Tables, name: string, ok: set<Process>)
    ensures var u := JobsDone(t, name, ok);
      && (name in t.plannedJobs ==> u == AppJobs(t.(currentJobs := t.currentJobs - {name}), name, ok))
      && (name !in t.plannedJobs && t.plannedJobs != map[] ==> u == t.(currentJobs := t.currentJobs - {name}))
      && (t.plannedJobs == map[] ==> u == Initial(t.(currentJobs := t.currentJobs - {name}), ok))
  {
    if name in t.plannedJobs {
      AppJobsSettles(t.(currentJobs := t.currentJobs - {name}), name, ok);
    }
  }

  // ---------------------------------------------------------------------------
  // What a job does to a process, and the single-application commands

  /** The two sequencers: `Starter` and `Stopper`. */
  datatype Kind = Starting | Stopping

  /** The fields `process_job` leaves on a process: a started process is
      stamped and loses its extra arguments; a process the starter could not
      start loses its `ignore_wait_exit` flag; a stopped process is stamped. */
  function JobEffect(kind: Kind, started: bool, f: JobFields, now: int): JobFields {
    match kind
    case Starting => if started then f.(requestTime := now, extraArgs := "") else f.(ignoreWaitExit := false)
    case Stopping => if started then f.(requestTime := now) else f
  }

  /** The changes any number of jobs and events may make to a process within
      one call stamped `now`: the flag is only ever cleared, the request time
      only ever set to `now`, the extra arguments only ever reset. */
  predicate FieldsStep(f: JobFields, g: JobFields, now: int) {
    && (g.ignoreWaitExit ==> f.ignoreWaitExit)
    && (g.requestTime == f.requestTime || g.requestTime == now)
    && (g.extraArgs == f.extraArgs || g.extraArgs == "")
  }

  /** One job is such a change, and such changes compose. */
  lemma JobEffectIsStep(kind: Kind, started: bool, f: JobFields, g: JobFields, now: int)
    requires FieldsStep(f, g, now)
    ensures FieldsStep(f, JobEffect(kind, started, g, now), now)
    ensures JobEffect(kind, started, g, now).requestTime == (if started then now else g.requestTime)
  {
  }

  lemma LeastUnique(k: int, keys: set<int>)
    requires IsLeast(k, keys)
    ensures Least(keys) == k
  {
  }

  /** The lowest rank of `planned_sequence` popped and merged into
      `planned_jobs`, as `start_application` and `stop_application` do. */
  ghost function Merge(t: Tables): Tables
    requires t.plannedSequence != map[]
  {
    var m := Least(t.plannedSequence.Keys);
    Tables(t.plannedSequence - {m}, t.plannedJobs + t.plannedSequence[m], t.currentJobs)
  }

  /** `start_application`, on the tables. */
  ghost function StartApp(t: Tables, app: Application, ok: set<Process>): Tables {
    if !app.stopped then t
    else
      var u := StoreStart(t, app);
      if u.plannedSequence == map[] then u else AppJobs(Merge(u), app.name, ok)
  }

  /** `stop_application` fails when there is no rank to pop: `min` of no
      keys. */
  datatype StopError = NothingPlanned

  /** `stop_application`, on the tables. */
  ghost function StopApp(t: Tables, app: Application, ok: set<Process>): Result<Tables, StopError> {
    if !app.running then Success(t)
    else
      var u := StoreStop(t, app);
      if u.plannedSequence == map[] then Failure(NothingPlanned) else Success(AppJobs(Merge(u), app.name, ok))
  }

  /** From idle, starting an application schedules nothing but that
      application: it ends up with the jobs of its first group (other than
      group 0) that yields any, and with the groups above; when no group
      yields a job, nothing is left in progress. */
  lemma StartAppFromIdle(app: Application, ok: set<Process>)
    requires app.stopped
    ensures var u := StartApp(NoJobs, app, ok);
      && u.plannedSequence == map[]
      && (Busy(u) <==> exists k :: k in app.startSequence && k != 0 && Filter(app.startSequence[k], ok) != [])
      && (forall a :: Scheduled(u, a) ==> a == app.name)
  {
    var s := app.startSequence - {0};
    WithoutGroupZero(app.startSequence, ok);
    if |s.Keys| > 0 {
      IdleStartAlone(app, ok);
      SingleAppJobs(app.name, s, ok);
    } else {
      assert s == map[];
      assert StartApp(NoJobs, app, ok) == NoJobs;
    }
  }

  /** From idle, the stored sequence is the only one, so it is promoted at once. */
  lemma IdleStartAlone(app: Application, ok: set<Process>)
    requires app.stopped && |(app.startSequence - {0}).Keys| > 0
    ensures StartApp(NoJobs, app, ok) == AppJobs(Tables(map[], map[app.name := app.startSequence - {0}], map[]), app.name, ok)
  {
    var s := app.startSequence - {0};
    var u := StoreStart(NoJobs, app);
    assert u.plannedSequence == map[app.startRank := map[app.name := s]];
    LeastUnique(app.startRank, u.plannedSequence.Keys);
    assert Merge(u) == Tables(map[], map[app.name := s], map[]);
  }

  lemma WithoutGroupZero(sequence: Sequence, ok: set<Process>)
    ensures var s := sequence - {0};
      (exists k :: k in s && Filter(s[k], ok) != [])
        <==> (exists k :: k in sequence && k != 0 && Filter(sequence[k], ok) != [])
  {
    var s := sequence - {0};
    if exists k :: k in s && Filter(s[k], ok) != [] {
      var k :| k in s && Filter(s[k], ok) != [];
      assert k in sequence && k != 0 && Filter(sequence[k], ok) != [];
    }
    if exists k :: k in sequence && k != 0 && Filter(sequence[k], ok) != [] {
      var k :| k in sequence && k != 0 && Filter(sequence[k], ok) != [];
      assert k in s && Filter(s[k], ok) != [];
    }
  }

  /** One application planned alone: it stays scheduled exactly when one of
      its groups yields a job. */
  lemma SingleAppJobs(name: string, s: Sequence, ok: set<Process>)
    ensures var u := AppJobs(Tables(map[], map[name := s], map[]), name, ok);
      && u.plannedSequence == map[]
      && (Busy(u) <==> exists k :: k in s && Filter(s[k], ok) != [])
      && (forall a :: Scheduled(u, a) ==> a == name)
  {
    NextJobsSpec(s, ok);
  }

  /** `stop_application` fails exactly when a running application has no
      stop sequence and nothing else is planned. */
  lemma StopAppFails(t: Tables, app: Application, ok: set<Process>)
    ensures StopApp(t, app, ok).Failure?
        <==> app.running && app.stopSequence == map[] && t.plannedSequence == map[]
  {
    StoreStopFiles(t, app);
  }

  // ---------------------------------------------------------------------------
  // No step leaves an empty container behind

  lemma JobsDoneKeepsWellFormed(t: Tables, name: string, ok: set<Process>)
    requires WellFormed(t.(currentJobs := t.currentJobs - {name}))
    ensures WellFormed(JobsDone(t, name, ok))
  {
    var u := t.(currentJobs := t.currentJobs - {name});
    AppJobsKeepsWellFormed(u, name, ok);
    InitialKeepsWellFormed(u, ok);
  }

  lemma StartEventKeepsWellFormed(t: Tables, p: Process, s: Snapshot, strategy: FailureStrategy, ok: set<Process>)
    requires WellFormed(t)
    ensures WellFormed(StartEvent(t, p, s, strategy, ok))
  {
    var name := p.applicationName;
    if name in t.currentJobs && p in t.currentJobs[name] {
      var v := Departed(t, p, s, strategy);
      DepartedKeepsWellFormed(t, p, s, strategy);
      if v.currentJobs[name] == [] {
        JobsDoneKeepsWellFormed(v, name, ok);
      }
    }
  }

  lemma DepartedKeepsWellFormed(t: Tables, p: Process, s: Snapshot, strategy: FailureStrategy)
    requires WellFormed(t)
    requires p.applicationName in t.currentJobs && p in t.currentJobs[p.applicationName]
    ensures var v := Departed(t, p, s, strategy);
      WellFormed(if v.currentJobs[p.applicationName] == [] then v.(currentJobs := v.currentJobs - {p.applicationName}) else v)
  {
  }

  lemma StopEventKeepsWellFormed(t: Tables, p: Process, s: Snapshot, ok: set<Process>)
    requires WellFormed(t)
    ensures WellFormed(StopEvent(t, p, s, ok))
  {
    var name := p.applicationName;
    if name in t.currentJobs && p in t.currentJobs[name] {
      var jobs := if IsStoppedState(s.state) then RemoveFirst(t.currentJobs[name], p) else t.currentJobs[name];
      var u := t.(currentJobs := t.currentJobs[name := jobs]);
      if jobs == [] {
        JobsDoneKeepsWellFormed(u, name, ok);
      }
    }
  }

  lemma MergeKeepsWellFormed(t: Tables)
    requires WellFormed(t) && t.plannedSequence != map[]
    ensures WellFormed(Merge(t))
  {
  }

  lemma StartAppKeepsWellFormed(t: Tables, app: Application, ok: set<Process>)
    requires WellFormed(t)
    ensures WellFormed(StartApp(t, app, ok))
  {
    StoreKeepsWellFormed(t, app);
    var u := StoreStart(t, app);
    if app.stopped && u.plannedSequence != map[] {
      MergeKeepsWellFormed(u);
      AppJobsKeepsWellFormed(Merge(u), app.name, ok);
    }
  }

  lemma StopAppKeepsWellFormed(t: Tables, app: Application, ok: set<Process>)
    requires WellFormed(t)
    ensures StopApp(t, app, ok).Success? ==> WellFormed(StopApp(t, app, ok).value)
  {
    StoreKeepsWellFormed(t, app);
    var u := StoreStop(t, app);
    if app.running && u.plannedSequence != map[] {
      MergeKeepsWellFormed(u);
      AppJobsKeepsWellFormed(Merge(u), app.name, ok);
    }
  }

  lemma {:induction false} StoreAllKeepsWellFormed(t: Tables, apps: seq<Application>)
    requires WellFormed(t)
    ensures WellFormed(StoreAllStart(t, apps)) && WellFormed(StoreAllStop(t, apps))
  {
    if apps != [] {
      var init := apps[..|apps| - 1];
      StoreAllKeepsWellFormed(t, init);
      StoreKeepsWellFormed(StoreAllStart(t, init), apps[|apps| - 1]);
      StoreKeepsWellFormed(StoreAllStop(t, init), apps[|apps| - 1]);
    }
  }
}
