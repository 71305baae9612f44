/** The start and stop sequencers. `Starter` and `Stopper` share the tables
    and the sequencing of `Commander`; here they are one class whose `kind`
    says which of the two it is, and the methods proper to one of them
    require that kind. Each method is proved against the function of
    `CommanderSpec` that says what it does to the tables. */
module Commander {
  import opened Wrappers
  import opened Processes
  import opened CommanderSpec

  /** `min(keys)`: the lowest key of a non-empty map. */
  method MinKey<V>(m: map<int, V>) returns (k: int)
    requires m != map[]
    ensures IsLeast(k, m.Keys)
  {
    var keys := m.Keys;
    ghost var w := Pick(keys);
    k :| k in keys;
    keys := keys - {k};
    while keys != {}
      invariant keys <= m.Keys && k in m.Keys
      invariant forall j :: j in m.Keys && j !in keys ==> k <= j
      decreases |keys|
    {
      ghost var w := Pick(keys);
      var j :| j in keys;
      if j < k {
        k := j;
      }
      keys := keys - {j};
    }
  }

  /** The keys of a dictionary, each once, in the order iteration yields
      them (left open). */
  method Enumerate<T>(s: set<T>) returns (order: seq<T>)
    ensures forall x :: x in s <==> x in order
    ensures forall i, j :: 0 <= i < j < |order| ==> order[i] != order[j]
  {
    var left := s;
    order := [];
    while left != {}
      invariant forall x :: x in s <==> x in left || x in order
      invariant forall i :: 0 <= i < |order| ==> order[i] !in left
      invariant forall i, j :: 0 <= i < j < |order| ==> order[i] != order[j]
      decreases |left|
    {
      var x :| x in left;
      left := left - {x};
      order := order + [x];
    }
  }

  /** Between the start of a call and now, every process of `world` changed
      only as jobs and events may change it. */
  twostate predicate Stepped(world: set<Process>, now: int)
    reads world
  {
    forall q :: q in world ==> FieldsStep(old(q.Fields()), q.Fields(), now)
  }

  class Commander {
    const kind: Kind
    /** `get_address`: the address a process would be started at under a
        starting strategy, if any has the resources. */
    const pick: (int, Process) -> Option<string>
    var plannedSequence: map<int, Planned>
    var plannedJobs: Planned
    var currentJobs: map<string, seq<Process>>
    /** The starting strategy (a starter's only). */
    var strategy: int

    constructor (kind: Kind, pick: (int, Process) -> Option<string>, strategy: int)
      ensures this.kind == kind && this.pick == pick && this.strategy == strategy
      ensures Planning() == NoJobs
    {
      this.kind := kind;
      this.pick := pick;
      this.strategy := strategy;
      plannedSequence := map[];
      plannedJobs := map[];
      currentJobs := map[];
    }

    function Planning(): Tables
      reads this
    {
      Tables(plannedSequence, plannedJobs, currentJobs)
    }

    /** `in_progress`. */
    predicate InProgress()
      reads this
    {
      Busy(Planning())
    }

    /** `has_application`. */
    predicate HasApplication(name: string)
      reads this
    {
      Scheduled(Planning(), name)
    }

    /** Whether `process_job` commands `p`: a starter starts a stopped process
        for which an address is found, a stopper stops a running process. */
    predicate Commands(p: Process)
      reads this`strategy, p`state
    {
      match kind
      case Starting => IsStoppedState(p.state) && pick(strategy, p).Some?
      case Stopping => IsRunningState(p.state)
    }

    /** The processes of `world` a job would be commanded for. */
    ghost function Ok(world: set<Process>): set<Process>
      reads this`strategy, world`state
    {
      set p | p in world && Commands(p)
    }

    /** `process_job` of both sequencers: commands `p` when it is in the
        right state, and then appends it to the job list. */
    method ProcessJob(p: Process, jobs: seq<Process>, now: int) returns (jobs': seq<Process>, started: bool)
      modifies p`ignoreWaitExit, p`requestTime, p`extraArgs
      ensures started <==> Commands(p)
      ensures jobs' == if started then jobs + [p] else jobs
      ensures p.Fields() == JobEffect(kind, started, old(p.Fields()), now)
    {
      jobs' := jobs;
      started := false;
      match kind {
        case Starting =>
          if IsStoppedState(p.state) {
            var address := pick(strategy, p);
            if address.Some? {
              p.requestTime := now;
              jobs' := jobs + [p];
              started := true;
              p.extraArgs := "";
            }
          }
          if !started {
            p.ignoreWaitExit := false;
          }
        case Stopping =>
          if IsRunningState(p.state) {
            p.requestTime := now;
            jobs' := jobs + [p];
            started := true;
          }
      }
    }

    /** `process_application_jobs`: pops the application's lowest groups until
        one of them yields a job, commanding the processes of each group. */
    method ProcessApplicationJobs(name: string, now: int, ghost world: set<Process>)
      requires TablesIn(Planning(), world)
      modifies this`plannedJobs, this`currentJobs, world`ignoreWaitExit, world`requestTime, world`extraArgs
      ensures Planning() == AppJobs(old(Planning()), name, Ok(world))
      ensures TablesIn(Planning(), world)
      ensures Stepped(world, now)
      ensures name in old(plannedJobs) && name in currentJobs ==>
        forall i :: 0 <= i < |currentJobs[name]| ==> currentJobs[name][i].requestTime == now
    {
      if name in plannedJobs {
        ghost var ok := Ok(world);
        ghost var t := Planning();
        assert SequenceIn(plannedJobs[name], world);
        var sequence, jobs := NextGroups(plannedJobs[name], now, world);
        assert Ok(world) == ok;
        assert (sequence, jobs) == NextJobs(t.plannedJobs[name], ok);
        if jobs == [] {
          currentJobs := currentJobs - {name};
        } else {
          currentJobs := currentJobs[name := jobs];
        }
        if sequence == map[] {
          plannedJobs := plannedJobs - {name};
        } else {
          plannedJobs := plannedJobs[name := sequence];
        }
        assert Ok(world) == ok;
        assert Planning() == AppJobs(t, name, ok);
        AppJobsStaysIn(t, name, ok, world);
      }
    }

    /** The `while` loop of `process_application_jobs`: pops the lowest group
        of `sequence` and commands its processes, until a group yields a job
        or none is left. Returns what is left and the job list. */
    method NextGroups(sequence: Sequence, now: int, ghost world: set<Process>) returns (rest: Sequence, jobs: seq<Process>)
      requires SequenceIn(sequence, world)
      modifies world`ignoreWaitExit, world`requestTime, world`extraArgs
      ensures (rest, jobs) == NextJobs(sequence, Ok(world))
      ensures forall i :: 0 <= i < |jobs| ==> jobs[i].requestTime == now
      ensures Stepped(world, now)
    {
      ghost var ok := Ok(world);
      rest := sequence;
      jobs := [];
      while rest != map[] && jobs == []
        invariant rest.Keys <= sequence.Keys && forall k :: k in rest ==> rest[k] == sequence[k]
        invariant jobs == [] ==> NextJobs(rest, ok) == NextJobs(sequence, ok)
        invariant jobs != [] ==> (rest, jobs) == NextJobs(sequence, ok)
        invariant forall i :: 0 <= i < |jobs| ==> jobs[i].requestTime == now
        invariant Ok(world) == ok
        invariant Stepped(world, now)
        decreases |rest.Keys|
      {
        var k := MinKey(rest);
        LeastUnique(k, rest.Keys);
        var group := rest[k];
        assert ListIn(group, world);
        ghost var before := rest;
        rest := rest - {k};
        label step:
        jobs := ProcessGroup(group, now, world);
        assert NextJobs(before, ok) == if jobs != [] then (rest, jobs) else NextJobs(rest, ok);
        forall q | q in world ensures FieldsStep(old(q.Fields()), q.Fields(), now) {
          assert FieldsStep(old@step(q.Fields()), q.Fields(), now);
        }
      }
    }

    /** The `for` loop of `process_application_jobs`: commands the processes
        of one group in turn and returns the job list they make. */
    method ProcessGroup(group: seq<Process>, now: int, ghost world: set<Process>) returns (jobs: seq<Process>)
      requires ListIn(group, world)
      modifies world`ignoreWaitExit, world`requestTime, world`extraArgs
      ensures jobs == Filter(group, Ok(world))
      ensures forall j :: 0 <= j < |jobs| ==> jobs[j].requestTime == now
      ensures Stepped(world, now)
    {
      ghost var ok := Ok(world);
      jobs := [];
      for i := 0 to |group|
        invariant jobs == Filter(group[..i], ok)
        invariant forall j :: 0 <= j < |jobs| ==> jobs[j].requestTime == now
        invariant Ok(world) == ok
        invariant Stepped(world, now)
      {
        FilterPrefix(group, i, ok);
        var p := group[i];
        ghost var f := p.Fields();
        ghost var prior := jobs;
        label before:
        var started;
        jobs, started := ProcessJob(p, jobs, now);
        JobEffectIsStep(kind, started, old(p.Fields()), f, now);
        forall q | q in world ensures FieldsStep(old(q.Fields()), q.Fields(), now) {
          if q != p {
            assert q.Fields() == old@before(q.Fields());
          }
        }
        forall j | 0 <= j < |jobs| ensures jobs[j].requestTime == now {
          if j < |prior| && jobs[j] != p {
            assert jobs[j].requestTime == old@before(jobs[j].requestTime);
          }
        }
      }
      assert group[..|group|] == group;
    }

    /** `initial_jobs`: pops the lowest rank of applications into
        `planned_jobs` and schedules each of its applications. */
    method InitialJobs(now: int, ghost world: set<Process>)
      requires TablesIn(Planning(), world)
      modifies this`plannedSequence, this`plannedJobs, this`currentJobs
      modifies world`ignoreWaitExit, world`requestTime, world`extraArgs
      ensures Planning() == Initial(old(Planning()), Ok(world))
      ensures TablesIn(Planning(), world)
      ensures Stepped(world, now)
    {
      if plannedSequence != map[] {
        ghost var ok := Ok(world);
        ghost var t := Planning();
        var rank := PopLowestRank();
        ghost var rest := plannedSequence;
        assert Initial(t, ok) == Partial(rest, rank, t.currentJobs, rank.Keys, ok);
        var order := ProcessApplications(rank.Keys, now, world);
        assert Ok(world) == ok;
        AppJobsAllIsPartial(rest, rank, t.currentJobs, order, rank.Keys, ok);
      }
    }

    /** `planned_jobs = planned_sequence.pop(min(...))`: the lowest rank
        leaves the planned sequence and replaces the planned jobs. */
    method PopLowestRank() returns (rank: Planned)
      requires plannedSequence != map[]
      modifies this`plannedSequence, this`plannedJobs
      ensures var m := Least(old(plannedSequence).Keys);
        && rank == old(plannedSequence)[m]
        && Planning() == Tables(old(plannedSequence) - {m}, rank, old(currentJobs))
    {
      var m := MinKey(plannedSequence);
      LeastUnique(m, plannedSequence.Keys);
      rank := plannedSequence[m];
      plannedSequence := plannedSequence - {m};
      plannedJobs := rank;
    }

    /** The `for` loop of `initial_jobs`: schedules each application of
        `names`, in the order the dictionary yields them, returned. */
    method ProcessApplications(names: set<string>, now: int, ghost world: set<Process>) returns (order: seq<string>)
      requires TablesIn(Planning(), world)
      modifies this`plannedJobs, this`currentJobs, world`ignoreWaitExit, world`requestTime, world`extraArgs
      ensures forall x :: x in names <==> x in order
      ensures forall i, j :: 0 <= i < j < |order| ==> order[i] != order[j]
      ensures Planning() == AppJobsAll(old(Planning()), order, Ok(world))
      ensures TablesIn(Planning(), world)
      ensures Stepped(world, now)
    {
      order := Enumerate(names);
      ghost var ok := Ok(world);
      for i := 0 to |order|
        invariant Planning() == AppJobsAll(old(Planning()), order[..i], ok)
        invariant TablesIn(Planning(), world) && Ok(world) == ok
        invariant Stepped(world, now)
      {
        ghost var before := Planning();
        label step:
        ProcessApplicationJobs(order[i], now, world);
        assert Planning() == AppJobs(before, order[i], ok);
        forall q | q in world ensures FieldsStep(old(q.Fields()), q.Fields(), now) {
          assert FieldsStep(old@step(q.Fields()), q.Fields(), now);
        }
        assert order[..i + 1][..i] == order[..i];
      }
      assert order[..|order|] == order;
    }

    /** The end of an event handler once an application's job list is
        empty: the entry goes, then its next group is scheduled, or, when no
        application is planned any more, the next rank. */
    method JobsSettled(name: string, now: int, ghost world: set<Process>)
      requires TablesIn(Planning(), world)
      modifies this`plannedSequence, this`plannedJobs, this`currentJobs
      modifies world`ignoreWaitExit, world`requestTime, world`extraArgs
      ensures Planning() == JobsDone(old(Planning()), name, Ok(world))
      ensures TablesIn(Planning(), world)
      ensures Stepped(world, now)
    {
      currentJobs := currentJobs - {name};
      if name in plannedJobs {
        ProcessApplicationJobs(name, now, world);
      } else if plannedJobs == map[] {
        InitialJobs(now, world);
      }
    }

    /** `Starter.abort`. */
    method Abort()
      requires kind == Starting
      modifies this`plannedSequence, this`plannedJobs, this`currentJobs
      ensures Planning() == NoJobs && !InProgress()
    {
      plannedSequence := map[];
      plannedJobs := map[];
      currentJobs := map[];
    }

    /** `store_application_start_sequence`. */
    method StoreApplicationStartSequence(app: Application)
      modifies this`plannedSequence
      ensures Planning() == StoreStart(old(Planning()), app)
    {
      var sequence := app.startSequence - {0};
      if |sequence.Keys| > 0 {
        var planned := if app.startRank in plannedSequence then plannedSequence[app.startRank] else map[];
        plannedSequence := plannedSequence[app.startRank := planned[app.name := sequence]];
      }
    }

    /** `store_application_stop_sequence`. */
    method StoreApplicationStopSequence(app: Application)
      modifies this`plannedSequence
      ensures Planning() == StoreStop(old(Planning()), app)
    {
      if app.stopSequence != map[] {
        var planned := if app.stopRank in plannedSequence then plannedSequence[app.stopRank] else map[];
        plannedSequence := plannedSequence[app.stopRank := planned[app.name := app.stopSequence]];
      }
    }

    /** `Starter.start_applications`: files every stopped application of
        positive start rank, then starts the lowest rank, with the default
        strategy. */
    method StartApplications(apps: seq<Application>, defaultStrategy: int, now: int, ghost world: set<Process>)
      requires kind == Starting && TablesIn(Planning(), world)
      requires forall i :: 0 <= i < |apps| ==> ApplicationIn(apps[i], world)
      modifies this`strategy, this`plannedSequence, this`plannedJobs, this`currentJobs
      modifies world`ignoreWaitExit, world`requestTime, world`extraArgs
      ensures strategy == defaultStrategy
      ensures Planning() == Initial(StoreAllStart(old(Planning()), apps), Ok(world))
      ensures TablesIn(Planning(), world)
      ensures Stepped(world, now)
    {
      strategy := defaultStrategy;
      StoreStartSequences(apps, world);
      InitialJobs(now, world);
    }

    /** The filing loop of `start_applications`. */
    method StoreStartSequences(apps: seq<Application>, ghost world: set<Process>)
      requires TablesIn(Planning(), world)
      requires forall i :: 0 <= i < |apps| ==> ApplicationIn(apps[i], world)
      modifies this`plannedSequence
      ensures Planning() == StoreAllStart(old(Planning()), apps)
      ensures TablesIn(Planning(), world)
    {
      for i := 0 to |apps|
        invariant Planning() == StoreAllStart(old(Planning()), apps[..i])
        invariant TablesIn(Planning(), world)
      {
        var app := apps[i];
        StoreStaysIn(Planning(), app, world);
        if app.stopped && app.startRank > 0 {
          StoreApplicationStartSequence(app);
        }
        assert apps[..i + 1][..i] == apps[..i];
      }
      assert apps[..|apps|] == apps;
    }

    /** `Starter.start_application`: files the application when it is
        stopped, merges the lowest rank into `planned_jobs` and schedules the
        application. Returns whether nothing is left in progress. */
    method StartApplication(strategy: int, app: Application, now: int, ghost world: set<Process>)
      returns (done: bool)
      requires kind == Starting && TablesIn(Planning(), world) && ApplicationIn(app, world)
      modifies this`strategy, this`plannedSequence, this`plannedJobs, this`currentJobs
      modifies world`ignoreWaitExit, world`requestTime, world`extraArgs
      ensures this.strategy == strategy
      ensures Planning() == StartApp(old(Planning()), app, Ok(world))
      ensures TablesIn(Planning(), world)
      ensures Stepped(world, now)
      ensures done <==> !InProgress()
    {
      this.strategy := strategy;
      if app.stopped {
        StartStopped(app, now, world);
      }
      done := !InProgress();
    }

    /** The stopped case of `start_application`: the sequence is filed, and
        when anything is planned the lowest rank is promoted and the
        application scheduled. */
    method StartStopped(app: Application, now: int, ghost world: set<Process>)
      requires app.stopped && TablesIn(Planning(), world) && ApplicationIn(app, world)
      modifies this`plannedSequence, this`plannedJobs, this`currentJobs
      modifies world`ignoreWaitExit, world`requestTime, world`extraArgs
      ensures Planning() == StartApp(old(Planning()), app, Ok(world))
      ensures TablesIn(Planning(), world)
      ensures Stepped(world, now)
    {
      StoreStaysIn(Planning(), app, world);
      StoreApplicationStartSequence(app);
      var _ := PromoteAndSchedule(app.name, now, world);
    }

    /** When any rank is planned, the lowest one merged into `planned_jobs`,
        then `name` scheduled, as `start_application` and `stop_application`
        end; returns whether a rank was there. */
    method PromoteAndSchedule(name: string, now: int, ghost world: set<Process>) returns (planned: bool)
      requires TablesIn(Planning(), world)
      modifies this`plannedSequence, this`plannedJobs, this`currentJobs
      modifies world`ignoreWaitExit, world`requestTime, world`extraArgs
      ensures planned <==> old(plannedSequence) != map[]
      ensures planned ==> Planning() == AppJobs(Merge(old(Planning())), name, Ok(world))
      ensures !planned ==> Planning() == old(Planning())
      ensures TablesIn(Planning(), world)
      ensures Stepped(world, now)
    {
      planned := plannedSequence != map[];
      if planned {
        Promote();
        ProcessApplicationJobs(name, now, world);
      }
    }

    /** `planned_jobs.update(planned_sequence.pop(min(...)))`. */
    method Promote()
      requires plannedSequence != map[]
      modifies this`plannedSequence, this`plannedJobs
      ensures Planning() == Merge(old(Planning()))
    {
      var m := MinKey(plannedSequence);
      LeastUnique(m, plannedSequence.Keys);
      plannedJobs := plannedJobs + plannedSequence[m];
      plannedSequence := plannedSequence - {m};
    }

    /** `Starter.start_process`: starts a single process, outside of any
        application sequence, so its `wait_exit` rule is ignored. Returns
        whether the process is starting. */
    method StartProcess(strategy: int, p: Process, extraArgs: string, now: int) returns (starting: bool)
      requires kind == Starting
      modifies this`strategy, this`currentJobs, p`ignoreWaitExit, p`requestTime, p`extraArgs
      ensures this.strategy == strategy
      ensures starting <==> IsStoppedState(p.state) && pick(strategy, p).Some?
      ensures var name := p.applicationName;
        var prior := if name in old(currentJobs) then old(currentJobs[name]) else [];
        currentJobs == if starting then old(currentJobs)[name := prior + [p]]
          else if prior == [] then old(currentJobs) - {name} else old(currentJobs)
      ensures p.Fields() == if starting then JobFields(true, now, "") else JobFields(false, old(p.requestTime), extraArgs)
    {
      this.strategy := strategy;
      p.extraArgs := extraArgs;
      p.ignoreWaitExit := true;
      var name := p.applicationName;
      var job := if name in currentJobs then currentJobs[name] else [];
      currentJobs := currentJobs[name := job];
      job, starting := ProcessJob(p, job, now);
      currentJobs := currentJobs[name := job];
      if job == [] {
        currentJobs := currentJobs - {name};
      }
    }

    /** `Starter.process_failure`: a required process under the ABORT or STOP
        failure strategy of its application drops the application's planned
        jobs. */
    method ProcessFailure(p: Process, strategyOf: string -> FailureStrategy)
      requires kind == Starting
      modifies this`plannedJobs
      ensures Planning() == AfterFailure(old(Planning()), p.required, p.applicationName, strategyOf(p.applicationName))
    {
      var name := p.applicationName;
      if p.required {
        match strategyOf(name) {
          case Abort =>
            plannedJobs := plannedJobs - {name};
          case Stop =>
            plannedJobs := plannedJobs - {name};
          case Continue =>
        }
      }
    }

    /** `Starter.on_event`. */
    method OnStartEvent(p: Process, strategyOf: string -> FailureStrategy, now: int, ghost world: set<Process>)
      requires kind == Starting && p in world && TablesIn(Planning(), world)
      modifies this`plannedSequence, this`plannedJobs, this`currentJobs
      modifies world`ignoreWaitExit, world`requestTime, world`extraArgs
      ensures Planning() == StartEvent(old(Planning()), p, old(p.Snap()), strategyOf(p.applicationName), Ok(world))
      ensures TablesIn(Planning(), world)
      ensures Stepped(world, now)
    {
      if p.applicationName in currentJobs && p in currentJobs[p.applicationName] {
        OnEventInSequence(p, strategyOf, now, world);
      } else {
        OnEventOutOfSequence(p, strategyOf);
      }
    }

    /** `Starter.on_event_in_sequence`. */
    method OnEventInSequence(p: Process, strategyOf: string -> FailureStrategy, now: int, ghost world: set<Process>)
      requires kind == Starting && p in world && TablesIn(Planning(), world)
      requires p.applicationName in currentJobs && p in currentJobs[p.applicationName]
      modifies this`plannedSequence, this`plannedJobs, this`currentJobs
      modifies world`ignoreWaitExit, world`requestTime, world`extraArgs
      ensures Planning() == StartEventInSequence(old(Planning()), p, old(p.Snap()), strategyOf(p.applicationName), Ok(world))
      ensures TablesIn(Planning(), world)
      ensures Stepped(world, now)
      ensures LeavesStartJobs(old(p.Snap())) ==> !p.ignoreWaitExit
    {
      ghost var s := p.Snap();
      ghost var t := Planning();
      Depart(p, strategyOf, world);
      assert Planning() == Departed(t, p, s, strategyOf(p.applicationName));
      label departed:
      if currentJobs[p.applicationName] == [] {
        JobsSettled(p.applicationName, now, world);
        forall q | q in world ensures FieldsStep(old(q.Fields()), q.Fields(), now) {
          assert FieldsStep(old@departed(q.Fields()), q.Fields(), now);
        }
      }
    }

    /** The state dispatch of `Starter.on_event_in_sequence`. */
    method Depart(p: Process, strategyOf: string -> FailureStrategy, ghost world: set<Process>)
      requires kind == Starting && p in world && TablesIn(Planning(), world)
      requires p.applicationName in currentJobs && p in currentJobs[p.applicationName]
      modifies this`plannedJobs, this`currentJobs, p`ignoreWaitExit
      ensures Planning() == Departed(old(Planning()), p, old(p.Snap()), strategyOf(p.applicationName))
      ensures p.ignoreWaitExit == (old(p.ignoreWaitExit) && !LeavesStartJobs(old(p.Snap())))
      ensures TablesIn(Planning(), world)
    {
      match p.state {
        case STOPPED | STOPPING | UNKNOWN | FATAL =>
          LeaveJobs(p, world);
          ProcessFailure(p, strategyOf);
        case STARTING =>
        case RUNNING =>
          if !p.waitExit || p.ignoreWaitExit {
            LeaveJobs(p, world);
          }
        case BACKOFF =>
        case EXITED =>
          LeaveJobs(p, world);
          if !(p.waitExit && p.expectedExit) {
            ProcessFailure(p, strategyOf);
          }
      }
    }

    /** A starting process leaves its application's job list: its
        `ignore_wait_exit` is reset and its first entry removed. */
    method LeaveJobs(p: Process, ghost world: set<Process>)
      requires TablesIn(Planning(), world)
      requires p.applicationName in currentJobs && p in currentJobs[p.applicationName]
      modifies this`currentJobs, p`ignoreWaitExit
      ensures var name := p.applicationName;
        currentJobs == old(currentJobs)[name := RemoveFirst(old(currentJobs[name]), p)]
      ensures !p.ignoreWaitExit
      ensures TablesIn(Planning(), world)
    {
      var name := p.applicationName;
      var jobs := currentJobs[name];
      p.ignoreWaitExit := false;
      RemoveFirstIn(jobs, p, world);
      jobs := RemoveFirst(jobs, p);
      currentJobs := currentJobs[name := jobs];
    }

    /** `Starter.on_event_out_of_sequence`. */
    method OnEventOutOfSequence(p: Process, strategyOf: string -> FailureStrategy)
      requires kind == Starting
      modifies this`plannedJobs
      ensures Planning() == StartEventOutOfSequence(old(Planning()), p, p.Snap(), strategyOf(p.applicationName))
    {
      var name := p.applicationName;
      if p.Crashed() && name in plannedJobs {
        if !InSequence(p, plannedJobs[name]) {
          ProcessFailure(p, strategyOf);
        }
      }
    }

    /** `Stopper.stop_applications`: files every running application of
        non-negative stop rank, then stops the lowest rank. */
    method StopApplications(apps: seq<Application>, now: int, ghost world: set<Process>)
      requires kind == Stopping && TablesIn(Planning(), world)
      requires forall i :: 0 <= i < |apps| ==> ApplicationIn(apps[i], world)
      modifies this`plannedSequence, this`plannedJobs, this`currentJobs
      modifies world`ignoreWaitExit, world`requestTime, world`extraArgs
      ensures Planning() == Initial(StoreAllStop(old(Planning()), apps), Ok(world))
      ensures TablesIn(Planning(), world)
      ensures Stepped(world, now)
    {
      StoreStopSequences(apps, world);
      InitialJobs(now, world);
    }

    /** The filing loop of `stop_applications`. */
    method StoreStopSequences(apps: seq<Application>, ghost world: set<Process>)
      requires TablesIn(Planning(), world)
      requires forall i :: 0 <= i < |apps| ==> ApplicationIn(apps[i], world)
      modifies this`plannedSequence
      ensures Planning() == StoreAllStop(old(Planning()), apps)
      ensures TablesIn(Planning(), world)
    {
      for i := 0 to |apps|
        invariant Planning() == StoreAllStop(old(Planning()), apps[..i])
        invariant TablesIn(Planning(), world)
      {
        var app := apps[i];
        StoreStaysIn(Planning(), app, world);
        if app.running && app.stopRank >= 0 {
          StoreApplicationStopSequence(app);
        }
        assert apps[..i + 1][..i] == apps[..i];
      }
      assert apps[..|apps|] == apps;
    }

    /** `Stopper.stop_application`: files the application when it is
        running, merges the lowest rank into `planned_jobs` and schedules the
        application. Returns whether nothing is left in progress; fails when
        there is no rank to pop. */
    method StopApplication(app: Application, now: int, ghost world: set<Process>)
      returns (r: Result<bool, StopError>)
      requires kind == Stopping && TablesIn(Planning(), world) && ApplicationIn(app, world)
      modifies this`plannedSequence, this`plannedJobs, this`currentJobs
      modifies world`ignoreWaitExit, world`requestTime, world`extraArgs
      ensures StopApp(old(Planning()), app, Ok(world)).Failure? ==>
        r == Failure(NothingPlanned) && Planning() == old(Planning())
      ensures StopApp(old(Planning()), app, Ok(world)).Success? ==>
        Planning() == StopApp(old(Planning()), app, Ok(world)).value && r == Success(!InProgress())
      ensures TablesIn(Planning(), world)
      ensures Stepped(world, now)
    {
      var planned := true;
      if app.running {
        planned := StopRunning(app, now, world);
      }
      if planned {
        r := Success(!InProgress());
      } else {
        r := Failure(NothingPlanned);
      }
    }

    /** The body of `stop_application` for a running application: false when
        `min` finds no rank, with nothing changed. */
    method StopRunning(app: Application, now: int, ghost world: set<Process>) returns (planned: bool)
      requires app.running && TablesIn(Planning(), world) && ApplicationIn(app, world)
      modifies this`plannedSequence, this`plannedJobs, this`currentJobs
      modifies world`ignoreWaitExit, world`requestTime, world`extraArgs
      ensures planned <==> StopApp(old(Planning()), app, Ok(world)).Success?
      ensures !planned ==> Planning() == old(Planning())
      ensures planned ==> Planning() == StopApp(old(Planning()), app, Ok(world)).value
      ensures TablesIn(Planning(), world)
      ensures Stepped(world, now)
    {
      ghost var t := Planning();
      StoreStaysIn(t, app, world);
      StoreApplicationStopSequence(app);
      StoreStopFiles(t, app);
      planned := PromoteAndSchedule(app.name, now, world);
    }

    /** `Stopper.stop_process`: stops a single process. Returns whether
        nothing is left in progress. */
    method StopProcess(p: Process, now: int) returns (done: bool)
      requires kind == Stopping
      modifies this`currentJobs, p`ignoreWaitExit, p`requestTime, p`extraArgs
      ensures var name := p.applicationName;
        var prior := if name in old(currentJobs) then old(currentJobs[name]) else [];
        currentJobs == if IsRunningState(p.state) then old(currentJobs)[name := prior + [p]]
          else if prior == [] then old(currentJobs) - {name} else old(currentJobs)
      ensures p.Fields() == old(p.Fields()).(requestTime := if IsRunningState(p.state) then now else old(p.requestTime))
      ensures done <==> !InProgress()
    {
      var name := p.applicationName;
      var job := if name in currentJobs then currentJobs[name] else [];
      currentJobs := currentJobs[name := job];
      var started;
      job, started := ProcessJob(p, job, now);
      currentJobs := currentJobs[name := job];
      if job == [] {
        currentJobs := currentJobs - {name};
      }
      done := !InProgress();
    }

    /** `Stopper.on_event`. */
    method OnStopEvent(p: Process, now: int, ghost world: set<Process>)
      requires kind == Stopping && TablesIn(Planning(), world)
      modifies this`plannedSequence, this`plannedJobs, this`currentJobs
      modifies world`ignoreWaitExit, world`requestTime, world`extraArgs
      ensures Planning() == StopEvent(old(Planning()), p, old(p.Snap()), Ok(world))
      ensures TablesIn(Planning(), world)
      ensures Stepped(world, now)
    {
      var name := p.applicationName;
      if name in currentJobs && p in currentJobs[name] {
        StopDepart(p, world);
        if currentJobs[name] == [] {
          JobsSettled(name, now, world);
        }
      }
    }

    /** The state dispatch of `Stopper.on_event`: a stopped process leaves
        its application's job list. */
    method StopDepart(p: Process, ghost world: set<Process>)
      requires TablesIn(Planning(), world)
      requires p.applicationName in currentJobs && p in currentJobs[p.applicationName]
      modifies this`currentJobs
      ensures var name := p.applicationName; var jobs := old(currentJobs[name]);
        currentJobs == old(currentJobs)[name := if IsStoppedState(p.state) then RemoveFirst(jobs, p) else jobs]
      ensures TablesIn(Planning(), world)
    {
      var name := p.applicationName;
      var jobs := currentJobs[name];
      if IsRunningState(p.state) {
      } else if IsStoppedState(p.state) {
        RemoveFirstIn(jobs, p, world);
        jobs := RemoveFirst(jobs, p);
      }
      currentJobs := currentJobs[name := jobs];
    }
  }
}
