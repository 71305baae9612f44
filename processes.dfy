/** The process entity the scheduler works on: supervisor's two state groups
    behind its `stopped()` and `running()` queries, and the `crashed()` test
    that supvisors adds on top of them. */
module Processes {

  /** The lifecycle states of a supervised process. */
  datatype ProcessState =
    | STOPPED | STARTING | RUNNING | BACKOFF | STOPPING | EXITED | FATAL | UNKNOWN

  /** Supervisor's STOPPED_STATES group. */
  predicate IsStoppedState(s: ProcessState) {
    s == STOPPED || s == EXITED || s == FATAL || s == UNKNOWN
  }

  /** Supervisor's RUNNING_STATES group. */
  predicate IsRunningState(s: ProcessState) {
    s == STARTING || s == RUNNING || s == BACKOFF
  }

  /** Supvisors' own `crashed()` query (supervisor has no such group): a
      process that stopped on its own, FATAL or EXITED with an exit code that
      was not expected. */
  predicate IsCrashedState(s: ProcessState, expectedExit: bool) {
    s == FATAL || (s == EXITED && !expectedExit)
  }

  lemma StateGroupsPartition(s: ProcessState)
    ensures !(IsStoppedState(s) && IsRunningState(s))
    ensures !IsStoppedState(s) && !IsRunningState(s) <==> s == STOPPING
    ensures IsCrashedState(s, true) || IsCrashedState(s, false) ==> IsStoppedState(s)
  {
  }

  /** The fields of a process that the start and stop sequencers assign. */
  datatype JobFields = JobFields(ignoreWaitExit: bool, requestTime: int, extraArgs: string)

  /** What the event handlers look at in a process when an event arrives. */
  datatype Snapshot = Snapshot(state: ProcessState, expectedExit: bool, required: bool,
                               waitExit: bool, ignoreWaitExit: bool)

  /** A supervised process. Its identity matters: job lists are searched and
      edited by identity. Its state and rules are written by the rest of the
      system; the sequencers only write `ignoreWaitExit`, `requestTime` and
      `extraArgs`. */
  class Process {
    const applicationName: string
    const processName: string
    var state: ProcessState
    var expectedExit: bool
    var required: bool
    var waitExit: bool
    var ignoreWaitExit: bool
    var extraArgs: string
    var requestTime: int

    constructor (applicationName: string, processName: string, state: ProcessState,
                 required: bool, waitExit: bool)
      ensures this.applicationName == applicationName && this.processName == processName
      ensures this.state == state && this.required == required && this.waitExit == waitExit
      ensures !this.expectedExit && !this.ignoreWaitExit
      ensures this.extraArgs == "" && this.requestTime == 0
    {
      this.applicationName := applicationName;
      this.processName := processName;
      this.state := state;
      this.required := required;
      this.waitExit := waitExit;
      this.expectedExit := false;
      this.ignoreWaitExit := false;
      this.extraArgs := "";
      this.requestTime := 0;
    }

    predicate Stopped() reads this { IsStoppedState(state) }

    predicate Running() reads this { IsRunningState(state) }

    predicate Crashed() reads this { IsCrashedState(state, expectedExit) }

    function Fields(): JobFields reads this {
      JobFields(ignoreWaitExit, requestTime, extraArgs)
    }

    function Snap(): Snapshot reads this {
      Snapshot(state, expectedExit, required, waitExit, ignoreWaitExit)
    }
  }
}
