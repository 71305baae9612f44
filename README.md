# Supvisors core, modelled in Dafny

Supvisors controls supervisord instances across a set of addresses. This project models the parts of it that hold its logic:

- **The commander** (`supvisors/commander.py`) starts and stops whole applications. It works one start or stop sequence at a time:
  - An application's sequence groups its processes by order number.
  - The commander pops the lowest-numbered group of every application in progress and commands each of its processes on an address chosen by a strategy.
  - It keeps the jobs still expected in `current_jobs` and the remaining groups in `planned_jobs`.
  - Process events either settle a job, or fail it and apply the application's failure strategy (abort, stop or continue).
  - When an application's current jobs are all settled, its next group is popped.

  The Starter and the Stopper share one class, `Commander.Commander`. Its `kind` says which one it is. The table state is also given a value form, `CommanderSpec.Tables`. Each method is proved against a function on that value. Lemmas about those functions then establish the promised properties:
  - the tables stay well formed, with no empty lists;
  - only the lowest order number is ever popped;
  - the result does not depend on the order in which applications are visited;
  - events only remove the processes they concern;
  - the failure strategy only removes planned jobs.
- **The option validators** (`supvisors/options.py`):
  - Each validator is modelled, including the periods list with its checks and its sort.
  - So is the de-duplicated address list.
  - The whole `server_configs_from_parser` sequence is modelled as `Options.Configure`, updated in place by `Options.SupvisorsOptions.ServerConfigsFromParser`.
- **`sort_processes_by_config`** (`supvisors/viewhandler.py`): the process ordering of the web view. It is proved to be a permutation, to be ordered as the source intends, and to be stable.
- **The enumeration helpers and `extract_process_info`** (`supvisors/utils.py`).
- **The Java client's `SupvisorsApplicationInfo` record**:
  - how it is built from a status map;
  - that its printed form can be read back;
  - the state rule its documentation states, as a relation, proved consistent.

Process states and the stopped and running groups are those of supervisord (its STOPPED_STATES and RUNNING_STATES). The crashed test (FATAL, or EXITED without an expected exit) is supvisors' own process query `crashed()`. All of these are modelled in `processes.dfy`.

## Model

| member | source | states |
|---|---|---|
| Processes.StateGroupsPartition | supvisors/commander.py:354 | No process state is both stopped and running; the only state that is neither is STOPPING; a crashed state is always a stopped one. |
| CommanderSpec.BusyIffSomeApplication | supvisors/commander.py:53-67 | On well-formed tables, the commander is in progress exactly when some application has planned or current jobs. |
| CommanderSpec.NextJobsSpec | supvisors/commander.py:113-121 | Popping groups yields no job exactly when no group has a process to command, and then nothing is left. Otherwise it yields the commanded processes of the lowest group that has any, and only the higher groups remain. |
| CommanderSpec.NextJobsFrom | supvisors/commander.py:113-121 | What remains planned is a part of the original sequence with its groups unchanged, strictly smaller when the sequence was not empty; any jobs are those of one of its groups. |
| CommanderSpec.Filter | supvisors/commander.py:117-119 | The jobs of one group hold only processes of the group that get commanded, and every process of the group that gets commanded. |
| CommanderSpec.AppJobsSettles | supvisors/commander.py:107-130 | After processing, the application has current jobs only as a non-empty list of commanded processes, planned groups only if some remain (strictly fewer than before), and no planned groups without current jobs; the planned sequence and every other application are untouched. |
| CommanderSpec.AppJobsKeepsWellFormed | supvisors/commander.py:107-130 | Processing one application keeps the tables well formed. |
| CommanderSpec.AppJobsStaysIn | supvisors/commander.py:107-130 | Processing one application never brings a new process into the tables. |
| CommanderSpec.PartialStart | supvisors/commander.py:99-102 | With no application of the popped rank processed yet, the partial tables are the popped rank as planned jobs and the current jobs as they were. |
| CommanderSpec.PartialStep | supvisors/commander.py:102-104 | Processing one more application extends the partial tables by exactly that application. |
| CommanderSpec.AppJobsAllIsPartial | supvisors/commander.py:102-104 | Processing the applications of the popped rank in any order gives the same tables, so the dictionary order does not matter. |
| CommanderSpec.InitialPopsLowestRank | supvisors/commander.py:94-105 | With nothing planned the tables are unchanged; otherwise exactly the lowest rank leaves the planned sequence, each of its applications keeps planned groups only with a non-empty current job list, and applications outside that rank keep their current jobs. |
| CommanderSpec.InitialKeepsWellFormed | supvisors/commander.py:94-105 | `initial_jobs` keeps the tables well formed. |
| CommanderSpec.InitialStaysIn | supvisors/commander.py:94-105 | `initial_jobs` brings no new process into the tables. |
| CommanderSpec.InitialStalls | supvisors/commander.py:94-105 | When no application of the lowest rank commands a process and nothing is commanded yet, no planned and no current job is left. The tables are then busy exactly when a later rank is still planned. |
| Commander.MinKey | supvisors/commander.py:99 | `min(planned_sequence.keys())` (also lines 115, 200, 456): the returned key is in the map and no key is below it. |
| Commander.Commander.ProcessJob | supvisors/commander.py:349-380 | The starter commands a process exactly when it is stopped and an address is found; the stopper (lines 480-493) exactly when it is running. A commanded process is appended to the jobs and stamped with the request time, and the starter resets its extra arguments; a process the starter does not command keeps the jobs unchanged and loses `ignore_wait_exit`. |
| Commander.Commander.ProcessGroup | supvisors/commander.py:117-119 | The loop over one group returns exactly `Filter` of the group by what gets commanded. |
| Commander.Commander.NextGroups | supvisors/commander.py:113-121 | The loop that pops groups returns what `NextJobs` specifies. |
| Commander.Commander.ProcessApplicationJobs | supvisors/commander.py:107-130 | The tables become `AppJobs` of the old tables. Every job now listed for the application was stamped in this call. |
| Commander.Commander.InitialJobs | supvisors/commander.py:94-105 | The tables become `Initial` of the old tables. |
| Commander.Commander.PopLowestRank | supvisors/commander.py:98-99 | The lowest rank leaves the planned sequence and replaces the planned jobs; the current jobs are unchanged. |
| Commander.Commander.ProcessApplications | supvisors/commander.py:102-104 | Every application of the rank is scheduled once, in the order returned; the tables become the fold of `AppJobs` over that order. |
| Commander.Enumerate | supvisors/commander.py:102 | The keys of the rank are listed each exactly once, in an order left open. |
| Commander.Commander.JobsSettled | supvisors/commander.py:300-313 | The tables become `JobsDone` of the old tables. |
| CommanderSpec.JobsDoneSchedulesNext | supvisors/commander.py:300-313 | Once its entry is dropped, an application with planned groups has its next groups processed; one without them changes nothing more while other applications have planned jobs; when no planned jobs remain at all, the next rank is started as `initial_jobs` does. |
| CommanderSpec.JobsDoneKeepsWellFormed | supvisors/commander.py:300-313 | Settling an application keeps the tables well formed. |
| Commander.Commander.Abort | supvisors/commander.py:163-167 | After an abort, no job is planned or current, and the starter is not in progress. |
| Commander.Commander.StoreApplicationStartSequence | supvisors/commander.py:339-347 | The tables become `StoreStart` of the old tables. |
| CommanderSpec.StoreStartFiles | supvisors/commander.py:339-347 | Group 0 is never filed; a sequence with nothing but group 0 changes nothing; otherwise the sequence without group 0 is filed under the application's start rank and name, and every other entry, the planned jobs and the current jobs are untouched. |
| Commander.Commander.StoreApplicationStopSequence | supvisors/commander.py:473-478 | The tables become `StoreStop` of the old tables. |
| CommanderSpec.StoreStopFiles | supvisors/commander.py:473-478 | An empty stop sequence changes nothing; otherwise it is filed under the application's stop rank and name, and every other entry, the planned jobs and the current jobs are untouched. |
| CommanderSpec.StoreKeepsWellFormed | supvisors/commander.py:339-347 | Filing a start or a stop sequence keeps the tables well formed (also lines 473-478). |
| CommanderSpec.StoreStaysIn | supvisors/commander.py:339-347 | Filing a sequence brings in only processes of the application's own sequences (also lines 473-478). |
| CommanderSpec.StoreAllStartRanks | supvisors/commander.py:176-179 | Storing all start sequences adds only ranks of stopped applications with a positive start rank, and never plans a group 0. |
| CommanderSpec.StoreAllKeepsWellFormed | supvisors/commander.py:176-179 | Storing all start (or all stop, lines 437-440) sequences keeps the tables well formed. |
| Commander.Commander.StartApplications | supvisors/commander.py:169-181 | The strategy becomes the default one; the tables become `Initial` of the start sequences of the stopped applications of positive rank, filed in turn. |
| Commander.Commander.StoreStartSequences | supvisors/commander.py:176-179 | The tables become `StoreAllStart` of the applications: each stopped application of positive rank filed in turn. |
| Commander.Commander.StartApplication | supvisors/commander.py:188-203 | The tables become `StartApp`. The result says whether the starter is no longer in progress. |
| Commander.Commander.StartStopped | supvisors/commander.py:196-201 | For a stopped application the tables become `StartApp`: its sequence is filed, then, when any rank is planned, the lowest is promoted and the application scheduled. |
| Commander.Commander.PromoteAndSchedule | supvisors/commander.py:198-201 | A rank is promoted exactly when one is planned. The tables then become `AppJobs` of `Merge` of the old tables (also lines 455-457); otherwise nothing changes. |
| Commander.Commander.Promote | supvisors/commander.py:200 | The lowest planned rank leaves the planned sequence and is merged into the planned jobs, overriding entries of the same application. |
| CommanderSpec.StartAppFromIdle | supvisors/commander.py:188-203 | From idle tables, starting a stopped application plans nothing else and schedules no other application, and leaves the starter in progress exactly when some group other than 0 has a process to command. |
| CommanderSpec.StartAppKeepsWellFormed | supvisors/commander.py:188-203 | Starting an application keeps the tables well formed. |
| Commander.Commander.StartProcess | supvisors/commander.py:212-231 | The strategy is stored; the result is true exactly when the process is stopped and an address is found, and then the process is added to its application's current jobs; an application entry created empty is removed again; the process fields are exactly those left by setting the extra arguments and `ignore_wait_exit` and then commanding. |
| Commander.Commander.ProcessFailure | supvisors/commander.py:382-411 | The tables become `AfterFailure` of the application's strategy. |
| CommanderSpec.FailureOnlyDropsPlannedJobs | supvisors/commander.py:382-411 | A failure never changes the planned sequence or the current jobs; it changes anything only for a required process under ABORT or STOP, and then the application's planned jobs are gone; no other application's planned jobs appear or disappear. |
| Commander.Commander.OnStartEvent | supvisors/commander.py:253-263 | The tables become `StartEvent`: an event in sequence or out of sequence, according to where the process is. |
| Commander.Commander.OnEventInSequence | supvisors/commander.py:265-313 | The tables become `StartEventInSequence`: a leaving process is removed from the current jobs and a failed start applies the failure strategy; an emptied list settles the application; a leaving process no longer ignores its wait-exit rule. |
| Commander.Commander.Depart | supvisors/commander.py:267-299 | The tables become `Departed` of the state seen; `ignore_wait_exit` is cleared exactly when the process leaves the jobs. |
| Commander.Commander.LeaveJobs | supvisors/commander.py:270-272 | The first entry of the process leaves its application's current jobs, its `ignore_wait_exit` is cleared, and nothing else in the tables changes. |
| CommanderSpec.StartEventByState | supvisors/commander.py:267-299 | STARTING and BACKOFF change nothing, nor does RUNNING while the process waits for its exit; RUNNING is never a failure; EXITED always leaves the jobs and fails unless the exit was awaited and expected; STOPPED, STOPPING, UNKNOWN and FATAL leave the jobs and fail. |
| CommanderSpec.StartEventKeepsOthers | supvisors/commander.py:267-299 | When a leaving process is not its application's last job, exactly one occurrence of it is removed from the current jobs, nothing else there changes, the planned sequence is untouched and the planned jobs are those the failure strategy leaves. |
| CommanderSpec.DepartedKeepsWellFormed | supvisors/commander.py:265-303 | Removing a leaving process, and the application entry once it is emptied, keeps the tables well formed. |
| CommanderSpec.StartEventKeepsWellFormed | supvisors/commander.py:253-313 | A start event keeps the tables well formed. |
| CommanderSpec.RemoveFirst | supvisors/commander.py:271 | Removing a job drops exactly one occurrence of that process. |
| Commander.Commander.OnEventOutOfSequence | supvisors/commander.py:315-337 | The tables become `StartEventOutOfSequence`: a crashed process of an application with planned jobs, and not itself among them, applies the failure strategy; any other event changes nothing. |
| Commander.Commander.StopApplications | supvisors/commander.py:432-442 | The tables become `Initial` of the stop sequences of the running applications of non-negative rank, filed in turn. |
| Commander.Commander.StoreStopSequences | supvisors/commander.py:437-440 | The tables become `StoreAllStop` of the applications: each running application of non-negative rank filed in turn. |
| Commander.Commander.StopApplication | supvisors/commander.py:444-459 | When a running application files nothing and no rank is planned (the `min` of no keys), it returns `Failure(NothingPlanned)` and leaves the tables unchanged. Otherwise the tables become `StopApp`, and the result says whether the stopper is no longer in progress. |
| Commander.Commander.StopRunning | supvisors/commander.py:450-457 | For a running application, a rank is planned exactly when `StopApp` succeeds; the tables then become its value, and otherwise stay as they were. |
| CommanderSpec.StopAppFails | supvisors/commander.py:444-459 | Stopping fails exactly when the application is running, has no stop sequence and nothing is planned, so that `min` has no key. |
| CommanderSpec.StopAppKeepsWellFormed | supvisors/commander.py:444-459 | Stopping an application keeps the tables well formed. |
| Commander.Commander.StopProcess | supvisors/commander.py:461-471 | The process is added to its application's current jobs exactly when it is running and an address is found; an entry created empty is removed again; the result says whether the stopper is no longer in progress. |
| Commander.Commander.OnStopEvent | supvisors/commander.py:524-554 | The tables become `StopEvent`. |
| Commander.Commander.StopDepart | supvisors/commander.py:531-540 | A stopped process's first entry leaves its application's current jobs; for a running or stopping process they are unchanged. |
| CommanderSpec.StopEventOnlyWhenStopped | supvisors/commander.py:524-554 | A state that is not a stopped one changes nothing; a stopped process that is not its application's last job is removed once from the current jobs and nothing else changes. |
| CommanderSpec.StopEventKeepsWellFormed | supvisors/commander.py:524-554 | A stop event keeps the tables well formed. |
| Options.ToPortNum | supvisors/options.py:185-191 | Accepts exactly 1..65535 and returns the value. Any other value is an error naming it. |
| Options.ToTimeout | supvisors/options.py:194-200 | Accepts exactly 1..1000 and returns the value. Any other value is an error. |
| Options.ToConciliationStrategy | supvisors/options.py:203-210 | Fails exactly on a name the enumeration does not know, with an error naming it; otherwise returns the value that the enumeration's `string_map` gives that name. |
| Options.ToStartingStrategy | supvisors/options.py:213-220 | Fails exactly on a name the enumeration does not know, with an error naming it; otherwise returns the value that the enumeration's `string_map` gives that name. |
| Options.ToHisto | supvisors/options.py:244-250 | Accepts exactly 10..1500 and returns the value. Any other value is an error. |
| Options.FirstInvalid | supvisors/options.py:232-239 | None exactly when every period is in [5;3600] and a multiple of 5; otherwise a value of the list that is not. |
| Options.FirstInvalidAt | supvisors/options.py:232-239 | When every value before position i is valid and the one at i is not, the error reports the value at i. |
| Options.SortAscending | supvisors/options.py:241 | The result is ascending and a permutation of the input. |
| Options.NonZero | supvisors/options.py:241 | The result keeps exactly the non-zero values. |
| Options.NonZeroKeepsNonZeros | supvisors/options.py:241 | Filtering a list without zeros gives the list back, so `filter(None, ...)` never drops a valid period. |
| Options.PeriodsResult | supvisors/options.py:223-241 | No value and more than three values are the count errors; success exactly when there are one to three values and each is valid; the result is then ascending and a permutation of the values; otherwise the first invalid value is reported. |
| Options.ToPeriods | supvisors/options.py:223-241 | The loop over the values returns what `PeriodsResult` specifies. |
| Options.Dedup | supvisors/options.py:144-146 | Keeps each non-empty name not already seen, once, in the order of its first appearance. |
| Options.AddressList | supvisors/options.py:144-146 | The address list holds each non-empty given name exactly once, in the order of first appearance. |
| Options.DefaultsAreValid | supvisors/options.py:143-168 | With every entry absent, the configuration succeeds and stores the defaults: ports 65001 and 65002, no auto fence, timeout 15, periods [10], depth 200 and the host name as address list. |
| Options.ConfigureSucceedsIffAllChecksPass | supvisors/options.py:136-168 | The configuration succeeds exactly when the section exists and every converter accepts its value or default; on success every option is set. |
| Options.SupvisorsOptions.ServerConfigsFromParser | supvisors/options.py:136-168 | The options and the error become what `Configure` gives from the old options. |
| Options.SupvisorsOptions.StrategiesAndStatsFromParser | supvisors/options.py:158-168 | From the strategies on, the options and the error become what `StoreConciliation` gives from the old options. |
| Options.SupvisorsOptions.StatsFromParser | supvisors/options.py:162-168 | From the periods on, the options and the error become what `StorePeriods` gives from the old options. |
| Utils.Public | supvisors/utils.py:75-76 | Keeps only attributes whose names do not start with an underscore, and keeps every such attribute. |
| Utils.ToMap | supvisors/utils.py:75-77 | The keys of the dictionary built from pairs are the pairs' first components. |
| Utils.Swap | supvisors/utils.py:77 | Swapping each pair keeps the length, and the i-th pair is the reverse of the i-th input pair. |
| Utils.ToMapAt | supvisors/utils.py:75-77 | With distinct keys, each pair is an entry of the dictionary. |
| Utils.PublicDistinct | supvisors/utils.py:75-77 | Distinct names stay distinct among the public attributes, and so do distinct values. |
| Utils.StringMapIsPublicAttributes | supvisors/utils.py:75-76 | `string_map` holds exactly the public attributes, each with its value. |
| Utils.EntryAt | supvisors/utils.py:75-77 | Every public attribute is an entry of both `string_map` and `enum_map`. |
| Utils.NameEntry | supvisors/utils.py:75-77 | Every name of `string_map` is found again through `enum_map`. |
| Utils.ValueEntry | supvisors/utils.py:75-77 | Every value of `enum_map` is found again through `string_map`. |
| Utils.EnumMapInvertsStringMap | supvisors/utils.py:75-77 | With distinct values, `enum_map` and `string_map` are inverse, in both directions. |
| Utils.ToString | supvisors/utils.py:59-61 | Succeeds exactly for a value in `enum_map` (the KeyError otherwise), giving its name. |
| Utils.FromString | supvisors/utils.py:63-65 | Succeeds exactly for a name in `string_map` (the KeyError otherwise), giving its value. |
| Utils.ValuesAndStrings | supvisors/utils.py:67-73 | `values()` and `strings()` are the public values and names. |
| Utils.StringsArePublicNames | supvisors/utils.py:71-73 | `strings()` is the set of public names. |
| Utils.ValuesArePublicValues | supvisors/utils.py:67-69 | `values()` is the set of public values. |
| Utils.ConversionsRoundTrip | supvisors/utils.py:59-65 | `from_string` then `to_string`, and `to_string` then `from_string`, each give back their input. |
| Utils.ExtractProcessInfo | supvisors/utils.py:106-114 | Fails exactly when a kept key is missing; otherwise the payload holds the kept keys with their values, plus `expected`, which is the negation of the truth of `spawnerr`. |
| Utils.ExpectedIffNoSpawnError | supvisors/utils.py:113 | The expected flag is true exactly when there is no spawn error. |
| ViewHandler.IndexOf | supvisors/viewhandler.py:424 | `ordering.index`: the position of the first occurrence of the name. |
| ViewHandler.SortByKey | supvisors/viewhandler.py:421-431 | The sort's result is ordered by key and is a permutation of its input. |
| ViewHandler.AppNames | supvisors/viewhandler.py:413-414 | The application names are strictly ascending, and are exactly those of the processes. |
| ViewHandler.ByConfig | supvisors/viewhandler.py:410-411 | An empty list gives an empty list. |
| ViewHandler.SortProcessesByConfig | supvisors/viewhandler.py:405-433 | The result is the block-by-block ordering. It is a permutation of the input, ordered, and stable. |
| ViewHandler.ByConfigIsPermutation | supvisors/viewhandler.py:405-433 | Every process appears in the result exactly as many times as in the input. |
| ViewHandler.ByConfigIsOrdered | supvisors/viewhandler.py:413-432 | Applications come in ascending name order, and within an application the sort key does not decrease. |
| ViewHandler.OrderedMeans | supvisors/viewhandler.py:413-432 | In an ordered list, each application is one contiguous block. Known processes precede unknown ones. Known ones follow the configuration order, and unknown ones follow name order. |
| ViewHandler.ByConfigIsStable | supvisors/viewhandler.py:421-432 | Processes with the same application and key keep their input order. |
| ApplicationInfo.ValueIsCode | supvisors/client/java/org/supvisors/common/SupvisorsApplicationInfo.java:37-51 | The four state codes are exactly 0..3, one per state. |
| ApplicationInfo.ValueOf | supvisors/client/java/org/supvisors/common/SupvisorsApplicationInfo.java:78 | `valueOf` succeeds exactly on the four constant names, and returns the constant of that name. |
| ApplicationInfo.ValueOfName | supvisors/client/java/org/supvisors/common/SupvisorsApplicationInfo.java:78 | `valueOf` of a state's name is that state. |
| ApplicationInfo.Parse | supvisors/client/java/org/supvisors/common/SupvisorsApplicationInfo.java:76-117 | The constructor fails exactly on an unknown state name. Otherwise every getter returns the entry read. |
| ApplicationInfo.ParseOfFields | supvisors/client/java/org/supvisors/common/SupvisorsApplicationInfo.java:76-117 | Every record is what the constructor builds from its own fields. |
| ApplicationInfo.ToStringReadsBack | supvisors/client/java/org/supvisors/common/SupvisorsApplicationInfo.java:124-130 | The printed form of a record can be read back into the same record. |
| ApplicationInfo.DocumentedState | supvisors/client/java/org/supvisors/common/SupvisorsApplicationInfo.java:29-36 | The documented rule allows a state exactly when it is the computed one, or when the rule leaves the state open. The rule leaves it open exactly when a BACKOFF process is the only reason not to be STOPPED. |
| ApplicationInfo.NoBackoffDetermined | supvisors/client/java/org/supvisors/common/SupvisorsApplicationInfo.java:29-36 | Without a BACKOFF process, the documented rule fixes the state. |
| ApplicationInfo.NoProcessIsStopped | supvisors/client/java/org/supvisors/common/SupvisorsApplicationInfo.java:32 | An application without processes is STOPPED. |
| ApplicationInfo.DocumentedStateOrderFree | supvisors/client/java/org/supvisors/common/SupvisorsApplicationInfo.java:29-36 | The state depends only on which process states occur. |
| ApplicationInfo.DocumentedIsSatisfiable | supvisors/client/java/org/supvisors/common/SupvisorsApplicationInfo.java:29-69 | The state and flag documentation never contradict each other: some record agrees with any list of processes. |
| ApplicationInfo.RunningFailureFlags | supvisors/client/java/org/supvisors/common/SupvisorsApplicationInfo.java:59-69 | For any processes that make the application RUNNING, the major flag holds exactly when a required process is stopped, and the minor flag exactly when an optional process stopped unexpectedly. |
| ApplicationInfo.BothFailures | supvisors/client/java/org/supvisors/common/SupvisorsApplicationInfo.java:59-69 | The flags are independent: one running application with a stopped required process and an optional process that exited unexpectedly reports both failures. |

## Left out

- ProcessApplicationJobs, NextGroups, ProcessGroup, InitialJobs, ProcessApplications, JobsSettled, StartApplications, StartApplication, StartStopped, PromoteAndSchedule, OnStartEvent, OnEventInSequence, StopApplications, StopApplication, StopRunning, OnStopEvent: the tables are stated exactly. The process fields they touch are bounded by `Stepped`, not stated exactly. `Stepped` allows only the changes `ProcessJob` makes, stamped with the call's time; `ProcessJob` itself states them exactly.
- Address selection (`get_address` and the loading it weighs) is not part of this model. It is the `pick` oracle of the commander. `pick` is fixed for the commander's lifetime, while the source's `get_address` weighs loads that change between calls. Every contract is stated per call, so none depends on this.
- The clock is the parameter `now`, read once per call. The source reads the time once per job.
- The messages sent to other instances, and `force_process_fatal` / `force_process_unknown`, are not modelled. The job tables do not depend on them.
- Commander.Commander.ProcessFailure: under the STOP strategy the source also asks the stopper to stop the application. That call is not modelled; only the start tables are.
- The lookup of the application's failure strategy in the context is the parameter `strategyOf`. Its KeyError for an unknown application is not modelled.
- `check_starting` / `check_stopping`, the `printable_*` helpers, logging and the `strategy` property setter are not modelled. The timeout checks read the clock and force states through the info source.
- `default_start_application` and `default_start_process` are StartApplication and StartProcess called with the default strategy.
- Commander.Commander: the model merges the Starter and the Stopper into one class, told apart by `kind`. The class carries the `strategy` field that only the Starter has (supvisors/commander.py:150). The Stopper has no such field (supvisors/commander.py:429), and the stopping methods neither read it nor list it in their `modifies` clauses.
- `process.py` and `application.py` are not part of this model. The process state groups come from supervisord's groups. An application's start and stop sequences, ranks and running flags are inputs, in the `Application` value.
- Options: the `ConfigParser` reading, supervisor's `list_of_strings`, `boolean` and `integer` converters and the host name lookup. Their results are inputs to `Options.Configure`: the raw values arrive already converted, so `RawOptions` holds integers and booleans, not text. The ValueError that `integer` raises on text that is not an integer (supvisors/options.py:187, 196, 233, 246) is not modelled, nor the one `boolean` raises.
- Options.ToPortNum: takes an integer. The `integer` conversion of the text before the range check (supvisors/options.py:187) and its ValueError are not modelled.
- Options.ToTimeout: takes an integer. The `integer` conversion of the text before the range check (supvisors/options.py:196) and its ValueError are not modelled.
- Options.ToHisto: takes an integer. The `integer` conversion of the text before the range check (supvisors/options.py:246) and its ValueError are not modelled.
- Options.PeriodsResult: takes a list of integers. The per-value `integer` conversion (supvisors/options.py:233) and its ValueError are not modelled; the count, range, step and sort checks are.
- Options.ToPeriods: the loop is proved equal to `PeriodsResult`, so the per-value `integer` error (supvisors/options.py:233) is not modelled here either.
- Options.Configure, Options.SupvisorsOptions.ServerConfigsFromParser, Options.ConfigureSucceedsIffAllChecksPass: these do not model the `rules_file` entry or its `existing_dirpath` check (supvisors/options.py:147-149, run before `internal_port`). They also do not model the `logfile`, `logfile_maxbytes`, `logfile_backups` and `loglevel` entries or their `existing_dirpath`, `byte_size`, `integer` and `logging_level` checks (supvisors/options.py:170-178). Where one of those checks raises ValueError, the model reports success.
- Utils.ExtractProcessInfo: the other helpers of `utils.py` are not modelled. These are the time formatting, the statistics and `supvisors_shortcuts`.
- The web view's rendering and its floating-point statistics are not modelled. Only `sort_processes_by_config` is.
- ApplicationInfo.DocumentedState: the Java documentation does not fix the state when a BACKOFF process is the only reason not to be STOPPED. It does not say how the failure flags behave outside RUNNING either. Both are left open in the relation. In RUNNING, the model reads "optional" as "not required". The major flag is then fixed by the stopped required processes and the minor flag by the crashed optional processes, each independently of the other (`FlagsRuleAllows`). The server code that computes them is not part of this model.
- ApplicationInfo.Parse: a missing or badly typed map entry (a null, or a failing cast) is not modelled. The entries arrive already typed.
- Commander.Commander.StopApplication: the `ValueError` the source raises is returned as `Failure(NothingPlanned)`.
- Commander.Commander.InitialJobs: when no application of the popped rank commands a process and no other application has current jobs, `initial_jobs` (supvisors/commander.py:94-105) leaves no planned and no current job. If a later rank is still planned, the tables stay busy (`in_progress`, supvisors/commander.py:53-57), but no job is pending, so no event moves that rank on. It waits for a later command. The ways out are:
  - `start_applications` (supvisors/commander.py:181) or `stop_applications` (442), which call `initial_jobs`;
  - `start_application` (198-200) or `stop_application` (455-457), which pop the lowest rank themselves (`CommanderSpec.Merge`);
  - `start_process` (212-231) or `stop_process` (461-471), which create current jobs; the event that settles such a job calls `initial_jobs` (313, 554).
  The model keeps this behaviour as written, and `CommanderSpec.InitialStalls` states it.
- ViewHandler.Blocks, ViewHandler.ByConfig, ViewHandler.SortProcessesByConfig: `config` is a total function. The failure of `get_group_config` (supvisors/viewhandler.py:417) for an application that the supervisor does not know is not modelled.
- Options.ToConciliationStrategy, Options.ToStartingStrategy: supvisors/options.py:205 and 215 call `_from_string`, which supvisors/utils.py does not define. The model reads it as `from_string` (supvisors/utils.py:63-65) returning None where the dictionary lookup raises, which is `Utils.FromString`. The two strategy enumerations are inputs in `Options.Environment`. Their attribute lists are not part of this model.
