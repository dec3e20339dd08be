# Laminar scheduler, run sequencer and dashboard — a Dafny model

Laminar is a lightweight continuous-integration server. A *job* is a set of
executable scripts under `$LAMINAR_HOME/cfg`; a *run* is one numbered
execution of a job. This project models three parts of it and proves
properties of the model.

- **The scheduler** (class `Laminar`, `src/laminar.h`, `src/laminar.cpp`).
  It covers:
  - the FIFO queue of runs waiting for an executor;
  - the build nodes with their executor counts and tags;
  - the per-job build numbers;
  - the set of active runs with its three unique keys (pid, job name and
    build number, the object itself);
  - the clients waiting for a run to finish.

  `queueJob`, `assignNewJobs`, `runFinished`, `reapAdvance`, `stepRun`,
  `waitForRun` and `setParam` are modelled as methods on a Dafny class of
  the same shape, `Scheduler.Laminar`. `nodeCanQueue` is the method
  `SchedulerRules.NodeCanQueue` beside it, and the `activeRun` lookup is the
  function `RunSets.FindKey` over the active set. The filesystem is
  a value saying which paths exist and which directories could be created.
  Child processes are `Child(pid, fd)` values supplied by the caller. The
  messages broadcast to dashboard clients are appended to a `sent` log.
- **The run** (class `Run`, `src/run.h`, `src/run.cpp`). This is the FIFO
  of scripts a run still has to execute, the result it latches as their
  exit statuses arrive, its reason text, and the `RunState` enumeration
  with its `to_string`.
- **The dashboard view models** (`src/resources/js/app.js`). These are the
  websocket dispatcher and the state of the Home, Jobs, Job and Run pages,
  as updated by the server's `status`, `job_queued`, `job_started` and
  `job_completed` messages. They also cover the jobs page's filter and tag
  list, and the `runIcon`/`runComplete` helpers.

## What is proved

- **Scheduler invariant** (`Scheduler.Scheduled`, kept by every scheduler
  method through `Laminar.Valid`):
  - a run is either queued or active, never both;
  - each node's busy count equals the number of active runs placed on it,
    and is within capacity once non-zero;
  - in the history of every build started, the build numbers of one job
    strictly increase and none is above the job's `buildNums` entry; every
    method only appends to that history (`old(builds) <= builds`), so no
    build once started leaves it;
  - the active set never holds two runs with the same pid or the same
    (job, build).
- **`assignNewJobs`** is, as a whole, the fold `Pass` of `Plan`'s
  decisions over the queue's jobs, oldest first:
  - the runs whose turn started them are exactly the runs that moved to
    the active set, and the others are exactly the new queue, each in
    queue order; nothing is lost or duplicated (`Interleaving`,
    `InterleavingConserves`);
  - each started run carries its turn's node and build, every run kept
    keeps its node, build and pid;
  - the builds started are appended to the history in the order they
    started, and no job's last build number goes down; two runs of one
    job started by one pass get increasing numbers (`PassBuildsIncrease`);
  - no run left queued could start from the state the pass leaves: no
    node admits its job, or its next working directory cannot be created
    (`PassLeavesRefusedStuck`).
- **Each turn of `assignNewJobs`** is exactly the decision function `Plan`:
  - the first admitting node;
  - the next build number;
  - then a working directory that must be new and an archive directory
    that may already exist.
- **The scripts a started run gets** are the seven slots in order, as the
  code writes them: each is present only if the file it tests for exists,
  and the node's before slot queues `cfg/before` in place of the node's own
  script (see Findings). The `.run` script is always among them. With that
  slot corrected, every queued script exists and the node's script is
  queued.
- **`queueJob`**:
  - it refuses exactly when the `.run` script is missing, or the workspace
    is missing and cannot be created;
  - internal `=`-parameters are split off, and `=parentBuild` goes through
    `atoi`;
  - the new run is queued, or started by the `assignNewJobs` pass that
    follows; the runs that started move to the active set in queue order;
  - the `job_queued` message is sent first, and only `job_started`
    messages follow it, one per started run.
- **`runFinished`**:
  - it frees the node's executor;
  - it releases every waiter with the latched result;
  - it removes the working directory;
  - it takes the run out of the active set.
- **A run's latched result** is FAILED exactly when one of its scripts
  exited non-zero, and FAILED is sticky.
- **`std::to_string` and `atoi`**: the build number printed in a reason
  string reads back with `atoi`.
- **The dashboard's queued list**, newest first, stays the exact reverse of
  the server's queue under `job_queued` and `job_started`, provided
  `queueIndex` is the run's queue position. The index the code sends is
  that position only for the run at the head of the queue, and undefined
  for any other (see Findings).
- **The jobs filter** keeps the jobs' order and lists exactly the jobs
  that have the selected tag and contain the search text. The tag list
  holds each tag once.

## Model

| member | source | states |
|---|---|---|
| RunStates.Code | src/run.h:29-36 | the integer an enumerator converts to is its declaration position, in 0..5, and converts back to the same enumerator |
| RunStates.ToString | src/run.cpp:31-42 | each state prints as its lower-case name, which reads back as the same state; only UNKNOWN prints "unknown" |
| RunStates.CodeToString | src/run.cpp:31-42 | for an in-range code it agrees with `ToString`; every integer other than the five named codes, however far out of range, prints "unknown" (the `default:` label) |
| RunStates.ToStringInjective | src/run.cpp:31-42 | two states print the same exactly when they are equal |
| Strings.IntToString | src/run.cpp:56 | `std::to_string` gives a non-empty string |
| Strings.AtoiOfIntToString | src/laminar.cpp:461 | `atoi` reads back every integer `std::to_string` prints, negative or not |
| Strings.IntToStringInjective | src/run.cpp:56 | distinct integers print differently |
| Runs.Outcome | src/run.cpp:61-63 | folding the exit statuses a run observed gives SUCCESS or FAILED only |
| Runs.OutcomeFailedIff | src/run.cpp:61-63 | a run's result is FAILED exactly when some observed exit status was non-zero |
| Runs.OutcomeAppend | src/run.cpp:62-63 | one more status latches FAILED if non-zero and leaves the result alone otherwise |
| Runs.FailedIsSticky | src/run.cpp:62-63 | no later status takes a FAILED run back to SUCCESS |
| Runs.Run.constructor | src/run.cpp:45-48 | a new run starts with result SUCCESS, last result UNKNOWN, build 0, and no scripts, environment files or parameters; the job name, upstream job, upstream build and reason come in as `queueJob` assigns them right after `Run()` (src/laminar.cpp:453-471), and are not the `run.h` default 0 for the upstream build; the node (None), pid, fd and process status (0) stand for members `run.h` leaves uninitialised, which the code never reads before `step` sets them |
| Runs.Run.Reason | src/run.cpp:54-59 | without an upstream job the reason is the queued reason text; with one it is "Triggered by upstream <job> #" followed by more text |
| Runs.ReasonReadsBack | src/run.cpp:54-59 | what follows "Triggered by upstream <job> #" reads back with `atoi` as the upstream build number |
| Runs.Run.Step | src/run.cpp:61-127 | FAILED is latched first if the script that just finished exited non-zero; then the next script, if any, leaves the front of the queue and starts as the given process; the result is true exactly when the queue was empty, and then the result is FAILED exactly when some status was non-zero |
| Runs.Run.AddScript | src/run.cpp:128-130 | the script joins the back of the run's script queue |
| Runs.Run.AddEnv | src/run.cpp:131-133 | the environment file joins the back of the run's list |
| Runs.Run.Reaped | src/run.cpp:134-136 | the reaped exit status is recorded as the run's process status |
| RunSets.Without | src/laminar.cpp:738 | erasing a run by object keeps every other run and that run no more; the length drops by one when it was present |
| RunSets.FindKey | src/laminar.h:69-72 | `activeRun(name, num)` finds an active run with that job name and build number, and null exactly when there is none |
| RunSets.FindPid | src/laminar.cpp:523 | the pid lookup finds the run whose current process is `pid`, and null exactly when there is none |
| RunSets.KeyLookupIsExact | src/run.h:122-127 | with (name, build) unique, looking up a run's own key gives that very run |
| RunSets.PidLookupIsExact | src/run.h:121 | with pids unique, looking up a run's own pid gives that very run |
| RunSets.RunSet.Insert | src/run.h:119-135 | an insertion that would repeat a pid, a (name, build) pair or the object is refused and changes nothing; otherwise the run is added; the uniqueness invariant holds either way |
| RunSets.RunSet.Erase | src/laminar.cpp:738 | erasing by object removes exactly that run and keeps the set unique |
| SchedulerRules.NodeCanQueue | src/laminar.cpp:535-556 | a node takes a job exactly when it has a free executor and either both are untagged or both are tagged with a tag in common; a full node never takes one |
| SchedulerRules.FirstAdmitting | src/laminar.cpp:562-565 | the node chosen admits the job and no node before it does; none is chosen exactly when no node admits it |
| SchedulerRules.FirstAdmittingNode | src/laminar.cpp:562-565 | the node loop of `assignNewJobs` stops at the first node `nodeCanQueue` accepts |
| SchedulerRules.Plan | src/laminar.cpp:565-582 | a turn stays queued with no node exactly when no node admits the job; otherwise it uses the first admitting node and the job's last build number plus one; it fails on the working directory exactly when that cannot be created fresh |
| SchedulerRules.StuckIsRefusal | src/laminar.cpp:562-572 | a job is stuck (no admitting node, or its next working directory cannot be created) exactly when its turn would end with no node or no working directory |
| SchedulerRules.TurnKeepsStuck | src/laminar.cpp:558-679 | another run's turn only takes executors, directories and build numbers of its own job, so a job that was stuck stays stuck |
| SchedulerRules.PassLeavesRefusedStuck | src/laminar.cpp:558-679 | a run whose turn did not start it could not start from the state the whole pass leaves: no node admits its job, or its next working directory cannot be created |
| SchedulerRules.PassBuildsGrow | src/laminar.cpp:628 | over a pass, no job's last build number goes down |
| SchedulerRules.PassBuildsIncrease | src/laminar.cpp:567-628 | two runs of one job started by one pass get build numbers in the order their turns came, strictly increasing |
| SchedulerRules.SplitParams | src/laminar.cpp:456-471 | every '='-prefixed parameter is removed; `=parentJob`, `=parentBuild` (through atoi) and `=reason` fill the upstream job, the upstream build and the reason, defaulting to "", 0 and ""; every other parameter is kept with its value |
| SchedulerRules.MainScriptPosition | src/laminar.cpp:586-605 | in the script list as the code writes it, the job's `.run` script is always queued, with at most three scripts before it and at most three after it |
| SchedulerRules.QueuedFilesExist | src/laminar.cpp:586-613 | with the node's before slot corrected to queue the file it tests for, every before and after script queued and every environment file listed is a file that exists, and the node's own before script is queued whenever it exists |
| SchedulerRules.NodeBeforeAsWrittenQueuesWrongFile | src/laminar.cpp:589-591 | as written, the node slot queues `cfg/before` and never the node's own file: a missing script when `cfg/before` is absent, a repeat of it when present |
| SchedulerRules.DefaultNodeFile | src/laminar.cpp:590-611 | the default node, named "", has its hook files at `cfg/nodes.before`, `cfg/nodes.after` and `cfg/nodes.env`: Boost's `/` appends nothing for the empty name and the `operator+` helper (src/laminar.cpp:63-67) extends `nodes`; they are not `cfg/nodes/.before` and the like |
| SchedulerRules.IntendedAgreesWithoutNodeBefore | src/laminar.cpp:589-591 | for a node without its own before script, the list as written and the corrected list are the same |
| SchedulerRules.QueueIndexAsWritten | src/laminar.cpp:636 | the `queueIndex` the code sends for the run at position i is defined exactly when the run is the head, and is then its position 0 |
| SchedulerRules.Occupy | src/laminar.cpp:616 | one more busy executor on the chosen node, every other node unchanged |
| SchedulerRules.Vacate | src/laminar.cpp:684 | one fewer busy executor on the run's node, every other node unchanged |
| Scheduler.InterleavingConserves | src/laminar.cpp:672-676 | the runs that stayed queued and the runs that started together are the old queue, nothing lost or duplicated |
| Scheduler.InterleavingMember | src/laminar.cpp:672-676 | every run of the old queue either stayed queued or started |
| Scheduler.PickedLeftInterleave | src/laminar.cpp:672-676 | the runs whose turn started them and the runs whose turn kept them split the queue between them, each in queue order |
| Scheduler.ScanDone | src/laminar.cpp:558-679 | the pass computed turn by turn is the fold `Pass` of `Plan`'s decisions; after it no kept run could start and no job's build number went down |
| Scheduler.ReleaseReleases | src/laminar.cpp:729-732 | every waiting ticket of the run receives the run's result; other released tickets keep theirs |
| Scheduler.EnqueueKeeps | src/laminar.cpp:472 | appending a waiting run that is neither queued nor active to the queue keeps the scheduler invariant |
| Scheduler.StartKeeps | src/laminar.cpp:615-628 | starting a run on a node with a free executor as the job's next build keeps the scheduler invariant |
| Scheduler.FinishKeeps | src/laminar.cpp:684 | a finishing run sits on a node with a non-zero busy count; taking it off that node and out of the active set keeps the invariant |
| Scheduler.DequeueKeeps | src/laminar.cpp:674 | taking a run out of the queue keeps the invariant and leaves it neither queued nor active |
| Scheduler.NoClash | src/laminar.cpp:673 | the run being inserted shares no pid and no (job, build) with an active run, so the insertion is never refused |
| Scheduler.NewRun | src/laminar.cpp:453-471 | a fresh run of the job with the parameters split as `SplitParams` says, nothing added yet |
| Scheduler.Prepare | src/laminar.cpp:584-613 | a starting run gets the seven script slots in execution order as the code writes them (each only if the file its slot tests for exists, the node's before slot queuing `cfg/before`) and the global, node and job environment files in that order |
| Scheduler.Launch | src/laminar.cpp:615-666 | the run is placed on its node with its build number (lines 615-620), and its first script starts as the given process (`stepRun`, line 662); the code sends `job_started` between the two, and the model, which records no process starts, does it after both |
| Scheduler.Laminar.constructor | src/laminar.cpp:72-100 | the server starts with the build numbers read back, the nodes and job tags as configured (one untagged node "" with 6 executors when none is), and nothing queued, active or waiting |
| Scheduler.Laminar.AssignNewJobs | src/laminar.cpp:558-679 | the pass is the fold of `Plan`'s decisions over the old queue's jobs, oldest first: nodes, filesystem and build numbers end as that fold says; the runs whose turn started them move to the back of the active set in queue order and exactly the others stay queued in their order; each started run has its turn's node and build and every kept run keeps its node, build and pid; the started builds are appended to the history and no job's build number goes down; no run left queued could start now; the invariant holds; every message sent is a `job_started`, one per started run, and directories are only ever created |
| Scheduler.Laminar.TryAssign | src/laminar.cpp:562-670 | a turn's outcome is `Plan`'s decision and the filesystem gains exactly the directories it creates; a start dequeues the run, occupies the node, records the build number and announces `job_started` with the index the code sends (0 for the run at the head of the queue, undefined for any other); any other outcome leaves the queue, nodes, build numbers and messages alone |
| Scheduler.Laminar.Reserve | src/laminar.cpp:562-582 | the node loop, the next build number and the two directories give exactly `Plan`'s decision, and the filesystem gains exactly the directories that decision creates |
| Scheduler.Laminar.StartRun | src/laminar.cpp:584-670 | a started run has the scripts and environment files of its node, node and build set, first script running as the given process, the node occupied, the build number recorded and `job_started` sent with the given queue index |
| Scheduler.Laminar.RunFinished | src/laminar.cpp:681-739 | the run's node loses one busy executor, `job_completed` carries the latched result, every waiter is released with it and forgotten, the working directory is removed and the run leaves the active set |
| Scheduler.Laminar.ReleaseWaiters | src/laminar.cpp:729-732 | each of the run's tickets, in order, receives the run's result, and the run's waiter list goes |
| Scheduler.Laminar.QueueJob | src/laminar.cpp:439-487 | null exactly when the `.run` script is missing or the workspace is missing and cannot be created, with nothing changed then; otherwise the workspace exists, a fresh run made from the parameters is queued or already started, the assigning pass that follows is the fold of `Plan`'s decisions over the old queue plus the new run, exactly as for `AssignNewJobs` (the runs started, the runs kept, the pool, the fields, the history, no build number going down, no kept run able to start), `job_queued` is sent first and only `job_started` messages follow, one per started run, and directories are only ever created |
| Scheduler.Laminar.Submit | src/laminar.cpp:472-486 | the new run joins the back of the queue and the assigning pass follows, as the fold of `Plan`'s decisions over the old queue plus the new run: the same split of the queue, pool, history and fields as `AssignNewJobs` states, with `job_queued` first and then the `job_started` messages |
| Scheduler.Laminar.Enqueue | src/laminar.cpp:443-484 | the new run joins the back of the queue and `job_queued` is sent |
| Scheduler.Laminar.WaitForRun | src/laminar.cpp:490-494 | an active run gives a new ticket added to its waiters; any other (name, number) resolves to UNKNOWN at once and changes nothing |
| Scheduler.Laminar.WaitForRunObj | src/laminar.cpp:496-499 | the new ticket has never been handed out or released, and joins the back of the run's waiters |
| Scheduler.Laminar.SetParam | src/laminar.cpp:111-117 | true exactly when an active run has that job name and build number; that run alone gets the parameter set |
| Scheduler.Laminar.ReapAdvance | src/laminar.cpp:518-533 | the reaped status reaches the run of that pid and latches FAILED when its script exited non-zero; with scripts left the run starts the next one as the given process and nothing else changes (nodes, active set, waiters, messages, filesystem); with none left the run is finished: its node loses one busy executor, it leaves the active set, `job_completed` carries FAILED exactly when some script failed, its waiters are released with that result and its working directory is removed |
| Scheduler.Laminar.Advance | src/laminar.cpp:501-514 | `reaped` then `step` on an active run keeps the invariant and latches FAILED for a failed script |
| Dashboard.SpliceStart | src/resources/js/app.js:203 | the effective start of `splice`: the start itself in range, counted from the end when negative, clamped to the array otherwise |
| Dashboard.SpliceOutRemovesOne | src/resources/js/app.js:203 | `splice(start, 1)` removes the element at the effective start, if any, and keeps the others in order |
| Dashboard.SpliceFromEnd | src/resources/js/app.js:203 | `splice(length - i - 1, 1)` removes the i-th element counting from the end |
| Dashboard.SplicePastEnd | src/resources/js/app.js:203 | a start at or past the end of the queued list removes nothing, so a `queueIndex` below 0 leaves the list as it was |
| Dashboard.FirstMatch | src/resources/js/app.js:215-223 | the record found matches and no earlier one does; nothing is found exactly when no record matches |
| Dashboard.CompletedMoves | src/resources/js/app.js:215-223 | a completion takes exactly one record out of the running list and puts the new record in front of the recent list, or changes nothing without a match |
| Dashboard.FilteredJobsExactly | src/resources/js/app.js:249-264 | the filtered list keeps the jobs' order and holds exactly the jobs with the selected tag (if set) whose name contains the search text (if set) |
| Dashboard.ByTagIdempotent | src/resources/js/app.js:252-256 | filtering by a tag twice is filtering once |
| Dashboard.TagListExactly | src/resources/js/app.js:267-276 | the tag list holds every tag some job carries, and each only once |
| Dashboard.RunIcon | src/resources/js/app.js:52-54 | a tick exactly for "success", a cross exactly for "failed" or "aborted" |
| Dashboard.CompleteIffIcon | src/resources/js/app.js:402-404 | a run counts as complete exactly when it shows an icon |
| Dashboard.HomeView.Status | src/resources/js/app.js:127-131 | the three lists are replaced by the message's |
| Dashboard.HomeView.JobQueued | src/resources/js/app.js:198-201 | the queued record goes in front and the others shift back one |
| Dashboard.HomeView.JobStarted | src/resources/js/app.js:202-207 | the queued record `queueIndex` places from the back leaves, and the started record heads the running list |
| Dashboard.HomeView.JobCompleted | src/resources/js/app.js:215-223 | the first running record with the same name and number moves, as the new record, to the front of the recent list |
| Dashboard.JobsView.Status | src/resources/js/app.js:267-276 | the job list is taken, and the tags of all jobs are collected in first-seen order, each once |
| Dashboard.MergeTags | src/resources/js/app.js:271-273 | one job's tags join the collected list, each unless already present |
| Dashboard.JobsView.JobCompleted | src/resources/js/app.js:277-285 | the first job with that name is replaced by the new record; the others stay |
| Dashboard.JobView.Status | src/resources/js/app.js:305-309 | running and recent lists and the last success and failure are replaced |
| Dashboard.JobView.JobQueued | src/resources/js/app.js:337-339 | the queued count goes up by one |
| Dashboard.JobView.JobStarted | src/resources/js/app.js:340-344 | the queued count goes down by one and the started record heads the running list |
| Dashboard.JobView.JobCompleted | src/resources/js/app.js:345-356 | the first running record with that build number moves, as the new record, to the front of the recent list |
| Dashboard.RunView.LogChunk | src/resources/js/app.js:368-377 | the chunk is appended; the page scrolls only when autoscroll is on and a chunk was received before |
| Dashboard.RunView.Status | src/resources/js/app.js:386-392 | the log is cleared and the run's record and latest number taken; the running list is set only when `etc` is set |
| Dashboard.RunView.JobStarted | src/resources/js/app.js:393-396 | the latest build number goes up by one |
| Dashboard.RunView.JobCompleted | src/resources/js/app.js:397-401 | the run's record is replaced and the running list emptied |
| Dashboard.Socket.OnMessage | src/resources/js/app.js:8-33 | `status` binds the page being navigated to and sets the title; any other message leaves the binding alone, is dropped before a page is bound, and reaches only the bound page if it has a handler for the type; the bound page's state then changes as that page's step for the message type says |
| Dashboard.Socket.Dispatch | src/resources/js/app.js:24 | a message changes only the page it is dispatched to, and that page's state as its step for the message type says |
| Dashboard.StepsFollowHandlers | src/resources/js/app.js:24-28 | each page's step changes its state only for the message types the page has a handler for |
| Protocol.EntryOf | src/laminar.cpp:633-641 | the record the dashboard reads from a `job_*` message has its name, number and queue index (whatever value arrived where the code leaves it undefined), and its result text reads back as the run's result |
| Protocol.MirrorEnqueue | src/laminar.cpp:472-479 | a run appended to the queue, with the home page's `job_queued` step putting its record in front, keeps the dashboard's list the reverse of the queue |
| Protocol.MirrorStart | src/laminar.cpp:636 | a run leaving the queue from its position, announced with that position, has exactly its record spliced out by the home page's `job_started` step, and the lists stay each other's reverse |
| Protocol.HeadStartKeepsMirror | src/laminar.cpp:636 | a run started from the head of the queue, announced with the index the code sends, has exactly its record spliced out, and the lists stay each other's reverse |
| Protocol.LaterStartNeedsItsPosition | src/laminar.cpp:636 | with runs a then b queued and b starting from position 1, the index as written is undefined; the home page takes out b's record exactly for an index of 1 or, as `splice` clamps a start below the front, of 3 or more; 0 (the only value the code defines) and 2 take out a's record, and a negative index takes out nothing |
| Protocol.FinishedRunShowsComplete | src/laminar.cpp:717 | a finished run's `job_completed` record always shows as complete, with a cross exactly when a script failed and a tick otherwise |
| Protocol.CompleteResults | src/resources/js/app.js:402-404 | a `job_completed` record counts as complete exactly for the results ABORTED, FAILED and SUCCESS |

## Left out

- Database: the build history, `lastResult`, the `etc` estimate, timestamps and log compression are not modelled. The constructor takes the last build numbers as a parameter.
- Processes: `fork`, `exec`, pipes, `waitpid`, signals and log capture through `addDescriptor` are not modelled. A process is a `Child(pid, fd)` value the caller supplies, and an exit status is a parameter.
- `reapAdvance`: one call handles one reaped child; the `waitpid` loop around it is the caller's. Its unchecked `find(pid)` becomes the requirement that the pid belongs to an active run. The next script's process may reuse the reaped pid but no other active run's.
- `loadConfiguration`, `populateArtifacts`, `getArtefact`, `registerClient`/`deregisterClient`, `run` and `stop` are not modelled. Nodes and job tags are constructor parameters.
- `sendStatus` is not modelled. It sends the queued list oldest first, unlike the newest-first order the home page keeps afterwards, so the `Protocol` lemmas start from lists that already mirror each other.
- Client scopes (`wantsStatus`, `wantsLog`) and the fan-out to each client are not modelled: `sent` is what every interested client would receive.
- Node order: `nodes` is an unordered map in the source. The model searches a sequence in its index order, which stands for whatever order the map iterates in.
- `buildNums[run->name]` default-inserts 0 for a job never built. `SchedulerRules.BuildNum` reads a missing entry as 0 and inserts nothing before the build number is recorded.
- Strings.Join: a path is its text. Boost's `/` inserts no separator after a directory that already ends with `/`, or before a leaf that starts with one, and the model always inserts one, so `LAMINAR_HOME` is taken to be non-empty and without a trailing `/`, and job names to have no leading `/`. An empty job or node name appends nothing (`Strings.JoinName`), as in Boost. The `operator+` helper is string concatenation onto the last component, which it is unless the name ends with `/`.
- Integer widths: build numbers are `uint` and `int` in C++. The model is unbounded, so wrap-around and `atoi` overflow are not modelled.
- `fs::remove_all` removes a whole subtree. The model removes the one working-directory path.
- Floating point, time, charts, `formatDate`, `ProgressUpdater`, routing hooks, closing a websocket and the page templates in `app.js` are not modelled.
- Dashboard.JobsView.Status: lists every tag in first-seen order, where `Object.keys` lists integer-like keys in numeric order before the other keys.
- `app.js` looks up a handler by message type on the page object. That also reaches the mixins' methods (`runIcon`, `formatDate`); the model routes only the four message types a page defines.
- `firstLog` in `app.js` is a variable shared by every visit to a run page and is never reset. The model follows the code.
- SchedulerRules.Plan: `boost::filesystem::create_directory` returns false only when the directory already exists and throws on any other failure, and `create_directories` throws too. `NoWorkdir` for a working directory that already exists is the code's own path (logged, the run stays queued). The model has no exceptions: `NoWorkdir` for a missing directory that cannot be created, and `NoArchive`, stand for the exception, and the turn ends quietly with the run still queued instead of the exception leaving `assignNewJobs`.
- Scheduler.Laminar.QueueJob: for the same reason, a null result because the workspace cannot be created stands for the exception `create_directories` throws.
- Scheduler.Laminar.QueueJob: the messages after `job_queued` are stated by kind and count only; their names are not tied to the runs that started. The same holds for `Scheduler.Laminar.AssignNewJobs`.

## Findings

The scheduler in this model follows the code as written in both cases: it
sends `SchedulerRules.QueueIndexAsWritten` as the `queueIndex`, and it
queues `SchedulerRules.BeforeScripts`. The corrected behaviour is stated
beside it: `Protocol.MirrorStart` for the index the home page expects, and
`SchedulerRules.IntendedBeforeScripts` with `SchedulerRules.QueuedFilesExist`
for the node's before slot.

| source | as written | input that shows it | evidently intended | confidence | as-written member | corrected member |
|---|---|---|---|---|---|---|
| src/laminar.cpp:636 | `queueIndex` is `std::distance(it, queuedJobs.begin())`, the distance from the run's position back to the head; it is undefined for any run that is not the head | runs a then b queued, and only b can start, so it leaves from position 1; the home page splices out b's record only if it reads 1 or a value of 3 or more; it splices out a's record for 0 or 2, and nothing for a negative value | `std::distance(queuedJobs.begin(), it)`, the run's queue position, which the home page's `length - queueIndex - 1` mirrors | high; not executed | Protocol.LaterStartNeedsItsPosition | Protocol.MirrorStart |
| src/laminar.cpp:589-591 | the per-node before slot tests for `cfg/nodes/<node>.before` but queues `cfg/before` | a node with `cfg/nodes/<node>.before` and no `cfg/before`: the run executes the missing `cfg/before`, the exec fails and the run ends FAILED; with both present `cfg/before` runs twice and the node's script never | queue `cfg/nodes/<node>.before`, as the after slot at lines 601-602 does | high; not executed | SchedulerRules.NodeBeforeAsWrittenQueuesWrongFile | SchedulerRules.QueuedFilesExist |
