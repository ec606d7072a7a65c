# FATE Flow: scheduling, parsing and supporting protocols

FATE Flow runs federated jobs. A job is a directed acyclic graph of tasks; each
task runs at several parties, and one scheduler keeps rows for the job, for
every task version, and for every party of every version. This project models
the scheduler and the pieces it stands on, and proves what they keep.

## What is modelled

- **Status folds** (`Statuses`, `Aggregation`, `Reports`): party statuses into
  a task status, task statuses into a job status, with the status tables of the
  task and job rows, and what reports do to the rows by those tables.
- **Rounds and passes** (`Jobs`, `Rounds`, `Runs`, `Outcomes`, `JobScheduler`): the rows of
  one job; the sync loop; the walk over the waiting tasks with its early exits;
  the job status, finishing and automatic reruns. `JobScheduler` is the object
  whose methods change the rows step by step; the functions of `Rounds`,
  `Reruns` and `Runs` say where each method lands, and the theorems are about
  those functions. Parties are the environment: collected reports, start
  replies and rerun answers are arbitrary inputs, up to the promises below.
- **Reruns** (`Reruns`, `Retries`, `Versions`, `Budgets`, `StaleRows`): which
  rows a rerun picks, the negotiation of a version number, which tasks get a new
  version, where versions come from, the retry budget, and a run in which a
  manual rerun goes wrong.
- **Deadlock, termination, signals** (`Progress`, `Termination`, `Signals`).
- **The DAG parser** (`Graphs`, `Parser`, `DagParser`, `Revisit`, `Layering`):
  party graphs and the global graph built in place, the dependency relation,
  the search for tasks to run again, configuration layers. `Agreement` joins
  parser and scheduler.
- **Resources** (`Federated`, `Resources`), **the schedule lock**
  (`ScheduleLock`), **the thread pool** (`ThreadPool`), **job ids** (`JobIds`),
  **URIs** (`Uris`) and **the typed JSON codec** (`TypedJson`).

The run theorems quantify over every sequence of passes, party reports, manual
reruns, requeues, status writes and cancels. The environment makes two
promises. SUCCESS or PASS is reported only for a version whose start command
was sent. And an offered version number is answered by exactly the parties it
goes to, whatever they say: for a party that cannot be reached the caller
itself enters an error code (python/ofx/api/models/fate_flow/resource.py:221-227).
Everything else, including how often and when parties report, is free.

## Where the code does less than one would expect

Each of these is stated as an exact condition, with a concrete failing input
where the condition can fail.

- A manual rerun filters rows by interrupted status before it looks for the
  newest, so it can pick a stale FAILED row of a task whose newer version is
  SUCCESS. If the parties then refuse the numbers that exist and accept the
  next, the SUCCESS task is re-versioned and its retry budget changes.
  `ManualRerunKeepsSuccessIff` and `ManualRerunKeepsBudgetsIff` give the exact
  conditions; the run theorems ask them of each manual rerun.
  `StaleRowCounterexample` is a run from creation that gets there.
- The schedule lock queries the row, reads the clock and resets the signal in
  separate steps. Holding for at most 60000 ms is therefore not enough;
  `ExclusiveIff` adds the gap between query and clock reading.
- The dependency relation ignores party restrictions of channels, the graphs do
  not. A job whose graphs are acyclic can wait for itself forever
  (`CrossedDeadlocks`): it stays WAITING, or ends CANCELED without a cancel once
  its other tasks have succeeded (`BenignPassResult`). `SucceedsIffAcyclic` is
  about the relation the scheduler really uses.
- An overflow of the id counter borrows the next microsecond; a call that still
  reads the old one repeats an id (`DistinctIff`, `StandingClockIssues`).
- A task's own party list is turned into a dictionary by role, so of several
  entries for one role only the last counts when inputs are resolved. The
  dictionary agrees with the list for every party iff the last entry of each
  role lists all its ids (`LastEntryMeaning`). A party it misses gets no edge
  into the task (`SkippedHasNoEdges`, `TwoEntriesLoseEdge`).
- A command to a job's parties starts the answers of a role anew for each entry
  of that role. So an APPLY can be taken for a success although a party in an
  earlier entry refused it; success means that everybody holds the resource iff
  the last entry of each role lists all its ids, or no success is possible
  (`JobSuccessMeansAllIff`, `UnheardRefusal`).
- A site section with a configuration of its own must name only parties that run
  every task, and a section that configures only some tasks must name only
  parties that run those, or parsing raises (`InitTask`, `UnfitSite`).
- A dictionary with both a "type" and a "data" key does not survive the typed
  JSON codec, nor do attributes that are written under one name
  (`RoundTripIff`, `LookalikesAreLost`, `ClashingAttributes`).

## Model

| member | source | states |
|---|---|---|
| `Aggregation.CalculateMultiPartyTaskStatus` | python/fate_flow/scheduler/scheduler.py:586-602 | the set surgery and level-ordered search equal a fold over the set of party statuses; the exception is raised only on an empty list |
| `Aggregation.CalculateJobStatus` | python/fate_flow/scheduler/scheduler.py:237-260 | the same for the job: the fold depends on the set of task statuses and the round's code only |
| `Aggregation.FirstInterrupt` | python/fate_flow/scheduler/scheduler.py:251-254 | the search finds an interrupt of extreme level exactly when there is one |
| `Aggregation.TaskStatusMeaning` | python/fate_flow/scheduler/scheduler.py:586-602 | a task is SUCCESS iff all its parties are SUCCESS or PASS, shows the lowest-level interrupt present, and is never PASS |
| `Aggregation.TaskFoldCases` | python/fate_flow/scheduler/scheduler.py:586-602 | CANCELED before TIMEOUT before FAILED, and RUNNING iff none of these is there, something is not done and not everything waits |
| `Aggregation.JobStatusMeaning` | python/fate_flow/scheduler/scheduler.py:237-260 | every outcome as an equivalence: SUCCESS iff all tasks are done, RUNNING iff a task runs or one waits beside others in a round that started something, an interrupt iff it is the highest-level one present and neither of these holds, CANCELED also for a round that gave up, the exception iff there are no tasks or a failed start call left only waiting and finished ones |
| `Aggregation.TwoLevelSuccess` | python/fate_flow/scheduler/scheduler.py:237-260 | both folds together: the job is SUCCESS iff every party of every task is SUCCESS or PASS |
| `Federated.ReturnFederatedResponse` | python/fate_flow/controller/federated.py:75-84 | a federated call succeeds iff somebody answered and everybody who answered said SUCCESS |
| `Jobs.SuccessIsFinal` | python/fate_flow/entity/types/_status.py:86-95 | whatever is reported, a task version that is SUCCESS stays SUCCESS: done party rows accept no change |
| `Jobs.NoSuccessUnstarted` | python/fate_flow/scheduler/scheduler.py:547-571 | if SUCCESS and PASS are reported for started versions only, a version that was not started never turns SUCCESS |
| `Reports.RowStays` | python/fate_flow/manager/operation/base_saver.py:143-162 | a party row keeps its status while no report for it is a change of the table, which is written out as pairs |
| `Reports.RowMoves` | python/fate_flow/entity/types/_status.py:86-95 | and takes the status of the first report that is; the later reports find it there |
| `Reports.RunningRowEnds` | python/fate_flow/scheduler/scheduler.py:547-571 | a RUNNING party row ends with the first end status its party reports, whichever of the five; only TIMEOUT may still become FAILED or SUCCESS, and CANCELED wait again |
| `Reports.RunningPartyInterrupts` | python/fate_flow/scheduler/scheduler.py:547-602 | so a version with a RUNNING party that reports CANCELED, TIMEOUT or FAILED, and nothing that undoes it, folds to an interrupt |
| `Reports.StatusRowFollows` | python/fate_flow/scheduler/scheduler.py:433-446 | a sync leaves the fold in the status row if the table has that change, and what was there otherwise |
| `Rounds.ReadyMeaning` | python/fate_flow/scheduler/scheduler.py:469-475 | the dependency loop passes iff every dependency is SUCCESS, and raises iff it meets an unknown name after SUCCESS dependencies only |
| `Rounds.WalkIsReadyPrefix` | python/fate_flow/scheduler/scheduler.py:464-487 | the start commands go to exactly the ready tasks before the first obstacle, in order, with the stopping reason |
| `Rounds.RoundStartsFrontier` | python/fate_flow/scheduler/scheduler.py:422-491 | one round starts only tasks that show WAITING and have all dependencies SUCCESS after the sync, each once; nothing, with NO_NEXT, if the job is cancelled or a task interrupted; all of them otherwise, if it does not raise and their start commands succeed |
| `Outcomes.ListsInOrder` | python/fate_flow/scheduler/scheduler.py:432-461 | waiting tasks and tasks to retry are tried in the order of the job's tasks |
| `Outcomes.RoundShows` | python/fate_flow/scheduler/scheduler.py:476-511 | after a round a started task shows RUNNING, or FAILED if it is the last and its start failed; every other task shows what it showed after the sync |
| `Outcomes.RoundRaisesIff` | python/fate_flow/scheduler/scheduler.py:464-487 | a round raises iff it is neither cancelled nor interrupted and the first obstacle among the waiting tasks is a dependency that names no task |
| `Outcomes.PassMeaning` | python/fate_flow/scheduler/scheduler.py:179-260 | every outcome of a pass as an equivalence over the statuses its round shows, the round's code and the cancel signal, and the job row it leaves by the job table written out as pairs |
| `Outcomes.CancelledWaitingEnds` | python/fate_flow/scheduler/scheduler.py:185-188 | a pass over a cancelled job whose tasks all fold to WAITING reports CANCELED, and a WAITING, RUNNING or FAILED job row shows it |
| `Outcomes.WaitingPassIff` | python/fate_flow/scheduler/scheduler.py:185-188 | a pass reports WAITING iff it does not raise, there are tasks, all fold to WAITING, nothing was started and the cancel signal is down |
| `Reruns.AcceptedByEveryParty` | python/fate_flow/controller/task.py:233-256 | offers answered by exactly the task's parties: a number is adopted iff every party of the task accepted that very number and no smaller offer was accepted by all; none iff none of the three was |
| `Reruns.SelectedBelowMeaning` | python/fate_flow/manager/operation/base_saver.py:234-253 | the row a manual rerun picks is the newest among the interrupted rows, not the newest row |
| `Reruns.PrepareMoves` | python/fate_flow/controller/task.py:271-289 | rerunning a row of a task that is not SUCCESS, or a row three versions old, leaves the head or puts a newer WAITING version, at most 3 ahead |
| `Reruns.ManualRerunKeepsSuccessIff` | python/fate_flow/scheduler/scheduler.py:328-339 | a manual rerun keeps every SUCCESS task's version, whatever the tasks' parties answer, iff no row it gets to is a SUCCESS task's row less than three versions old |
| `Retries.PrepareMeaning` | python/fate_flow/controller/task.py:233-289 | which rows are rerun: all if forced, else none that is SUCCESS and automatically none without retries; a WAITING row needs no version; the first offer that succeeds becomes the one new version, WAITING everywhere, with one retry less if automatic; an exception iff none of the three succeeds |
| `Retries.FailedTasksAreRerun` | python/fate_flow/scheduler/scheduler.py:208-212 | after an uncancelled pass that does not raise and whose offers are accepted at once, every task that fails or times out with retries left has one version more, WAITING with one retry less; all other tasks keep their version; the rerun signal is up iff there was such a task or it was up before |
| `Retries.InterruptedTasksAreRerun` | python/fate_flow/scheduler/scheduler.py:319-340 | a manual rerun accepted at once gives every task whose latest row is interrupted one version more with the same budget, leaves tasks never interrupted alone, raises the rerun signal and withdraws the cancel |
| `JobSchedulers.JobScheduler.constructor` | python/fate_flow/controller/task.py:130-156 | the job's rows after creation: version 0 of every node, WAITING at every party that runs it |
| `JobSchedulers.JobScheduler.CollectTask` | python/fate_flow/scheduler/scheduler.py:547-571 | party answers update the latest version's party rows one by one; a RUNNING row ends with the first end status reported for it |
| `JobSchedulers.JobScheduler.GetFederatedTaskStatus` | python/fate_flow/scheduler/scheduler.py:573-583 | the fold over the latest version's party rows, FAILED without rows |
| `JobSchedulers.JobScheduler.SyncTask` | python/fate_flow/scheduler/scheduler.py:433-446 | collect, fold, and write the fold into the status row if the table allows |
| `JobSchedulers.JobScheduler.SyncTasks` | python/fate_flow/scheduler/scheduler.py:432-461 | the sync loop leaves exactly the synchronised rows, the statuses, the waiting list, the interrupt flag and the retry list |
| `JobSchedulers.JobScheduler.StartTask` | python/fate_flow/scheduler/scheduler.py:494-511 | without resources nothing changes; otherwise the row turns RUNNING and the start is logged |
| `JobSchedulers.JobScheduler.StartWaiting` | python/fate_flow/scheduler/scheduler.py:464-487 | the start loop with its three early exits lands where the walk over the waiting list says |
| `JobSchedulers.JobScheduler.Schedule` | python/fate_flow/scheduler/scheduler.py:422-491 | one round: new rows, statuses, started tasks, code and retry list |
| `JobSchedulers.JobScheduler.CreateNewVersion` | python/fate_flow/controller/task.py:233-268 | the retry loop ends after at most three offers and inserts the adopted version's rows once, or raises and changes nothing |
| `JobSchedulers.JobScheduler.PrepareRerunTask` | python/fate_flow/controller/task.py:271-289 | which rows are rerun and with what budget |
| `JobSchedulers.JobScheduler.QueryInterrupted` | python/fate_flow/manager/operation/base_saver.py:234-253 | the filtered query of a manual rerun for one task name |
| `JobSchedulers.JobScheduler.RerunJob` | python/fate_flow/scheduler/scheduler.py:319-340 | all rows in order, then both signals; an exception leaves the signals alone |
| `JobSchedulers.JobScheduler.SettleJob` | python/fate_flow/scheduler/scheduler.py:203-213 | the job row takes the status its table allows; ending CANCELED raises the cancel signal |
| `JobSchedulers.JobScheduler.ScheduleRunningJob` | python/fate_flow/scheduler/scheduler.py:179-216 | a whole pass: round, job status, finish, automatic reruns |
| `JobSchedulers.JobScheduler.ScheduleRerunJob` | python/fate_flow/scheduler/scheduler.py:218-234 | a finished job goes back to WAITING and keeps the rerun signal until all agreed; any other drops it and is then given a pass |
| `Runs.PassKeepsInv` | python/fate_flow/scheduler/scheduler.py:179-216 | a pass keeps: SUCCESS tasks were started, started tasks have only SUCCESS dependencies; and starts only such tasks |
| `Runs.SafeRerunKeepsInv` | python/fate_flow/scheduler/scheduler.py:319-340 | safe reruns never re-version a SUCCESS task, move versions up by at most 3 and keep the invariant |
| `Runs.StepKeepsInv` | python/fate_flow/scheduler/scheduler.py:422-511 | every step, of whatever kind, keeps the invariant; a manual rerun under the exact condition above |
| `Runs.RunSafety` | python/fate_flow/scheduler/scheduler.py:422-511 | over every run of passes, reports, cancels and reruns in any order, with manual reruns meeting the exact condition above: SUCCESS tasks are closed under dependencies, and each start goes to the latest version of a task whose dependencies are all SUCCESS |
| `Versions.AdoptedByEveryParty` | python/fate_flow/controller/task.py:233-268 | over every run, calm or not: each version a step adds is one to three above an existing one, and its number was the first offer of that step that every party of the task accepted |
| `Versions.RunRowsMatch` | python/fate_flow/controller/task.py:252-260 | in every state of every run each version has rows at exactly the task's parties, so those are the parties the next offer goes to |
| `Budgets.PrepareBudget` | python/fate_flow/controller/task.py:237-268 | one rerun moves the budget and the count of automatic versions together |
| `Budgets.ManualRerunKeepsBudgetsIff` | python/fate_flow/scheduler/scheduler.py:328-339 | a manual rerun keeps every retry budget, whatever the tasks' parties answer, iff each row it gets to carries its task's current budget or is three versions old |
| `Budgets.BudgetConserved` | python/fate_flow/controller/task.py:233-289 | over every run whose manual reruns meet that condition: retries left at the latest version plus versions made by automatic reruns equal the initial retries |
| `StaleRows.StaleRowCounterexample` | python/fate_flow/scheduler/scheduler.py:328-335 | a run of two tasks with one retry, every step of it allowed and every state up to the last safe: the first task fails once, is rerun, all succeed; a manual rerun then leaves a SUCCESS task on one that is not, and a retry too many |
| `Progress.WalkMeets` | python/fate_flow/scheduler/scheduler.py:464-487 | a round finds something to start iff the frontier is not empty, and stops early only at a frontier task |
| `Progress.RoundOutcome` | python/fate_flow/scheduler/scheduler.py:462-491 | with known dependencies, no cancel and no interrupt: no exception, and NO_NEXT iff the frontier is empty |
| `Progress.DeadlockIff` | python/fate_flow/scheduler/scheduler.py:462-491 | a round that finds only WAITING and SUCCESS tasks gives up iff the waiting tasks wait for each other; never in an acyclic job |
| `Progress.PassNeverRaises` | python/fate_flow/scheduler/scheduler.py:237-260 | neither exception of the folds is reachable on what a round produces |
| `Progress.NoFalseCancel` | python/fate_flow/scheduler/scheduler.py:237-260 | in an acyclic job a pass yields CANCELED only if the job was cancelled or a task shows CANCELED |
| `Progress.RankedIsAcyclic` | python/fate_flow/controller/parser.py:748-767 | a numbering that falls along dependencies rules out stuck sets |
| `Progress.AcyclicIff` | python/fate_flow/controller/parser.py:748-767 | there is no stuck set iff every dependency names a task and no task depends on itself along a path |
| `Progress.InterruptedBlocks` | python/fate_flow/scheduler/scheduler.py:469-475 | an interrupted task has no SUCCESS descendant |
| `Progress.StartedAntichain` | python/fate_flow/scheduler/scheduler.py:464-487 | the tasks one round starts are pairwise independent |
| `Termination.BenignPassResult` | python/fate_flow/scheduler/scheduler.py:179-216 | a pass of a cooperating run: exactly the tasks whose dependencies succeeded are started, and the exact job status |
| `Termination.AcyclicSucceeds` | python/fate_flow/scheduler/scheduler.py:179-216 | with N tasks, an acyclic relation and cooperating parties the job is SUCCESS after N + 1 passes |
| `Termination.SucceedsIffAcyclic` | python/fate_flow/scheduler/scheduler.py:179-216 | and only then: SUCCESS after N + 1 passes iff the inferred dependency relation is acyclic and names tasks only |
| `Termination.StuckForever` | python/fate_flow/scheduler/scheduler.py:464-487 | over every calm run of whatever length, no task that waits, however indirectly, for a cycle or an unknown name is ever started or SUCCESS |
| `Termination.BenignRunExists` | python/fate_flow/scheduler/scheduler.py:179-216 | cooperating runs of every length exist, so the results on them are not vacuous |
| `Termination.BenignIsRun` | python/fate_flow/scheduler/scheduler.py:179-216 | a cooperating run is a calm run in the sense of the run theorems |
| `Signals.RunRowMoves` | python/fate_flow/scheduler/scheduler.py:179-234 | over every run, step by step: the exact job status that follows, never FAILED or TIMEOUT while a rerun is asked for; what raises and lowers the two signals |
| `Signals.ReportLands` | python/fate_flow/manager/operation/base_saver.py:143-162 | a report that arrives between passes changes the one party row it is for, by the table, and nothing else in the job |
| `Signals.RunningKeepsOpen` | python/fate_flow/scheduler/scheduler.py:203-246 | a pass that still sees a RUNNING task reports RUNNING; a waiting job's row turns RUNNING and any other row stays |
| `Signals.CancelledStartsNothing` | python/fate_flow/scheduler/scheduler.py:422-461 | over every run: once the cancel signal is up it stays up and nothing is started until somebody asks for a rerun |
| `Graphs.RestrictedTopological` | python/fate_flow/controller/parser.py:692-694 | a topological order of the whole graph restricted to a part is one of the part |
| `Parser.PlacesMembers` | python/fate_flow/utils/job_utils.py:200-205 | the party test holds iff the party is among the listed (role, party) pairs |
| `Parser.LastEntryMeaning` | python/fate_flow/controller/parser.py:438-441 | the dictionary test through role keys implies the plain one; they agree for every party iff the last entry of each role lists every id of that role |
| `Parser.SkippedHasNoEdges` | python/fate_flow/controller/parser.py:435-441 | a party the dictionary misses has no edge into the task in its graph |
| `Parser.TwoEntriesLoseEdge` | python/fate_flow/controller/parser.py:435-441 | a specification whose edge is there with both guests in one entry and lost with an entry for each |
| `Parser.GraphsAgree` | python/fate_flow/controller/parser.py:576-581 | global edges are the union of the party edges and all are inferred dependencies; party graphs sit inside the global graph |
| `Parser.PartyGraphIs` | python/fate_flow/controller/parser.py:507-535 | without phantom producers a party's graph has exactly the tasks it runs and an edge iff some channel feeds it, in whatever order inputs are written |
| `Parser.PartyGraphMeaning` | python/fate_flow/controller/parser.py:385-541 | the same on the specification itself: nodes by the task's own list or else the job's; an edge into a task iff it runs there, the last entry of the party's role in its own list (if it has one) lists the party, and a channel of the task names the producer and counts at the party |
| `Parser.PlacesKnownIff` | python/fate_flow/controller/parser.py:385-408 | every party a task goes to has a graph iff each party in a task's own list is in the job's list |
| `Parser.PartyOrder` | python/fate_flow/controller/parser.py:686-694 | the global order restricted to a party's nodes is a topological order of its graph |
| `Parser.CreatedExactlyOnce` | python/fate_flow/controller/task.py:43-55 | a task with a party list of its own is created at exactly the parties of that list, one without at exactly the job's parties, each once |
| `Parser.CreatedInOrder` | python/fate_flow/controller/task.py:43-55 | and after every task its party's graph puts before it |
| `DagParsers.DagParser.ParseDag` | python/fate_flow/controller/parser.py:370-420 | the graph phases succeed iff each party in a task's own list is in the job's list, and leave the graphs Parsed describes |
| `DagParsers.DagParser.AddTasks` | python/fate_flow/controller/parser.py:385-408 | the node phase: each party's graph gets the tasks it runs |
| `DagParsers.DagParser.GetUpstreamInputs` | python/fate_flow/controller/parser.py:435-541 | the edges one task at one party adds, against the graph as it is at that moment |
| `DagParsers.DagParser.FilterChannels` | python/fate_flow/controller/parser.py:507-519 | which channels count for a party |
| `DagParsers.DagParser.AddEdges` | python/fate_flow/controller/parser.py:533-535 | every counted producer becomes an edge of the party graph and of the global graph |
| `DagParsers.DagParser.InferDependentTasks` | python/fate_flow/controller/parser.py:748-767 | all producers named by task-output channels, in order |
| `Parser.PlanMeaning` | python/fate_flow/controller/parser.py:748-767 | the plan handed to the scheduler: a task depends on exactly the producers of its channels and has rows at exactly the parties it runs at |
| `DagParsers.DagParser.CreateTasks` | python/fate_flow/controller/task.py:43-55 | the creation loop makes, in the given order, exactly the tasks whose own list, or else the job's, has the party |
| `DagParsers.DagParser.CheckPartyIn` | python/fate_flow/utils/job_utils.py:200-205 | the loop finds the party iff an entry of its role lists it |
| `DagParsers.DagParser.NeedRevisitTasks` | python/fate_flow/controller/parser.py:644-681 | the search for one party; it answers iff the party has a graph, the graph sorts, and every visited task failed or is in it |
| `Revisit.SearchAncestors` | python/fate_flow/controller/parser.py:662-676 | the stack search terminates and is valid iff no ancestor is invalid |
| `Revisit.GetNeedRevisitTasks` | python/fate_flow/controller/parser.py:644-681 | returns exactly the visited tasks that are invalid or have an invalid ancestor; raises iff the graph is cyclic or a visited task that did not fail is unknown |
| `Revisit.RevisitInOrder` | python/fate_flow/controller/parser.py:644-681 | the tasks to run again come in the order they were visited, each once |
| `Revisit.RevisitEquation` | python/fate_flow/controller/parser.py:644-681 | a visited task is returned iff it failed or has a predecessor that was not visited or is returned |
| `Revisit.KeptIsClosed` | python/fate_flow/controller/parser.py:644-681 | the visited tasks it keeps are not failed and closed under predecessors |
| `Revisit.RevisitIsStable` | python/fate_flow/controller/parser.py:644-681 | asking again about the kept tasks returns nothing |
| `Agreement.NothingToRevisit` | python/fate_flow/scheduler/scheduler.py:328-336 | in a safe state the search, given the SUCCESS tasks as visited and interrupted tasks as failed, returns nothing and does not raise |
| `Agreement.RerunLosesNothing` | python/fate_flow/scheduler/scheduler.py:328-336 | so in every state of every calm run leaving that search out of rerun_job changes nothing |
| `Agreement.SortedJobIsAcyclic` | python/fate_flow/controller/parser.py:748-767 | if every channel makes an edge somewhere, the global order proves the dependency relation acyclic |
| `Agreement.EveryChannelUsedIff` | python/fate_flow/controller/parser.py:507-535 | without phantom producers, every channel makes an edge iff each inferred dependency is wanted at some party of the job, which the specification shows |
| `Agreement.SortedJobRuns` | python/fate_flow/controller/task.py:130-156 | a sorted specification whose tasks all have parties gives a plan with cooperating runs of every length |
| `Agreement.SortedJobSucceeds` | python/fate_flow/scheduler/scheduler.py:179-216 | from the specification to the end: sorted, with every channel used, N tasks are SUCCESS after N + 1 passes of every cooperating run |
| `Agreement.CrossedDeadlocks` | python/fate_flow/controller/parser.py:748-767 | a specification that parses into edgeless, sortable graphs and whose two tasks wait for each other forever |
| `Layering.UpdateConf` | python/fate_flow/controller/parser.py:600-604 | on shared or unshared dictionaries: one changes iff a listed party holds it, whoever else holds it too; raises iff a listed party has no node |
| `Layering.IsolatedIff` | python/fate_flow/controller/parser.py:591-604 | an update reaches the listed parties and no others, whichever are listed, iff no two nodes hold the same dictionary |
| `Layering.SharedUpdateLeaks` | python/fate_flow/controller/parser.py:591-604 | with a shared dictionary, what is written for one party shows at the other |
| `Layering.InitTask` | python/fate_flow/controller/parser.py:583-622 | every dictionary of every node is a fresh object held once, with the overlay of job, task and the party's sites; the job's and task's own dictionaries are unchanged; succeeds iff every writing site names only parties that run the task |
| `Layering.InitTasks` | python/fate_flow/controller/parser.py:409-417 | over all tasks: no dictionary is held twice across parties or tasks, and each task starts from the same job configuration |
| `Layering.UnfitSite` | python/fate_flow/controller/parser.py:597-604 | a section that names a party without the task is the failing case |
| `Layering.OverlayIsLast` | python/fate_flow/controller/parser.py:410-417 | key by key the last layer that defines a key decides |
| `Layering.LastDefinitionWins` | python/fate_flow/controller/parser.py:583-622 | the layers of a party's configuration start with the job's and the task's; a key is there iff some layer has it, with the value of the last that has |
| `Layering.ConfFromSite` | python/fate_flow/controller/parser.py:598-615 | a key takes its value from the last site section that names the party and defines it, there from the task's part before the site's own |
| `Layering.ConfFromBase` | python/fate_flow/controller/parser.py:409-417 | a key no such section defines takes the task's value, or else the job's |
| `Layering.ParameterFromSite` | python/fate_flow/controller/parser.py:617-622 | a runtime parameter takes its value from the last site section that names the party and sets it for the task |
| `Layering.ParameterFromTask` | python/fate_flow/controller/parser.py:587-596 | or else the task's own |
| `Resources.SortAnswers` | python/fate_flow/scheduler/scheduler.py:136-144 | the rollback list holds exactly the parties that answered SUCCESS, each once |
| `Resources.FilteredExactly` | python/fate_flow/controller/federated.py:24-39 | the role filter addresses each listed party that has a row exactly once |
| `Resources.TaskAllOrNothing` | python/fate_flow/scheduler/scheduler.py:514-544 | a task's apply succeeds iff every row's party replies, has room, and does not hold the resource already if it needs it, and then all that need something hold it; nobody loses what it held; after a failure nobody holds more iff each party that took it was heard and gave it back |
| `Resources.JobAllOrNothing` | python/fate_flow/scheduler/scheduler.py:120-163 | the same for a job: nobody loses, success means all in the last entries of their roles hold it, failure leaves nothing iff each party that took it was listed once, heard and gave it back |
| `Resources.JobSuccessMeansAllIff` | python/ofx/api/models/fate_flow/resource.py:233-258 | success means every party of the job holds the resource, in every situation, iff the last entry of each role lists all its ids or no success is possible |
| `Resources.LimitIff` | python/fate_flow/scheduler/scheduler.py:129-163 | some answer says the limit is exceeded iff a party in the last entry of its role replied and is over its limit |
| `Resources.UnheardRefusal` | python/ofx/api/models/fate_flow/resource.py:233-258 | two guests in two entries: the first refuses, is not heard, and the apply counts as a success |
| `Resources.ResourceScheduler.JobCommandApply` | python/ofx/api/models/fate_flow/resource.py:233-258 | the loops over entries and parties, each entry clearing its role, leave who took it and the answers that remain |
| `Resources.ResourceScheduler.TaskCommandApply` | python/ofx/api/models/fate_flow/resource.py:260-286 | the loop over party rows keeps all answers |
| `Resources.ResourceScheduler.RollbackJobResource` | python/fate_flow/scheduler/scheduler.py:129-163 | one RETURN to exactly those that answered SUCCESS, none if there are none; who holds the resource then; when the job is stopped for exceeding a limit |
| `Resources.ResourceScheduler.ApplyJobResource` | python/fate_flow/scheduler/scheduler.py:120-163 | apply, classification and rollback: who holds the resource afterwards, with the all-or-nothing statements above as its contract; the job is to be stopped iff the apply failed and a party heard in the last entry of its role is over its limit |
| `Resources.ResourceScheduler.ApplyTaskResource` | python/fate_flow/scheduler/scheduler.py:514-544 | the same for a task, with the rollback sent through the role filter, and the failure on a task without rows |
| `Resources.ResourceScheduler.GetTasksByTaskId` | python/fate_flow/controller/federated.py:24-39 | the nested filter loops compute the filtered rows |
| `ScheduleLock.JobRow.ScheduleSignal` | python/fate_flow/utils/schedule_utils.py:41-53 | compare-and-set with the timeout reset of a failed set |
| `ScheduleLock.JobRow.ScheduleTimeoutSignal` | python/fate_flow/utils/schedule_utils.py:56-62 | a signal older than 60000 ms is taken down |
| `ScheduleLock.JobRow.ScheduleLocked` | python/fate_flow/utils/wraps_utils.py:127-150 | with lock the body runs iff the signal was down and every exit leaves it down; without lock the row is not touched |
| `ScheduleLock.StampIsReading` | python/fate_flow/utils/schedule_utils.py:41-62 | in every run the stamp of a signal that is up, and the time a hold counts from, are clock readings a scheduler took earlier |
| `ScheduleLock.StepKeepsInv` | python/fate_flow/utils/schedule_utils.py:41-62 | under the bound, the signal is up exactly while one scheduler is inside, and nobody judges the row stale |
| `ScheduleLock.ExclusiveIff` | python/fate_flow/utils/schedule_utils.py:41-62 | over all interleavings of any number of schedulers at most one is inside iff longest hold plus longest gap between row query and clock reading is at most 60000 ms |
| `ThreadPool.StepKeepsPartition` | python/fate_flow/utils/xthread.py:71-107 | every accepted item is in exactly one place: queued, taken, running, finished or cancelled, and its run count fits |
| `ThreadPool.StepKeepsProtocol` | python/fate_flow/utils/xthread.py:140-180 | thread bound, items before sentinels, sentinels conserved between queue and stopping workers |
| `ThreadPool.QueueShape` | python/fate_flow/utils/xthread.py:140-180 | in every reachable state: no sentinel before shutdown, afterwards always one queued or about to be posted again |
| `ThreadPool.RunKeepsOrder` | python/fate_flow/utils/xthread.py:140-171 | in every reachable state the items queue in the order they were submitted, behind all items already taken, and there are as many threads as submissions up to the maximum |
| `ThreadPool.TakenInOrder` | python/fate_flow/utils/xthread.py:85-94 | over every run: of two items the workers take, the one submitted first is taken first |
| `ThreadPool.NothingLost` | python/fate_flow/utils/xthread.py:71-107 | when all workers have returned, each accepted item was run exactly once, or had been cancelled and was never run |
| `ThreadPool.NotRunIff` | python/fate_flow/utils/xthread.py:71-83 | once all workers have returned, an item was not run iff it was cancelled before a worker started it |
| `ThreadPool.NoHang` | python/fate_flow/utils/xthread.py:85-107 | after shutdown some worker can move while any is alive |
| `ThreadPool.AtMostWorkSteps` | python/fate_flow/utils/xthread.py:85-107 | after shutdown the workers take at most a computable number of steps |
| `ThreadPool.ThreadPoolExecutor.SubmitItem` | python/fate_flow/utils/xthread.py:140-151 | submit leaves the state the step of the run theorems leaves, and answers the item's number, or none after shutdown |
| `ThreadPool.ThreadPoolExecutor.ShutDown` | python/fate_flow/utils/xthread.py:174-177 | shutdown without waiting |
| `ThreadPool.ThreadPoolExecutor.Get` | python/fate_flow/utils/xthread.py:89-91 | a worker takes the head of the queue; the first sentinel tells it to stop |
| `ThreadPool.ThreadPoolExecutor.RunItem` | python/fate_flow/utils/xthread.py:71-83 | a cancelled item is skipped, any other run once |
| `ThreadPool.ThreadPoolExecutor.PostAgain` | python/fate_flow/utils/xthread.py:101-103 | a stopping worker posts the sentinel again |
| `ThreadPool.ThreadPoolExecutor.WorkerTurn` | python/fate_flow/utils/xthread.py:85-103 | one turn of a worker's loop ends its thread iff it met a sentinel, which is then back in the queue with no item touched |
| `JobIds.JobIdGenerator.NextId` | python/fate_flow/utils/job_utils.py:42-56 | the counter, the borrowed microsecond on overflow, and the text |
| `JobIds.TextInjective` | python/fate_flow/utils/job_utils.py:56-56 | different stamp and counter give different ids |
| `JobIds.TextFits` | python/fate_flow/utils/job_utils.py:56-56 | an id has at most 25 characters, the width of its column |
| `JobIds.StampReads` | python/fate_flow/utils/job_utils.py:56-56 | the digits of a stamp are year, month, day, hour, minute, second and microsecond, in this order |
| `JobIds.StampOrderIff` | python/fate_flow/utils/job_utils.py:56-56 | stamps compare as texts exactly as their times do |
| `JobIds.TextReads` | python/fate_flow/utils/job_utils.py:56-56 | an id is its stamp and then the counter's digits |
| `JobIds.MarksIncrease` | python/fate_flow/utils/job_utils.py:42-56 | stamp and counter strictly increase while no call finds the clock behind the generator |
| `JobIds.DistinctIff` | python/fate_flow/utils/job_utils.py:42-56 | with readings that never go back, ids are pairwise distinct iff no call finds the clock behind the generator |
| `JobIds.EnoughPerMicrosecond` | python/fate_flow/utils/job_utils.py:42-56 | at most 100000 calls per clock reading suffice |
| `JobIds.StandingClockRepeats` | python/fate_flow/utils/job_utils.py:42-56 | a clock that stands still for 100002 calls gets an id twice: counters 0 to 99999, then 0 in the next microsecond, then 0 again in this one |
| `JobIds.StandingClockIssues` | python/fate_flow/utils/job_utils.py:42-56 | on every reading but the very last such a run of calls exists, its ids issued and one of them repeated |
| `Uris.MatchesIff` | python/fate_flow/utils/io_utils.py:29-46 | the expression matches iff no newline follows the first number sign |
| `Uris.SplitComposes` | python/fate_flow/utils/io_utils.py:29-46 | recomposing the parts by section 5.3 of RFC 3986 gives the text back, and the parts are canonical |
| `Uris.ComposeSplits` | python/fate_flow/utils/io_utils.py:29-46 | canonical parts survive printing and splitting |
| `Uris.FileRoundTripIff` | python/fate_flow/utils/io_utils.py:74-90 | printing and reading a file URI is the identity iff the path is empty or starts with a slash and has neither ? nor # |
| `Uris.HdfsRoundTripIff` | python/fate_flow/utils/io_utils.py:170-189 | the same for HDFS, with an empty authority counted as none |
| `Uris.CreateFilePrints` | python/fate_flow/utils/io_utils.py:74-189 | a created file prints as its directory, a slash and its name; the HDFS authority stays |
| `Uris.CreateFileKeepsPlain` | python/fate_flow/utils/io_utils.py:74-90 | a file created below a readable path is readable if its name has neither ? nor # |
| `Uris.EggrollRoundTripIff` | python/fate_flow/utils/io_utils.py:113-136 | the identity iff neither part has a slash, ? or # and the name has at most 128 characters |
| `Uris.EggrollReads` | python/fate_flow/utils/io_utils.py:121-127 | of the parts of a path the second is the namespace and the rest, joined by underscores, the name, or its digest if longer than 128 characters |
| `Uris.EggrollNeedsTwo` | python/fate_flow/utils/io_utils.py:121-123 | reading fails iff the path has no slash |
| `Uris.NamesStayShort` | python/fate_flow/utils/io_utils.py:113-136 | names read or created have at most 128 characters; a created name is the old one, an underscore and the new one, or its digest if that is too long; the namespace stays |
| `TypedJson.ToDictWithType` | python/fate_flow/utils/base_utils.py:30-51 | the recursive walk with its loops computes the encoding |
| `TypedJson.TypeNames` | python/fate_flow/utils/base_utils.py:30-51 | every encoded value is a dictionary of type, data and module in this order, with the name of its type |
| `TypedJson.RoundTripIff` | python/fate_flow/utils/base_utils.py:30-51 | decoding undoes encoding, up to tuples and leading underscores, iff no dictionary and no attribute set inside holds both "type" and "data" and written attribute names do not clash |
| `TypedJson.LookalikesAreLost` | python/fate_flow/utils/object_utils.py:19-26 | a dictionary with "type", "data" and a null "module" comes back as its data; without "module" decoding raises |
| `TypedJson.ClashingAttributes` | python/fate_flow/utils/base_utils.py:38-47 | of two attributes written under one name only the later one comes back |
| `TypedJson.HookShape` | python/fate_flow/utils/object_utils.py:19-26 | a dictionary is left alone unless it looks typed, and then loses at least a level |

## Left out

- Reports that arrive in the middle of a round from parties that push: reports come between steps, or are collected by the round's own polling.
- Signals that change during a pass: a pass reads the cancel and rerun signals as of its start.
- The job's progress number and the timing fields of the rows.
- Several status rows of equal version number: rows are keyed by version, as their primary keys say.
- Job inheritance: it sets SUCCESS without starting anything and checks no closure.
- At-most-once start across rounds: whether a version is started twice depends on when parties report, which this code does not decide.
- Crashed lock holders: a holder that never releases has no time bound, so the lock theorem says nothing about it.
- HTTP and gRPC clients, Flask applications, hooks, logging, YAML, files, subprocesses and process killing.
- Database and ORM layers, beyond rows as maps, conditional updates as atomic steps and inserts that keep existing rows.
- The resource manager's own arithmetic at a party: whether enough is left there, whether the total is exceeded and whether a RETURN gets through are arbitrary per party, and stay so during one apply.
- Nested values inside configuration dictionaries: values are opaque strings, so lists that an update shares between parties are not seen.
- Input specifications kept per task node (stage, component, upstream inputs, warehouse channels): only what they do to the graphs is modelled.
- Output definitions: the code resets the dictionary when it tests the output key, so no completeness is claimed.
- Aliasing between the graph objects of different parties: the parser's graphs are values in a map that its methods reassign; the configuration dictionaries are objects and proved unshared.
- The topological sort itself: it is the library's, and appears as any order, or failure, that its contract allows.
- JSON text, dates, enumerations and sets in the encoder, and the import of the class named in an encoded object: a class called with its keywords gives an object with those attributes.
- HTTP and local file-system URIs (they print only the path) and standalone URIs with their data-home split; md5 is an arbitrary function.
- Interpreter exit and collected executors in the thread pool: the sentinel a worker meets comes from shutdown; the wait of shutdown is the join of threads shown to end.
- Years below 1000 in job id stamps.
- Federation and computing configuration, engine tables, permissions, cron and backoff: arithmetic and wrappers that would add easy members only.
- ThreadPool.NoHang: says that a step is possible, not that the operating system schedules it.
