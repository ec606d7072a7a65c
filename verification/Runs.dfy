// Whole runs of one job: rounds, party reports, cancels and reruns in any
// order, starting from the rows create_schedule_tasks leaves.
module Runs {
  import opened Common
  import opened Statuses
  import opened Aggregation
  import opened Jobs
  import opened Rounds
  import opened Reruns

  /** status is None when the pass over the job raised. */
  datatype PassResult = PassResult(job: Job, status: Option<Status>)

  function PersistedStatus(job: Job, status: Status): Status {
    if JobCanChange(job.status, status) && (AutoRerun(status) ==> !job.rerun)
    then status else job.status
  }

  /** The job row after the round: new status, and the cancel signal that finishing as CANCELED sets. */
  function Settled(job: Job, status: Status): Job {
    job.(status := PersistedStatus(job, status), cancel := job.cancel || status == Canceled)
  }

  /** Tasks are put on the retry list only by a round that is not cancelled and starts nothing. */
  lemma RetryListed(plan: Plan, synced: Job, answers: Answers)
    requires ValidJob(plan, synced)
    ensures var r := FromSynced(plan, synced, answers);
      && Distinct(r.retry)
      && (forall t :: t in r.retry ==> t in plan.deps && WillRetry(synced, Shown(synced), t))
      && (r.retry != [] ==> r.sent == [] && r.job == synced && r.shown == Shown(synced) && !synced.cancel)
  {
    var shown := Shown(synced);
    var retry := RetryList(plan.names, synced, shown);
    RetryListMembers(plan.names, synced, shown);
    if retry != [] {
      assert retry[0] in retry;
      assert Interrupt(shown[retry[0]]);
    }
  }

  ghost predicate GoodRound(plan: Plan, r: RoundResult) {
    ValidJob(plan, r.job) && forall t :: t in r.retry ==> t in r.shown && t in r.job.tasks
  }

  lemma RoundIsGood(plan: Plan, job: Job, inbox: Inbox, answers: Answers)
    requires ValidJob(plan, job)
    ensures GoodRound(plan, Round(plan, job, inbox, answers))
  {
    SyncedJobValid(plan, job, inbox);
    RoundValid(plan, job, inbox, answers);
    RetryListed(plan, SyncedJob(job, inbox), answers);
  }

  /** The job status a round leads to; None where the source raises. */
  function PassStatus(r: RoundResult): Option<Status> {
    if r.outcome.None? then None
    else
      var folded := JobStatusOf(r.outcome.value, r.shown.Values);
      if folded == Some(Waiting) && r.job.cancel then Some(Canceled) else folded
  }

  /** What schedule_running_job does after the round: the job status, finishing, the automatic reruns. */
  function AfterRound(plan: Plan, r: RoundResult, attempts: Attempts): PassResult
    requires GoodRound(plan, r)
  {
    var status := PassStatus(r);
    if status.None? then PassResult(r.job, None)
    else
      var settled := Settled(r.job, status.value);
      if r.retry == [] then PassResult(settled, status)
      else PassResult(Rerun(plan, settled, AutoRows(settled, r.shown, r.retry), true, attempts).job, status)
  }

  /** schedule_running_job. */
  function RunPass(plan: Plan, job: Job, inbox: Inbox, answers: Answers, attempts: Attempts): PassResult
    requires ValidJob(plan, job)
  {
    RoundIsGood(plan, job, inbox, answers);
    AfterRound(plan, Round(plan, job, inbox, answers), attempts)
  }

  datatype Step =
    | PassStep(inbox: Inbox, answers: Answers, attempts: Attempts)
    | ReportStep(task: Task, version: nat, report: Report)
    | ManualRerunStep(rows: seq<Row>, retries: Attempts)
    | RequeueStep(consent: bool)
    | StatusStep(status: Status)
    | CancelStep

  /** What the environment may do in a state: SUCCESS and PASS are reported for started versions only, and an offered
      version number is answered by the parties it was offered to. */
  ghost predicate Allowed(plan: Plan, job: Job, step: Step)
    requires ValidJob(plan, job)
  {
    match step
    case PassStep(inbox, _, attempts) => HonestInbox(job, inbox) && HeardAll(plan, attempts)
    case ReportStep(t, v, r) =>
      t in job.tasks && v < |job.tasks[t]| && job.tasks[t][v].Some? && Honest([r], (t, v) in job.started)
    case ManualRerunStep(rows, attempts) => ManualRows(job, rows) && HeardAll(plan, attempts)
    case _ => true
  }

  ghost predicate HonestInbox(job: Job, inbox: Inbox)
    requires ValidRows(job.tasks)
  {
    forall t :: t in job.tasks ==> Honest(Lookup(inbox, t, []), IsStarted(job, t))
  }

  ghost function Apply(plan: Plan, job: Job, step: Step): Job
    requires ValidJob(plan, job) && Allowed(plan, job, step)
  {
    match step
    case PassStep(inbox, answers, attempts) => RunPass(plan, job, inbox, answers, attempts).job
    case ReportStep(t, v, r) => job.(tasks := job.tasks[t := job.tasks[t][v := Some(Reported(job.tasks[t][v].value, r))]])
    case ManualRerunStep(rows, attempts) => Rerun(plan, job, rows, false, attempts).job
    case RequeueStep(consent) => Requeued(job, consent)
    case StatusStep(s) => job.(status := PersistedStatus(job, s))
    case CancelStep => job.(cancel := true)
  }

  /** schedule_rerun_job: a finished job goes back to WAITING and keeps the rerun signal until every
      party agreed; any other job drops the signal (and is then given a pass). */
  function Requeued(job: Job, consent: bool): Job {
    if End(job.status)
    then job.(rerun := job.rerun && !consent, status := PersistedStatus(job, Waiting))
    else job.(rerun := false)
  }

  ghost predicate IsRun(plan: Plan, retries: int, js: seq<Job>, steps: seq<Step>) {
    && ValidPlan(plan)
    && |js| == |steps| + 1
    && js[0] == InitialJob(plan, retries)
    && forall i :: 0 <= i < |steps| ==> Follows(plan, js[i], steps[i], js[i + 1])
  }

  ghost predicate Follows(plan: Plan, j: Job, step: Step, j': Job) {
    ValidJob(plan, j) && Allowed(plan, j, step) && j' == Apply(plan, j, step)
  }

  // ------------------------------------------------------------------
  // What every state keeps
  // ------------------------------------------------------------------

  /** The SUCCESS tasks are closed under dependencies. */
  ghost predicate Closed(plan: Plan, job: Job)
    requires ValidJob(plan, job)
  {
    forall t, d :: t in job.tasks && d in plan.deps[t] && Current(job.tasks[t]) == Success
      ==> d in job.tasks && Current(job.tasks[d]) == Success
  }

  ghost predicate DepsSuccess(plan: Plan, job: Job, t: Task)
    requires ValidJob(plan, job) && t in job.tasks
  {
    forall d :: d in plan.deps[t] ==> d in job.tasks && Current(job.tasks[d]) == Success
  }

  ghost predicate Inv(plan: Plan, job: Job) {
    && ValidJob(plan, job)
    && (forall t :: t in job.tasks && Current(job.tasks[t]) == Success ==> IsStarted(job, t))
    && (forall t :: t in job.tasks && IsStarted(job, t) ==> DepsSuccess(plan, job, t))
    && (forall t, v :: (t, v) in job.started ==> t in job.tasks && v <= Latest(job.tasks[t]))
  }

  lemma InvClosed(plan: Plan, job: Job)
    requires Inv(plan, job)
    ensures Closed(plan, job)
  {
    forall t, d | t in job.tasks && d in plan.deps[t] && Current(job.tasks[t]) == Success
      ensures d in job.tasks && Current(job.tasks[d]) == Success
    {
      assert DepsSuccess(plan, job, t);
    }
  }

  lemma InitialInv(plan: Plan, retries: int)
    requires ValidPlan(plan)
    ensures Inv(plan, InitialJob(plan, retries))
  {
    var job := InitialJob(plan, retries);
    forall t | t in job.tasks ensures Current(job.tasks[t]) != Success {
      FreshVersionStatus(plan.parties[t], retries, Created);
    }
  }

  /** A task's history between two states of a step that starts nothing. */
  ghost predicate Moved(h: History, h': History, started: bool) {
    && ValidHistory(h) && ValidHistory(h')
    && (Latest(h') == Latest(h) ==>
          && (Current(h) == Success ==> Current(h') == Success)
          && (Current(h') == Success && Current(h) != Success ==> started))
    && (Latest(h') != Latest(h) ==> Latest(h') > Latest(h) && Current(h) != Success && Current(h') != Success)
  }

  lemma MovedKeepsInv(plan: Plan, job: Job, job': Job)
    requires Inv(plan, job)
    requires job'.tasks.Keys == job.tasks.Keys && job'.started == job.started
    requires forall t :: t in job.tasks ==> Moved(job.tasks[t], job'.tasks[t], IsStarted(job, t))
    ensures Inv(plan, job')
    ensures forall t :: t in job.tasks && Current(job.tasks[t]) == Success ==> Current(job'.tasks[t]) == Success
  {
    forall t | t in job'.tasks && Current(job'.tasks[t]) == Success ensures IsStarted(job', t) {
      assert Moved(job.tasks[t], job'.tasks[t], IsStarted(job, t));
    }
    forall t | t in job'.tasks && IsStarted(job', t) ensures DepsSuccess(plan, job', t) {
      assert Moved(job.tasks[t], job'.tasks[t], IsStarted(job, t));
      assert IsStarted(job, t);
      assert DepsSuccess(plan, job, t);
      forall d | d in plan.deps[t] ensures d in job'.tasks && Current(job'.tasks[d]) == Success {
        assert Moved(job.tasks[d], job'.tasks[d], IsStarted(job, d));
      }
    }
    forall t, v | (t, v) in job'.started ensures t in job'.tasks && v <= Latest(job'.tasks[t]) {
      assert Moved(job.tasks[t], job'.tasks[t], IsStarted(job, t));
    }
  }

  lemma SyncKeepsInv(plan: Plan, job: Job, inbox: Inbox)
    requires Inv(plan, job) && HonestInbox(job, inbox)
    ensures Inv(plan, SyncedJob(job, inbox))
    ensures forall t :: t in job.tasks && Current(job.tasks[t]) == Success ==> Current(SyncedJob(job, inbox).tasks[t]) == Success
  {
    var synced := SyncedJob(job, inbox);
    forall t | t in job.tasks
      ensures Moved(job.tasks[t], synced.tasks[t], IsStarted(job, t))
    {
      var h, reports := job.tasks[t], Lookup(inbox, t, []);
      SyncedHead(h, reports);
      if Current(h) == Success {
        SuccessIsFinal(Head(h), reports);
      } else if !IsStarted(job, t) {
        NoSuccessUnstarted(Head(h), reports);
      }
    }
    MovedKeepsInv(plan, job, synced);
  }

  lemma FrontierDeps(plan: Plan, job: Job, sent: set<Task>)
    requires ValidJob(plan, job) && forall t :: t in sent ==> InFrontier(plan, Shown(job), t)
    ensures forall t :: t in sent ==> t in job.tasks && DepsSuccess(plan, job, t)
  {
    forall t | t in sent ensures t in job.tasks && DepsSuccess(plan, job, t) {
      assert InFrontier(plan, Shown(job), t);
    }
  }

  /** Starting frontier tasks breaks nothing and loses no success ... */
  lemma StartKeepsInv(plan: Plan, job: Job, sent: set<Task>)
    requires Inv(plan, job) && forall t :: t in sent ==> InFrontier(plan, Shown(job), t)
    ensures Inv(plan, StartedJob(job, sent))
    ensures forall t :: t in job.tasks ==> Current(StartedJob(job, sent).tasks[t]) == Current(job.tasks[t])
  {
    hide StartedJob, Folded, InFrontier, Shown, DepsSuccess, ValidHistory;
    FrontierDeps(plan, job, sent);
    var j := StartedJob(job, sent);
    StartedJobValid(plan, job, sent);
    StartLog(plan, job, sent);
    forall t | t in job.tasks && IsStarted(j, t) ensures DepsSuccess(plan, j, t) {
      StartedBefore(plan, job, t, sent);
      DepsSuccessGrows(plan, job, j, t);
    }
    forall t | t in job.tasks && Current(j.tasks[t]) == Success ensures IsStarted(j, t) {
      assert IsStarted(job, t);
    }
  }

  /** ... and adds exactly the latest versions of those tasks to the log. */
  lemma StartAdds(plan: Plan, job: Job, sent: set<Task>)
    requires ValidJob(plan, job) && forall t :: t in sent ==> InFrontier(plan, Shown(job), t)
    ensures forall t, v :: (t, v) in StartedJob(job, sent).started - job.started ==>
      t in sent && v == Latest(job.tasks[t]) && DepsSuccess(plan, job, t)
  {
    hide StartedJob, InFrontier, Shown, DepsSuccess, ValidHistory;
    FrontierDeps(plan, job, sent);
    StartLog(plan, job, sent);
  }

  lemma StartedBefore(plan: Plan, job: Job, t: Task, sent: set<Task>)
    requires Inv(plan, job) && t in job.tasks && (IsStarted(job, t) || t in sent)
    requires t in sent ==> DepsSuccess(plan, job, t)
    ensures DepsSuccess(plan, job, t)
  {
  }

  /** The start log after the walk; no fold and no version number has changed. */
  lemma StartLog(plan: Plan, job: Job, sent: set<Task>)
    requires ValidJob(plan, job) && sent <= job.tasks.Keys
    ensures var j := StartedJob(job, sent);
      && (forall t, v :: (t, v) in j.started <==> (t, v) in job.started || (t in sent && v == Latest(job.tasks[t])))
      && j.tasks.Keys == job.tasks.Keys
      && (forall t :: t in job.tasks ==> ValidHistory(j.tasks[t]) && Latest(j.tasks[t]) == Latest(job.tasks[t]))
      && (forall t :: t in job.tasks ==> Current(j.tasks[t]) == Current(job.tasks[t]))
  {
    hide FederatedStatus;
  }

  /** The loop leaves the task of row i as it is. */
  ghost predicate LeftAlone(plan: Plan, job: Job, rows: seq<Row>, auto: bool, attempts: Attempts, i: nat)
    requires i < |rows| && forall r :: r in rows ==> r.task in job.tasks && r.task in plan.parties
  {
    var t, j := rows[i].task, RerunRows(plan, job, rows, auto, attempts).job;
    t in job.tasks && t in j.tasks && j.tasks[t] == job.tasks[t]
  }

  /** Rows the rerun loop may take without harm, or does not get to. */
  ghost predicate SafeRows(plan: Plan, job: Job, rows: seq<Row>, auto: bool, attempts: Attempts)
    requires ValidJob(plan, job) && forall r :: r in rows ==> r.task in job.tasks && r.task in plan.parties
  {
    forall i: nat :: i < |rows| ==>
      rows[i].version <= Latest(job.tasks[rows[i].task])
      && (LosesNoSuccess(job, rows[i]) || LeftAlone(plan, job, rows, auto, attempts, i))
  }

  lemma SafeRowMoves(plan: Plan, job: Job, rows: seq<Row>, auto: bool, attempts: Attempts, i: nat)
    requires ValidJob(plan, job) && DistinctTasks(rows) && i < |rows|
    requires forall r :: r in rows ==> r.task in job.tasks && r.task in plan.parties
    requires SafeRows(plan, job, rows, auto, attempts)
    ensures var t, j := rows[i].task, RerunRows(plan, job, rows, auto, attempts).job;
      && t in job.tasks && t in j.tasks && Moved(job.tasks[t], j.tasks[t], IsStarted(job, t))
      && Latest(job.tasks[t]) <= Latest(j.tasks[t]) <= Latest(job.tasks[t]) + RETRY_TIMES
  {
    hide RerunRows, Prepare;
    var t := rows[i].task;
    assert rows[i] in rows;
    RerunRowsEach(plan, job, rows, auto, attempts, i);
    if LosesNoSuccess(job, rows[i]) {
      PrepareMoves(plan.parties[t], job.tasks[t], rows[i], auto, Lookup(attempts, t, []));
    }
  }

  lemma SafeRerunKeepsInv(plan: Plan, job: Job, rows: seq<Row>, auto: bool, attempts: Attempts)
    requires Inv(plan, job) && DistinctTasks(rows)
    requires forall r :: r in rows ==> r.task in job.tasks && r.task in plan.parties
    requires SafeRows(plan, job, rows, auto, attempts)
    ensures var j := Rerun(plan, job, rows, auto, attempts).job;
      && Inv(plan, j)
      && j.started == job.started
      && (forall t :: t in job.tasks ==> Latest(job.tasks[t]) <= Latest(j.tasks[t]) <= Latest(job.tasks[t]) + RETRY_TIMES)
      && (forall t :: t in job.tasks && Current(job.tasks[t]) == Success ==> Current(j.tasks[t]) == Success)
  {
    hide RerunRows, SafeRows, Prepare;
    var j := RerunRows(plan, job, rows, auto, attempts).job;
    RerunRowsFrame(plan, job, rows, auto, attempts);
    forall t | t in job.tasks
      ensures Moved(job.tasks[t], j.tasks[t], IsStarted(job, t))
      ensures Latest(job.tasks[t]) <= Latest(j.tasks[t]) <= Latest(job.tasks[t]) + RETRY_TIMES
    {
      if i: nat :| i < |rows| && rows[i].task == t {
        SafeRowMoves(plan, job, rows, auto, attempts, i);
      }
    }
    MovedKeepsInv(plan, job, j);
    InvSignals(plan, j, Rerun(plan, job, rows, auto, attempts).job);
  }

  // ------------------------------------------------------------------
  // One step
  // ------------------------------------------------------------------

  /** What a step adds to the start log: latest versions whose dependencies are all SUCCESS. */
  ghost predicate StartsAfterDeps(plan: Plan, job: Job, job': Job)
    requires ValidJob(plan, job) && ValidJob(plan, job')
  {
    && job.started <= job'.started
    && forall t, v :: (t, v) in job'.started - job.started ==>
         t in job.tasks && v == Latest(job.tasks[t]) && DepsSuccess(plan, job', t)
  }

  lemma DepsSuccessGrows(plan: Plan, job: Job, job': Job, t: Task)
    requires ValidJob(plan, job) && ValidJob(plan, job') && t in job.tasks && DepsSuccess(plan, job, t)
    requires forall d :: d in job.tasks && Current(job.tasks[d]) == Success ==> Current(job'.tasks[d]) == Success
    ensures DepsSuccess(plan, job', t)
  {
    forall d | d in plan.deps[t] ensures d in job'.tasks && Current(job'.tasks[d]) == Success {
      assert d in job.tasks;
    }
  }

  /** Inv looks at histories and the start log only. */
  lemma InvSignals(plan: Plan, job: Job, job': Job)
    requires Inv(plan, job) && job'.tasks == job.tasks && job'.started == job.started
    ensures Inv(plan, job')
  {
    forall t | t in job'.tasks && IsStarted(job', t) ensures DepsSuccess(plan, job', t) {
      assert IsStarted(job, t);
      DepsSuccessGrows(plan, job, job', t);
    }
    forall t | t in job'.tasks && Current(job'.tasks[t]) == Success ensures IsStarted(job', t) {
      assert IsStarted(job, t);
    }
  }

  lemma FromSyncedKeepsInv(plan: Plan, synced: Job, answers: Answers)
    requires Inv(plan, synced)
    ensures var r := FromSynced(plan, synced, answers);
      && Inv(plan, r.job) && r.job.cancel == synced.cancel
      && StartsAfterDeps(plan, synced, r.job)
  {
    var r := FromSynced(plan, synced, answers);
    SyncedStartsFrontier(plan, synced, answers);
    var sent := Elements(r.sent);
    if !synced.cancel && !AnyInterrupt(Shown(synced)) {
      assert r.job == StartedJob(synced, sent);
      StartKeepsInv(plan, synced, sent);
      StartAdds(plan, synced, sent);
      forall t, v | (t, v) in r.job.started - synced.started
        ensures t in synced.tasks && v == Latest(synced.tasks[t]) && DepsSuccess(plan, r.job, t)
      {
        DepsSuccessGrows(plan, synced, r.job, t);
      }
    }
  }

  /** Automatic reruns take safe rows. */
  lemma AutoRowsSafe(plan: Plan, synced: Job, answers: Answers, settled: Job, attempts: Attempts)
    requires ValidJob(plan, synced) && settled.tasks == synced.tasks
    ensures var r := FromSynced(plan, synced, answers);
      && (forall t :: t in r.retry ==> t in r.shown && t in settled.tasks)
      && (r.retry != [] ==>
            var rows := AutoRows(settled, r.shown, r.retry);
            && DistinctTasks(rows)
            && (forall r :: r in rows ==> r.task in settled.tasks && r.task in plan.parties)
            && SafeRows(plan, settled, rows, true, attempts))
  {
    hide FromSynced, LeftAlone, RerunRows;
    RetryListed(plan, synced, answers);
    var r := FromSynced(plan, synced, answers);
    if r.retry != [] {
      var rows := AutoRows(settled, r.shown, r.retry);
      forall i: nat | i < |rows|
        ensures rows[i].task in settled.tasks && rows[i].version == Latest(settled.tasks[rows[i].task])
        ensures Current(settled.tasks[rows[i].task]) != Success
      {
        assert r.retry[i] in r.retry;
      }
    }
  }

  lemma AfterRoundKeepsInv(plan: Plan, synced: Job, answers: Answers, attempts: Attempts)
    requires Inv(plan, synced)
    requires GoodRound(plan, FromSynced(plan, synced, answers))
    ensures var j := AfterRound(plan, FromSynced(plan, synced, answers), attempts).job;
      && Inv(plan, j)
      && StartsAfterDeps(plan, synced, j)
  {
    FromSyncedKeepsInv(plan, synced, answers);
    var r := FromSynced(plan, synced, answers);
    var p := AfterRound(plan, r, attempts);
    RetryListed(plan, synced, answers);
    if p.status.Some? {
      var settled := Settled(r.job, p.status.value);
      InvSignals(plan, r.job, settled);
      if r.retry != [] {
        AutoRowsSafe(plan, synced, answers, settled, attempts);
        SafeRerunKeepsInv(plan, settled, AutoRows(settled, r.shown, r.retry), true, attempts);
      }
      StartsAfterDepsGrows(plan, synced, r.job, p.job);
    }
  }

  lemma StartsAfterDepsGrows(plan: Plan, job: Job, mid: Job, job': Job)
    requires ValidJob(plan, job) && ValidJob(plan, mid) && ValidJob(plan, job')
    requires StartsAfterDeps(plan, job, mid) && job'.started == mid.started
    requires forall d :: d in mid.tasks && Current(mid.tasks[d]) == Success ==> Current(job'.tasks[d]) == Success
    ensures StartsAfterDeps(plan, job, job')
  {
    forall t, v | (t, v) in job'.started - job.started
      ensures t in job.tasks && v == Latest(job.tasks[t]) && DepsSuccess(plan, job', t)
    {
      DepsSuccessGrows(plan, mid, job', t);
    }
  }

  lemma PassKeepsInv(plan: Plan, job: Job, inbox: Inbox, answers: Answers, attempts: Attempts)
    requires Inv(plan, job) && HonestInbox(job, inbox)
    ensures var j := RunPass(plan, job, inbox, answers, attempts).job;
      && Inv(plan, j)
      && StartsAfterDeps(plan, job, j)
  {
    var synced := SyncedJob(job, inbox);
    SyncKeepsInv(plan, job, inbox);
    PassIsAfterRound(plan, job, inbox, answers, attempts);
    AfterRoundKeepsInv(plan, synced, answers, attempts);
    StartsAfterSync(plan, job, inbox, RunPass(plan, job, inbox, answers, attempts).job);
  }

  lemma PassIsAfterRound(plan: Plan, job: Job, inbox: Inbox, answers: Answers, attempts: Attempts)
    requires ValidJob(plan, job)
    ensures ValidJob(plan, SyncedJob(job, inbox))
    ensures GoodRound(plan, FromSynced(plan, SyncedJob(job, inbox), answers))
    ensures RunPass(plan, job, inbox, answers, attempts)
      == AfterRound(plan, FromSynced(plan, SyncedJob(job, inbox), answers), attempts)
  {
    SyncedJobValid(plan, job, inbox);
    RoundIsGood(plan, job, inbox, answers);
  }

  /** The sync loop leaves the start log and the latest versions alone. */
  lemma StartsAfterSync(plan: Plan, job: Job, inbox: Inbox, job': Job)
    requires ValidJob(plan, job) && ValidJob(plan, SyncedJob(job, inbox)) && ValidJob(plan, job')
    requires StartsAfterDeps(plan, SyncedJob(job, inbox), job')
    ensures StartsAfterDeps(plan, job, job')
  {
    var synced := SyncedJob(job, inbox);
    forall t, v | (t, v) in job'.started - job.started
      ensures t in job.tasks && v == Latest(job.tasks[t]) && DepsSuccess(plan, job', t)
    {
      assert (t, v) in job'.started - synced.started;
      SyncedHead(job.tasks[t], Lookup(inbox, t, []));
    }
  }

  /** A manual rerun that loses no success, whatever the parties answer: each row it gets to belongs to a task that
      is not SUCCESS or is at least three versions old. */
  ghost predicate Calm(plan: Plan, job: Job, step: Step) {
    step.ManualRerunStep? ==>
      forall i: nat :: i < |step.rows| && Reached(plan, step.rows, i) ==> LosesNoSuccess(job, step.rows[i])
  }

  lemma CalmRowsSafe(plan: Plan, job: Job, rows: seq<Row>, attempts: Attempts)
    requires ValidJob(plan, job) && ManualRows(job, rows) && HeardAll(plan, attempts)
    requires Calm(plan, job, ManualRerunStep(rows, attempts))
    ensures SafeRows(plan, job, rows, false, attempts)
  {
    hide HeardAll, Reached, RerunRows, LosesNoSuccess;
    forall i: nat | i < |rows|
      ensures rows[i].version <= Latest(job.tasks[rows[i].task])
      ensures LosesNoSuccess(job, rows[i]) || LeftAlone(plan, job, rows, false, attempts, i)
    {
      SelectedRowIsInterrupted(job, rows, i);
      if !Reached(plan, rows, i) {
        UnreachedKept(plan, job, rows, attempts, i);
      }
    }
  }

  lemma ReportedHistory(h: History, v: nat, report: Report, started: bool)
    requires ValidHistory(h) && v < |h| && h[v].Some? && Honest([report], started)
    ensures var h' := h[v := Some(Reported(h[v].value, report))];
      && ValidHistory(h') && Latest(h') == Latest(h)
      && (v == Latest(h) ==> Moved(h, h', started))
      && (v != Latest(h) ==> Head(h') == Head(h))
  {
    var before := h[v].value;
    assert Collected(Reported(before, report), []) == Reported(before, report);
    assert Collected(before, [report]) == Reported(before, report);
    if Folded(before) == Success {
      SuccessIsFinal(before, [report]);
    } else if !started {
      NoSuccessUnstarted(before, [report]);
    }
  }

  lemma ReportKeepsInv(plan: Plan, job: Job, t: Task, v: nat, report: Report)
    requires Inv(plan, job) && Allowed(plan, job, ReportStep(t, v, report))
    ensures var j := Apply(plan, job, ReportStep(t, v, report));
      Inv(plan, j)
  {
    var j := Apply(plan, job, ReportStep(t, v, report));
    ReportedHistory(job.tasks[t], v, report, (t, v) in job.started);
    forall s | s in job.tasks ensures Moved(job.tasks[s], j.tasks[s], IsStarted(job, s)) {
    }
    MovedKeepsInv(plan, job, j);
  }

  lemma StepKeepsInv(plan: Plan, job: Job, step: Step)
    requires Inv(plan, job) && Allowed(plan, job, step) && Calm(plan, job, step)
    ensures var j := Apply(plan, job, step);
      && Inv(plan, j)
      && StartsAfterDeps(plan, job, j)
  {
    match step
    case PassStep(inbox, answers, attempts) =>
      PassKeepsInv(plan, job, inbox, answers, attempts);
    case ReportStep(t, v, r) =>
      ReportKeepsInv(plan, job, t, v, r);
    case ManualRerunStep(rows, attempts) =>
      CalmRowsSafe(plan, job, rows, attempts);
      SafeRerunKeepsInv(plan, job, rows, false, attempts);
    case _ =>
      InvSignals(plan, job, Apply(plan, job, step));
  }

  // ------------------------------------------------------------------
  // The main results
  // ------------------------------------------------------------------

  ghost predicate CalmRun(plan: Plan, js: seq<Job>, steps: seq<Step>)
    requires |js| == |steps| + 1
  {
    forall i :: 0 <= i < |steps| ==> Calm(plan, js[i], steps[i])
  }

  lemma {:induction false} RunKeepsInv(plan: Plan, retries: int, js: seq<Job>, steps: seq<Step>, n: nat)
    requires IsRun(plan, retries, js, steps) && CalmRun(plan, js, steps) && n <= |steps|
    ensures Inv(plan, js[n])
  {
    if n == 0 {
      InitialInv(plan, retries);
    } else {
      RunKeepsInv(plan, retries, js, steps, n - 1);
      assert Follows(plan, js[n - 1], steps[n - 1], js[n]);
      StepKeepsInv(plan, js[n - 1], steps[n - 1]);
    }
  }

  /** Over every calm run the SUCCESS tasks stay closed under dependencies, and every start command goes to
      the latest version of a task whose dependencies are all SUCCESS. */
  lemma RunSafety(plan: Plan, retries: int, js: seq<Job>, steps: seq<Step>, n: nat)
    requires IsRun(plan, retries, js, steps) && CalmRun(plan, js, steps) && n <= |steps|
    ensures ValidJob(plan, js[n]) && Closed(plan, js[n])
    ensures n < |steps| ==> ValidJob(plan, js[n + 1]) && StartsAfterDeps(plan, js[n], js[n + 1])
  {
    RunKeepsInv(plan, retries, js, steps, n);
    InvClosed(plan, js[n]);
    if n < |steps| {
      assert Follows(plan, js[n], steps[n], js[n + 1]);
      StepKeepsInv(plan, js[n], steps[n]);
    }
  }
}
