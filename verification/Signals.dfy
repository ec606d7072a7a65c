// How the job row moves over whole runs: its status and its two signals.
module Signals {
  import opened Common
  import opened Statuses
  import opened Aggregation
  import opened Jobs
  import opened Rounds
  import opened Reruns
  import opened Runs
  import opened Termination
  import opened Outcomes
  import opened Reports

  /** The status of the job row after a step: a pass and a status write offer it a status, a requeue puts a finished job
      back to WAITING, and nothing else touches it. */
  ghost function StatusAfter(plan: Plan, job: Job, step: Step): Status
    requires ValidJob(plan, job)
  {
    match step
    case PassStep(inbox, answers, attempts) =>
      var s := RunPass(plan, job, inbox, answers, attempts).status;
      if s.Some? then RowTakes(job, s.value) else job.status
    case StatusStep(s) => RowTakes(job, s)
    case RequeueStep(_) =>
      if job.status in {Canceled, Timeout, Failed, Pass, Success} then RowTakes(job, Waiting) else job.status
    case _ => job.status
  }

  /** The job row of one step to the next. */
  ghost predicate RowMoves(plan: Plan, job: Job, step: Step, job': Job)
    requires ValidJob(plan, job)
  {
    && job'.status == StatusAfter(plan, job, step)
    && (step.CancelStep? ==> job'.cancel)
    && (job'.cancel && !job.cancel ==>
          step.CancelStep? || (step.PassStep? && RunPass(plan, job, step.inbox, step.answers, step.attempts).status == Some(Canceled)))
    && (job.cancel && !job'.cancel ==> step.ManualRerunStep?)
    && (job.rerun && !job'.rerun ==> step.RequeueStep?)
    && (step.RequeueStep? ==>
          job'.rerun == (job.rerun && job.status in {Canceled, Timeout, Failed, Pass, Success} && !step.consent))
    && (job'.rerun && !job.rerun ==> step.ManualRerunStep? || step.PassStep?)
  }

  lemma PassRowMoves(plan: Plan, job: Job, step: Step)
    requires ValidJob(plan, job) && step.PassStep?
    ensures RowMoves(plan, job, step, RunPass(plan, job, step.inbox, step.answers, step.attempts).job)
  {
    PassMeaning(plan, job, step.inbox, step.answers, step.attempts);
    hide FromSynced, AfterRound, RunPass, JobCanChange, Rerun, PassStatus, PassReports, RowTakes;
    PassIsAfterRound(plan, job, step.inbox, step.answers, step.attempts);
    AfterRoundMoves(plan, SyncedJob(job, step.inbox), step.answers, step.attempts);
  }

  /** What the pass does to the row after the sync. */
  lemma AfterRoundMoves(plan: Plan, synced: Job, answers: Answers, attempts: Attempts)
    requires ValidJob(plan, synced) && GoodRound(plan, FromSynced(plan, synced, answers))
    ensures var r := FromSynced(plan, synced, answers);
      var p := AfterRound(plan, r, attempts);
      && p.job.status == (if p.status.Some? then PersistedStatus(synced, p.status.value) else synced.status)
      && (p.job.cancel ==> synced.cancel || p.status == Some(Canceled))
      && (synced.cancel ==> p.job.cancel)
      && (synced.rerun ==> p.job.rerun)
  {
    hide FromSynced, Rerun, PassStatus, AutoRows, ValidHistory, JobCanChange;
    RoundSignals(plan, synced, answers);
    RetryListed(plan, synced, answers);
    var r := FromSynced(plan, synced, answers);
    if PassStatus(r).Some? && r.retry != [] {
      var settled := Settled(r.job, PassStatus(r).value);
      AutoRowsInJob(settled, r.shown, r.retry);
      RerunSignals(plan, settled, AutoRows(settled, r.shown, r.retry), true, attempts);
    }
  }

  lemma StepRowMoves(plan: Plan, job: Job, step: Step)
    requires ValidJob(plan, job) && Allowed(plan, job, step)
    ensures RowMoves(plan, job, step, Apply(plan, job, step))
  {
    match step
    case PassStep(_, _, _) =>
      PassRowMoves(plan, job, step);
    case ManualRerunStep(rows, attempts) =>
      RerunSignals(plan, job, rows, false, attempts);
    case StatusStep(s) =>
      RowTakesIs(job, s);
    case RequeueStep(_) =>
      RowTakesIs(job, Waiting);
    case _ =>
  }

  /** Over every run: a pass or status write moves the job status exactly along its table, but to no status that invites
      a rerun while one is asked for, a requeue puts a finished job back, and nothing else moves it; the cancel signal goes up on request or when the job ends CANCELED and comes down only by a manual
      rerun; the rerun signal comes down only when the job is requeued. */
  lemma RunRowMoves(plan: Plan, retries: int, js: seq<Job>, steps: seq<Step>, n: nat)
    requires IsRun(plan, retries, js, steps) && n < |steps|
    ensures ValidJob(plan, js[n]) && RowMoves(plan, js[n], steps[n], js[n + 1])
  {
    assert Follows(plan, js[n], steps[n], js[n + 1]);
    StepRowMoves(plan, js[n], steps[n]);
  }

  /** A report that arrives between passes lands in its version's row of its party if the row accepts it, and nowhere
      else. */
  lemma ReportLands(plan: Plan, job: Job, t: Task, v: nat, report: Report)
    requires ValidJob(plan, job) && Allowed(plan, job, ReportStep(t, v, report))
    ensures var j := Apply(plan, job, ReportStep(t, v, report));
      var before, after := job.tasks[t][v].value, j.tasks[t][v].value;
      && j == job.(tasks := job.tasks[t := job.tasks[t][v := Some(after)]])
      && after == before.(parties := after.parties) && after.parties.Keys == before.parties.Keys
      && forall p :: p in before.parties ==>
           after.parties[p] == if Leaves(before.parties[p], report, p) then report.status else before.parties[p]
  {
    hide Leaves;
    forall p | p in job.tasks[t][v].value.parties
      ensures p in Reported(job.tasks[t][v].value, report).parties
      ensures Reported(job.tasks[t][v].value, report).parties[p]
        == if Leaves(job.tasks[t][v].value.parties[p], report, p) then report.status else job.tasks[t][v].value.parties[p]
    {
      ReportedRow(job.tasks[t][v].value, report, p);
    }
  }

  /** While a task runs the job stays open: a pass that still sees a RUNNING task reports RUNNING, and a waiting job's row
      turns RUNNING, any other stays. */
  lemma RunningKeepsOpen(plan: Plan, job: Job, inbox: Inbox, answers: Answers, attempts: Attempts, t: Task)
    requires ValidJob(plan, job) && ValidJob(plan, SyncedJob(job, inbox))
    requires var r := FromSynced(plan, SyncedJob(job, inbox), answers);
      r.outcome.Some? && t in r.shown && r.shown[t] == Running
    ensures var p := RunPass(plan, job, inbox, answers, attempts);
      p.status == Some(Running) && p.job.status == if job.status == Waiting then Running else job.status
  {
    hide FromSynced, AfterRound, RunPass, JobStatusOf;
    PassIsAfterRound(plan, job, inbox, answers, attempts);
    var r := FromSynced(plan, SyncedJob(job, inbox), answers);
    RunningShown(r, t);
    AfterRoundStarted(plan, SyncedJob(job, inbox), answers, attempts);
  }

  lemma RunningShown(r: RoundResult, t: Task)
    requires r.outcome.Some? && t in r.shown && r.shown[t] == Running
    ensures PassStatus(r) == Some(Running)
  {
    hide JobStatusOf;
    assert r.shown[t] in r.shown.Values;
    JobStatusMeaning(r.outcome.value, r.shown.Values);
  }

  lemma CancelledStep(plan: Plan, job: Job, step: Step)
    requires ValidJob(plan, job) && Allowed(plan, job, step) && job.cancel && !step.ManualRerunStep?
    ensures Apply(plan, job, step).cancel && Apply(plan, job, step).started == job.started
  {
    StepRowMoves(plan, job, step);
    match step
    case PassStep(inbox, answers, attempts) =>
      PassIsAfterRound(plan, job, inbox, answers, attempts);
      AfterRoundStarted(plan, SyncedJob(job, inbox), answers, attempts);
    case _ =>
  }

  /** Over every run: once the cancel signal is up it stays up and nothing is started, in whatever passes, reports,
      requeues and status writes follow, until somebody asks for a rerun. */
  lemma {:induction false} CancelledStartsNothing(plan: Plan, retries: int, js: seq<Job>, steps: seq<Step>, m: nat, n: nat)
    requires IsRun(plan, retries, js, steps) && m <= n <= |steps| && js[m].cancel
    requires forall i :: m <= i < n ==> !steps[i].ManualRerunStep?
    ensures js[n].cancel && js[n].started == js[m].started
  {
    if m < n {
      hide Apply, Allowed;
      CancelledStartsNothing(plan, retries, js, steps, m, n - 1);
      assert Follows(plan, js[n - 1], steps[n - 1], js[n]);
      CancelledStep(plan, js[n - 1], steps[n - 1]);
    }
  }
}
