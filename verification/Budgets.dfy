// The retry budget: how many automatic reruns a task has left, through any mix
// of reruns, reports and rounds.
module Budgets {
  import opened Common
  import opened Statuses
  import opened Federated
  import opened Jobs
  import opened Rounds
  import opened Reruns
  import opened Runs
  import opened Versions

  function AutoVersions(h: History): nat {
    if h == [] then 0
    else AutoVersions(h[..|h| - 1]) + (if h[|h| - 1].Some? && h[|h| - 1].value.origin == ByAutoRerun then 1 else 0)
  }

  lemma {:induction false} AutoVersionsAppend(h: History, k: nat, v: Version)
    ensures AutoVersions(h + seq(k, _ => None) + [Some(v)])
      == AutoVersions(h) + if v.origin == ByAutoRerun then 1 else 0
  {
    var none: History := seq(k, _ => None);
    var all := h + none + [Some(v)];
    assert all[..|all| - 1] == h + none;
    AutoVersionsNone(h, k);
  }

  lemma {:induction false} AutoVersionsNone(h: History, k: nat)
    ensures AutoVersions(h + seq(k, _ => None)) == AutoVersions(h)
  {
    var all: History := h + seq(k, _ => None);
    if k == 0 {
      assert all == h;
    } else {
      var less: History := h + seq(k - 1, _ => None);
      assert all[..|all| - 1] == less;
      AutoVersionsNone(h, k - 1);
    }
  }

  lemma {:induction false} AutoVersionsReplace(h: History, w: nat, o: Option<Version>)
    requires w < |h|
    requires (o.Some? && o.value.origin == ByAutoRerun) == (h[w].Some? && h[w].value.origin == ByAutoRerun)
    ensures AutoVersions(h[w := o]) == AutoVersions(h)
  {
    var h' := h[w := o];
    if w == |h| - 1 {
      assert h'[..|h| - 1] == h[..|h| - 1];
    } else {
      assert h'[..|h| - 1] == h[..|h| - 1][w := o];
      AutoVersionsReplace(h[..|h| - 1], w, o);
    }
  }

  /** What is left plus what automatic reruns used is what the task was given. */
  ghost predicate BudgetKept(h: History) {
    ValidHistory(h) && Head(h).retries + AutoVersions(h) == h[0].value.retries
  }

  /** Rerunning one row keeps the budget when the row carries the head's budget or is too old. */
  lemma PrepareBudget(parties: set<Party>, h: History, row: Row, auto: bool, answers: seq<Response>)
    requires BudgetKept(h)
    requires row.retries == Head(h).retries || TooOld(h, row)
    requires auto ==> row.version == Latest(h)
    ensures BudgetKept(Prepare(parties, h, row, auto, false, answers).history)
  {
    var p := Prepare(parties, h, row, auto, false, answers);
    OffersInOrder(row.version, answers);
    if p.history != h {
      var w := AcceptedVersion(row.version, answers).value;
      var v := FreshVersion(parties, if auto then row.retries - 1 else row.retries,
                            if auto then ByAutoRerun else ByManualRerun);
      InsertedBudget(h, w, v);
    }
  }

  /** Inserted rows change the head's budget and the count of automatic versions together. */
  lemma InsertedBudget(h: History, w: nat, v: Version)
    requires ValidHistory(h)
    ensures var h' := Inserted(h, w, v);
      && ValidHistory(h') && h'[0] == h[0]
      && (w > Latest(h) ==> Head(h') == v && AutoVersions(h') == AutoVersions(h) + if v.origin == ByAutoRerun then 1 else 0)
      && (w <= Latest(h) ==> Head(h') == Head(h) && (v.origin != ByAutoRerun ==> AutoVersions(h') == AutoVersions(h)))
  {
    InsertedValid(h, w, v);
    if w >= |h| {
      AutoVersionsAppend(h, w - |h|, v);
    } else if h[w].None? && v.origin != ByAutoRerun {
      AutoVersionsReplace(h, w, Some(v));
    }
  }

  // ------------------------------------------------------------------
  // One manual rerun
  // ------------------------------------------------------------------

  ghost predicate AllBudgets(job: Job) {
    forall t :: t in job.tasks ==> BudgetKept(job.tasks[t])
  }

  /** The row carries the budget of its task's latest version, or is too old to make a newer one. */
  predicate CarriesBudget(job: Job, r: Row) {
    r.task in job.tasks && ValidHistory(job.tasks[r.task])
    && (r.retries == Head(job.tasks[r.task]).retries || TooOld(job.tasks[r.task], r))
  }

  ghost predicate KeepsBudgets(plan: Plan, job: Job, rows: seq<Row>, attempts: Attempts)
    requires forall r :: r in rows ==> r.task in job.tasks && r.task in plan.parties
  {
    AllBudgets(RerunRows(plan, job, rows, false, attempts).job)
  }

  /** Each row carries its task's budget, or the loop does not get to it; automatic reruns take latest rows. */
  ghost predicate BudgetRows(plan: Plan, job: Job, rows: seq<Row>, auto: bool, attempts: Attempts)
    requires ValidJob(plan, job) && forall r :: r in rows ==> r.task in job.tasks && r.task in plan.parties
  {
    forall i: nat :: i < |rows| ==>
      (CarriesBudget(job, rows[i]) || LeftAlone(plan, job, rows, auto, attempts, i))
      && (auto ==> rows[i].version == Latest(job.tasks[rows[i].task]))
  }

  lemma RerunKeepsBudgets(plan: Plan, job: Job, rows: seq<Row>, auto: bool, attempts: Attempts)
    requires ValidJob(plan, job) && AllBudgets(job) && DistinctTasks(rows)
    requires forall r :: r in rows ==> r.task in job.tasks && r.task in plan.parties
    requires BudgetRows(plan, job, rows, auto, attempts)
    ensures AllBudgets(RerunRows(plan, job, rows, auto, attempts).job)
  {
    hide RerunRows, BudgetKept;
    RerunRowsFrame(plan, job, rows, auto, attempts);
    var j := RerunRows(plan, job, rows, auto, attempts).job;
    forall t | t in j.tasks ensures BudgetKept(j.tasks[t]) {
      if i: nat :| i < |rows| && rows[i].task == t {
        BudgetRow(plan, job, rows, auto, attempts, i);
      }
    }
  }

  lemma BudgetRow(plan: Plan, job: Job, rows: seq<Row>, auto: bool, attempts: Attempts, i: nat)
    requires ValidJob(plan, job) && AllBudgets(job) && DistinctTasks(rows) && i < |rows|
    requires forall r :: r in rows ==> r.task in job.tasks && r.task in plan.parties
    requires BudgetRows(plan, job, rows, auto, attempts)
    ensures var t, j := rows[i].task, RerunRows(plan, job, rows, auto, attempts).job;
      t in j.tasks && BudgetKept(j.tasks[t])
  {
    hide RerunRows, BudgetKept, Prepare, DistinctTasks;
    var t := rows[i].task;
    assert rows[i] in rows;
    RerunRowsEach(plan, job, rows, auto, attempts, i);
    if CarriesBudget(job, rows[i]) {
      PrepareBudget(plan.parties[t], job.tasks[t], rows[i], auto, Lookup(attempts, t, []));
    }
  }

  /** A row with another budget than the head's breaks the budget as soon as it makes a newer version. */
  lemma UncarriedBreaks(parties: set<Party>, h: History, row: Row, answers: seq<Response>)
    requires BudgetKept(h) && Interrupt(row.status) && row.retries != Head(h).retries
    requires AcceptedVersion(row.version, answers) == Some(Latest(h) + 1)
    ensures !BudgetKept(Prepare(parties, h, row, false, false, answers).history)
  {
    InsertedBudget(h, Latest(h) + 1, FreshVersion(parties, row.retries, ByManualRerun));
  }

  lemma UncarriedRowLosesBudget(plan: Plan, job: Job, rows: seq<Row>, i: nat) returns (attempts: Attempts)
    requires ValidJob(plan, job) && AllBudgets(job) && ManualRows(job, rows)
    requires i < |rows| && Reached(plan, rows, i) && !CarriesBudget(job, rows[i])
    ensures HeardAll(plan, attempts) && !KeepsBudgets(plan, job, rows, attempts)
  {
    hide BudgetKept, AcceptedVersion, Prepare, RerunRows, FreshVersion, SelectedRow, Turndown, HeardAll;
    SelectedRowIsInterrupted(job, rows, i);
    var t, h := rows[i].task, job.tasks[rows[i].task];
    var k: nat := Latest(h) - rows[i].version;
    attempts := Turndown(plan, t, k);
    TurndownHeard(plan, t, k);
    TurndownReaches(plan, job, rows, t, k, i);
    TurndownAccepts(plan, t, k, rows[i]);
    RerunRowsEach(plan, job, rows, false, attempts, i);
    UncarriedBreaks(plan.parties[t], h, rows[i], Lookup(attempts, t, []));
    assert !KeepsBudgets(plan, job, rows, attempts);
  }

  lemma CarriedRowsKeepBudgets(plan: Plan, job: Job, rows: seq<Row>, attempts: Attempts)
    requires ValidJob(plan, job) && AllBudgets(job) && ManualRows(job, rows) && HeardAll(plan, attempts)
    requires forall i: nat :: i < |rows| && Reached(plan, rows, i) ==> CarriesBudget(job, rows[i])
    ensures KeepsBudgets(plan, job, rows, attempts)
  {
    hide RerunRows, CarriesBudget, AllBudgets, HeardAll, Reached, SelectedRow;
    forall i: nat | i < |rows| ensures CarriesBudget(job, rows[i]) || LeftAlone(plan, job, rows, false, attempts, i) {
      assert rows[i] in rows;
      if !Reached(plan, rows, i) {
        UnreachedKept(plan, job, rows, attempts, i);
      }
    }
    RerunKeepsBudgets(plan, job, rows, false, attempts);
  }

  /** A manual rerun keeps every budget, whatever the parties answer, exactly when each row it gets to carries the
      budget of its task's latest version or is too old.  The rows show all of this before the call. */
  lemma ManualRerunKeepsBudgetsIff(plan: Plan, job: Job, rows: seq<Row>)
    requires ValidJob(plan, job) && AllBudgets(job) && ManualRows(job, rows)
    ensures (forall attempts :: HeardAll(plan, attempts) ==> KeepsBudgets(plan, job, rows, attempts))
      <==> forall i: nat :: i < |rows| && Reached(plan, rows, i) ==> CarriesBudget(job, rows[i])
  {
    hide Reached, CarriesBudget, KeepsBudgets, HeardAll, AllBudgets;
    if forall i: nat :: i < |rows| && Reached(plan, rows, i) ==> CarriesBudget(job, rows[i]) {
      forall attempts | HeardAll(plan, attempts) ensures KeepsBudgets(plan, job, rows, attempts) {
        CarriedRowsKeepBudgets(plan, job, rows, attempts);
      }
    } else {
      var i: nat :| i < |rows| && Reached(plan, rows, i) && !CarriesBudget(job, rows[i]);
      var attempts := UncarriedRowLosesBudget(plan, job, rows, i);
      assert HeardAll(plan, attempts) && !KeepsBudgets(plan, job, rows, attempts);
    }
  }

  // ------------------------------------------------------------------
  // One step
  // ------------------------------------------------------------------

  /** Rewriting status or party rows of a version leaves the budget alone. */
  lemma RewriteKeepsBudget(h: History, v: nat, u: Version)
    requires BudgetKept(h) && v < |h| && h[v].Some?
    requires u.retries == h[v].value.retries && u.origin == h[v].value.origin
    ensures BudgetKept(h[v := Some(u)])
  {
    AutoVersionsReplace(h, v, Some(u));
  }

  lemma SyncKeepsBudgets(plan: Plan, job: Job, inbox: Inbox)
    requires ValidJob(plan, job) && AllBudgets(job)
    ensures AllBudgets(SyncedJob(job, inbox))
  {
    forall t | t in job.tasks ensures BudgetKept(SyncedJob(job, inbox).tasks[t]) {
      var h, reports := job.tasks[t], Lookup(inbox, t, []);
      CollectedFrame(Head(h), reports);
      RewriteKeepsBudget(h, Latest(h), SyncedVersion(Head(h), reports));
    }
  }

  lemma StartKeepsBudgets(plan: Plan, synced: Job, answers: Answers)
    requires ValidJob(plan, synced) && AllBudgets(synced)
    ensures AllBudgets(FromSynced(plan, synced, answers).job)
  {
    StartedKeepsBudgets(synced, Elements(FromSynced(plan, synced, answers).sent));
  }

  lemma StartedKeepsBudgets(job: Job, sent: set<Task>)
    requires ValidRows(job.tasks) && AllBudgets(job)
    ensures AllBudgets(StartedJob(job, sent))
  {
    hide AutoVersions;
    forall t | t in job.tasks ensures BudgetKept(StartedJob(job, sent).tasks[t]) {
      var h := job.tasks[t];
      RewriteKeepsBudget(h, Latest(h), Head(h).(status := Changed(Head(h).status, Running)));
    }
  }

  /** The retry list's rows are latest rows, so an automatic rerun always carries the budget. */
  lemma AfterRoundKeepsBudgets(plan: Plan, synced: Job, answers: Answers, attempts: Attempts)
    requires ValidJob(plan, synced) && AllBudgets(synced)
    requires GoodRound(plan, FromSynced(plan, synced, answers))
    ensures AllBudgets(AfterRound(plan, FromSynced(plan, synced, answers), attempts).job)
  {
    StartKeepsBudgets(plan, synced, answers);
    var r := FromSynced(plan, synced, answers);
    var p := AfterRound(plan, r, attempts);
    RetryListed(plan, synced, answers);
    if p.status.Some? && r.retry != [] {
      var settled := Settled(r.job, p.status.value);
      AutoRowsSafe(plan, synced, answers, settled, attempts);
      var rows := AutoRows(settled, r.shown, r.retry);
      forall i: nat | i < |rows|
        ensures CarriesBudget(settled, rows[i]) && rows[i].version == Latest(settled.tasks[rows[i].task])
      {
        assert r.retry[i] in r.retry;
      }
      RerunKeepsBudgets(plan, settled, rows, true, attempts);
    }
  }

  /** Each row a manual rerun gets to carries its task's budget. */
  ghost predicate Carried(plan: Plan, job: Job, step: Step) {
    step.ManualRerunStep? ==>
      forall i: nat :: i < |step.rows| && Reached(plan, step.rows, i) ==> CarriesBudget(job, step.rows[i])
  }

  lemma StepKeepsBudgets(plan: Plan, job: Job, step: Step)
    requires ValidJob(plan, job) && Allowed(plan, job, step) && Carried(plan, job, step) && AllBudgets(job)
    ensures AllBudgets(Apply(plan, job, step))
  {
    match step
    case PassStep(inbox, answers, attempts) =>
      PassIsAfterRound(plan, job, inbox, answers, attempts);
      SyncKeepsBudgets(plan, job, inbox);
      AfterRoundKeepsBudgets(plan, SyncedJob(job, inbox), answers, attempts);
    case ReportStep(t, v, r) =>
      RewriteKeepsBudget(job.tasks[t], v, Reported(job.tasks[t][v].value, r));
    case ManualRerunStep(rows, attempts) =>
      CarriedRowsKeepBudgets(plan, job, rows, attempts);
    case _ =>
  }

  // ------------------------------------------------------------------
  // Whole runs
  // ------------------------------------------------------------------

  ghost predicate CarriedRun(plan: Plan, js: seq<Job>, steps: seq<Step>)
    requires |js| == |steps| + 1
  {
    forall i :: 0 <= i < |steps| ==> Carried(plan, js[i], steps[i])
  }

  lemma {:induction false} RunKeepsBudgets(plan: Plan, retries: int, js: seq<Job>, steps: seq<Step>, n: nat)
    requires IsRun(plan, retries, js, steps) && CarriedRun(plan, js, steps) && n <= |steps|
    ensures AllBudgets(js[n])
  {
    if n == 0 {
      forall t | t in js[0].tasks ensures BudgetKept(js[0].tasks[t]) {
        assert js[0].tasks[t][..0] == [];
      }
    } else {
      RunKeepsBudgets(plan, retries, js, steps, n - 1);
      assert Follows(plan, js[n - 1], steps[n - 1], js[n]);
      StepKeepsBudgets(plan, js[n - 1], steps[n - 1]);
    }
  }

  /** Retry budget: through any mix of automatic and manual reruns, reports, cancels and rounds, what a task's
      latest version has left plus the versions automatic reruns made is what the job gave it. */
  lemma BudgetConserved(plan: Plan, retries: int, js: seq<Job>, steps: seq<Step>, n: nat, t: Task)
    requires IsRun(plan, retries, js, steps) && CarriedRun(plan, js, steps) && n <= |steps| && t in plan.deps
    ensures ValidJob(plan, js[n])
    ensures Head(js[n].tasks[t]).retries + AutoVersions(js[n].tasks[t]) == retries
  {
    RunKeepsBudgets(plan, retries, js, steps, n);
    FirstVersionStays(plan, retries, js, steps, n, t);
  }
}
