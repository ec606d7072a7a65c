// Where the versions of a task come from: each belongs to exactly the task's
// parties, and each but the first was accepted by all of them.
module Versions {
  import opened Common
  import opened Statuses
  import opened Federated
  import opened Jobs
  import opened Rounds
  import opened Reruns
  import opened Runs

  /** Every version has a row at every party of the task, and at no other. */
  ghost predicate OwnRows(parties: set<Party>, h: History) {
    forall v :: 0 <= v < |h| && h[v].Some? ==> h[v].value.parties.Keys == parties
  }

  ghost predicate RowsMatch(plan: Plan, job: Job) {
    ValidJob(plan, job) && forall t :: t in job.tasks ==> OwnRows(plan.parties[t], job.tasks[t])
  }

  /** h' has a version w that h has not. */
  ghost predicate IsNew(h: History, h': History, w: nat) {
    w < |h'| && h'[w].Some? && (w >= |h| || h[w].None?)
  }

  /** Number w is one to three above a version that existed, and its offer was the first of that negotiation that
      every party of the task accepted. */
  ghost predicate Adopted(parties: set<Party>, h: History, answers: seq<Response>, w: nat) {
    exists k: nat :: k < RETRY_TIMES && FirstAccepted(parties, answers, k) && OneAbove(h, w, k)
  }

  predicate OneAbove(h: History, w: nat, k: nat) {
    k < w && w - 1 - k < |h| && h[w - 1 - k].Some?
  }

  /** What a step does to one task's versions. */
  ghost predicate Evolves(parties: set<Party>, h: History, h': History, answers: seq<Response>) {
    && (OwnRows(parties, h) ==> OwnRows(parties, h'))
    && |h| <= |h'|
    && forall w: nat :: IsNew(h, h', w) ==> Adopted(parties, h, answers, w)
  }

  predicate SameShape(h: History, h': History) {
    |h| == |h'| && forall v :: 0 <= v < |h| ==>
      h[v].Some? == h'[v].Some? && (h[v].Some? ==> h[v].value.parties.Keys == h'[v].value.parties.Keys)
  }

  lemma SameShapeEvolves(parties: set<Party>, h: History, h': History, answers: seq<Response>)
    requires SameShape(h, h')
    ensures Evolves(parties, h, h', answers)
  {
  }

  lemma EvolvesAfterShape(parties: set<Party>, h: History, mid: History, h': History, answers: seq<Response>)
    requires SameShape(h, mid) && Evolves(parties, mid, h', answers)
    ensures Evolves(parties, h, h', answers)
  {
    forall w: nat | IsNew(h, h', w) ensures Adopted(parties, h, answers, w) {
      assert IsNew(mid, h', w);
      var k: nat :| k < RETRY_TIMES && FirstAccepted(parties, answers, k) && OneAbove(mid, w, k);
      assert OneAbove(h, w, k);
    }
  }

  lemma InsertedShape(parties: set<Party>, h: History, w: nat, v: Version)
    requires v.parties.Keys == parties
    ensures OwnRows(parties, h) ==> OwnRows(parties, Inserted(h, w, v))
    ensures |h| <= |Inserted(h, w, v)| && forall u: nat :: IsNew(h, Inserted(h, w, v), u) ==> u == w
  {
  }

  /** Preparing a row creates at most the version the parties agreed on, with fresh rows at exactly those parties. */
  lemma PrepareEvolves(parties: set<Party>, h: History, row: Row, auto: bool, answers: seq<Response>)
    requires ValidHistory(h) && Heard(parties, answers) && row.version < |h| && h[row.version].Some?
    ensures Evolves(parties, h, Prepare(parties, h, row, auto, false, answers).history, answers)
  {
    AcceptedByEveryParty(parties, row.version, answers);
    hide Heard, FirstAccepted, AcceptedVersion, Inserted, OwnRows, IsNew;
    var h' := Prepare(parties, h, row, auto, false, answers).history;
    if h' != h {
      var w := AcceptedVersion(row.version, answers).value;
      var k: nat := w - row.version - 1;
      assert w == row.version + 1 + k;
      assert FirstAccepted(parties, answers, k);
      assert OneAbove(h, w, k);
      var v := FreshVersion(parties, if auto then row.retries - 1 else row.retries,
                            if auto then ByAutoRerun else ByManualRerun);
      InsertedShape(parties, h, w, v);
      assert h' == Inserted(h, w, v);
    } else {
      SameShapeEvolves(parties, h, h, answers);
    }
  }

  lemma RerunEvolves(plan: Plan, job: Job, rows: seq<Row>, auto: bool, attempts: Attempts, t: Task)
    requires ValidJob(plan, job) && DistinctTasks(rows) && HeardAll(plan, attempts) && t in job.tasks
    requires forall r :: r in rows ==> r.task in job.tasks && RowExists(job.tasks[r.task], r)
    ensures var j := RerunRows(plan, job, rows, auto, attempts).job;
      t in j.tasks && Evolves(plan.parties[t], job.tasks[t], j.tasks[t], Lookup(attempts, t, []))
  {
    hide RerunRows, Prepare, Evolves;
    var j := RerunRows(plan, job, rows, auto, attempts).job;
    var h := job.tasks[t];
    RerunRowsFrame(plan, job, rows, auto, attempts);
    SameShapeEvolves(plan.parties[t], h, h, Lookup(attempts, t, []));
    if i: nat :| i < |rows| && rows[i].task == t {
      assert rows[i] in rows;
      RerunRowsEach(plan, job, rows, auto, attempts, i);
      PrepareEvolves(plan.parties[t], h, rows[i], auto, Lookup(attempts, t, []));
    }
  }

  predicate RowExists(h: History, r: Row) {
    r.version < |h| && h[r.version].Some?
  }

  // ------------------------------------------------------------------
  // One step
  // ------------------------------------------------------------------

  function AttemptsOf(step: Step): Attempts {
    match step
    case PassStep(_, _, attempts) => attempts
    case ManualRerunStep(_, attempts) => attempts
    case _ => map[]
  }

  lemma SyncedShape(job: Job, inbox: Inbox, t: Task)
    requires ValidRows(job.tasks) && t in job.tasks
    ensures SameShape(job.tasks[t], SyncedJob(job, inbox).tasks[t])
  {
    CollectedFrame(Head(job.tasks[t]), Lookup(inbox, t, []));
  }

  lemma RoundShape(plan: Plan, synced: Job, answers: Answers, t: Task)
    requires ValidJob(plan, synced) && t in synced.tasks
    ensures ValidJob(plan, FromSynced(plan, synced, answers).job)
    ensures SameShape(synced.tasks[t], FromSynced(plan, synced, answers).job.tasks[t])
  {
    FromSyncedValid(plan, synced, answers);
    FromSyncedIs(plan, synced, answers);
    StartedOneShape(synced, Elements(FromSynced(plan, synced, answers).sent), t);
    hide FromSynced, StartedJob, ValidHistory;
  }

  lemma StartedOneShape(job: Job, sent: set<Task>, t: Task)
    requires ValidRows(job.tasks) && t in job.tasks
    ensures StartedJob(job, sent).tasks.Keys == job.tasks.Keys
    ensures SameShape(job.tasks[t], StartedJob(job, sent).tasks[t])
    ensures StartedJob(job, sent).tasks[t][0].value.retries == job.tasks[t][0].value.retries
  {
    assert StartedJob(job, sent).tasks[t] == if t in sent then StartedHistory(job.tasks[t]) else job.tasks[t];
    hide StartedJob, Changed;
  }

  lemma AfterRoundEvolves(plan: Plan, synced: Job, answers: Answers, attempts: Attempts, t: Task)
    requires ValidJob(plan, synced) && HeardAll(plan, attempts) && t in synced.tasks
    requires GoodRound(plan, FromSynced(plan, synced, answers))
    ensures var j := AfterRound(plan, FromSynced(plan, synced, answers), attempts).job;
      t in j.tasks && Evolves(plan.parties[t], synced.tasks[t], j.tasks[t], Lookup(attempts, t, []))
  {
    RoundShape(plan, synced, answers, t);
    hide FromSynced, Evolves, RerunRows, SameShape, HeardAll;
    var r := FromSynced(plan, synced, answers);
    var p := AfterRound(plan, r, attempts);
    RetryListed(plan, synced, answers);
    SameShapeEvolves(plan.parties[t], synced.tasks[t], r.job.tasks[t], Lookup(attempts, t, []));
    if p.status.Some? && r.retry != [] {
      var settled := Settled(r.job, p.status.value);
      AutoRowsSafe(plan, synced, answers, settled, attempts);
      AutoRowsExist(settled, r.shown, r.retry);
      RerunEvolves(plan, settled, AutoRows(settled, r.shown, r.retry), true, attempts, t);
    }
  }

  lemma AutoRowsExist(job: Job, shown: map<Task, Status>, retry: seq<Task>)
    requires forall t :: t in retry ==> t in shown && t in job.tasks && ValidHistory(job.tasks[t])
    ensures forall r :: r in AutoRows(job, shown, retry) ==> r.task in job.tasks && RowExists(job.tasks[r.task], r)
  {
    forall r | r in AutoRows(job, shown, retry) ensures r.task in job.tasks && RowExists(job.tasks[r.task], r) {
      var i :| 0 <= i < |retry| && AutoRows(job, shown, retry)[i] == r;
      assert retry[i] in retry;
    }
  }

  lemma ManualRowsExist(job: Job, rows: seq<Row>)
    requires ManualRows(job, rows)
    ensures forall r :: r in rows ==> r.task in job.tasks && RowExists(job.tasks[r.task], r)
  {
    forall r | r in rows ensures r.task in job.tasks && RowExists(job.tasks[r.task], r) {
      SelectedBelowMeaning(job.tasks[r.task], |job.tasks[r.task]|);
    }
  }

  lemma PassEvolves(plan: Plan, job: Job, inbox: Inbox, answers: Answers, attempts: Attempts, t: Task)
    requires ValidJob(plan, job) && HeardAll(plan, attempts) && t in job.tasks
    ensures var j := RunPass(plan, job, inbox, answers, attempts).job;
      t in j.tasks && Evolves(plan.parties[t], job.tasks[t], j.tasks[t], Lookup(attempts, t, []))
  {
    hide FromSynced, AfterRound, RunPass, Evolves, SameShape, HeardAll;
    PassIsAfterRound(plan, job, inbox, answers, attempts);
    SyncedShape(job, inbox, t);
    var synced := SyncedJob(job, inbox);
    AfterRoundEvolves(plan, synced, answers, attempts, t);
    EvolvesAfterShape(plan.parties[t], job.tasks[t], synced.tasks[t],
                      RunPass(plan, job, inbox, answers, attempts).job.tasks[t], Lookup(attempts, t, []));
  }

  lemma StepEvolves(plan: Plan, job: Job, step: Step, t: Task)
    requires ValidJob(plan, job) && Allowed(plan, job, step) && t in job.tasks
    ensures var j := Apply(plan, job, step);
      t in j.tasks && Evolves(plan.parties[t], job.tasks[t], j.tasks[t], Lookup(AttemptsOf(step), t, []))
  {
    hide RunPass, RerunRows, Evolves, HeardAll, HonestInbox;
    match step
    case PassStep(inbox, answers, attempts) =>
      PassEvolves(plan, job, inbox, answers, attempts, t);
    case ReportStep(s, v, r) =>
      assert SameShape(job.tasks[t], Apply(plan, job, step).tasks[t]);
      SameShapeEvolves(plan.parties[t], job.tasks[t], Apply(plan, job, step).tasks[t], []);
    case ManualRerunStep(rows, attempts) =>
      ManualRowsExist(job, rows);
      RerunEvolves(plan, job, rows, false, attempts, t);
    case _ =>
      SameShapeEvolves(plan.parties[t], job.tasks[t], job.tasks[t], []);
  }

  // ------------------------------------------------------------------
  // Version 0
  // ------------------------------------------------------------------

  /** Every task still has its version 0, with the budget it was given. */
  ghost predicate KeepsFirst(plan: Plan, job: Job, job': Job) {
    && ValidJob(plan, job) && ValidJob(plan, job')
    && forall t :: t in job.tasks ==> job'.tasks[t][0].value.retries == job.tasks[t][0].value.retries
  }

  lemma KeepsFirstTwice(plan: Plan, job: Job, mid: Job, job': Job)
    requires KeepsFirst(plan, job, mid) && KeepsFirst(plan, mid, job')
    ensures KeepsFirst(plan, job, job')
  {
  }

  /** Any step at all, calm or not, keeps the job valid and version 0. */
  lemma StepKeepsFirst(plan: Plan, job: Job, step: Step)
    requires ValidJob(plan, job) && Allowed(plan, job, step)
    ensures KeepsFirst(plan, job, Apply(plan, job, step))
  {
    hide FromSynced, AfterRound, RerunRows, HonestInbox, Honest, SelectedRow, Folded, HeardAll;
    match step
    case PassStep(inbox, answers, attempts) =>
      PassIsAfterRound(plan, job, inbox, answers, attempts);
      var synced := SyncedJob(job, inbox);
      SyncedFirst(plan, job, inbox);
      AfterRoundFirst(plan, synced, answers, attempts);
      KeepsFirstTwice(plan, job, synced, AfterRound(plan, FromSynced(plan, synced, answers), attempts).job);
    case ReportStep(_, _, _) =>
    case ManualRerunStep(rows, attempts) =>
      RerunFirst(plan, job, rows, false, attempts);
    case _ =>
  }

  lemma AfterRoundFirst(plan: Plan, synced: Job, answers: Answers, attempts: Attempts)
    requires ValidJob(plan, synced) && GoodRound(plan, FromSynced(plan, synced, answers))
    ensures KeepsFirst(plan, synced, AfterRound(plan, FromSynced(plan, synced, answers), attempts).job)
  {
    FromSyncedFirst(plan, synced, answers);
    hide FromSynced, RerunRows, Rerun, PersistedStatus, AutoRows, PassStatus;
    var r := FromSynced(plan, synced, answers);
    var p := AfterRound(plan, r, attempts);
    if p.status.Some? {
      var settled := Settled(r.job, p.status.value);
      if r.retry != [] {
        RerunFirst(plan, settled, AutoRows(settled, r.shown, r.retry), true, attempts);
        KeepsFirstTwice(plan, synced, settled, p.job);
      }
    }
  }

  lemma FromSyncedFirst(plan: Plan, synced: Job, answers: Answers)
    requires ValidJob(plan, synced)
    ensures KeepsFirst(plan, synced, FromSynced(plan, synced, answers).job)
  {
    FromSyncedValid(plan, synced, answers);
    FromSyncedIs(plan, synced, answers);
    var r := FromSynced(plan, synced, answers);
    hide FromSynced, StartedJob;
    if r.job != synced {
      forall t | t in synced.tasks ensures r.job.tasks[t][0].value.retries == synced.tasks[t][0].value.retries {
        StartedOneShape(synced, Elements(r.sent), t);
      }
    }
  }

  /** The round after the sync either leaves the job alone or starts the tasks it sent for. */
  lemma FromSyncedIs(plan: Plan, synced: Job, answers: Answers)
    requires ValidJob(plan, synced)
    ensures var r := FromSynced(plan, synced, answers);
      r.job == synced || r.job == StartedJob(synced, Elements(r.sent))
  {
    hide StartedJob, WalkFrom, WaitingList, RetryList, AnyInterrupt;
  }

  lemma SyncedFirst(plan: Plan, job: Job, inbox: Inbox)
    requires ValidJob(plan, job)
    ensures KeepsFirst(plan, job, SyncedJob(job, inbox))
  {
    forall t | t in job.tasks ensures Synced(job.tasks[t], Lookup(inbox, t, []))[0].value.retries == job.tasks[t][0].value.retries {
      SyncedHead(job.tasks[t], Lookup(inbox, t, []));
    }
  }

  lemma PrepareFirst(parties: set<Party>, h: History, row: Row, auto: bool, answers: seq<Response>)
    requires ValidHistory(h)
    ensures var p := Prepare(parties, h, row, auto, false, answers);
      ValidHistory(p.history) && p.history[0] == h[0]
  {
  }

  lemma {:induction false} RerunFirst(plan: Plan, job: Job, rows: seq<Row>, auto: bool, attempts: Attempts)
    requires ValidJob(plan, job) && forall r :: r in rows ==> r.task in job.tasks
    ensures KeepsFirst(plan, job, Rerun(plan, job, rows, auto, attempts).job)
    ensures KeepsFirst(plan, job, RerunRows(plan, job, rows, auto, attempts).job)
    decreases |rows|
  {
    hide Prepare;
    if rows != [] {
      var r := rows[0];
      var p := PreparedRow(plan, job, r, auto, attempts);
      var job' := job.(tasks := job.tasks[r.task := p.history]);
      PrepareFirst(plan.parties[r.task], job.tasks[r.task], r, auto, Lookup(attempts, r.task, []));
      assert KeepsFirst(plan, job, job');
      if !p.raised {
        RerunFirst(plan, job', rows[1..], auto, attempts);
        KeepsFirstTwice(plan, job, job', RerunRows(plan, job', rows[1..], auto, attempts).job);
      }
    }
  }

  // ------------------------------------------------------------------
  // Whole runs
  // ------------------------------------------------------------------

  /** Over every run, calm or not: a version that a step adds to a task was offered in that step, one to three above
      an existing version, and every party of the task accepted that very number. */
  lemma AdoptedByEveryParty(plan: Plan, retries: int, js: seq<Job>, steps: seq<Step>, n: nat, t: Task, w: nat)
    requires IsRun(plan, retries, js, steps) && n < |steps| && t in plan.parties
    requires t in js[n].tasks && t in js[n + 1].tasks && IsNew(js[n].tasks[t], js[n + 1].tasks[t], w)
    ensures Adopted(plan.parties[t], js[n].tasks[t], Lookup(AttemptsOf(steps[n]), t, []), w)
  {
    assert Follows(plan, js[n], steps[n], js[n + 1]);
    hide Apply, Allowed, Adopted;
    StepEvolves(plan, js[n], steps[n], t);
  }

  /** And in every state each version has rows at exactly the task's parties, so those are the parties an offer
      goes to. */
  lemma {:induction false} RunRowsMatch(plan: Plan, retries: int, js: seq<Job>, steps: seq<Step>, n: nat)
    requires IsRun(plan, retries, js, steps) && n <= |steps|
    ensures RowsMatch(plan, js[n])
  {
    hide Apply, Allowed, Adopted, OwnRows, InitialJob;
    if n == 0 {
      InitialRowsMatch(plan, retries);
    } else {
      RunRowsMatch(plan, retries, js, steps, n - 1);
      var job, step := js[n - 1], steps[n - 1];
      assert Follows(plan, job, step, js[n]);
      StepKeepsFirst(plan, job, step);
      forall t | t in js[n].tasks ensures OwnRows(plan.parties[t], js[n].tasks[t]) {
        StepEvolves(plan, job, step, t);
      }
    }
  }

  lemma InitialRowsMatch(plan: Plan, retries: int)
    requires ValidPlan(plan)
    ensures RowsMatch(plan, InitialJob(plan, retries))
  {
  }

  /** Every version a task was given at creation still exists, so its budget can be read off. */
  lemma {:induction false} FirstVersionStays(plan: Plan, retries: int, js: seq<Job>, steps: seq<Step>, n: nat, t: Task)
    requires IsRun(plan, retries, js, steps) && n <= |steps| && t in plan.deps
    ensures ValidJob(plan, js[n])
    ensures js[n].tasks[t][0].value.retries == retries
  {
    if n == 0 {
    } else {
      FirstVersionStays(plan, retries, js, steps, n - 1, t);
      assert Follows(plan, js[n - 1], steps[n - 1], js[n]);
      StepKeepsFirst(plan, js[n - 1], steps[n - 1]);
    }
  }
}
