// What reruns achieve: which tasks get a new version, which number and budget
// it has, and that no other task is touched.
module Retries {
  import opened Common
  import opened Statuses
  import opened Federated
  import opened Jobs
  import opened Rounds
  import opened Reruns
  import opened Runs
  import opened Versions
  import opened Termination

  /** h' is h with one version more: WAITING in its status row and at every one of the parties, with this budget. */
  ghost predicate NextVersion(parties: set<Party>, h: History, h': History, retries: int) {
    && h != [] && |h'| == |h| + 1 && h'[..|h|] == h && ValidHistory(h')
    && Head(h').status == Waiting && Head(h').retries == retries
    && Head(h').parties.Keys == parties && forall p :: p in parties ==> Head(h').parties[p] == Waiting
  }

  /** Every one of the parties accepts the first number it is offered. */
  ghost predicate AtOnce(parties: set<Party>, answers: seq<Response>) {
    Heard(parties, answers) && AcceptedBy(parties, answers, 0)
  }

  lemma AtOnceAccepts(parties: set<Party>, version: nat, answers: seq<Response>)
    requires AtOnce(parties, answers)
    ensures AcceptedVersion(version, answers) == Some(version + 1)
  {
    hide Heard, AcceptedVersion, AcceptedBy;
    AcceptedByEveryParty(parties, version, answers);
    assert FirstAccepted(parties, answers, 0);
  }

  lemma InsertedNext(parties: set<Party>, h: History, retries: int, origin: Origin)
    requires ValidHistory(h)
    ensures NextVersion(parties, h, Inserted(h, |h|, FreshVersion(parties, retries, origin)), retries)
  {
    var v := FreshVersion(parties, retries, origin);
    assert Inserted(h, |h|, v) == h + [Some(v)];
  }

  // ------------------------------------------------------------------
  // One task
  // ------------------------------------------------------------------

  /** Version w and nothing else is new in h': WAITING everywhere, with this budget; a version that had rows keeps
      them. */
  ghost predicate OneMore(parties: set<Party>, h: History, h': History, w: nat, retries: int) {
    && |h'| == (if w < |h| then |h| else w + 1) && w < |h'|
    && (forall u :: 0 <= u < |h'| && u != w ==> h'[u] == if u < |h| then h[u] else None)
    && (if w < |h| && h[w].Some? then h'[w] == h[w]
        else
          && h'[w].Some? && h'[w].value.status == Waiting && h'[w].value.retries == retries
          && h'[w].value.parties.Keys == parties && forall p :: p in parties ==> h'[w].value.parties[p] == Waiting)
  }

  /** Which rows are rerun: all when forced; otherwise none that is SUCCESS, and automatically none without retries.  A
      WAITING row needs no new version.  Otherwise the first offer that succeeds is made the task's version, an automatic
      one with one retry less; if none of the three does, an exception is raised and nothing changes. */
  lemma PrepareMeaning(parties: set<Party>, h: History, row: Row, auto: bool, force: bool, answers: seq<Response>)
    ensures var p := Prepare(parties, h, row, auto, force, answers);
      && (p.can <==> force || (row.status != Success && (auto ==> row.retries >= 1)))
      && (!p.can || row.status == Waiting ==> p.history == h && !p.raised)
      && (p.can && row.status != Waiting ==>
            && (p.raised <==> forall k: nat :: k < RETRY_TIMES ==> !AllOk(Answer(answers, k)))
            && (p.raised ==> p.history == h)
            && (forall k: nat :: k < RETRY_TIMES && FirstOk(answers, k) ==>
                  OneMore(parties, h, p.history, row.version + 1 + k, if auto && !force then row.retries - 1 else row.retries)))
  {
    OffersInOrder(row.version, answers);
    hide AllOk, Answer, OneMore, AcceptedVersion;
    var accepted := AcceptedVersion(row.version, answers);
    if accepted.Some? {
      InsertedOneMore(parties, h, accepted.value, if auto && !force then row.retries - 1 else row.retries,
                      if auto && !force then ByAutoRerun else ByManualRerun);
      forall k: nat | k < RETRY_TIMES && FirstOk(answers, k) ensures accepted.value == row.version + 1 + k {
        FirstOkOnce(answers, k, accepted.value - row.version - 1);
      }
    } else {
      forall k: nat | k < RETRY_TIMES ensures !FirstOk(answers, k) {
      }
    }
    hide Inserted, FreshVersion, FirstOk;
  }

  lemma FirstOkOnce(answers: seq<Response>, k: nat, m: nat)
    requires FirstOk(answers, k) && FirstOk(answers, m)
    ensures k == m
  {
  }

  /** Offer k is the first that succeeds. */
  ghost predicate FirstOk(answers: seq<Response>, k: nat) {
    AllOk(Answer(answers, k)) && forall j: nat :: j < k ==> !AllOk(Answer(answers, j))
  }

  lemma InsertedOneMore(parties: set<Party>, h: History, w: nat, retries: int, origin: Origin)
    ensures OneMore(parties, h, Inserted(h, w, FreshVersion(parties, retries, origin)), w, retries)
  {
  }

  // ------------------------------------------------------------------
  // Automatic reruns
  // ------------------------------------------------------------------

  /** With the reports of this pass the task fails or times out, and it has retries left. */
  predicate WantsRetry(job: Job, inbox: Inbox, t: Task)
    requires t in job.tasks && ValidHistory(job.tasks[t])
  {
    var s := Folded(Collected(Head(job.tasks[t]), Lookup(inbox, t, [])));
    (s == Failed || s == Timeout) && Head(job.tasks[t]).retries > 0
  }

  lemma AutoPrepared(parties: set<Party>, h: History, row: Row, answers: seq<Response>)
    requires ValidHistory(h) && row.version == Latest(h) && row.retries > 0 && row.retries == Head(h).retries
    requires (row.status == Failed || row.status == Timeout) && AtOnce(parties, answers)
    ensures var p := Prepare(parties, h, row, true, false, answers);
      !p.raised && NextVersion(parties, h, p.history, Head(h).retries - 1)
  {
    AtOnceAccepts(parties, row.version, answers);
    InsertedNext(parties, h, row.retries - 1, ByAutoRerun);
    hide AcceptedVersion, FreshVersion, Inserted, NextVersion, AtOnce;
  }

  /** The retry list holds exactly the tasks that want a retry, unless the job is cancelled. */
  lemma RetryListIs(plan: Plan, job: Job, inbox: Inbox, answers: Answers, t: Task)
    requires ValidJob(plan, job) && ValidJob(plan, SyncedJob(job, inbox)) && !job.cancel && t in job.tasks
    ensures t in FromSynced(plan, SyncedJob(job, inbox), answers).retry <==> WantsRetry(job, inbox, t)
  {
    var synced := SyncedJob(job, inbox);
    hide Collected, Folded, WalkFrom, WaitingList, StartedJob;
    SyncedHead(job.tasks[t], Lookup(inbox, t, []));
    RetryListMembers(plan.names, synced, Shown(synced));
    assert t in Elements(plan.names);
  }

  /** Each listed task has its row among those of the automatic rerun. */
  lemma AutoRowOf(job: Job, shown: map<Task, Status>, retry: seq<Task>, t: Task) returns (i: nat)
    requires forall u :: u in retry ==> u in shown && u in job.tasks && ValidHistory(job.tasks[u])
    requires t in retry
    ensures i < |AutoRows(job, shown, retry)|
    ensures AutoRows(job, shown, retry)[i] == Row(t, Latest(job.tasks[t]), shown[t], Head(job.tasks[t]).retries)
  {
    i :| i < |retry| && retry[i] == t;
  }

  lemma AutoRowIs(job: Job, shown: map<Task, Status>, retry: seq<Task>, i: nat)
    requires forall u :: u in retry ==> u in shown && u in job.tasks && ValidHistory(job.tasks[u])
    requires i < |AutoRows(job, shown, retry)|
    ensures var r := AutoRows(job, shown, retry)[i];
      r.task in retry && r == Row(r.task, Latest(job.tasks[r.task]), shown[r.task], Head(job.tasks[r.task]).retries)
  {
    assert retry[i] in retry;
  }

  /** The rows of an automatic rerun in which every task accepts at once. */
  ghost predicate GoodRows(plan: Plan, job: Job, rows: seq<Row>, attempts: Attempts)
    requires ValidJob(plan, job)
  {
    && DistinctTasks(rows) && (forall r :: r in rows ==> r.task in job.tasks)
    && forall r :: r in rows ==> GoodRow(plan, job, r, attempts)
  }

  ghost predicate GoodRow(plan: Plan, job: Job, r: Row, attempts: Attempts)
    requires ValidJob(plan, job)
  {
    && r.task in job.tasks && AtOnce(plan.parties[r.task], Lookup(attempts, r.task, []))
    && r.version == Latest(job.tasks[r.task]) && r.retries > 0 && r.retries == Head(job.tasks[r.task]).retries
    && (r.status == Failed || r.status == Timeout)
  }

  lemma GoodRowsGoThrough(plan: Plan, job: Job, rows: seq<Row>, attempts: Attempts, i: nat)
    requires ValidJob(plan, job) && GoodRows(plan, job, rows, attempts) && i <= |rows|
    ensures GoesThrough(plan, job, rows, true, attempts, i)
  {
    hide Prepare, AtOnce, NextVersion;
    assert forall j :: 0 <= j < |rows| ==> rows[j] in rows;
    forall j: nat | j < i ensures !PreparedRow(plan, job, rows[j], true, attempts).raised {
      var t := rows[j].task;
      assert rows[j] in rows && GoodRow(plan, job, rows[j], attempts);
      AutoPrepared(plan.parties[t], job.tasks[t], rows[j], Lookup(attempts, t, []));
    }
  }

  /** All rows are rerun, not just the first. */
  lemma GoodRowsRerun(plan: Plan, job: Job, rows: seq<Row>, attempts: Attempts, i: nat)
    requires ValidJob(plan, job) && GoodRows(plan, job, rows, attempts) && i < |rows|
    ensures var t, j := rows[i].task, RerunRows(plan, job, rows, true, attempts).job;
      t in job.tasks && t in j.tasks && NextVersion(plan.parties[t], job.tasks[t], j.tasks[t], Head(job.tasks[t]).retries - 1)
  {
    hide Prepare, AtOnce, NextVersion, RerunRows;
    var t := rows[i].task;
    assert rows[i] in rows && GoodRow(plan, job, rows[i], attempts);
    GoodRowsGoThrough(plan, job, rows, attempts, i);
    RerunRowsEach(plan, job, rows, true, attempts, i);
    AutoPrepared(plan.parties[t], job.tasks[t], rows[i], Lookup(attempts, t, []));
  }

  lemma GoodRowsNeverRaise(plan: Plan, job: Job, rows: seq<Row>, attempts: Attempts)
    requires ValidJob(plan, job) && GoodRows(plan, job, rows, attempts)
    ensures !RerunRows(plan, job, rows, true, attempts).raised
  {
    hide Prepare, AtOnce, NextVersion, GoodRow;
    GoodRowsGoThrough(plan, job, rows, attempts, |rows|);
    RaisedIff(plan, job, rows, true, attempts);
  }

  lemma {:induction false} RaisedIff(plan: Plan, job: Job, rows: seq<Row>, auto: bool, attempts: Attempts)
    requires forall r :: r in rows ==> r.task in job.tasks && r.task in plan.parties
    requires DistinctTasks(rows)
    ensures RerunRows(plan, job, rows, auto, attempts).raised <==> !GoesThrough(plan, job, rows, auto, attempts, |rows|)
    decreases |rows|
  {
    hide Prepare, DistinctTasks;
    if rows != [] {
      var job' := job.(tasks := job.tasks[rows[0].task := PreparedRow(plan, job, rows[0], auto, attempts).history]);
      DistinctRest(rows);
      if !PreparedRow(plan, job, rows[0], auto, attempts).raised {
        RaisedIff(plan, job', rows[1..], auto, attempts);
        GoesOnToEnd(plan, job, rows, auto, attempts);
      }
    }
  }

  lemma GoesOnToEnd(plan: Plan, job: Job, rows: seq<Row>, auto: bool, attempts: Attempts)
    requires forall r :: r in rows ==> r.task in job.tasks && r.task in plan.parties
    requires DistinctTasks(rows) && rows != [] && !PreparedRow(plan, job, rows[0], auto, attempts).raised
    ensures var job' := job.(tasks := job.tasks[rows[0].task := PreparedRow(plan, job, rows[0], auto, attempts).history]);
      && (forall r :: r in rows[1..] ==> r.task in job'.tasks && r.task in plan.parties)
      && (GoesThrough(plan, job', rows[1..], auto, attempts, |rows| - 1) <==> GoesThrough(plan, job, rows, auto, attempts, |rows|))
  {
    hide Prepare;
    DistinctRest(rows);
    var job' := job.(tasks := job.tasks[rows[0].task := PreparedRow(plan, job, rows[0], auto, attempts).history]);
    forall j | 0 <= j < |rows| - 1
      ensures PreparedRow(plan, job', rows[1..][j], auto, attempts) == PreparedRow(plan, job, rows[j + 1], auto, attempts)
    {
      assert rows[1..][j] == rows[j + 1];
    }
    if GoesThrough(plan, job', rows[1..], auto, attempts, |rows| - 1) {
      forall j | 0 <= j < |rows| ensures !PreparedRow(plan, job, rows[j], auto, attempts).raised {
        assert j > 0 ==> rows[1..][j - 1] == rows[j];
      }
    }
  }

  lemma RowsOfList(plan: Plan, job: Job, inbox: Inbox, answers: Answers, attempts: Attempts, settled: Job)
    requires ValidJob(plan, job) && ValidJob(plan, SyncedJob(job, inbox)) && !job.cancel
    requires settled.tasks == SyncedJob(job, inbox).tasks
    requires forall t :: t in job.tasks && WantsRetry(job, inbox, t) ==> AtOnce(plan.parties[t], Lookup(attempts, t, []))
    ensures var r := FromSynced(plan, SyncedJob(job, inbox), answers);
      && ValidJob(plan, settled) && (forall t :: t in r.retry ==> t in r.shown && t in settled.tasks)
      && (r.retry != [] ==> GoodRows(plan, settled, AutoRows(settled, r.shown, r.retry), attempts))
  {
    var synced := SyncedJob(job, inbox);
    var r := FromSynced(plan, synced, answers);
    RetryListed(plan, synced, answers);
    if r.retry != [] {
      AutoRowsSafe(plan, synced, answers, settled, attempts);
      hide FromSynced, AtOnce, WantsRetry, SafeRows;
      var rows := AutoRows(settled, r.shown, r.retry);
      forall row | row in rows ensures GoodRow(plan, settled, row, attempts) {
        var i: nat :| i < |rows| && rows[i] == row;
        AutoRowIs(settled, r.shown, r.retry, i);
        RetryListIs(plan, job, inbox, answers, row.task);
        assert WillRetry(synced, Shown(synced), row.task);
      }
    }
  }

  // ------------------------------------------------------------------
  // A whole pass
  // ------------------------------------------------------------------

  ghost predicate SomeRetry(job: Job, inbox: Inbox)
    requires ValidRows(job.tasks)
  {
    exists t :: t in job.tasks && WantsRetry(job, inbox, t)
  }

  /** What the pass leaves of task t. */
  ghost predicate RetriedAfter(plan: Plan, job: Job, inbox: Inbox, t: Task, after: Job)
    requires ValidJob(plan, job) && t in job.tasks
  {
    t in after.tasks &&
    if WantsRetry(job, inbox, t)
    then NextVersion(plan.parties[t], Synced(job.tasks[t], Lookup(inbox, t, [])), after.tasks[t], Head(job.tasks[t]).retries - 1)
    else |after.tasks[t]| == |job.tasks[t]|
  }

  /** After a pass that does not raise, over a job that is not cancelled and whose tasks' parties accept at once, every
      task that fails or times out with retries left has one version more, WAITING with one retry less, and the rerun
      signal is up; every other task keeps its version. */
  lemma FailedTasksAreRerun(plan: Plan, job: Job, inbox: Inbox, answers: Answers, attempts: Attempts)
    requires ValidJob(plan, job) && !job.cancel && RunPass(plan, job, inbox, answers, attempts).status.Some?
    requires forall t :: t in job.tasks && WantsRetry(job, inbox, t) ==> AtOnce(plan.parties[t], Lookup(attempts, t, []))
    ensures var p := RunPass(plan, job, inbox, answers, attempts);
      && (forall t :: t in job.tasks ==> RetriedAfter(plan, job, inbox, t, p.job))
      && (if SomeRetry(job, inbox) then p.job.rerun && !p.job.cancel
          else p.job.rerun == job.rerun && p.job.cancel == (p.status == Some(Canceled)))
  {
    PassIsAfterRound(plan, job, inbox, answers, attempts);
    var synced := SyncedJob(job, inbox);
    var r := FromSynced(plan, synced, answers);
    forall t | t in job.tasks ensures t in r.retry <==> WantsRetry(job, inbox, t) {
      RetryListIs(plan, job, inbox, answers, t);
    }
    RetryListed(plan, synced, answers);
    hide FromSynced, RunPass, WantsRetry, RetriedAfter, AtOnce, AfterRound;
    var p := RunPass(plan, job, inbox, answers, attempts);
    if r.retry == [] {
      NothingRerun(plan, job, inbox, answers, attempts);
      assert !SomeRetry(job, inbox);
    } else {
      assert r.retry[0] in r.retry && WantsRetry(job, inbox, r.retry[0]);
      assert SomeRetry(job, inbox);
      ListRerun(plan, job, inbox, answers, attempts);
    }
  }

  lemma NothingRerun(plan: Plan, job: Job, inbox: Inbox, answers: Answers, attempts: Attempts)
    requires ValidJob(plan, job) && ValidJob(plan, SyncedJob(job, inbox)) && !job.cancel
    requires GoodRound(plan, FromSynced(plan, SyncedJob(job, inbox), answers))
    requires FromSynced(plan, SyncedJob(job, inbox), answers).retry == []
    requires forall t :: t in job.tasks ==> !WantsRetry(job, inbox, t)
    requires AfterRound(plan, FromSynced(plan, SyncedJob(job, inbox), answers), attempts).status.Some?
    ensures var p := AfterRound(plan, FromSynced(plan, SyncedJob(job, inbox), answers), attempts);
      && (forall t :: t in job.tasks ==> RetriedAfter(plan, job, inbox, t, p.job))
      && p.job.rerun == job.rerun && p.job.cancel == (p.status == Some(Canceled))
  {
    var synced := SyncedJob(job, inbox);
    RoundSignals(plan, synced, answers);
    forall t | t in job.tasks
      ensures t in FromSynced(plan, synced, answers).job.tasks
      ensures |FromSynced(plan, synced, answers).job.tasks[t]| == |job.tasks[t]|
    {
      RoundShape(plan, synced, answers, t);
    }
    hide FromSynced, PassStatus, WantsRetry, NextVersion, Synced;
  }

  lemma ListRerun(plan: Plan, job: Job, inbox: Inbox, answers: Answers, attempts: Attempts)
    requires ValidJob(plan, job) && ValidJob(plan, SyncedJob(job, inbox)) && !job.cancel
    requires GoodRound(plan, FromSynced(plan, SyncedJob(job, inbox), answers))
    requires FromSynced(plan, SyncedJob(job, inbox), answers).retry != []
    requires forall t :: t in job.tasks && WantsRetry(job, inbox, t) ==> AtOnce(plan.parties[t], Lookup(attempts, t, []))
    requires AfterRound(plan, FromSynced(plan, SyncedJob(job, inbox), answers), attempts).status.Some?
    ensures var p := AfterRound(plan, FromSynced(plan, SyncedJob(job, inbox), answers), attempts);
      && (forall t :: t in job.tasks ==> RetriedAfter(plan, job, inbox, t, p.job))
      && p.job.rerun && !p.job.cancel
  {
    var synced := SyncedJob(job, inbox);
    var r := FromSynced(plan, synced, answers);
    RetryListed(plan, synced, answers);
    hide FromSynced, PassStatus, RerunRows, GoodRows, RetriedAfter, AtOnce, WantsRetry;
    var settled := Settled(r.job, PassStatus(r).value);
    RowsOfList(plan, job, inbox, answers, attempts, settled);
    var rows := AutoRows(settled, r.shown, r.retry);
    GoodRowsNeverRaise(plan, settled, rows, attempts);
    RerunRowsFrame(plan, settled, rows, true, attempts);
    forall t | t in job.tasks ensures RetriedAfter(plan, job, inbox, t, RerunRows(plan, settled, rows, true, attempts).job) {
      RetryListIs(plan, job, inbox, answers, t);
      OneRetried(plan, job, inbox, answers, attempts, settled, t);
    }
    SameRetried(plan, job, inbox, RerunRows(plan, settled, rows, true, attempts).job,
                AfterRound(plan, r, attempts).job);
  }

  lemma SameRetried(plan: Plan, job: Job, inbox: Inbox, j: Job, j': Job)
    requires ValidJob(plan, job) && j.tasks == j'.tasks
    requires forall t :: t in job.tasks ==> RetriedAfter(plan, job, inbox, t, j)
    ensures forall t :: t in job.tasks ==> RetriedAfter(plan, job, inbox, t, j')
  {
    hide WantsRetry, NextVersion;
    forall t | t in job.tasks ensures RetriedAfter(plan, job, inbox, t, j') {
      assert RetriedAfter(plan, job, inbox, t, j);
    }
  }

  lemma OneRetried(plan: Plan, job: Job, inbox: Inbox, answers: Answers, attempts: Attempts, settled: Job, t: Task)
    requires ValidJob(plan, job) && ValidJob(plan, SyncedJob(job, inbox)) && !job.cancel && t in job.tasks
    requires settled.tasks == SyncedJob(job, inbox).tasks && ValidJob(plan, settled)
    requires var r := FromSynced(plan, SyncedJob(job, inbox), answers);
      && (forall u :: u in r.retry ==> u in r.shown && u in settled.tasks) && (t in r.retry <==> WantsRetry(job, inbox, t))
      && GoodRows(plan, settled, AutoRows(settled, r.shown, r.retry), attempts)
    ensures var r := FromSynced(plan, SyncedJob(job, inbox), answers);
      RetriedAfter(plan, job, inbox, t, RerunRows(plan, settled, AutoRows(settled, r.shown, r.retry), true, attempts).job)
  {
    var r := FromSynced(plan, SyncedJob(job, inbox), answers);
    SyncedHead(job.tasks[t], Lookup(inbox, t, []));
    OneOfList(plan, settled, r.shown, r.retry, attempts, t);
    hide FromSynced, RerunRows, NextVersion, WantsRetry, Synced, AutoRows;
  }

  lemma OneOfList(plan: Plan, job: Job, shown: map<Task, Status>, retry: seq<Task>, attempts: Attempts, t: Task)
    requires ValidJob(plan, job) && t in job.tasks
    requires forall u :: u in retry ==> u in shown && u in job.tasks
    requires GoodRows(plan, job, AutoRows(job, shown, retry), attempts)
    ensures var j := RerunRows(plan, job, AutoRows(job, shown, retry), true, attempts).job;
      && t in j.tasks
      && (t in retry ==> NextVersion(plan.parties[t], job.tasks[t], j.tasks[t], Head(job.tasks[t]).retries - 1))
      && (t !in retry ==> j.tasks[t] == job.tasks[t])
  {
    var rows := AutoRows(job, shown, retry);
    RerunRowsFrame(plan, job, rows, true, attempts);
    hide RerunRows, NextVersion;
    if t in retry {
      var i := AutoRowOf(job, shown, retry, t);
      GoodRowsRerun(plan, job, rows, attempts, i);
    } else {
      forall row | row in rows ensures row.task != t {
        var i: nat :| i < |rows| && rows[i] == row;
        AutoRowIs(job, shown, retry, i);
      }
    }
  }

  // ------------------------------------------------------------------
  // Manual reruns
  // ------------------------------------------------------------------

  /** No version's status row shows an interrupt. */
  ghost predicate NeverInterrupted(h: History) {
    forall v :: 0 <= v < |h| && h[v].Some? ==> h[v].value.status !in {Canceled, Timeout, Failed}
  }

  /** What a manual rerun leaves of a task whose parties accept at once. */
  ghost predicate RerunAfter(parties: set<Party>, h: History, h': History)
    requires ValidHistory(h)
  {
    && (Head(h).status in {Canceled, Timeout, Failed} ==> NextVersion(parties, h, h', Head(h).retries))
    && (NeverInterrupted(h) ==> h' == h)
  }

  /** A manual rerun that the tasks' parties accept at once gives every task whose latest status row is interrupted one
      version more, WAITING with the same budget, leaves tasks that were never interrupted alone, asks for the job's
      rerun and withdraws its cancel. */
  lemma InterruptedTasksAreRerun(plan: Plan, job: Job, rows: seq<Row>, attempts: Attempts)
    requires ValidJob(plan, job) && ManualRows(job, rows)
    requires forall r :: r in rows ==> AtOnce(plan.parties[r.task], Lookup(attempts, r.task, []))
    ensures var after := Rerun(plan, job, rows, false, attempts);
      && !after.raised && after.job.rerun && !after.job.cancel
      && forall t :: t in job.tasks ==> t in after.job.tasks && RerunAfter(plan.parties[t], job.tasks[t], after.job.tasks[t])
  {
    hide RerunRows, AtOnce, RerunAfter, Prepare, ValidHistory;
    RerunRowsFrame(plan, job, rows, false, attempts);
    ManualGoesThrough(plan, job, rows, attempts, |rows|);
    RaisedIff(plan, job, rows, false, attempts);
    forall t | t in job.tasks
      ensures RerunAfter(plan.parties[t], job.tasks[t], RerunRows(plan, job, rows, false, attempts).job.tasks[t])
    {
      if i: nat :| i < |rows| && rows[i].task == t {
        OneManual(plan, job, rows, attempts, i);
      } else {
        NotSelected(plan, job, rows, t);
        Untouched(plan.parties[t], job.tasks[t]);
      }
    }
  }

  lemma ManualGoesThrough(plan: Plan, job: Job, rows: seq<Row>, attempts: Attempts, i: nat)
    requires ValidJob(plan, job) && ManualRows(job, rows) && i <= |rows|
    requires forall r :: r in rows ==> AtOnce(plan.parties[r.task], Lookup(attempts, r.task, []))
    ensures GoesThrough(plan, job, rows, false, attempts, i)
  {
    hide Prepare, AtOnce, AcceptedVersion, ManualRows;
    forall j: nat | j < i ensures rows[j].task in job.tasks && !PreparedRow(plan, job, rows[j], false, attempts).raised {
      SelectedRowIsInterrupted(job, rows, j);
      var t := rows[j].task;
      assert rows[j] in rows;
      AtOnceAccepts(plan.parties[t], rows[j].version, Lookup(attempts, t, []));
      PrepareLength(plan.parties[t], job.tasks[t], rows[j], Lookup(attempts, t, []));
    }
  }

  lemma OneManual(plan: Plan, job: Job, rows: seq<Row>, attempts: Attempts, i: nat)
    requires ValidJob(plan, job) && ManualRows(job, rows) && i < |rows|
    requires forall r :: r in rows ==> AtOnce(plan.parties[r.task], Lookup(attempts, r.task, []))
    ensures var t, j := rows[i].task, RerunRows(plan, job, rows, false, attempts).job;
      t in job.tasks && t in j.tasks && RerunAfter(plan.parties[t], job.tasks[t], j.tasks[t])
  {
    ManualGoesThrough(plan, job, rows, attempts, i);
    var t, h := rows[i].task, job.tasks[rows[i].task];
    assert rows[i] in rows;
    SelectedIs(t, h);
    hide RerunRows, AtOnce, Prepare, NextVersion, SelectedRow, NeverInterrupted;
    RerunRowsEach(plan, job, rows, false, attempts, i);
    if Head(h).status in {Canceled, Timeout, Failed} {
      ManualPrepared(plan.parties[t], h, rows[i], Lookup(attempts, t, []));
    }
  }

  /** The newest version is picked if it is interrupted, and nothing if no version is. */
  lemma SelectedIs(t: Task, h: History)
    requires ValidHistory(h)
    ensures Head(h).status in {Canceled, Timeout, Failed} ==>
      SelectedRow(t, h) == Some(Row(t, Latest(h), Head(h).status, Head(h).retries))
    ensures NeverInterrupted(h) ==> SelectedRow(t, h) == None
    ensures SelectedRow(t, h) == None ==> Head(h).status !in {Canceled, Timeout, Failed}
  {
    SelectedBelowMeaning(h, |h|);
  }

  lemma Untouched(parties: set<Party>, h: History)
    requires ValidHistory(h) && Head(h).status !in {Canceled, Timeout, Failed}
    ensures RerunAfter(parties, h, h)
  {
  }

  lemma ManualPrepared(parties: set<Party>, h: History, row: Row, answers: seq<Response>)
    requires ValidHistory(h) && row.version == Latest(h) && row.retries == Head(h).retries
    requires row.status in {Canceled, Timeout, Failed} && AtOnce(parties, answers)
    ensures NextVersion(parties, h, Prepare(parties, h, row, false, false, answers).history, Head(h).retries)
  {
    AtOnceAccepts(parties, row.version, answers);
    InsertedNext(parties, h, row.retries, ByManualRerun);
    hide AcceptedVersion, FreshVersion, Inserted, NextVersion, AtOnce;
  }

  lemma NotSelected(plan: Plan, job: Job, rows: seq<Row>, t: Task)
    requires ValidJob(plan, job) && ManualRows(job, rows) && t in job.tasks
    requires forall i :: 0 <= i < |rows| ==> rows[i].task != t
    ensures forall r :: r in rows ==> r.task != t
    ensures Head(job.tasks[t]).status !in {Canceled, Timeout, Failed}
  {
    SelectedIs(t, job.tasks[t]);
    forall r | r in rows ensures r.task != t {
      var i :| 0 <= i < |rows| && rows[i] == r;
    }
    assert SelectedRow(t, job.tasks[t]).Some? ==> SelectedRow(t, job.tasks[t]).value.task == t;
  }
}
