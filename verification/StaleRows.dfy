// Why a manual rerun needs its conditions: a run of two tasks, one of which was
// rerun automatically, that ends with a SUCCESS task on a task that is not.
module StaleRows {
  import opened Common
  import opened Statuses
  import opened Aggregation
  import opened Federated
  import opened Jobs
  import opened Rounds
  import opened Reruns
  import opened Runs
  import opened Budgets

  /** b depends on a, and one party runs both. */
  function PairPlan(a: Task, b: Task, p: Party): Plan {
    Plan([a, b], map[a := [], b := [a]], map[a := {p}, b := {p}])
  }

  function Solo(p: Party, status: Status, row: Status, retries: int, origin: Origin): Option<Version> {
    Some(Version(status, retries, origin, map[p := row]))
  }

  function Fresh(p: Party): History {
    [Solo(p, Waiting, Waiting, 1, Created)]
  }

  /** Version 0 of a failed at its party. */
  function FailedOnce(p: Party, next: Option<Version>): History {
    [Solo(p, Failed, Failed, 1, Created), next]
  }

  function PairJob(a: Task, b: Task, ha: History, hb: History, status: Status, started: set<(Task, nat)>): Job {
    Job(map[a := ha, b := hb], status, false, false, started)
  }

  /** The states of the run: the first task is started; */
  function FirstStarted(a: Task, b: Task, p: Party): Job {
    PairJob(a, b, [Solo(p, Running, Waiting, 1, Created)], Fresh(p), Running, {(a, 0)})
  }

  /** it fails and gets an automatic version 1, every party agrees to the rerun and the job waits again; */
  function Requested(a: Task, b: Task, p: Party): Job {
    PairJob(a, b, FailedOnce(p, Solo(p, Waiting, Waiting, 0, ByAutoRerun)), Fresh(p), Waiting, {(a, 0)})
  }

  /** version 1 is started; */
  function SecondStarted(a: Task, b: Task, p: Party): Job {
    PairJob(a, b, FailedOnce(p, Solo(p, Running, Waiting, 0, ByAutoRerun)), Fresh(p), Running, {(a, 0), (a, 1)})
  }

  /** it succeeds and the dependent task is started; */
  function DependentStarted(a: Task, b: Task, p: Party): Job {
    PairJob(a, b, FailedOnce(p, Solo(p, Success, Success, 0, ByAutoRerun)), [Solo(p, Running, Waiting, 1, Created)],
            Running, {(a, 0), (a, 1), (b, 0)})
  }

  /** that succeeds too, and the job is SUCCESS. */
  function StaleJob(a: Task, b: Task, p: Party): Job {
    PairJob(a, b, FailedOnce(p, Solo(p, Success, Success, 0, ByAutoRerun)), [Solo(p, Success, Success, 1, Created)],
            Success, {(a, 0), (a, 1), (b, 0)})
  }

  lemma SoloFold(v: Version, p: Party)
    requires v.parties.Keys == {p} && v.parties[p] != Pass
    ensures Folded(v) == v.parties[p]
  {
    assert v.parties.Values == {v.parties[p]};
  }

  // ------------------------------------------------------------------
  // Passes over two tasks
  // ------------------------------------------------------------------

  lemma PairLists(a: Task, b: Task, job: Job, shown: map<Task, Status>)
    ensures WaitingList([a, b], shown)
      == (if IsWaiting(shown, a) then [a] else []) + if IsWaiting(shown, b) then [b] else []
    ensures RetryList([a, b], job, shown)
      == (if WillRetry(job, shown, a) then [a] else []) + if WillRetry(job, shown, b) then [b] else []
  {
    var names := [a, b];
    assert names[..1] == [a] && [a][..0] == [];
    assert WaitingList([a], shown) == if IsWaiting(shown, a) then [a] else [];
    assert RetryList([a], job, shown) == if WillRetry(job, shown, a) then [a] else [];
  }

  /** A pass that finds exactly t ready, with resources granted. */
  ghost predicate Starts(plan: Plan, synced: Job, answers: Answers, t: Task)
    requires ValidJob(plan, synced)
  {
    && !synced.cancel && !AnyInterrupt(Shown(synced)) && t in synced.tasks
    && RetryList(plan.names, synced, Shown(synced)) == []
    && (forall u :: u in WaitingList(plan.names, Shown(synced)) ==> u in plan.deps)
    && WalkFrom(plan, Shown(synced), WaitingList(plan.names, Shown(synced)), answers) == Walk([t], Finished, true)
  }

  lemma StartingPass(plan: Plan, job: Job, inbox: Inbox, answers: Answers, attempts: Attempts, t: Task)
    requires ValidJob(plan, job) && ValidJob(plan, SyncedJob(job, inbox))
    requires Starts(plan, SyncedJob(job, inbox), answers, t)
    ensures RunPass(plan, job, inbox, answers, attempts).job
      == Settled(StartedJob(SyncedJob(job, inbox), {t}), Running)
  {
    hide WalkFrom, RetryList, WaitingList, StartedJob, SyncedJob, JobStatusOf, AnyInterrupt, Rerun;
    var synced := SyncedJob(job, inbox);
    PassIsAfterRound(plan, job, inbox, answers, attempts);
    var r := FromSynced(plan, synced, answers);
    assert Elements([t]) == {t};
    assert r.shown[t] in r.shown.Values;
    JobStatusMeaning(HaveNext, r.shown.Values);
  }

  // ------------------------------------------------------------------
  // The run
  // ------------------------------------------------------------------

  function Start(plan: Plan, t: Task, inbox: Inbox): Step {
    PassStep(inbox, map[t := StartOk], Turndown(plan, t, 0))
  }

  lemma FreshIs(p: Party, retries: int, origin: Origin)
    ensures Some(FreshVersion({p}, retries, origin)) == Solo(p, Waiting, Waiting, retries, origin)
  {
    assert FreshVersion({p}, retries, origin).parties == map[p := Waiting];
  }

  lemma InitialPair(a: Task, b: Task, p: Party)
    requires a != b
    ensures InitialJob(PairPlan(a, b, p), 1) == PairJob(a, b, Fresh(p), Fresh(p), Waiting, {})
  {
    FreshIs(p, 1, Created);
    hide FreshVersion;
    assert FirstRows(PairPlan(a, b, p).parties, 1) == map[a := Fresh(p), b := Fresh(p)];
  }

  lemma StartedPair(a: Task, b: Task, ha: History, hb: History, status: Status, started: set<(Task, nat)>, t: Task)
    requires a != b && ValidHistory(ha) && ValidHistory(hb) && (t == a || t == b)
    ensures StartedJob(PairJob(a, b, ha, hb, status, started), {t})
      == PairJob(a, b, if t == a then StartedHistory(ha) else ha, if t == b then StartedHistory(hb) else hb, status,
                 started + {(t, Latest(if t == a then ha else hb))})
  {
    hide StartedHistory;
    var job := PairJob(a, b, ha, hb, status, started);
    assert StartEntries(job.tasks, {t}) == {(t, Latest(if t == a then ha else hb))};
  }

  lemma SyncedPair(a: Task, b: Task, ha: History, hb: History, status: Status, started: set<(Task, nat)>, inbox: Inbox)
    requires a != b && ValidHistory(ha) && ValidHistory(hb)
    ensures SyncedJob(PairJob(a, b, ha, hb, status, started), inbox)
      == PairJob(a, b, Synced(ha, Lookup(inbox, a, [])), Synced(hb, Lookup(inbox, b, [])), status, started)
  {
    hide Synced;
  }

  /** A pass that starts t. */
  lemma PairPass(plan: Plan, job: Job, inbox: Inbox, t: Task)
    requires ValidJob(plan, job) && ValidJob(plan, SyncedJob(job, inbox)) && HonestInbox(job, inbox)
    requires Starts(plan, SyncedJob(job, inbox), map[t := StartOk], t)
    ensures Follows(plan, job, Start(plan, t, inbox), Settled(StartedJob(SyncedJob(job, inbox), {t}), Running))
  {
    hide Turndown, RunPass, HeardAll, HonestInbox, SyncedJob, Starts, StartedJob;
    TurndownHeard(plan, t, 0);
    StartingPass(plan, job, inbox, map[t := StartOk], Turndown(plan, t, 0), t);
  }

  /** What the sync makes of a task at one party. */
  lemma SoloSync(h: History, p: Party, reports: seq<Report>, row: Status)
    requires ValidHistory(h) && row != Pass && Collected(Head(h), reports).parties == map[p := row]
    ensures Synced(h, reports)
      == WithHead(h, Solo(p, Changed(Head(h).status, row), row, Head(h).retries, Head(h).origin).value)
  {
    hide Collected, Changed, Folded;
    CollectedFrame(Head(h), reports);
    SoloFold(Collected(Head(h), reports), p);
  }

  lemma QuietSync(h: History, p: Party)
    requires ValidHistory(h) && Head(h).parties == map[p := Waiting] && Head(h).status != Canceled
    ensures Synced(h, []) == h
  {
    SoloSync(h, p, [], Waiting);
    assert WithHead(h, Head(h)) == h;
  }

  lemma FirstIs(a: Task, b: Task, p: Party)
    requires a != b
    ensures Settled(StartedJob(PairJob(a, b, Fresh(p), Fresh(p), Waiting, {}), {a}), Running) == FirstStarted(a, b, p)
  {
    StartedPair(a, b, Fresh(p), Fresh(p), Waiting, {}, a);
    assert StartedHistory(Fresh(p)) == [Solo(p, Running, Waiting, 1, Created)];
    hide StartedJob, StartedHistory;
  }

  lemma FirstStart(a: Task, b: Task, p: Party)
    requires a != b
    ensures Follows(PairPlan(a, b, p), InitialJob(PairPlan(a, b, p), 1), Start(PairPlan(a, b, p), a, map[]), FirstStarted(a, b, p))
  {
    WaitingStart(a, b, p, Fresh(p), Waiting, {});
    hide *;
    InitialPair(a, b, p);
    FirstIs(a, b, p);
  }

  /** Both tasks wait and nothing is reported: the first is started. */
  lemma WaitingStart(a: Task, b: Task, p: Party, ha: History, status: Status, started: set<(Task, nat)>)
    requires a != b && ValidHistory(ha) && Head(ha).parties == map[p := Waiting] && Head(ha).status != Canceled
    ensures var plan, job := PairPlan(a, b, p), PairJob(a, b, ha, Fresh(p), status, started);
      Follows(plan, job, Start(plan, a, map[]), Settled(StartedJob(job, {a}), Running))
  {
    var plan, job := PairPlan(a, b, p), PairJob(a, b, ha, Fresh(p), status, started);
    SoloFold(Head(Fresh(p)), p);
    SoloFold(Head(ha), p);
    QuietSync(Fresh(p), p);
    QuietSync(ha, p);
    SyncedPair(a, b, ha, Fresh(p), status, started, map[]);
    hide Starts, SyncedJob, InitialJob, Folded, Follows, Synced, Shown;
    WaitingStarts(a, b, p, job, map[a := StartOk]);
    PairPass(plan, job, map[], a);
  }

  /** Both tasks wait: the first is started, the second is not ready. */
  lemma WaitingStarts(a: Task, b: Task, p: Party, job: Job, answers: Answers)
    requires a != b && ValidJob(PairPlan(a, b, p), job) && !job.cancel && Lookup(answers, a, NoResource) == StartOk
    requires Current(job.tasks[a]) == Waiting && Current(job.tasks[b]) == Waiting
    ensures Starts(PairPlan(a, b, p), job, answers, a)
  {
    hide Folded;
    var plan, shown := PairPlan(a, b, p), Shown(job);
    assert shown == map[a := Waiting, b := Waiting];
    PairLists(a, b, job, shown);
    assert [a, b][1..] == [b] && [b][1..] == [];
    assert WalkFrom(plan, shown, [b], answers) == Walk([], Finished, false);
    assert WalkFrom(plan, shown, [a, b], answers) == Walk([a], Finished, true);
  }

  // ------------------------------------------------------------------
  // The failure and its automatic rerun
  // ------------------------------------------------------------------

  function Failing(p: Party): seq<Report> {
    [Report(p, Running), Report(p, Failed)]
  }

  function FailStep(a: Task, b: Task, p: Party): Step {
    PassStep(map[a := Failing(p)], map[], Turndown(PairPlan(a, b, p), a, 0))
  }

  function FailedJob(a: Task, b: Task, p: Party): Job {
    PairJob(a, b, [Solo(p, Failed, Failed, 1, Created)], Fresh(p), Running, {(a, 0)})
  }

  /** The job asks for a rerun. */
  function Asking(a: Task, b: Task, p: Party): Job {
    Requested(a, b, p).(status := Failed, rerun := true)
  }

  lemma FailureCollected(v: Version, p: Party)
    requires v.parties == map[p := Waiting]
    ensures Collected(v, Failing(p)).parties == map[p := Failed]
  {
    var u := Reported(v, Report(p, Running));
    assert Failing(p)[1..] == [Report(p, Failed)] && [Report(p, Failed)][1..] == [];
    assert Collected(u, [Report(p, Failed)]) == Reported(u, Report(p, Failed));
  }

  lemma FailureSynced(a: Task, b: Task, p: Party)
    requires a != b
    ensures ValidRows(FirstStarted(a, b, p).tasks)
    ensures SyncedJob(FirstStarted(a, b, p), map[a := Failing(p)]) == FailedJob(a, b, p)
  {
    var h := [Solo(p, Running, Waiting, 1, Created)];
    FailureCollected(Head(h), p);
    SoloSync(h, p, Failing(p), Failed);
    assert Synced(h, Failing(p)) == [Solo(p, Failed, Failed, 1, Created)];
    QuietSync(Fresh(p), p);
    SyncedPair(a, b, h, Fresh(p), Running, {(a, 0)}, map[a := Failing(p)]);
    hide Synced, SyncedJob;
  }

  /** The first task failed with a retry left: nothing is started and it goes on the retry list. */
  lemma FailingRound(a: Task, b: Task, p: Party, job: Job)
    requires a != b && ValidJob(PairPlan(a, b, p), job) && !job.cancel && Head(job.tasks[a]).retries > 0
    requires Current(job.tasks[a]) == Failed && Current(job.tasks[b]) == Waiting
    ensures FromSynced(PairPlan(a, b, p), job, map[])
      == RoundResult(job, map[a := Failed, b := Waiting], [], Some(NoNext), [a])
  {
    hide Folded;
    var shown := Shown(job);
    assert shown == map[a := Failed, b := Waiting];
    PairLists(a, b, job, shown);
    assert Interrupt(shown[a]);
  }

  lemma FailureRound(a: Task, b: Task, p: Party)
    requires a != b
    ensures var plan, job := PairPlan(a, b, p), FailedJob(a, b, p);
      && ValidJob(plan, job)
      && FromSynced(plan, job, map[]) == RoundResult(job, map[a := Failed, b := Waiting], [], Some(NoNext), [a])
  {
    var job := FailedJob(a, b, p);
    SoloFold(Head(job.tasks[a]), p);
    SoloFold(Head(job.tasks[b]), p);
    hide Folded, FromSynced;
    FailingRound(a, b, p, job);
  }

  lemma RerunOne(plan: Plan, job: Job, r: Row, auto: bool, attempts: Attempts)
    requires r.task in job.tasks && r.task in plan.parties
    ensures var one := PreparedRow(plan, job, r, auto, attempts);
      RerunRows(plan, job, [r], auto, attempts) == RerunResult(job.(tasks := job.tasks[r.task := one.history]), one.raised)
  {
    hide Prepare;
    var rows := [r];
    assert rows[0] == r && rows[1..] == [];
  }

  /** The automatic rerun makes version 1 with one retry less. */
  lemma FailureRerun(a: Task, b: Task, p: Party)
    requires a != b
    ensures var plan, job := PairPlan(a, b, p), FailedJob(a, b, p).(status := Failed);
      Rerun(plan, job, [Row(a, 0, Failed, 1)], true, Turndown(plan, a, 0)).job == Asking(a, b, p)
  {
    hide Turndown, AcceptedVersion, FreshVersion;
    var plan, job, r := PairPlan(a, b, p), FailedJob(a, b, p).(status := Failed), Row(a, 0, Failed, 1);
    TurndownAccepts(plan, a, 0, r);
    FreshIs(p, 0, ByAutoRerun);
    var h := job.tasks[a];
    assert Inserted(h, 1, FreshVersion({p}, 0, ByAutoRerun)) == FailedOnce(p, Solo(p, Waiting, Waiting, 0, ByAutoRerun));
    hide Inserted, RerunRows;
    var rows := [r];
    assert rows[1..] == [];
    RerunOne(plan, job, r, true, Turndown(plan, a, 0));
    assert job.tasks[a := FailedOnce(p, Solo(p, Waiting, Waiting, 0, ByAutoRerun))] == Asking(a, b, p).tasks;
  }

  lemma FailureStatus(a: Task, b: Task, job: Job)
    requires a != b
    ensures PassStatus(RoundResult(job, map[a := Failed, b := Waiting], [], Some(NoNext), [a])) == Some(Failed)
  {
    var shown := map[a := Failed, b := Waiting];
    assert shown[a] in shown.Values;
    assert Running !in shown.Values;
    JobStatusMeaning(NoNext, shown.Values);
    assert ExtremeInterrupt(shown.Values, Failed, true);
  }

  lemma FailurePass(a: Task, b: Task, p: Party)
    requires a != b
    ensures Follows(PairPlan(a, b, p), FirstStarted(a, b, p), FailStep(a, b, p), Asking(a, b, p))
  {
    hide Turndown, Rerun, FromSynced, SyncedJob, PassStatus, RunPass, HeardAll;
    var plan, job := PairPlan(a, b, p), FirstStarted(a, b, p);
    var attempts := Turndown(plan, a, 0);
    TurndownHeard(plan, a, 0);
    FailureSynced(a, b, p);
    FailureRound(a, b, p);
    PassIsAfterRound(plan, job, map[a := Failing(p)], map[], attempts);
    var r := FromSynced(plan, FailedJob(a, b, p), map[]);
    FailureStatus(a, b, FailedJob(a, b, p));
    var settled := Settled(r.job, Failed);
    assert AutoRows(settled, r.shown, r.retry) == [Row(a, 0, Failed, 1)];
    FailureRerun(a, b, p);
  }

  lemma FailureRequeued(a: Task, b: Task, p: Party)
    requires a != b
    ensures Follows(PairPlan(a, b, p), Asking(a, b, p), RequeueStep(true), Requested(a, b, p))
  {
  }

  // ------------------------------------------------------------------
  // Both tasks succeed
  // ------------------------------------------------------------------

  lemma SecondIs(a: Task, b: Task, p: Party)
    requires a != b
    ensures Settled(StartedJob(Requested(a, b, p), {a}), Running) == SecondStarted(a, b, p)
  {
    var ha := FailedOnce(p, Solo(p, Waiting, Waiting, 0, ByAutoRerun));
    StartedPair(a, b, ha, Fresh(p), Waiting, {(a, 0)}, a);
    assert StartedHistory(ha) == FailedOnce(p, Solo(p, Running, Waiting, 0, ByAutoRerun));
    hide StartedJob, StartedHistory;
  }

  lemma SecondStart(a: Task, b: Task, p: Party)
    requires a != b
    ensures Follows(PairPlan(a, b, p), Requested(a, b, p), Start(PairPlan(a, b, p), a, map[]), SecondStarted(a, b, p))
  {
    var ha := FailedOnce(p, Solo(p, Waiting, Waiting, 0, ByAutoRerun));
    assert Requested(a, b, p) == PairJob(a, b, ha, Fresh(p), Waiting, {(a, 0)});
    WaitingStart(a, b, p, ha, Waiting, {(a, 0)});
    hide *;
    SecondIs(a, b, p);
  }

  lemma SuccessSync(h: History, p: Party)
    requires ValidHistory(h) && Head(h).parties == map[p := Waiting] && Head(h).status == Running
    ensures Synced(h, [Report(p, Success)])
      == WithHead(h, Solo(p, Success, Success, Head(h).retries, Head(h).origin).value)
  {
    var reports := [Report(p, Success)];
    assert reports[1..] == [];
    assert Collected(Head(h), reports) == Reported(Head(h), reports[0]);
    assert Collected(Head(h), reports).parties == map[p := Success];
    SoloSync(h, p, reports, Success);
  }

  /** a is SUCCESS and b waits. */
  function HalfDone(a: Task, b: Task, p: Party): Job {
    PairJob(a, b, FailedOnce(p, Solo(p, Success, Success, 0, ByAutoRerun)), Fresh(p), Running, {(a, 0), (a, 1)})
  }

  lemma HalfDoneSynced(a: Task, b: Task, p: Party)
    requires a != b
    ensures ValidRows(SecondStarted(a, b, p).tasks)
    ensures SyncedJob(SecondStarted(a, b, p), map[a := [Report(p, Success)]]) == HalfDone(a, b, p)
  {
    var h := FailedOnce(p, Solo(p, Running, Waiting, 0, ByAutoRerun));
    SuccessSync(h, p);
    assert Synced(h, [Report(p, Success)]) == FailedOnce(p, Solo(p, Success, Success, 0, ByAutoRerun));
    QuietSync(Fresh(p), p);
    SyncedPair(a, b, h, Fresh(p), Running, {(a, 0), (a, 1)}, map[a := [Report(p, Success)]]);
    hide Synced, SyncedJob;
  }

  /** The first task succeeded, so the second is ready. */
  lemma DependentStarts(a: Task, b: Task, p: Party, job: Job, answers: Answers)
    requires a != b && ValidJob(PairPlan(a, b, p), job) && !job.cancel && Lookup(answers, b, NoResource) == StartOk
    requires Current(job.tasks[a]) == Success && Current(job.tasks[b]) == Waiting
    ensures Starts(PairPlan(a, b, p), job, answers, b)
  {
    hide Folded;
    var plan, shown := PairPlan(a, b, p), Shown(job);
    assert shown == map[a := Success, b := Waiting];
    PairLists(a, b, job, shown);
    assert [b][1..] == [] && [a][1..] == [];
    assert WaitingList(plan.names, shown) == [b];
    assert CheckDeps(shown, plan.deps[b]) == Ready;
    assert WalkFrom(plan, shown, [], answers) == Walk([], Finished, false);
    assert [b] + [] == [b];
    assert WalkFrom(plan, shown, [b], answers) == Walk([b], Finished, true);
  }

  lemma HalfDoneStarts(a: Task, b: Task, p: Party)
    requires a != b
    ensures ValidJob(PairPlan(a, b, p), HalfDone(a, b, p))
    ensures Starts(PairPlan(a, b, p), HalfDone(a, b, p), map[b := StartOk], b)
  {
    var job := HalfDone(a, b, p);
    SoloFold(Head(job.tasks[a]), p);
    SoloFold(Head(job.tasks[b]), p);
    hide Starts, Folded;
    DependentStarts(a, b, p, job, map[b := StartOk]);
  }

  lemma DependentIs(a: Task, b: Task, p: Party)
    requires a != b
    ensures Settled(StartedJob(HalfDone(a, b, p), {b}), Running) == DependentStarted(a, b, p)
  {
    var ha := FailedOnce(p, Solo(p, Success, Success, 0, ByAutoRerun));
    StartedPair(a, b, ha, Fresh(p), Running, {(a, 0), (a, 1)}, b);
    assert StartedHistory(Fresh(p)) == [Solo(p, Running, Waiting, 1, Created)];
    hide StartedJob, StartedHistory;
  }

  lemma SecondIsValid(a: Task, b: Task, p: Party)
    requires a != b
    ensures ValidJob(PairPlan(a, b, p), SecondStarted(a, b, p))
    ensures HonestInbox(SecondStarted(a, b, p), map[a := [Report(p, Success)]])
  {
  }

  lemma DependentStart(a: Task, b: Task, p: Party)
    requires a != b
    ensures Follows(PairPlan(a, b, p), SecondStarted(a, b, p), Start(PairPlan(a, b, p), b, map[a := [Report(p, Success)]]),
                    DependentStarted(a, b, p))
  {
    hide *;
    HalfDoneSynced(a, b, p);
    HalfDoneStarts(a, b, p);
    SecondIsValid(a, b, p);
    PairPass(PairPlan(a, b, p), SecondStarted(a, b, p), map[a := [Report(p, Success)]], b);
    DependentIs(a, b, p);
  }

  lemma LastSynced(a: Task, b: Task, p: Party)
    requires a != b
    ensures ValidRows(DependentStarted(a, b, p).tasks)
    ensures SyncedJob(DependentStarted(a, b, p), map[b := [Report(p, Success)]])
      == StaleJob(a, b, p).(status := Running)
  {
    var ha, hb := FailedOnce(p, Solo(p, Success, Success, 0, ByAutoRerun)), [Solo(p, Running, Waiting, 1, Created)];
    SuccessSync(hb, p);
    assert Synced(hb, [Report(p, Success)]) == [Solo(p, Success, Success, 1, Created)];
    SoloSync(ha, p, [], Success);
    assert Synced(ha, []) == ha;
    SyncedPair(a, b, ha, hb, Running, {(a, 0), (a, 1), (b, 0)}, map[b := [Report(p, Success)]]);
    hide Synced, SyncedJob;
  }

  lemma BothSuccess(a: Task, b: Task, r: RoundResult)
    requires r.outcome == Some(NoNext) && r.shown == map[a := Success, b := Success]
    ensures PassStatus(r) == Some(Success)
  {
    hide JobStatusOf;
    assert r.shown[a] in r.shown.Values;
    JobStatusMeaning(NoNext, r.shown.Values);
  }

  /** Nothing is left to start or retry. */
  lemma LastRound(a: Task, b: Task, p: Party, job: Job)
    requires a != b && ValidJob(PairPlan(a, b, p), job) && !job.cancel
    requires Current(job.tasks[a]) == Success && Current(job.tasks[b]) == Success
    ensures var r := FromSynced(PairPlan(a, b, p), job, map[]);
      && r.job == job && r.retry == [] && PassStatus(r) == Some(Success)
  {
    hide Folded, JobStatusOf;
    var plan, shown := PairPlan(a, b, p), Shown(job);
    assert shown == map[a := Success, b := Success];
    PairLists(a, b, job, shown);
    var r := FromSynced(plan, job, map[]);
    assert r.sent == [] && Elements(r.sent) == {};
    assert StartedRows(job.tasks, {}) == job.tasks;
    assert r.shown == shown;
    BothSuccess(a, b, r);
  }

  lemma DependentIsValid(a: Task, b: Task, p: Party)
    requires a != b
    ensures ValidJob(PairPlan(a, b, p), DependentStarted(a, b, p))
    ensures HonestInbox(DependentStarted(a, b, p), map[b := [Report(p, Success)]])
  {
  }

  lemma LastIs(a: Task, b: Task, p: Party, attempts: Attempts)
    requires a != b
    ensures var plan, job, inbox := PairPlan(a, b, p), DependentStarted(a, b, p), map[b := [Report(p, Success)]];
      && ValidJob(plan, job)
      && RunPass(plan, job, inbox, map[], attempts).job == StaleJob(a, b, p)
  {
    var plan, job, inbox := PairPlan(a, b, p), DependentStarted(a, b, p), map[b := [Report(p, Success)]];
    LastSynced(a, b, p);
    DependentIsValid(a, b, p);
    var synced := StaleJob(a, b, p).(status := Running);
    SoloFold(Head(synced.tasks[a]), p);
    SoloFold(Head(synced.tasks[b]), p);
    hide FromSynced, SyncedJob, PassStatus, RunPass, Folded, Rerun, AutoRows, DependentStarted;
    LastRound(a, b, p, synced);
    PassIsAfterRound(plan, job, inbox, map[], attempts);
  }

  lemma LastPass(a: Task, b: Task, p: Party)
    requires a != b
    ensures var plan := PairPlan(a, b, p);
      Follows(plan, DependentStarted(a, b, p), PassStep(map[b := [Report(p, Success)]], map[], Turndown(plan, a, 0)),
              StaleJob(a, b, p))
  {
    hide Turndown, RunPass, HeardAll, PairPlan, StaleJob, DependentStarted, ValidJob, HonestInbox;
    TurndownHeard(PairPlan(a, b, p), a, 0);
    DependentIsValid(a, b, p);
    LastIs(a, b, p, Turndown(PairPlan(a, b, p), a, 0));
  }

  // ------------------------------------------------------------------
  // The manual rerun
  // ------------------------------------------------------------------

  function StaleRow(a: Task): Row {
    Row(a, 0, Failed, 1)
  }

  lemma StaleSelection(a: Task, b: Task, p: Party)
    requires a != b
    ensures ManualRows(StaleJob(a, b, p), [StaleRow(a)])
  {
    var job := StaleJob(a, b, p);
    assert SelectedBelow(job.tasks[a], 1) == Some(0);
    assert SelectedBelow(job.tasks[b], 0) == None;
    assert SelectedRow(a, job.tasks[a]) == Some(StaleRow(a));
    assert SelectedRow(b, job.tasks[b]) == None;
  }

  /** Afterwards: the first task waits in a version 2 that has the budget of version 0. */
  function BrokenJob(a: Task, b: Task, p: Party): Job {
    var job := StaleJob(a, b, p);
    job.(tasks := job.tasks[a := job.tasks[a] + [Solo(p, Waiting, Waiting, 1, ByManualRerun)]], rerun := true)
  }

  function StaleStep(a: Task, b: Task, p: Party): Step {
    ManualRerunStep([StaleRow(a)], Turndown(PairPlan(a, b, p), a, 1))
  }

  lemma StalePrepared(a: Task, b: Task, p: Party)
    requires a != b
    ensures PreparedRow(PairPlan(a, b, p), StaleJob(a, b, p), StaleRow(a), false, Turndown(PairPlan(a, b, p), a, 1))
      == Prepared(BrokenJob(a, b, p).tasks[a], true, false)
  {
    var plan, job, r := PairPlan(a, b, p), StaleJob(a, b, p), StaleRow(a);
    TurndownAccepts(plan, a, 1, r);
    FreshIs(p, 1, ByManualRerun);
    var h := job.tasks[a];
    assert Inserted(h, 2, FreshVersion({p}, 1, ByManualRerun)) == h + [Solo(p, Waiting, Waiting, 1, ByManualRerun)];
    hide Turndown, AcceptedVersion, FreshVersion, Inserted;
  }

  lemma StaleJobIsValid(a: Task, b: Task, p: Party)
    requires a != b
    ensures ValidJob(PairPlan(a, b, p), StaleJob(a, b, p))
  {
  }

  lemma StaleRerun(a: Task, b: Task, p: Party)
    requires a != b
    ensures Follows(PairPlan(a, b, p), StaleJob(a, b, p), StaleStep(a, b, p), BrokenJob(a, b, p))
  {
    hide Turndown, RerunRows, ManualRows, HeardAll, Prepare, ValidJob;
    TurndownHeard(PairPlan(a, b, p), a, 1);
    StaleJobIsValid(a, b, p);
    StaleSelection(a, b, p);
    RerunOne(PairPlan(a, b, p), StaleJob(a, b, p), StaleRow(a), false, Turndown(PairPlan(a, b, p), a, 1));
    StalePrepared(a, b, p);
    hide StaleJob;
  }

  /** The states up to the manual rerun, and the steps between them. */
  function StaleStates(a: Task, b: Task, p: Party): seq<Job> {
    [InitialJob(PairPlan(a, b, p), 1), FirstStarted(a, b, p), Asking(a, b, p), Requested(a, b, p), SecondStarted(a, b, p),
     DependentStarted(a, b, p), StaleJob(a, b, p)]
  }

  function StaleSteps(a: Task, b: Task, p: Party): seq<Step> {
    var plan := PairPlan(a, b, p);
    [Start(plan, a, map[]), FailStep(a, b, p), RequeueStep(true), Start(plan, a, map[]),
     Start(plan, b, map[a := [Report(p, Success)]]),
     PassStep(map[b := [Report(p, Success)]], map[], Turndown(plan, a, 0))]
  }

  /** A run can be continued by a step its last state allows. */
  lemma LongerRun(plan: Plan, retries: int, js: seq<Job>, steps: seq<Step>, step: Step, job: Job)
    requires IsRun(plan, retries, js, steps) && Follows(plan, js[|steps|], step, job)
    ensures IsRun(plan, retries, js + [job], steps + [step])
  {
    hide Follows;
    var js', steps' := js + [job], steps + [step];
    forall i | 0 <= i < |steps'| ensures Follows(plan, js'[i], steps'[i], js'[i + 1]) {
      if i < |steps| {
        assert Follows(plan, js[i], steps[i], js[i + 1]);
      }
    }
  }

  lemma PairPlanIsValid(a: Task, b: Task, p: Party)
    requires a != b
    ensures ValidPlan(PairPlan(a, b, p))
  {
  }

  lemma StaleRun(a: Task, b: Task, p: Party)
    requires a != b
    ensures IsRun(PairPlan(a, b, p), 1, StaleStates(a, b, p), StaleSteps(a, b, p))
  {
    hide Follows, ValidPlan, InitialJob, PairPlan, FirstStarted, Asking, Requested, SecondStarted, DependentStarted, StaleJob,
      Start, FailStep, Turndown;
    PairPlanIsValid(a, b, p);
    FirstStart(a, b, p);
    FailurePass(a, b, p);
    FailureRequeued(a, b, p);
    SecondStart(a, b, p);
    DependentStart(a, b, p);
    LastPass(a, b, p);
  }

  lemma BrokenIs(a: Task, b: Task, p: Party)
    requires a != b
    ensures ValidJob(PairPlan(a, b, p), BrokenJob(a, b, p))
    ensures !Closed(PairPlan(a, b, p), BrokenJob(a, b, p)) && !AllBudgets(BrokenJob(a, b, p))
  {
    var job := BrokenJob(a, b, p);
    var h := job.tasks[a];
    SoloFold(Head(h), p);
    SoloFold(Head(job.tasks[b]), p);
    hide Folded;
    assert a in PairPlan(a, b, p).deps[b];
    assert h[..2][..1] == h[..1] && h[..1][..0] == [];
    assert AutoVersions(h[..1]) == 0;
    assert AutoVersions(h[..2]) == 1;
  }

  /** A run with one retry in which a task fails once, is rerun automatically, and then all tasks succeed.  Up to here
      every state is safe.  The manual rerun that follows picks the stale FAILED row of version 0; the parties
      turn down version 1, which exists, and accept version 2: the dependent task is SUCCESS on a task that is not,
      and that task has a retry too many. */
  lemma StaleRowCounterexample(a: Task, b: Task, p: Party)
    requires a != b
    ensures var plan, js, steps := PairPlan(a, b, p), StaleStates(a, b, p), StaleSteps(a, b, p);
      var job, broken := StaleJob(a, b, p), BrokenJob(a, b, p);
      && IsRun(plan, 1, js, steps) && CalmRun(plan, js, steps) && CarriedRun(plan, js, steps) && js[|steps|] == job
      && Inv(plan, job) && AllBudgets(job)
      && IsRun(plan, 1, js + [broken], steps + [StaleStep(a, b, p)])
      && ValidJob(plan, broken) && !Closed(plan, broken) && !AllBudgets(broken)
  {
    hide IsRun, Follows, InitialJob, PairPlan, BrokenJob, StaleStep, Turndown, Inv, Closed, AllBudgets, StaleJob, Calm, Carried;
    var plan, js, steps := PairPlan(a, b, p), StaleStates(a, b, p), StaleSteps(a, b, p);
    StaleRun(a, b, p);
    StaleIsCalm(a, b, p);
    StaleRerun(a, b, p);
    LongerRun(plan, 1, js, steps, StaleStep(a, b, p), BrokenJob(a, b, p));
    BrokenIs(a, b, p);
    hide StaleSteps;
    RunKeepsInv(plan, 1, js, steps, |steps|);
    RunKeepsBudgets(plan, 1, js, steps, |steps|);
  }

  lemma StaleIsCalm(a: Task, b: Task, p: Party)
    ensures var plan, js, steps := PairPlan(a, b, p), StaleStates(a, b, p), StaleSteps(a, b, p);
      |js| == |steps| + 1 && CalmRun(plan, js, steps) && CarriedRun(plan, js, steps)
  {
    hide PairPlan, Turndown;
    var steps := StaleSteps(a, b, p);
    forall step | step in steps ensures !step.ManualRerunStep? {
    }
  }
}
