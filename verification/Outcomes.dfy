// What one pass reports for a job and what its row shows afterwards, as
// equivalences over the statuses of the tasks.
module Outcomes {
  import opened Common
  import opened Statuses
  import opened Aggregation
  import opened Jobs
  import opened Rounds
  import opened Reruns
  import opened Runs
  import opened Progress
  import opened Termination

  /** Every status change the job row accepts. */
  const JOB_CHANGES: set<(Status, Status)> := {
    (Waiting, Running), (Waiting, Canceled), (Waiting, Timeout), (Waiting, Failed), (Waiting, Success),
    (Running, Canceled), (Running, Timeout), (Running, Failed), (Running, Success),
    (Canceled, Waiting),
    (Timeout, Failed), (Timeout, Success), (Timeout, Waiting),
    (Failed, Waiting), (Failed, Canceled),
    (Success, Waiting)}

  lemma JobChangeIs(from: Status, to: Status)
    ensures JobCanChange(from, to) <==> (from, to) in JOB_CHANGES
  {
    match from
    case Waiting => case Running => case Canceled => case Timeout => case Failed => case Pass => case Success =>
  }

  /** The job row after status s was offered to it: while a rerun is asked for it does not take FAILED or TIMEOUT. */
  function RowTakes(job: Job, s: Status): Status {
    if (job.status, s) in JOB_CHANGES && !(job.rerun && (s == Failed || s == Timeout)) then s else job.status
  }

  lemma RowTakesIs(job: Job, s: Status)
    ensures PersistedStatus(job, s) == RowTakes(job, s)
  {
    JobChangeIs(job.status, s);
    hide JOB_CHANGES;
  }

  // ------------------------------------------------------------------
  // What a pass reports
  // ------------------------------------------------------------------

  /** A task runs, or one waits beside others in a round that started something or found no resources. */
  predicate StillOpen(code: Code, s: set<Status>) {
    Running in s || (Waiting in s && s != {Waiting} && code == HaveNext)
  }

  predicate OnlyWaitingAndDone(s: set<Status>) {
    Waiting in s && s != {Waiting} && forall x :: x in s ==> x == Waiting || x == Success || x == Pass
  }

  /** The status a pass reports after round r of a job with this cancel signal, outcome by outcome. */
  ghost predicate PassReports(r: RoundResult, cancel: bool, status: Option<Status>) {
    var s := r.shown.Values;
    && (status == None <==>
          r.outcome == None || s == {} || (r.outcome == Some(CodeFailed) && OnlyWaitingAndDone(s)))
    && (r.outcome.Some? ==>
          var open := StillOpen(r.outcome.value, s);
          && (status == Some(Success) <==> s != {} && forall x :: x in s ==> x == Success || x == Pass)
          && (status == Some(Waiting) <==> s == {Waiting} && !cancel)
          && (status == Some(Running) <==> open)
          && (status == Some(Failed) <==> !open && Failed in s)
          && (status == Some(Timeout) <==> !open && Timeout in s && Failed !in s)
          && (status == Some(Canceled) <==>
                || (s == {Waiting} && cancel)
                || (!open && Canceled in s && Failed !in s && Timeout !in s)
                || (r.outcome == Some(NoNext) && OnlyWaitingAndDone(s))))
  }

  lemma PassStatusReports(r: RoundResult)
    ensures PassReports(r, r.job.cancel, PassStatus(r))
  {
    hide JobStatusOf, StillOpen, OnlyWaitingAndDone;
    if r.outcome.Some? {
      FoldCases(r.outcome.value, r.shown.Values);
      NotOnly(r.outcome.value, r.shown.Values);
    }
  }

  lemma NotOnly(code: Code, s: set<Status>)
    ensures s == {Waiting} ==> !StillOpen(code, s) && !OnlyWaitingAndDone(s) && Canceled !in s
  {
  }

  /** Every outcome of a pass, from the statuses its round shows, the round's code and the cancel signal; and the job
      row takes it as its table says. */
  lemma PassMeaning(plan: Plan, job: Job, inbox: Inbox, answers: Answers, attempts: Attempts)
    requires ValidJob(plan, job)
    ensures var p := RunPass(plan, job, inbox, answers, attempts);
      && PassReports(Round(plan, job, inbox, answers), job.cancel, p.status)
      && p.job.status == if p.status.Some? then RowTakes(job, p.status.value) else job.status
  {
    hide FromSynced, AfterRound, RunPass, PassReports, PersistedStatus, RowTakes, PassStatus;
    var synced := SyncedJob(job, inbox);
    PassIsAfterRound(plan, job, inbox, answers, attempts);
    RoundSignals(plan, synced, answers);
    AfterRoundStarted(plan, synced, answers, attempts);
    PassStatusReports(FromSynced(plan, synced, answers));
    var p := RunPass(plan, job, inbox, answers, attempts);
    if p.status.Some? {
      RowTakesIs(synced, p.status.value);
      SameRowTakes(synced, job, p.status.value);
    }
  }

  lemma SameRowTakes(job: Job, job': Job, s: Status)
    requires job.status == job'.status && job.rerun == job'.rerun
    ensures RowTakes(job, s) == RowTakes(job', s)
  {
  }

  lemma FoldCases(code: Code, s: set<Status>)
    ensures var f, open := JobStatusOf(code, s), StillOpen(code, s);
      && (f == None <==> s == {} || (code == CodeFailed && OnlyWaitingAndDone(s)))
      && (f == Some(Success) <==> s != {} && forall x :: x in s ==> x == Success || x == Pass)
      && (f == Some(Waiting) <==> s == {Waiting})
      && (f == Some(Running) <==> open)
      && (f == Some(Failed) <==> !open && Failed in s)
      && (f == Some(Timeout) <==> !open && Timeout in s && Failed !in s)
      && (f == Some(Canceled) <==>
            (!open && Canceled in s && Failed !in s && Timeout !in s) || (code == NoNext && OnlyWaitingAndDone(s)))
  {
    assert s <= {Success, Pass} <==> forall x :: x in s ==> x == Success || x == Pass;
    forall x | x in s ensures x in {Waiting, Running, Canceled, Timeout, Failed, Pass, Success} {
      match x
      case Waiting => case Running => case Canceled => case Timeout => case Failed => case Pass => case Success =>
    }
  }

  // ------------------------------------------------------------------
  // What a round shows
  // ------------------------------------------------------------------

  /** Two elements of a filtered list stand in the order of the whole list. */
  ghost predicate InOrder<T>(part: seq<T>, whole: seq<T>) {
    forall i, j :: 0 <= i < j < |part| ==> Precedes(whole, part[i], part[j])
  }

  ghost predicate Precedes<T>(whole: seq<T>, x: T, y: T) {
    exists a, b :: 0 <= a < b < |whole| && whole[a] == x && whole[b] == y
  }

  lemma OrderedLonger<T>(part: seq<T>, whole: seq<T>, x: T)
    requires InOrder(part, whole) && forall y :: y in part ==> y in whole
    ensures InOrder(part, whole + [x]) && InOrder(part + [x], whole + [x])
  {
    var all, more := whole + [x], part + [x];
    forall y, z | Precedes(whole, y, z) ensures Precedes(all, y, z) {
      var a, b :| 0 <= a < b < |whole| && whole[a] == y && whole[b] == z;
      assert all[a] == y && all[b] == z;
    }
    forall i, j | 0 <= i < j < |more| ensures Precedes(all, more[i], more[j]) {
      if j == |part| {
        assert part[i] in whole;
        var a :| 0 <= a < |whole| && whole[a] == part[i];
        assert all[a] == part[i] && all[|whole|] == x;
      } else {
        assert Precedes(whole, part[i], part[j]);
      }
    }
  }

  /** The waiting tasks and the tasks to retry are tried in the order of the names. */
  lemma {:induction false} ListsInOrder(names: seq<Task>, job: Job, shown: map<Task, Status>)
    ensures InOrder(WaitingList(names, shown), names) && InOrder(RetryList(names, job, shown), names)
  {
    if names != [] {
      var front, last := names[..|names| - 1], names[|names| - 1];
      ListsInOrder(front, job, shown);
      WaitingListMembers(front, shown);
      RetryListMembers(front, job, shown);
      OrderedLonger(WaitingList(front, shown), front, last);
      OrderedLonger(RetryList(front, job, shown), front, last);
      assert front + [last] == names;
      assert WaitingList(front, shown) + [] == WaitingList(front, shown);
      assert RetryList(front, job, shown) + [] == RetryList(front, job, shown);
    }
  }

  /** What a task shows after starting the tasks in sent, the last of which failed to start or not. */
  function ShownWith(before: Status, t: Task, sent: seq<Task>, failed: bool): Status {
    if t !in sent then before else if failed && sent[|sent| - 1] == t then Failed else Running
  }

  /** Started tasks show RUNNING; only the last of them shows FAILED, if its start failed; all others show what they
      showed after the sync. */
  lemma RoundShows(plan: Plan, synced: Job, answers: Answers, t: Task)
    requires ValidJob(plan, synced) && t in synced.tasks
    ensures var r := FromSynced(plan, synced, answers);
      var failed := r.outcome == Some(CodeFailed);
      && t in r.shown && r.shown[t] == ShownWith(Shown(synced)[t], t, r.sent, failed)
      && (failed ==> r.sent != [] && Lookup(answers, r.sent[|r.sent| - 1], NoResource) == StartFailed)
  {
    var shown := Shown(synced);
    assert t in shown;
    hide Shown, StartedJob, WalkFrom, RetryList, AnyInterrupt, WaitingList, ShownAfter, CodeOfWalk;
    if !synced.cancel && !AnyInterrupt(shown) {
      WaitingListMembers(plan.names, shown);
      var w := WalkFrom(plan, shown, WaitingList(plan.names, shown), answers);
      FailedIsLast(plan, shown, WaitingList(plan.names, shown), answers);
      WalkShows(shown, w, t);
    }
  }

  lemma WalkShows(shown: map<Task, Status>, w: Walk, t: Task)
    requires t in shown && (w.stop == FailedStart ==> w.sent != [])
    ensures CodeOfWalk(w) == Some(CodeFailed) <==> w.stop == FailedStart
    ensures t in ShownAfter(shown, w) && ShownAfter(shown, w)[t] == ShownWith(shown[t], t, w.sent, w.stop == FailedStart)
  {
  }

  lemma {:induction false} FailedIsLast(plan: Plan, shown: map<Task, Status>, waiting: seq<Task>, answers: Answers)
    requires forall t :: t in waiting ==> t in plan.deps
    ensures var w := WalkFrom(plan, shown, waiting, answers);
      w.stop == FailedStart ==> w.sent != [] && Lookup(answers, w.sent[|w.sent| - 1], NoResource) == StartFailed
  {
    if waiting != [] {
      FailedIsLast(plan, shown, waiting[1..], answers);
    }
  }

  /** Behind SUCCESS dependencies only, a name that is no task of the job. */
  ghost predicate UnknownDep(shown: map<Task, Status>, deps: seq<Task>) {
    exists i :: 0 <= i < |deps| && deps[i] !in shown && AllSuccess(shown, deps[..i])
  }

  /** Task k of the waiting list is the first obstacle, and it is an unknown name. */
  ghost predicate RaisesAt(plan: Plan, shown: map<Task, Status>, waiting: seq<Task>, answers: Answers, k: nat)
    requires forall t :: t in waiting ==> t in plan.deps
  {
    && k < |waiting| && UnknownDep(shown, plan.deps[waiting[k]])
    && forall i :: 0 <= i < k ==> PassedOver(plan, shown, waiting[i], answers)
  }

  ghost predicate PassedOver(plan: Plan, shown: map<Task, Status>, t: Task, answers: Answers)
    requires t in plan.deps
  {
    !UnknownDep(shown, plan.deps[t]) && (AllSuccess(shown, plan.deps[t]) ==> Lookup(answers, t, NoResource) == StartOk)
  }

  lemma ObstacleIs(plan: Plan, shown: map<Task, Status>, t: Task, answers: Answers)
    requires t in plan.deps
    ensures StopAt(plan, shown, t, answers) == Some(UnknownTask) <==> UnknownDep(shown, plan.deps[t])
    ensures StopAt(plan, shown, t, answers) == None <==> PassedOver(plan, shown, t, answers)
  {
    ReadyMeaning(shown, plan.deps[t]);
  }

  /** A round raises exactly if it is neither cancelled nor interrupted and the first obstacle among the waiting tasks
      is a dependency that names no task. */
  lemma RoundRaisesIff(plan: Plan, synced: Job, answers: Answers)
    requires ValidJob(plan, synced)
    ensures var shown := Shown(synced);
      var waiting := WaitingList(plan.names, shown);
      && (forall t :: t in waiting ==> t in plan.deps)
      && (FromSynced(plan, synced, answers).outcome == None
          <==> !synced.cancel && !AnyInterrupt(shown) && exists k: nat :: RaisesAt(plan, shown, waiting, answers, k))
  {
    var shown := Shown(synced);
    WaitingListMembers(plan.names, shown);
    var waiting := WaitingList(plan.names, shown);
    hide Shown, AnyInterrupt, RetryList, WaitingList, StartedJob, ShownAfter, ReadyOf, UnknownDep, PassedOver, StopAt;
    var k := WalkIsReadyPrefix(plan, shown, waiting, answers);
    forall i | 0 <= i < |waiting|
      ensures StopAt(plan, shown, waiting[i], answers) == Some(UnknownTask) <==> UnknownDep(shown, plan.deps[waiting[i]])
      ensures StopAt(plan, shown, waiting[i], answers) == None <==> PassedOver(plan, shown, waiting[i], answers)
    {
      ObstacleIs(plan, shown, waiting[i], answers);
    }
    hide WalkFrom;
    if WalkFrom(plan, shown, waiting, answers).stop == UnknownTask {
      assert RaisesAt(plan, shown, waiting, answers, k);
    }
    if m: nat :| RaisesAt(plan, shown, waiting, answers, m) {
      assert m == k;
    }
  }

  // ------------------------------------------------------------------
  // Waiting jobs
  // ------------------------------------------------------------------

  /** After the reports of this pass every task's parties fold to WAITING. */
  ghost predicate AllWait(job: Job, inbox: Inbox)
    requires ValidRows(job.tasks)
  {
    forall t :: t in job.tasks ==> Folded(Collected(Head(job.tasks[t]), Lookup(inbox, t, []))) == Waiting
  }

  lemma AllWaitShown(plan: Plan, job: Job, inbox: Inbox)
    requires ValidJob(plan, job)
    ensures ValidJob(plan, SyncedJob(job, inbox))
    ensures var shown := Shown(SyncedJob(job, inbox));
      && shown.Keys == job.tasks.Keys
      && (AllWait(job, inbox) <==> forall t :: t in shown ==> shown[t] == Waiting)
  {
    hide Collected, Folded;
    SyncedJobValid(plan, job, inbox);
    var shown := Shown(SyncedJob(job, inbox));
    forall t | t in job.tasks ensures shown[t] == Folded(Collected(Head(job.tasks[t]), Lookup(inbox, t, []))) {
      SyncedHead(job.tasks[t], Lookup(inbox, t, []));
    }
  }

  lemma OneStatus(shown: map<Task, Status>, s: Status)
    ensures shown.Values == {s} <==> shown != map[] && forall t :: t in shown ==> shown[t] == s
  {
    if shown != map[] && forall t :: t in shown ==> shown[t] == s {
      var t :| t in shown;
      assert shown[t] in shown.Values;
    }
    if shown.Values == {s} {
      assert forall t :: t in shown ==> shown[t] in shown.Values;
    }
  }

  /** A cancelled job whose tasks all wait ends CANCELED in the next pass, and so does its row unless it had finished
      otherwise. */
  lemma CancelledWaitingEnds(plan: Plan, job: Job, inbox: Inbox, answers: Answers, attempts: Attempts)
    requires ValidJob(plan, job) && plan.names != [] && job.cancel && AllWait(job, inbox)
    ensures var p := RunPass(plan, job, inbox, answers, attempts);
      && p.status == Some(Canceled)
      && (job.status == Waiting || job.status == Running || job.status == Failed ==> p.job.status == Canceled)
  {
    hide RunPass, AllWait, Shown;
    AllWaitShown(plan, job, inbox);
    PassMeaning(plan, job, inbox, answers, attempts);
    hide FromSynced;
    CancelledRound(plan, SyncedJob(job, inbox), answers);
    assert plan.names[0] in job.tasks by {
      assert plan.names[0] in Elements(plan.names);
    }
    OneStatus(Shown(SyncedJob(job, inbox)), Waiting);
  }

  lemma CancelledRound(plan: Plan, synced: Job, answers: Answers)
    requires ValidJob(plan, synced) && synced.cancel
    ensures var r := FromSynced(plan, synced, answers);
      r.outcome == Some(NoNext) && r.shown == Shown(synced) && r.sent == []
  {
  }

  /** A pass reports WAITING exactly if it does not raise, there are tasks, all of them wait, nothing was started and
      nobody asked to cancel. */
  lemma WaitingPassIff(plan: Plan, job: Job, inbox: Inbox, answers: Answers, attempts: Attempts)
    requires ValidJob(plan, job)
    ensures var p := RunPass(plan, job, inbox, answers, attempts);
      p.status == Some(Waiting)
      <==> p.status.Some? && plan.names != [] && AllWait(job, inbox) && !job.cancel && Round(plan, job, inbox, answers).sent == []
  {
    AllWaitShown(plan, job, inbox);
    RoundAllWait(plan, SyncedJob(job, inbox), answers);
    SomeTask(plan, job);
    PassMeaning(plan, job, inbox, answers, attempts);
    hide FromSynced, RunPass, AllWait, Shown, SyncedJob, ValidJob;
    var r, p := Round(plan, job, inbox, answers), RunPass(plan, job, inbox, answers, attempts);
    if p.status.Some? {
      assert r.outcome.Some?;
    }
  }

  /** A round shows nothing but WAITING exactly if that is what it found and it started nothing. */
  lemma RoundAllWait(plan: Plan, synced: Job, answers: Answers)
    requires ValidJob(plan, synced)
    ensures var r, shown := FromSynced(plan, synced, answers), Shown(synced);
      r.shown.Values == {Waiting}
      <==> shown.Keys != {} && (forall t :: t in shown ==> shown[t] == Waiting) && r.sent == []
  {
    ShownShape(plan, synced, answers);
    SyncedStartsFrontier(plan, synced, answers);
    hide FromSynced, Shown;
    var r, shown := FromSynced(plan, synced, answers), Shown(synced);
    OneStatus(r.shown, Waiting);
    if r.sent != [] {
      assert InFrontier(plan, shown, r.sent[0]);
      assert r.shown[r.sent[0]] != Waiting;
    }
  }

  lemma SomeTask(plan: Plan, job: Job)
    requires ValidJob(plan, job)
    ensures plan.names == [] <==> job.tasks.Keys == {}
  {
    if plan.names != [] {
      assert plan.names[0] in Elements(plan.names);
    }
  }
}
