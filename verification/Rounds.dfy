// One scheduling round of one job, as a function of the rows, the reports that
// are collected during it and the answers of the parties.
module Rounds {
  import opened Common
  import opened Statuses
  import opened Jobs

  // ------------------------------------------------------------------
  // Synchronising task statuses
  // ------------------------------------------------------------------

  function SyncedVersion(v: Version, reports: seq<Report>): Version {
    var w := Collected(v, reports);
    w.(status := Changed(w.status, Folded(w)))
  }

  function Synced(h: History, reports: seq<Report>): History
    requires ValidHistory(h)
  {
    WithHead(h, SyncedVersion(Head(h), reports))
  }

  type Inbox = map<Task, seq<Report>>

  function SyncedJob(job: Job, inbox: Inbox): Job
    requires ValidRows(job.tasks)
  {
    job.(tasks := map t | t in job.tasks :: Synced(job.tasks[t], Lookup(inbox, t, [])))
  }

  /** The statuses the round works with: each task's fold, right after it was synchronised. */
  function Shown(job: Job): map<Task, Status>
    requires ValidRows(job.tasks)
  {
    map t | t in job.tasks :: Current(job.tasks[t])
  }

  lemma SyncedHead(h: History, reports: seq<Report>)
    requires ValidHistory(h)
    ensures ValidHistory(Synced(h, reports)) && Latest(Synced(h, reports)) == Latest(h)
    ensures Current(Synced(h, reports)) == Folded(Collected(Head(h), reports))
    ensures Head(Synced(h, reports)).retries == Head(h).retries
    ensures Head(Synced(h, reports)).parties.Keys == Head(h).parties.Keys
  {
    CollectedFrame(Head(h), reports);
  }

  // ------------------------------------------------------------------
  // Starting waiting tasks
  // ------------------------------------------------------------------

  datatype Check = Ready | Blocked | Unknown

  /** The dependency test of a waiting task, in dependency order; Unknown is a missing task name. */
  function CheckDeps(shown: map<Task, Status>, deps: seq<Task>): Check {
    if deps == [] then Ready
    else if deps[0] !in shown then Unknown
    else if shown[deps[0]] != Success then Blocked
    else CheckDeps(shown, deps[1..])
  }

  ghost predicate AllSuccess(shown: map<Task, Status>, deps: seq<Task>) {
    forall d :: d in deps ==> d in shown && shown[d] == Success
  }

  lemma {:induction false} ReadyMeaning(shown: map<Task, Status>, deps: seq<Task>)
    ensures CheckDeps(shown, deps) == Ready <==> AllSuccess(shown, deps)
    ensures CheckDeps(shown, deps) == Unknown <==>
      exists i :: 0 <= i < |deps| && deps[i] !in shown && AllSuccess(shown, deps[..i])
  {
    if deps != [] {
      var rest := deps[1..];
      ReadyMeaning(shown, rest);
      assert deps == [deps[0]] + rest;
      if CheckDeps(shown, deps) == Unknown {
        if deps[0] !in shown {
          assert AllSuccess(shown, deps[..0]);
        } else {
          var i :| 0 <= i < |rest| && rest[i] !in shown && AllSuccess(shown, rest[..i]);
          assert deps[..i + 1] == [deps[0]] + rest[..i];
          assert deps[i + 1] !in shown && AllSuccess(shown, deps[..i + 1]);
        }
      }
      if i :| 0 <= i < |deps| && deps[i] !in shown && AllSuccess(shown, deps[..i]) {
        if i > 0 {
          assert deps[..i] == [deps[0]] + rest[..i - 1];
          assert deps[0] in deps[..i];
          assert rest[i - 1] !in shown && AllSuccess(shown, rest[..i - 1]);
        }
      }
    }
  }

  /** Marking waiting tasks RUNNING or FAILED changes nobody's dependency test. */
  lemma {:induction false} CheckStable(shown: map<Task, Status>, now: map<Task, Status>, deps: seq<Task>)
    requires shown.Keys == now.Keys
    requires forall t :: t in shown ==> (shown[t] == Success <==> now[t] == Success)
    ensures CheckDeps(now, deps) == CheckDeps(shown, deps)
  {
    if deps != [] {
      CheckStable(shown, now, deps[1..]);
    }
  }

  /** How starting one ready task can go: no resources, resources but a failed start call, or started. */
  datatype StartReply = NoResource | StartFailed | StartOk

  type Answers = map<Task, StartReply>

  datatype Stop = Finished | OutOfResource | FailedStart | UnknownTask

  /** sent: tasks whose start command was sent; met: a ready task was met. */
  datatype Walk = Walk(sent: seq<Task>, stop: Stop, met: bool)

  /** The loop over the waiting tasks. */
  function WalkFrom(plan: Plan, shown: map<Task, Status>, waiting: seq<Task>, answers: Answers): Walk
    requires forall t :: t in waiting ==> t in plan.deps
  {
    if waiting == [] then Walk([], Finished, false)
    else
      var t := waiting[0];
      match CheckDeps(shown, plan.deps[t])
      case Unknown => Walk([], UnknownTask, false)
      case Blocked => WalkFrom(plan, shown, waiting[1..], answers)
      case Ready =>
        match Lookup(answers, t, NoResource)
        case NoResource => Walk([], OutOfResource, true)
        case StartFailed => Walk([t], FailedStart, true)
        case StartOk =>
          var rest := WalkFrom(plan, shown, waiting[1..], answers);
          Walk([t] + rest.sent, rest.stop, true)
  }

  predicate IsReady(plan: Plan, shown: map<Task, Status>, t: Task) {
    t in plan.deps && CheckDeps(shown, plan.deps[t]) == Ready
  }

  /** Why the walk stops at t. */
  function StopAt(plan: Plan, shown: map<Task, Status>, t: Task, answers: Answers): Option<Stop>
    requires t in plan.deps
  {
    match CheckDeps(shown, plan.deps[t])
    case Unknown => Some(UnknownTask)
    case Blocked => None
    case Ready =>
      match Lookup(answers, t, NoResource)
      case NoResource => Some(OutOfResource)
      case StartFailed => Some(FailedStart)
      case StartOk => None
  }

  /** The ready tasks of a list, in its order. */
  function ReadyOf(plan: Plan, shown: map<Task, Status>, tasks: seq<Task>): seq<Task> {
    if tasks == [] then []
    else (if IsReady(plan, shown, tasks[0]) then [tasks[0]] else []) + ReadyOf(plan, shown, tasks[1..])
  }

  lemma {:induction false} ReadyOfMembers(plan: Plan, shown: map<Task, Status>, tasks: seq<Task>)
    ensures forall t :: t in ReadyOf(plan, shown, tasks) <==> t in tasks && IsReady(plan, shown, t)
    ensures Distinct(tasks) ==> Distinct(ReadyOf(plan, shown, tasks))
  {
    if tasks != [] {
      ReadyOfMembers(plan, shown, tasks[1..]);
      if Distinct(tasks) {
        assert tasks[0] !in tasks[1..];
      }
    }
  }

  /** The walk met no obstacle before position k, and the one that stopped it, if any, at k. */
  ghost predicate StopsAt(plan: Plan, shown: map<Task, Status>, waiting: seq<Task>, answers: Answers, stop: Stop, k: nat)
    requires forall t :: t in waiting ==> t in plan.deps
  {
    && k <= |waiting|
    && (forall i :: 0 <= i < k ==> StopAt(plan, shown, waiting[i], answers) == None)
    && (stop == Finished <==> k == |waiting|)
    && (k < |waiting| ==> StopAt(plan, shown, waiting[k], answers) == Some(stop))
  }

  /** How many waiting tasks the walk handed to start_task or passed over. */
  function Reach(stop: Stop, k: nat): nat {
    if stop == FailedStart then k + 1 else k
  }

  /** The start commands go to exactly the ready tasks before the first obstacle, in order. */
  lemma {:induction false} WalkIsReadyPrefix(plan: Plan, shown: map<Task, Status>, waiting: seq<Task>, answers: Answers)
    returns (k: nat)
    requires forall t :: t in waiting ==> t in plan.deps
    ensures StopsAt(plan, shown, waiting, answers, WalkFrom(plan, shown, waiting, answers).stop, k)
    ensures var w := WalkFrom(plan, shown, waiting, answers);
      && Reach(w.stop, k) <= |waiting|
      && w.sent == ReadyOf(plan, shown, waiting[..Reach(w.stop, k)])
      && (w.met <==> w.sent != [] || w.stop == OutOfResource)
  {
    if waiting == [] {
      k := 0;
    } else {
      var t, rest := waiting[0], waiting[1..];
      WalkTurns(plan, shown, waiting, answers);
      var w := WalkFrom(plan, shown, waiting, answers);
      if StopAt(plan, shown, t, answers) != None {
        k := 0;
        WalkStops(plan, shown, waiting, answers);
        hide WalkFrom, StopAt, IsReady, ReadyOf;
      } else {
        var j := WalkIsReadyPrefix(plan, shown, rest, answers);
        k := j + 1;
        hide WalkFrom, StopAt, IsReady, ReadyOf;
        StopsAtNext(plan, shown, waiting, answers, w.stop, j);
        ReadyOfCons(plan, shown, waiting, Reach(w.stop, j));
      }
    }
  }

  lemma WalkStops(plan: Plan, shown: map<Task, Status>, waiting: seq<Task>, answers: Answers)
    requires waiting != [] && forall t :: t in waiting ==> t in plan.deps
    requires StopAt(plan, shown, waiting[0], answers) != None
    ensures var w := WalkFrom(plan, shown, waiting, answers);
      && StopAt(plan, shown, waiting[0], answers) == Some(w.stop) && w.stop != Finished
      && w.sent == ReadyOf(plan, shown, waiting[..Reach(w.stop, 0)])
      && (w.met <==> w.sent != [] || w.stop == OutOfResource)
  {
    var t := waiting[0];
    assert waiting[..1] == [t] && waiting[..0] == [];
    assert ReadyOf(plan, shown, [t]) == if IsReady(plan, shown, t) then [t] else [];
  }

  /** One turn of the walk. */
  lemma WalkTurns(plan: Plan, shown: map<Task, Status>, waiting: seq<Task>, answers: Answers)
    requires waiting != [] && forall t :: t in waiting ==> t in plan.deps
    ensures StopAt(plan, shown, waiting[0], answers) == None ==>
      var w, rest := WalkFrom(plan, shown, waiting, answers), WalkFrom(plan, shown, waiting[1..], answers);
      var ready := IsReady(plan, shown, waiting[0]);
      w.stop == rest.stop && w.sent == (if ready then [waiting[0]] else []) + rest.sent && w.met == (ready || rest.met)
  {
    var rest := WalkFrom(plan, shown, waiting[1..], answers);
    assert [] + rest.sent == rest.sent;
  }

  lemma StopsAtNext(plan: Plan, shown: map<Task, Status>, waiting: seq<Task>, answers: Answers, stop: Stop, j: nat)
    requires waiting != [] && forall t :: t in waiting ==> t in plan.deps
    requires StopAt(plan, shown, waiting[0], answers) == None
    requires StopsAt(plan, shown, waiting[1..], answers, stop, j)
    ensures StopsAt(plan, shown, waiting, answers, stop, j + 1)
  {
    forall i | 0 <= i < j + 1 ensures StopAt(plan, shown, waiting[i], answers) == None {
      assert i > 0 ==> waiting[i] == waiting[1..][i - 1];
    }
  }

  lemma ReadyOfCons(plan: Plan, shown: map<Task, Status>, waiting: seq<Task>, reach: nat)
    requires reach < |waiting|
    ensures ReadyOf(plan, shown, waiting[..reach + 1])
      == (if IsReady(plan, shown, waiting[0]) then [waiting[0]] else []) + ReadyOf(plan, shown, waiting[1..][..reach])
  {
    var all := waiting[..reach + 1];
    assert all[0] == waiting[0] && all[1..] == waiting[1..][..reach];
  }

  function CodeOfWalk(w: Walk): Option<Code> {
    if w.stop == UnknownTask then None
    else if w.stop == FailedStart then Some(CodeFailed)
    else if w.met then Some(HaveNext)
    else Some(NoNext)
  }

  /** The round's statuses after the walk: RUNNING for the started tasks, FAILED for a failed start. */
  function ShownAfter(shown: map<Task, Status>, w: Walk): map<Task, Status> {
    map t | t in shown ::
      if t !in w.sent then shown[t]
      else if w.stop == FailedStart && w.sent[|w.sent| - 1] == t then Failed
      else Running
  }

  function StartedHistory(h: History): History
    requires ValidHistory(h)
  {
    WithHead(h, Head(h).(status := Changed(Head(h).status, Running)))
  }

  function StartedRows(tasks: map<Task, History>, sent: set<Task>): map<Task, History>
    requires ValidRows(tasks)
  {
    map t | t in tasks :: if t in sent then StartedHistory(tasks[t]) else tasks[t]
  }

  /** The log entries of the tasks in sent. */
  function StartEntries(tasks: map<Task, History>, sent: set<Task>): set<(Task, nat)>
    requires ValidRows(tasks)
  {
    set t | t in sent && t in tasks :: (t, Latest(tasks[t]))
  }

  function StartedJob(job: Job, sent: set<Task>): Job
    requires ValidRows(job.tasks)
  {
    job.(tasks := StartedRows(job.tasks, sent), started := job.started + StartEntries(job.tasks, sent))
  }

  // ------------------------------------------------------------------
  // The round
  // ------------------------------------------------------------------

  /** outcome is None when the round raised. */
  datatype RoundResult =
    RoundResult(job: Job, shown: map<Task, Status>, sent: seq<Task>, outcome: Option<Code>, retry: seq<Task>)

  predicate AnyInterrupt(shown: map<Task, Status>) {
    exists t :: t in shown && Interrupt(shown[t])
  }

  predicate IsWaiting(shown: map<Task, Status>, t: Task) {
    t in shown && shown[t] == Waiting
  }

  predicate WillRetry(job: Job, shown: map<Task, Status>, t: Task) {
    t in shown && t in job.tasks && ValidHistory(job.tasks[t])
    && !job.cancel && AutoRerun(shown[t]) && Head(job.tasks[t]).retries > 0
  }

  /** The names, in order, that the round will retry or try to start. */
  function RetryList(names: seq<Task>, job: Job, shown: map<Task, Status>): seq<Task> {
    if names == [] then []
    else
      var front, last := names[..|names| - 1], names[|names| - 1];
      RetryList(front, job, shown) + if WillRetry(job, shown, last) then [last] else []
  }

  function WaitingList(names: seq<Task>, shown: map<Task, Status>): seq<Task> {
    if names == [] then []
    else
      var front, last := names[..|names| - 1], names[|names| - 1];
      WaitingList(front, shown) + if IsWaiting(shown, last) then [last] else []
  }

  lemma {:induction false} RetryListMembers(names: seq<Task>, job: Job, shown: map<Task, Status>)
    ensures forall t :: t in RetryList(names, job, shown) <==> t in names && WillRetry(job, shown, t)
    ensures Distinct(names) ==> Distinct(RetryList(names, job, shown))
  {
    if names != [] {
      RetryListMembers(names[..|names| - 1], job, shown);
    }
  }

  lemma {:induction false} WaitingListMembers(names: seq<Task>, shown: map<Task, Status>)
    ensures forall t :: t in WaitingList(names, shown) <==> t in names && IsWaiting(shown, t)
    ensures Distinct(names) ==> Distinct(WaitingList(names, shown))
  {
    if names != [] {
      WaitingListMembers(names[..|names| - 1], shown);
    }
  }

  /** The round after the sync loop. */
  function FromSynced(plan: Plan, synced: Job, answers: Answers): RoundResult
    requires ValidJob(plan, synced)
  {
    var shown := Shown(synced);
    var retry := RetryList(plan.names, synced, shown);
    if synced.cancel || AnyInterrupt(shown) then RoundResult(synced, shown, [], Some(NoNext), retry)
    else
      WaitingListMembers(plan.names, shown);
      var w := WalkFrom(plan, shown, WaitingList(plan.names, shown), answers);
      RoundResult(StartedJob(synced, Elements(w.sent)), ShownAfter(shown, w), w.sent, CodeOfWalk(w), retry)
  }

  function Round(plan: Plan, job: Job, inbox: Inbox, answers: Answers): RoundResult
    requires ValidJob(plan, job)
  {
    SyncedJobValid(plan, job, inbox);
    FromSynced(plan, SyncedJob(job, inbox), answers)
  }

  lemma SyncedJobValid(plan: Plan, job: Job, inbox: Inbox)
    requires ValidJob(plan, job)
    ensures ValidJob(plan, SyncedJob(job, inbox))
  {
  }

  lemma StartedOneMore(job: Job, sent: set<Task>, t: Task)
    requires ValidRows(job.tasks) && t in job.tasks && t !in sent
    ensures t in StartedJob(job, sent).tasks && StartedJob(job, sent).tasks[t] == job.tasks[t]
    ensures StartedRows(job.tasks, sent + {t}) == StartedRows(job.tasks, sent)[t := StartedHistory(job.tasks[t])]
    ensures StartEntries(job.tasks, sent + {t}) == StartEntries(job.tasks, sent) + {(t, Latest(job.tasks[t]))}
  {
  }

  /** Statuses while the walk runs without a failed start. */
  function Marked(shown: map<Task, Status>, sent: seq<Task>): map<Task, Status> {
    map t | t in shown :: if t in sent then Running else shown[t]
  }

  lemma StartedRowsValid(tasks: map<Task, History>, sent: set<Task>)
    requires ValidRows(tasks)
    ensures StartedRows(tasks, sent).Keys == tasks.Keys && ValidRows(StartedRows(tasks, sent))
    ensures forall t :: t in tasks ==> Folded(Head(StartedRows(tasks, sent)[t])) == Folded(Head(tasks[t]))
  {
  }

  lemma StartedJobValid(plan: Plan, job: Job, sent: set<Task>)
    requires ValidJob(plan, job)
    ensures ValidJob(plan, StartedJob(job, sent))
    ensures Shown(StartedJob(job, sent)) == Shown(job)
  {
    StartedRowsValid(job.tasks, sent);
  }

  lemma RoundValid(plan: Plan, job: Job, inbox: Inbox, answers: Answers)
    requires ValidJob(plan, job)
    ensures ValidJob(plan, Round(plan, job, inbox, answers).job)
  {
    SyncedJobValid(plan, job, inbox);
    FromSyncedValid(plan, SyncedJob(job, inbox), answers);
  }

  lemma FromSyncedValid(plan: Plan, synced: Job, answers: Answers)
    requires ValidJob(plan, synced)
    ensures ValidJob(plan, FromSynced(plan, synced, answers).job)
  {
    var r := FromSynced(plan, synced, answers);
    StartedJobValid(plan, synced, Elements(r.sent));
  }

  /** The tasks a round may start: WAITING after the sync, with every dependency SUCCESS after the sync. */
  ghost predicate InFrontier(plan: Plan, shown: map<Task, Status>, t: Task) {
    t in plan.deps && IsWaiting(shown, t) && AllSuccess(shown, plan.deps[t])
  }

  ghost predicate FrontierGranted(plan: Plan, shown: map<Task, Status>, answers: Answers) {
    forall t :: InFrontier(plan, shown, t) ==> Lookup(answers, t, NoResource) == StartOk
  }

  /** A task waits and all its dependencies are SUCCESS, by the statuses of a round. */
  ghost predicate MayStart(plan: Plan, shown: map<Task, Status>, t: Task) {
    && t in plan.deps && t in shown && shown[t] == Waiting
    && forall d :: d in plan.deps[t] ==> d in shown && shown[d] == Success
  }

  ghost predicate SomeInterrupted(shown: map<Task, Status>) {
    exists t :: t in shown && shown[t] in {Canceled, Timeout, Failed}
  }

  /** One round sends start commands only to waiting tasks whose dependencies are all SUCCESS, each once; none if the job
      is cancelled or a task interrupted; and otherwise to all such tasks, whatever the iteration order, unless one of
      them got no resources or failed to start. */
  lemma RoundStartsFrontier(plan: Plan, job: Job, inbox: Inbox, answers: Answers)
    requires ValidJob(plan, job)
    ensures var r := Round(plan, job, inbox, answers);
      var shown := Shown(SyncedJob(job, inbox));
      && Distinct(r.sent)
      && (forall t :: t in r.sent ==> MayStart(plan, shown, t))
      && (job.cancel || SomeInterrupted(shown) ==> r.sent == [] && r.outcome == Some(NoNext) && r.shown == shown)
      && (!job.cancel && !SomeInterrupted(shown) && r.outcome.Some?
          && (forall t :: MayStart(plan, shown, t) ==> Lookup(answers, t, NoResource) == StartOk)
          ==> forall t :: MayStart(plan, shown, t) ==> t in r.sent)
  {
    SyncedJobValid(plan, job, inbox);
    SyncedStartsFrontier(plan, SyncedJob(job, inbox), answers);
    if job.cancel || AnyInterrupt(Shown(SyncedJob(job, inbox))) {
      HaltedRound(plan, SyncedJob(job, inbox), answers);
    }
    hide SyncedJob, FromSynced, Shown;
    FrontierIs(plan, Shown(SyncedJob(job, inbox)));
    hide MayStart, InFrontier, SomeInterrupted, AnyInterrupt;
  }

  lemma HaltedRound(plan: Plan, synced: Job, answers: Answers)
    requires ValidJob(plan, synced) && (synced.cancel || AnyInterrupt(Shown(synced)))
    ensures var r := FromSynced(plan, synced, answers);
      r.sent == [] && r.outcome == Some(NoNext) && r.shown == Shown(synced) && r.job == synced
  {
  }

  lemma FrontierIs(plan: Plan, shown: map<Task, Status>)
    ensures AnyInterrupt(shown) <==> SomeInterrupted(shown)
    ensures forall t :: InFrontier(plan, shown, t) <==> MayStart(plan, shown, t)
  {
  }

  lemma SyncedStartsFrontier(plan: Plan, synced: Job, answers: Answers)
    requires ValidJob(plan, synced)
    ensures var r := FromSynced(plan, synced, answers);
      var shown := Shown(synced);
      && Distinct(r.sent)
      && (forall t :: t in r.sent ==> InFrontier(plan, shown, t))
      && (synced.cancel || AnyInterrupt(shown) ==> r.sent == [])
      && (!synced.cancel && !AnyInterrupt(shown) && r.outcome.Some? && FrontierGranted(plan, shown, answers)
          ==> forall t :: InFrontier(plan, shown, t) ==> t in r.sent)
  {
    var shown := Shown(synced);
    if !synced.cancel && !AnyInterrupt(shown) {
      WaitingListMembers(plan.names, shown);
      WalkStartsFrontier(plan, shown, WaitingList(plan.names, shown), answers);
    }
  }

  lemma WalkStartsFrontier(plan: Plan, shown: map<Task, Status>, waiting: seq<Task>, answers: Answers)
    requires Distinct(waiting)
    requires forall t :: t in waiting <==> t in plan.deps && IsWaiting(shown, t)
    ensures var w := WalkFrom(plan, shown, waiting, answers);
      && Distinct(w.sent)
      && (forall t :: t in w.sent ==> InFrontier(plan, shown, t))
      && (w.stop != UnknownTask && FrontierGranted(plan, shown, answers)
          ==> forall t :: InFrontier(plan, shown, t) ==> t in w.sent)
  {
    var k := WalkIsReadyPrefix(plan, shown, waiting, answers);
    var w := WalkFrom(plan, shown, waiting, answers);
    var reached := waiting[..Reach(w.stop, k)];
    ReadyOfMembers(plan, shown, reached);
    forall t | t in plan.deps ensures IsReady(plan, shown, t) <==> AllSuccess(shown, plan.deps[t]) {
      ReadyMeaning(shown, plan.deps[t]);
    }
    assert forall t :: t in reached ==> t in waiting;
    if k < |waiting| && w.stop != UnknownTask {
      assert waiting[k] in waiting;
      assert IsReady(plan, shown, waiting[k]);
      assert InFrontier(plan, shown, waiting[k]);
    } else if w.stop == Finished {
      assert reached == waiting;
    }
  }
}
