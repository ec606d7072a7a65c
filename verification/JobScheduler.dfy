// The scheduler's own loops over one job's rows.  Every method changes the rows
// the way the source does and is proved to land where Rounds, Reruns and Runs
// say it lands.
module JobSchedulers {
  import opened Common
  import opened Statuses
  import opened Aggregation
  import opened Federated
  import opened Jobs
  import opened Rounds
  import opened Reruns
  import opened Runs
  import opened Reports

  // ------------------------------------------------------------------
  // The sync loop
  // ------------------------------------------------------------------

  /** The rows when the tasks in done were synchronised, and the statuses read off them. */
  ghost function RowsUpTo(before: map<Task, History>, after: map<Task, History>, done: seq<Task>): map<Task, History>
    requires after.Keys == before.Keys
  {
    map t | t in before :: if t in done then after[t] else before[t]
  }

  ghost function ShownUpTo(all: map<Task, Status>, done: seq<Task>): map<Task, Status> {
    map t | t in done && t in all :: all[t]
  }

  ghost predicate InterruptUpTo(all: map<Task, Status>, done: seq<Task>) {
    exists t :: t in done && t in all && Interrupt(all[t])
  }

  lemma PrefixStep(names: seq<Task>, i: nat)
    requires i < |names|
    ensures names[..i + 1][..i] == names[..i] && names[..i + 1][i] == names[i]
    ensures forall s :: s in names[..i + 1] <==> s in names[..i] || s == names[i]
  {
  }

  lemma MapsStep(before: map<Task, History>, after: map<Task, History>, all: map<Task, Status>, names: seq<Task>, i: nat)
    requires i < |names| && after.Keys == before.Keys && names[i] in before && names[i] in all
    ensures RowsUpTo(before, after, names[..i])[names[i] := after[names[i]]] == RowsUpTo(before, after, names[..i + 1])
    ensures ShownUpTo(all, names[..i])[names[i] := all[names[i]]] == ShownUpTo(all, names[..i + 1])
    ensures InterruptUpTo(all, names[..i + 1]) == (InterruptUpTo(all, names[..i]) || Interrupt(all[names[i]]))
  {
    PrefixStep(names, i);
  }

  lemma ListsStep(names: seq<Task>, i: nat, job: Job, all: map<Task, Status>, s: Status, h: History)
    requires i < |names| && names[i] in all && all[names[i]] == s
    requires names[i] in job.tasks && job.tasks[names[i]] == h && ValidHistory(h)
    ensures var before := WaitingList(names[..i], all);
      WaitingList(names[..i + 1], all) == if s == Waiting then before + [names[i]] else before
    ensures var before := RetryList(names[..i], job, all);
      RetryList(names[..i + 1], job, all)
        == if !job.cancel && AutoRerun(s) && Head(h).retries > 0 then before + [names[i]] else before
  {
    PrefixStep(names, i);
  }

  lemma JobRows(plan: Plan, job: Job)
    requires ValidJob(plan, job)
    ensures ValidRows(job.tasks)
  {
  }

  lemma OneRow(plan: Plan, job: Job, t: Task, h: History)
    requires ValidJob(plan, job) && t in job.tasks
    ensures ValidHistory(job.tasks[t])
    ensures ValidHistory(h) ==> ValidJob(plan, job.(tasks := job.tasks[t := h]))
  {
  }

  /** Synchronising is collecting, folding, and writing the fold into the status row if the row takes it. */
  lemma SyncedInSteps(h: History, reports: seq<Report>)
    requires ValidHistory(h)
    ensures var c := WithHead(h, Collected(Head(h), reports));
      && ValidHistory(c) && ValidHistory(Synced(h, reports))
      && Current(Synced(h, reports)) == Current(c)
      && Synced(h, reports) == if Current(c) != Head(c).status && CanChange(Head(c).status, Current(c))
                               then WithHead(c, Head(c).(status := Current(c))) else c
  {
  }

  /** The row about to be synchronised is still untouched, and all rows are well formed. */
  lemma RowsUpToNext(before: map<Task, History>, after: map<Task, History>, names: seq<Task>, i: nat)
    requires i < |names| && Distinct(names) && after.Keys == before.Keys && names[i] in before
    requires forall t :: t in before ==> ValidHistory(before[t]) && ValidHistory(after[t])
    ensures var rows := RowsUpTo(before, after, names[..i]);
      && rows.Keys == before.Keys && rows[names[i]] == before[names[i]]
      && forall t :: t in rows ==> ValidHistory(rows[t])
  {
    assert names[i] !in names[..i];
  }

  /** One turn of the sync loop. */
  lemma SyncNext(plan: Plan, start: Job, inbox: Inbox, i: nat)
    requires ValidJob(plan, start) && i < |plan.names|
    ensures ValidJob(plan, SyncedJob(start, inbox))
    ensures var target := SyncedJob(start, inbox);
      var all, names, t := Shown(target), plan.names, plan.names[i];
      var rows := RowsUpTo(start.tasks, target.tasks, names[..i]);
      && t in start.tasks && t in rows && rows[t] == start.tasks[t]
      && ValidHistory(start.tasks[t]) && ValidHistory(target.tasks[t])
      && rows[t := Synced(start.tasks[t], Lookup(inbox, t, []))] == RowsUpTo(start.tasks, target.tasks, names[..i + 1])
      && target.tasks[t] == Synced(start.tasks[t], Lookup(inbox, t, []))
      && t in all && all[t] == Current(target.tasks[t])
      && ShownUpTo(all, names[..i])[t := all[t]] == ShownUpTo(all, names[..i + 1])
      && InterruptUpTo(all, names[..i + 1]) == (InterruptUpTo(all, names[..i]) || Interrupt(all[t]))
  {
    var target := SyncedJob(start, inbox);
    SyncedJobValid(plan, start, inbox);
    RowsUpToNext(start.tasks, target.tasks, plan.names, i);
    MapsStep(start.tasks, target.tasks, Shown(target), plan.names, i);
  }

  lemma UpToNothing(before: map<Task, History>, after: map<Task, History>, all: map<Task, Status>, job: Job)
    requires after.Keys == before.Keys
    ensures RowsUpTo(before, after, []) == before && ShownUpTo(all, []) == map[] && !InterruptUpTo(all, [])
    ensures WaitingList([], all) == [] && RetryList([], job, all) == []
  {
  }

  lemma RowsUpToDone(plan: Plan, before: map<Task, History>, target: Job)
    requires ValidJob(plan, target) && target.tasks.Keys == before.Keys
    ensures var after, all, names := target.tasks, Shown(target), plan.names;
      && RowsUpTo(before, after, names) == after && ShownUpTo(all, names) == all
      && (InterruptUpTo(all, names) <==> AnyInterrupt(all))
  {
  }

  // ------------------------------------------------------------------
  // The start loop
  // ------------------------------------------------------------------

  /** What the start loop has done before position i of the waiting list. */
  ghost predicate WalkState(plan: Plan, start: Job, waiting: seq<Task>, answers: Answers, i: nat,
                            now: Job, shown: map<Task, Status>, outcome: Option<Code>, sent: seq<Task>)
    requires i <= |waiting| && forall t :: t in start.tasks ==> ValidHistory(start.tasks[t])
    requires forall t :: t in waiting ==> t in plan.deps
  {
    var before := Shown(start);
    var whole, rest := WalkFrom(plan, before, waiting, answers), WalkFrom(plan, before, waiting[i..], answers);
    && now == StartedJob(start, Elements(sent))
    && shown == Marked(before, sent)
    && (forall t :: t in sent ==> t in waiting[..i])
    && whole.sent == sent + rest.sent
    && whole.stop == rest.stop
    && (whole.met <==> outcome == Some(HaveNext) || rest.met)
    && (outcome == Some(NoNext) || outcome == Some(HaveNext))
  }

  /** At position i: the rows are well formed, the next task's row is untouched, and the dependency test
      sees what it saw before the loop. */
  lemma WalkStateNext(plan: Plan, start: Job, waiting: seq<Task>, answers: Answers, i: nat,
                      now: Job, shown: map<Task, Status>, outcome: Option<Code>, sent: seq<Task>)
    requires ValidJob(plan, start) && i < |waiting| && Distinct(waiting)
    requires forall t :: t in waiting ==> t in plan.deps && IsWaiting(Shown(start), t)
    requires WalkState(plan, start, waiting, answers, i, now, shown, outcome, sent)
    ensures ValidJob(plan, now) && waiting[i] in now.tasks && now.tasks[waiting[i]] == start.tasks[waiting[i]]
    ensures CheckDeps(shown, plan.deps[waiting[i]]) == CheckDeps(Shown(start), plan.deps[waiting[i]])
    ensures waiting[i] !in sent && waiting[i] in waiting
    ensures now == StartedJob(start, Elements(sent)) && shown == Marked(Shown(start), sent)
  {
    StartedJobValid(plan, start, Elements(sent));
    assert forall t :: t in sent ==> t in waiting;
    CheckStable(Shown(start), shown, plan.deps[waiting[i]]);
  }

  lemma WalkStateStart(plan: Plan, start: Job, waiting: seq<Task>, answers: Answers)
    requires ValidJob(plan, start) && forall t :: t in waiting ==> t in plan.deps
    ensures WalkState(plan, start, waiting, answers, 0, start, Shown(start), Some(NoNext), [])
  {
    assert StartedJob(start, Elements([])).tasks == start.tasks;
    assert waiting[0..] == waiting;
  }

  lemma WalkStepBlocked(plan: Plan, start: Job, waiting: seq<Task>, answers: Answers, i: nat,
                        now: Job, shown: map<Task, Status>, outcome: Option<Code>, sent: seq<Task>)
    requires ValidJob(plan, start) && i < |waiting| && forall t :: t in waiting ==> t in plan.deps
    requires WalkState(plan, start, waiting, answers, i, now, shown, outcome, sent)
    requires CheckDeps(Shown(start), plan.deps[waiting[i]]) == Blocked
    ensures WalkState(plan, start, waiting, answers, i + 1, now, shown, outcome, sent)
  {
    hide StartedJob, Marked, Shown, ValidHistory;
    assert waiting[i..][0] == waiting[i] && waiting[i..][1..] == waiting[i + 1..];
    assert forall t :: t in sent ==> t in waiting[..i + 1];
  }

  lemma WalkStepStarted(plan: Plan, start: Job, waiting: seq<Task>, answers: Answers, i: nat,
                        now: Job, shown: map<Task, Status>, outcome: Option<Code>, sent: seq<Task>, now': Job)
    requires ValidJob(plan, start) && i < |waiting| && forall t :: t in waiting ==> t in plan.deps
    requires WalkState(plan, start, waiting, answers, i, now, shown, outcome, sent)
    requires CheckDeps(Shown(start), plan.deps[waiting[i]]) == Ready
    requires Lookup(answers, waiting[i], NoResource) == StartOk
    requires now' == StartedJob(start, Elements(sent + [waiting[i]]))
    requires waiting[i] in start.tasks
    ensures WalkState(plan, start, waiting, answers, i + 1, now', shown[waiting[i] := Running], Some(HaveNext), sent + [waiting[i]])
  {
    hide StartedJob, Marked, ValidHistory;
    var t := waiting[i];
    var rest := WalkFrom(plan, Shown(start), waiting[i + 1..], answers);
    assert waiting[i..][0] == t && waiting[i..][1..] == waiting[i + 1..];
    assert sent + ([t] + rest.sent) == (sent + [t]) + rest.sent;
    PrefixStep(waiting, i);
    MarkedStep(Shown(start), sent, t);
  }

  lemma MarkedStep(shown: map<Task, Status>, sent: seq<Task>, t: Task)
    requires t in shown
    ensures Marked(shown, sent)[t := Running] == Marked(shown, sent + [t])
  {
  }

  /** The start loop is over and left exactly the whole walk's result. */
  ghost predicate WalkOver(plan: Plan, start: Job, waiting: seq<Task>, answers: Answers,
                           now: Job, shown: map<Task, Status>, outcome: Option<Code>, sent: seq<Task>)
    requires ValidRows(start.tasks) && forall t :: t in waiting ==> t in plan.deps
  {
    var w := WalkFrom(plan, Shown(start), waiting, answers);
    && now == StartedJob(start, Elements(w.sent))
    && shown == ShownAfter(Shown(start), w) && sent == w.sent && outcome == CodeOfWalk(w)
  }

  /** One turn of the start loop: each obstacle ends the walk, anything else leads to the next position. */
  lemma WalkTurn(plan: Plan, start: Job, waiting: seq<Task>, answers: Answers, i: nat,
                 now: Job, shown: map<Task, Status>, outcome: Option<Code>, sent: seq<Task>)
    requires ValidJob(plan, start) && i < |waiting| && Distinct(waiting)
    requires forall t :: t in waiting ==> t in plan.deps && IsWaiting(Shown(start), t)
    requires WalkState(plan, start, waiting, answers, i, now, shown, outcome, sent)
    ensures var t := waiting[i];
      var after := StartedJob(start, Elements(sent + [t]));
      match CheckDeps(shown, plan.deps[t])
      case Unknown => WalkOver(plan, start, waiting, answers, now, shown, None, sent)
      case Blocked => WalkState(plan, start, waiting, answers, i + 1, now, shown, outcome, sent)
      case Ready =>
        match Lookup(answers, t, NoResource)
        case NoResource => WalkOver(plan, start, waiting, answers, now, shown, Some(HaveNext), sent)
        case StartFailed => WalkOver(plan, start, waiting, answers, after, shown[t := Failed], Some(CodeFailed), sent + [t])
        case StartOk => WalkState(plan, start, waiting, answers, i + 1, after, shown[t := Running], Some(HaveNext), sent + [t])
  {
    hide StartedJob, Marked, ShownAfter, Shown, ValidHistory;
    var t := waiting[i];
    var w := WalkFrom(plan, Shown(start), waiting, answers);
    assert waiting[i..][0] == t && sent + [] == sent;
    WalkStateNext(plan, start, waiting, answers, i, now, shown, outcome, sent);
    match CheckDeps(shown, plan.deps[t])
    case Unknown =>
      MarkedIsShown(Shown(start), w);
    case Blocked =>
      WalkStepBlocked(plan, start, waiting, answers, i, now, shown, outcome, sent);
    case Ready =>
      match Lookup(answers, t, NoResource)
      case NoResource =>
        MarkedIsShown(Shown(start), w);
      case StartFailed =>
        FailedShown(Shown(start), w, sent, t);
      case StartOk =>
        WalkStepStarted(plan, start, waiting, answers, i, now, shown, outcome, sent, StartedJob(start, Elements(sent + [t])));
  }

  /** Starting one more task. */
  lemma StartedStep(plan: Plan, start: Job, sent: seq<Task>, t: Task)
    requires ValidJob(plan, start) && t in start.tasks && t !in sent
    ensures var now := StartedJob(start, Elements(sent));
      && ValidJob(plan, now) && now.tasks[t] == start.tasks[t]
      && StartedJob(start, Elements(sent + [t])) == now.(
           tasks := now.tasks[t := StartedHistory(now.tasks[t])],
           started := now.started + {(t, Latest(now.tasks[t]))})
  {
    StartedJobValid(plan, start, Elements(sent));
    StartedOneMore(start, Elements(sent), t);
    ElementsAppend(sent, t);
  }

  lemma WalkDone(plan: Plan, start: Job, waiting: seq<Task>, answers: Answers,
                 now: Job, shown: map<Task, Status>, outcome: Option<Code>, sent: seq<Task>)
    requires ValidJob(plan, start) && forall t :: t in waiting ==> t in plan.deps
    requires WalkState(plan, start, waiting, answers, |waiting|, now, shown, outcome, sent)
    ensures WalkOver(plan, start, waiting, answers, now, shown, outcome, sent)
  {
    assert waiting[|waiting|..] == [];
    assert sent + [] == sent;
    MarkedIsShown(Shown(start), WalkFrom(plan, Shown(start), waiting, answers));
  }

  lemma MarkedIsShown(shown: map<Task, Status>, w: Walk)
    requires w.stop != FailedStart
    ensures ShownAfter(shown, w) == Marked(shown, w.sent)
  {
  }

  lemma FailedShown(shown: map<Task, Status>, w: Walk, sent: seq<Task>, t: Task)
    requires w.stop == FailedStart && w.sent == sent + [t] && t in shown && t !in sent
    ensures ShownAfter(shown, w) == Marked(shown, sent)[t := Failed]
  {
    assert w.sent[|w.sent| - 1] == t;
  }

  /** One turn of the rerun loop. */
  lemma RerunRowsNext(plan: Plan, job: Job, rows: seq<Row>, i: nat, auto: bool, attempts: Attempts)
    requires i <= |rows| && forall r :: r in rows ==> r.task in job.tasks && r.task in plan.parties
    ensures i == |rows| ==> RerunRows(plan, job, rows[i..], auto, attempts) == RerunResult(job, false)
    ensures i < |rows| ==>
      var t := rows[i].task;
      var p := Prepare(plan.parties[t], job.tasks[t], rows[i], auto, false, Lookup(attempts, t, []));
      var job' := job.(tasks := job.tasks[t := p.history]);
      RerunRows(plan, job, rows[i..], auto, attempts)
        == if p.raised then RerunResult(job', true) else RerunRows(plan, job', rows[i + 1..], auto, attempts)
  {
    if i < |rows| {
      assert rows[i..][0] == rows[i] && rows[i..][1..] == rows[i + 1..];
    }
  }

  function RowsFor(plan: Plan, retries: int, names: seq<Task>): map<Task, History> {
    map t | t in names && t in plan.parties :: FirstHistory(plan.parties[t], retries)
  }

  lemma RowsForStep(plan: Plan, retries: int, i: nat)
    requires ValidPlan(plan) && i < |plan.names|
    ensures plan.names[i] in plan.parties
    ensures RowsFor(plan, retries, plan.names[..i])[plan.names[i] := FirstHistory(plan.parties[plan.names[i]], retries)]
      == RowsFor(plan, retries, plan.names[..i + 1])
  {
    PrefixStep(plan.names, i);
    assert plan.names[i] in Elements(plan.names);
  }

  lemma RowsForAll(plan: Plan, retries: int)
    requires ValidPlan(plan)
    ensures RowsFor(plan, retries, plan.names) == FirstRows(plan.parties, retries)
    ensures ValidJob(plan, InitialJob(plan, retries))
  {
  }

  lemma SettledFrame(plan: Plan, job: Job, status: Status)
    requires ValidJob(plan, job)
    ensures ValidJob(plan, Settled(job, status)) && Settled(job, status).tasks == job.tasks
  {
  }

  class JobScheduler {
    const plan: Plan
    var tasks: map<Task, History>
    var status: Status
    var cancelSignal: bool
    var rerunSignal: bool
    var started: set<(Task, nat)>

    function View(): Job
      reads this
    {
      Job(tasks, status, cancelSignal, rerunSignal, started)
    }

    ghost predicate Valid()
      reads this
    {
      ValidJob(plan, View())
    }

    /** create_schedule_tasks: version 0 of every task, WAITING for every party that runs it. */
    constructor (plan: Plan, retries: int)
      requires ValidPlan(plan)
      ensures Valid() && this.plan == plan && View() == InitialJob(plan, retries)
    {
      this.plan := plan;
      var made: map<Task, History> := map[];
      assert plan.names[..0] == [];
      for i := 0 to |plan.names|
        invariant made == RowsFor(plan, retries, plan.names[..i])
      {
        RowsForStep(plan, retries, i);
        made := made[plan.names[i] := FirstHistory(plan.parties[plan.names[i]], retries)];
      }
      assert plan.names[..|plan.names|] == plan.names;
      RowsForAll(plan, retries);
      tasks, status, cancelSignal, rerunSignal, started := made, Waiting, false, false, {};
    }

    // ------------------------------------------------------------------
    // Synchronising
    // ------------------------------------------------------------------

    /** collect_task_of_all_party: one party row update per answer; a running party's row ends with the first end
        status the party reports. */
    method CollectTask(t: Task, reports: seq<Report>)
      requires Valid() && t in tasks
      modifies this`tasks
      ensures Valid()
      ensures tasks == old(tasks)[t := WithHead(old(tasks[t]), Collected(Head(old(tasks[t])), reports))]
      ensures RunningRowsEnd(Head(old(tasks[t])), reports, Head(tasks[t]))
    {
      RunningRows(Head(tasks[t]), reports);
      hide RunningRowsEnd;
      ghost var before := Head(tasks[t]);
      var h := tasks[t];
      for i := 0 to |reports|
        invariant tasks == old(tasks)[t := h]
        invariant ValidHistory(h) && h == WithHead(old(tasks[t]), Head(h))
        invariant Collected(Head(h), reports[i..]) == Collected(before, reports)
      {
        assert reports[i..][1..] == reports[i + 1..];
        h := WithHead(h, Reported(Head(h), reports[i]));
        tasks := tasks[t := h];
      }
    }

    /** get_federated_task_status: the fold over the party rows, FAILED when there are none. */
    method GetFederatedTaskStatus(t: Task) returns (s: Status)
      requires Valid() && t in tasks
      ensures s == Current(tasks[t])
    {
      var rows := Head(tasks[t]).parties;
      if rows == map[] {
        assert rows.Values == {};
        return Failed;
      }
      var list := ValueList(rows);
      assert rows.Values != {} by {
        var p :| p in rows;
        assert rows[p] in rows.Values;
      }
      var folded := CalculateMultiPartyTaskStatus(list);
      return folded.value;
    }

    /** Synchronises one task and reports what the round will see of it. */
    method SyncTask(t: Task, reports: seq<Report>) returns (s: Status)
      requires Valid() && t in tasks
      modifies this`tasks
      ensures Valid()
      ensures tasks == old(tasks)[t := Synced(old(tasks[t]), reports)]
      ensures s == Current(tasks[t])
    {
      hide ValidHistory, ValidJob, ValidRows, Collected, WithHead, Synced, Current, CanChange, Head;
      ghost var start := View();
      OneRow(plan, start, t, start.tasks[t]);
      SyncedInSteps(start.tasks[t], reports);
      OneRow(plan, start, t, Synced(start.tasks[t], reports));
      CollectTask(t, reports);
      s := GetFederatedTaskStatus(t);
      var row := Head(tasks[t]);
      if s != row.status && CanChange(row.status, s) {
        tasks := tasks[t := WithHead(tasks[t], row.(status := s))];
      }
      assert View() == start.(tasks := start.tasks[t := Synced(start.tasks[t], reports)]);
    }

    /** The sync loop of a round: statuses, waiting tasks, interrupt flag and retry list. */
    method SyncTasks(inbox: Inbox) returns (shown: map<Task, Status>, waiting: seq<Task>, interrupt: bool, retry: seq<Task>)
      requires Valid()
      modifies this`tasks
      ensures Valid() && View() == SyncedJob(old(View()), inbox)
      ensures shown == Shown(View())
      ensures waiting == WaitingList(plan.names, shown)
      ensures interrupt <==> AnyInterrupt(shown)
      ensures retry == RetryList(plan.names, View(), shown)
    {
      hide ValidJob, ValidRows, ValidHistory, Synced, Current, Shown, RetryList, WaitingList, AnyInterrupt;
      hide RowsUpTo, ShownUpTo, InterruptUpTo;
      shown, waiting, interrupt, retry := map[], [], false, [];
      ghost var before := tasks;
      JobRows(plan, View());
      ghost var target := SyncedJob(View(), inbox);
      SyncedJobValid(plan, View(), inbox);
      ghost var all := Shown(target);
      var names := plan.names;
      UpToNothing(before, target.tasks, all, target);
      assert names[..0] == [];
      for i := 0 to |names|
        invariant Valid() && tasks == RowsUpTo(before, target.tasks, names[..i])
        invariant shown == ShownUpTo(all, names[..i]) && interrupt == InterruptUpTo(all, names[..i])
        invariant waiting == WaitingList(names[..i], all) && retry == RetryList(names[..i], target, all)
      {
        var t := names[i];
        SyncNext(plan, old(View()), inbox, i);
        var s := SyncTask(t, Lookup(inbox, t, []));
        ListsStep(names, i, target, all, s, tasks[t]);
        shown := shown[t := s];
        if Interrupt(s) {
          interrupt := true;
        }
        if s == Waiting {
          waiting := waiting + [t];
        } else if Interrupt(s) {
          if !cancelSignal && AutoRerun(s) {
            if Head(tasks[t]).retries > 0 {
              retry := retry + [t];
            }
          }
        }
      }
      assert names[..|names|] == names;
      RowsUpToDone(plan, before, target);
    }

    // ------------------------------------------------------------------
    // Starting
    // ------------------------------------------------------------------

    /** start_task: once resources are granted the row turns RUNNING and the start command goes out. */
    method StartTask(t: Task, reply: StartReply)
      requires Valid() && t in tasks
      modifies this`tasks, this`started
      ensures Valid()
      ensures reply == NoResource ==> tasks == old(tasks) && started == old(started)
      ensures reply != NoResource ==> tasks == old(tasks)[t := StartedHistory(old(tasks[t]))]
      ensures reply != NoResource ==> started == old(started) + {(t, Latest(old(tasks[t])))}
    {
      if reply == NoResource {
        return;
      }
      var row := Head(tasks[t]);
      if CanChange(row.status, Running) {
        tasks := tasks[t := WithHead(tasks[t], row.(status := Running))];
      }
      assert tasks[t] == StartedHistory(old(tasks[t]));
      started := started + {(t, Latest(tasks[t]))};
    }

    /** The dependency test of one waiting task against the round's statuses. */
    method TestDeps(shown: map<Task, Status>, deps: seq<Task>) returns (c: Check)
      ensures c == CheckDeps(shown, deps)
    {
      for i := 0 to |deps|
        invariant CheckDeps(shown, deps) == CheckDeps(shown, deps[i..])
      {
        assert deps[i..][1..] == deps[i + 1..];
        if deps[i] !in shown {
          return Unknown;
        }
        if shown[deps[i]] != Success {
          return Blocked;
        }
      }
      return Ready;
    }

    /** The loop over the waiting tasks, with its early exits; outcome None is a lookup that raised. */
    method StartWaiting(before: map<Task, Status>, waiting: seq<Task>, answers: Answers)
      returns (shown: map<Task, Status>, outcome: Option<Code>, sent: seq<Task>)
      requires Valid() && before == Shown(View())
      requires Distinct(waiting) && forall t :: t in waiting ==> t in plan.deps && IsWaiting(before, t)
      modifies this`tasks, this`started
      ensures Valid()
      ensures WalkOver(plan, old(View()), waiting, answers, View(), shown, outcome, sent)
    {
      hide WalkState, WalkOver, Shown, CheckDeps, StartedHistory, StartedJob, ValidHistory, IsWaiting;
      shown, outcome, sent := before, Some(NoNext), [];
      ghost var start := View();
      WalkStateStart(plan, start, waiting, answers);
      for i := 0 to |waiting|
        invariant Valid() && WalkState(plan, start, waiting, answers, i, View(), shown, outcome, sent)
      {
        var t := waiting[i];
        WalkStateNext(plan, start, waiting, answers, i, View(), shown, outcome, sent);
        WalkTurn(plan, start, waiting, answers, i, View(), shown, outcome, sent);
        StartedStep(plan, start, sent, t);
        var c := TestDeps(shown, plan.deps[t]);
        match c {
          case Unknown =>
            outcome := None;
            return;
          case Blocked =>
          case Ready =>
            outcome := Some(HaveNext);
            var reply := Lookup(answers, t, NoResource);
            StartTask(t, reply);
            if reply == NoResource {
              return;
            }
            sent := sent + [t];
            if reply == StartFailed {
              outcome := Some(CodeFailed);
              shown := shown[t := Failed];
              return;
            }
            shown := shown[t := Running];
        }
      }
      WalkDone(plan, start, waiting, answers, View(), shown, outcome, sent);
    }

    /** One round over the job's tasks. */
    method Schedule(inbox: Inbox, answers: Answers)
      returns (outcome: Option<Code>, retry: seq<Task>, shown: map<Task, Status>, sent: seq<Task>)
      requires Valid()
      modifies this`tasks, this`started
      ensures Valid()
      ensures RoundResult(View(), shown, sent, outcome, retry) == Round(plan, old(View()), inbox, answers)
    {
      hide SyncedJob, StartedJob, RetryList, WaitingList, WalkFrom, ShownAfter, CodeOfWalk, Shown, AnyInterrupt, ValidHistory;
      ghost var start := View();
      SyncedJobValid(plan, start, inbox);
      var waiting, interrupt;
      shown, waiting, interrupt, retry := SyncTasks(inbox);
      sent := [];
      outcome := Some(NoNext);
      if !cancelSignal && !interrupt {
        WaitingListMembers(plan.names, shown);
        shown, outcome, sent := StartWaiting(shown, waiting, answers);
      }
    }

    // ------------------------------------------------------------------
    // Reruns
    // ------------------------------------------------------------------

    /** create_new_version_schedule_task: offers version numbers until every party accepts one, three times
        at most, then inserts the new rows. */
    method CreateNewVersion(row: Row, auto: bool, answers: seq<Response>) returns (raised: bool)
      requires Valid() && row.task in tasks
      modifies this`tasks
      ensures Valid()
      ensures raised <==> AcceptedVersion(row.version, answers) == None
      ensures raised ==> tasks == old(tasks)
      ensures !raised ==> tasks == old(tasks)[row.task := Inserted(old(tasks[row.task]),
        AcceptedVersion(row.version, answers).value,
        FreshVersion(plan.parties[row.task], if auto then row.retries - 1 else row.retries,
                     if auto then ByAutoRerun else ByManualRerun))]
    {
      var retries := if auto then row.retries - 1 else row.retries;
      var retryTime := RETRY_TIMES;
      var newVersion := row.version;
      while true
        invariant tasks == old(tasks) && 0 <= retryTime <= RETRY_TIMES && newVersion == row.version + (RETRY_TIMES - retryTime)
        invariant forall i: nat :: i < RETRY_TIMES - retryTime ==> !AllOk(Answer(answers, i))
        decreases retryTime
      {
        if retryTime == 0 {
          return true;
        }
        var success := ReturnFederatedResponse(Answer(answers, RETRY_TIMES - retryTime));
        newVersion := newVersion + 1;
        if success {
          break;
        }
        retryTime := retryTime - 1;
      }
      assert AcceptedVersion(row.version, answers) == Some(newVersion);
      var made := FreshVersion(plan.parties[row.task], retries, if auto then ByAutoRerun else ByManualRerun);
      InsertedValid(tasks[row.task], newVersion, made);
      tasks := tasks[row.task := Inserted(tasks[row.task], newVersion, made)];
      return false;
    }

    method PrepareRerunTask(row: Row, auto: bool, force: bool, answers: seq<Response>) returns (can: bool, raised: bool)
      requires Valid() && row.task in tasks
      modifies this`tasks
      ensures Valid()
      ensures var p := Prepare(plan.parties[row.task], old(tasks[row.task]), row, auto, force, answers);
        tasks == old(tasks)[row.task := p.history] && can == p.can && raised == p.raised
    {
      var auto' := auto;
      can, raised := false, false;
      if force {
        can := true;
        auto' := false;
      } else if row.status == Success {
      } else if auto && row.retries < 1 {
      } else {
        can := true;
      }
      if can {
        if row.status != Waiting {
          raised := CreateNewVersion(row, auto', answers);
        }
      }
    }

    /** rerun_job over the given rows; an exception leaves the signals alone. */
    method RerunJob(rows: seq<Row>, auto: bool, attempts: Attempts) returns (raised: bool)
      requires Valid() && forall r :: r in rows ==> r.task in tasks
      modifies this`tasks, this`rerunSignal, this`cancelSignal
      ensures Valid()
      ensures RerunResult(View(), raised) == Rerun(plan, old(View()), rows, auto, attempts)
    {
      hide RerunRows, Prepare;
      ghost var whole := RerunRows(plan, View(), rows, auto, attempts);
      raised := false;
      assert rows[0..] == rows;
      for i := 0 to |rows|
        invariant Valid() && tasks.Keys == old(tasks.Keys)
        invariant rerunSignal == old(rerunSignal) && cancelSignal == old(cancelSignal)
        invariant whole == RerunRows(plan, View(), rows[i..], auto, attempts)
      {
        RerunRowsNext(plan, View(), rows, i, auto, attempts);
        var can;
        can, raised := PrepareRerunTask(rows[i], auto, false, Lookup(attempts, rows[i].task, []));
        if raised {
          return;
        }
      }
      RerunRowsNext(plan, View(), rows, |rows|, auto, attempts);
      rerunSignal := true;
      cancelSignal := false;
    }

    // ------------------------------------------------------------------
    // The pass over a running job
    // ------------------------------------------------------------------

    /** Writing the job status: the row takes it if the table allows, and finishing as CANCELED sets the signal. */
    method SettleJob(newStatus: Status)
      modifies this`status, this`cancelSignal
      ensures View() == Settled(old(View()), newStatus)
    {
      if JobCanChange(status, newStatus) && (AutoRerun(newStatus) ==> !rerunSignal) {
        status := newStatus;
      }
      if newStatus == Canceled {
        cancelSignal := true;
      }
    }

    /** schedule_running_job; result None is a pass that raised. */
    method ScheduleRunningJob(inbox: Inbox, answers: Answers, attempts: Attempts) returns (result: Option<Status>)
      requires Valid()
      modifies this
      ensures Valid()
      ensures PassResult(View(), result) == RunPass(plan, old(View()), inbox, answers, attempts)
    {
      hide Round, Rerun, JobStatusOf, AutoRows, ValidHistory, Settled, PersistedStatus;
      RoundIsGood(plan, View(), inbox, answers);
      var outcome, retry, shown, sent := Schedule(inbox, answers);
      ghost var r := RoundResult(View(), shown, sent, outcome, retry);
      if outcome.None? {
        return None;
      }
      var list := ValueList(shown);
      var newStatus := CalculateJobStatus(outcome.value, list);
      if newStatus.None? {
        return None;
      }
      result := newStatus;
      if newStatus == Some(Waiting) && cancelSignal {
        result := Some(Canceled);
      }
      assert result == PassStatus(r);
      SettleJob(result.value);
      SettledFrame(plan, r.job, result.value);
      if retry != [] {
        var rows := AutoRows(View(), shown, retry);
        AutoRowsInJob(View(), shown, retry);
        var raised := RerunJob(rows, true, attempts);
      }
    }

    /** schedule_rerun_job: a finished job is put back to WAITING and keeps the rerun signal until every party
        agreed; any other job drops the signal and is then given a pass, without taking the lock again. */
    method ScheduleRerunJob(consent: bool, inbox: Inbox, answers: Answers, attempts: Attempts)
      requires Valid()
      modifies this
      ensures Valid()
      ensures End(old(status)) ==> View() == Requeued(old(View()), consent)
      ensures !End(old(status)) ==>
        ValidJob(plan, Requeued(old(View()), consent))
        && View() == RunPass(plan, Requeued(old(View()), consent), inbox, answers, attempts).job
    {
      hide RunPass, ValidHistory;
      if End(status) {
        if consent {
          rerunSignal := false;
        }
        if JobCanChange(status, Waiting) {
          status := Waiting;
        }
      } else {
        rerunSignal := false;
        assert View() == Requeued(old(View()), consent);
        var result := ScheduleRunningJob(inbox, answers, attempts);
      }
    }

    /** The query of a manual rerun for one task: among its interrupted rows, the newest. */
    method QueryInterrupted(t: Task) returns (row: Option<Row>)
      requires Valid() && t in tasks
      ensures row == SelectedRow(t, tasks[t])
    {
      var h := tasks[t];
      var newest: Option<nat> := None;
      for v := 0 to |h|
        invariant newest == SelectedBelow(h, v)
        invariant newest.Some? ==> newest.value < v
      {
        if h[v].Some? && Interrupt(h[v].value.status) {
          newest := Some(v);
        }
      }
      SelectedBelowMeaning(h, |h|);
      row := if newest.Some? then Some(RowAt(t, h, newest.value)) else None;
    }
  }
}
