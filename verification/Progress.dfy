// Deadlock, false cancels and termination: what a round does for a job whose
// dependency relation is, or is not, acyclic.
module Progress {
  import opened Common
  import opened Statuses
  import opened Aggregation
  import opened Jobs
  import opened Rounds
  import opened Runs

  /** t waits for a task of s, or for a name that is no task at all. */
  ghost predicate WaitsIn(plan: Plan, s: set<Task>, t: Task)
    requires t in plan.deps
  {
    exists d :: d in plan.deps[t] && (d in s || d !in plan.deps)
  }

  /** Every task of s waits for another task of s: a set that holds a cycle, or a task with an unknown dependency. */
  ghost predicate Stuck(plan: Plan, s: set<Task>) {
    s != {} && s <= plan.deps.Keys && forall t {:trigger WaitsIn(plan, s, t)} :: t in s ==> WaitsIn(plan, s, t)
  }

  /** No cycle, and every dependency names a task. */
  ghost predicate Acyclic(plan: Plan) {
    !exists s :: Stuck(plan, s)
  }

  lemma AcyclicKnows(plan: Plan)
    requires Acyclic(plan)
    ensures KnownDeps(plan)
  {
    forall t, d | t in plan.deps && d in plan.deps[t] ensures d in plan.deps {
      assert !Stuck(plan, {t});
      assert !WaitsIn(plan, {t}, t);
    }
  }

  ghost predicate Falls(plan: Plan, rank: map<Task, nat>, t: Task)
    requires rank.Keys == plan.deps.Keys && t in plan.deps
  {
    forall d :: d in plan.deps[t] && d in rank ==> rank[d] < rank[t]
  }

  /** A numbering that falls along dependencies, such as a topological order, rules out stuck sets. */
  lemma RankedIsAcyclic(plan: Plan, rank: map<Task, nat>)
    requires rank.Keys == plan.deps.Keys && KnownDeps(plan)
    requires forall t :: t in plan.deps ==> Falls(plan, rank, t)
    ensures Acyclic(plan)
  {
    forall s ensures !Stuck(plan, s) {
      if s != {} && s <= plan.deps.Keys {
        var t := Lowest(rank, s);
        assert Falls(plan, rank, t);
        assert !WaitsIn(plan, s, t);
      }
    }
  }

  lemma {:induction false} Lowest(rank: map<Task, nat>, s: set<Task>) returns (t: Task)
    requires s != {} && s <= rank.Keys
    ensures t in s && forall u :: u in s ==> rank[t] <= rank[u]
  {
    t :| t in s;
    if s != {t} {
      var u := Lowest(rank, s - {t});
      t := if rank[t] <= rank[u] then t else u;
    }
  }

  // ------------------------------------------------------------------
  // One round
  // ------------------------------------------------------------------

  lemma {:induction false} KnownNeverUnknown(shown: map<Task, Status>, deps: seq<Task>)
    requires forall d :: d in deps ==> d in shown
    ensures CheckDeps(shown, deps) != Unknown
  {
    if deps != [] {
      KnownNeverUnknown(shown, deps[1..]);
    }
  }

  lemma {:induction false} NothingToRetry(names: seq<Task>, job: Job, shown: map<Task, Status>)
    requires !AnyInterrupt(shown)
    ensures RetryList(names, job, shown) == []
  {
    if names != [] {
      NothingToRetry(names[..|names| - 1], job, shown);
    }
  }

  /** waiting lists the WAITING tasks of a job in which every dependency names a task. */
  ghost predicate WaitingOf(plan: Plan, shown: map<Task, Status>, waiting: seq<Task>) {
    && KnownDeps(plan) && shown.Keys == plan.deps.Keys && Distinct(waiting)
    && forall t :: t in waiting <==> t in plan.deps && IsWaiting(shown, t)
  }

  lemma FrontierIsReady(plan: Plan, shown: map<Task, Status>, waiting: seq<Task>, t: Task)
    requires WaitingOf(plan, shown, waiting)
    ensures InFrontier(plan, shown, t) <==> t in waiting && IsReady(plan, shown, t)
    ensures t in plan.deps ==> CheckDeps(shown, plan.deps[t]) != Unknown
  {
    if t in plan.deps {
      ReadyMeaning(shown, plan.deps[t]);
      KnownNeverUnknown(shown, plan.deps[t]);
    }
  }

  /** The walk stops early only at a frontier task that got no resources or failed to start. */
  lemma WalkStop(plan: Plan, shown: map<Task, Status>, waiting: seq<Task>, answers: Answers) returns (k: nat)
    requires WaitingOf(plan, shown, waiting)
    ensures var w := WalkFrom(plan, shown, waiting, answers);
      && w.stop != UnknownTask
      && (w.stop != Finished ==> k < |waiting| && InFrontier(plan, shown, waiting[k]))
      && (w.stop != Finished ==> Lookup(answers, waiting[k], NoResource) != StartOk)
      && Reach(w.stop, k) <= |waiting| && w.sent == ReadyOf(plan, shown, waiting[..Reach(w.stop, k)])
      && (w.stop == Finished ==> k == |waiting|)
      && (w.met <==> w.sent != [] || w.stop == OutOfResource)
  {
    k := WalkIsReadyPrefix(plan, shown, waiting, answers);
    if k < |waiting| {
      FrontierIsReady(plan, shown, waiting, waiting[k]);
    }
  }

  ghost predicate SomeFrontier(plan: Plan, shown: map<Task, Status>) {
    exists t :: InFrontier(plan, shown, t)
  }

  lemma WalkMeets(plan: Plan, shown: map<Task, Status>, waiting: seq<Task>, answers: Answers)
    requires WaitingOf(plan, shown, waiting)
    ensures var w := WalkFrom(plan, shown, waiting, answers);
      && (w.met <==> SomeFrontier(plan, shown))
      && (w.stop == FailedStart ==> Failed in ShownAfter(shown, w).Values)
      && (FrontierGranted(plan, shown, answers) ==> w.stop == Finished)
  {
    var w := WalkFrom(plan, shown, waiting, answers);
    var k := WalkStop(plan, shown, waiting, answers);
    var reached := waiting[..Reach(w.stop, k)];
    ReadyOfMembers(plan, shown, reached);
    if t :| InFrontier(plan, shown, t) {
      if w.stop == Finished {
        FrontierIsReady(plan, shown, waiting, t);
        assert reached == waiting;
        assert t in w.sent;
      } else if w.stop == FailedStart {
        FrontierIsReady(plan, shown, waiting, waiting[k]);
        assert waiting[k] in reached;
        assert waiting[k] in w.sent;
      }
    }
    if w.sent != [] {
      var last := w.sent[|w.sent| - 1];
      assert last in w.sent && last in reached;
      FrontierIsReady(plan, shown, waiting, last);
      assert w.stop == FailedStart ==> ShownAfter(shown, w)[last] == Failed;
    }
  }

  /** What a round of an uncancelled job without interrupts returns: NO_NEXT exactly when no task is in the
      frontier, and never an exception. */
  lemma RoundOutcome(plan: Plan, synced: Job, answers: Answers)
    requires ValidJob(plan, synced) && KnownDeps(plan)
    requires !synced.cancel && !AnyInterrupt(Shown(synced))
    ensures var r := FromSynced(plan, synced, answers);
      && r.outcome.Some?
      && (r.outcome == Some(NoNext) <==> !SomeFrontier(plan, Shown(synced)))
      && (r.outcome == Some(CodeFailed) ==> Failed in r.shown.Values)
      && (FrontierGranted(plan, Shown(synced), answers) ==> r.outcome != Some(CodeFailed))
      && r.retry == []
  {
    hide Shown;
    ShownKeys(plan, synced);
    var shown := Shown(synced);
    WaitingListMembers(plan.names, shown);
    var waiting := WaitingList(plan.names, shown);
    WalkMeets(plan, shown, waiting, answers);
    var k := WalkStop(plan, shown, waiting, answers);
    NothingToRetry(plan.names, synced, shown);
  }

  lemma ShownKeys(plan: Plan, job: Job)
    requires ValidJob(plan, job)
    ensures Shown(job).Keys == plan.deps.Keys == Elements(plan.names)
  {
  }

  // ------------------------------------------------------------------
  // Deadlock and false cancels
  // ------------------------------------------------------------------

  ghost function WaitingTasks(shown: map<Task, Status>): set<Task> {
    set t | t in shown && shown[t] == Waiting
  }

  /** Only WAITING and SUCCESS tasks are left. */
  ghost predicate Quiet(shown: map<Task, Status>) {
    forall t :: t in shown ==> shown[t] == Waiting || shown[t] == Success
  }

  lemma FrontierUnlessStuck(plan: Plan, shown: map<Task, Status>)
    requires KnownDeps(plan) && shown.Keys == plan.deps.Keys && Quiet(shown) && WaitingTasks(shown) != {}
    ensures !SomeFrontier(plan, shown) <==> Stuck(plan, WaitingTasks(shown))
  {
    var s := WaitingTasks(shown);
    forall t | t in s ensures InFrontier(plan, shown, t) <==> !WaitsIn(plan, s, t) {
      assert forall d :: d in plan.deps[t] ==> d in shown && (d in s <==> shown[d] != Success);
    }
    if t :| InFrontier(plan, shown, t) {
      assert t in s && !WaitsIn(plan, s, t);
    }
    if !SomeFrontier(plan, shown) {
      forall t | t in s ensures WaitsIn(plan, s, t) {
        assert !InFrontier(plan, shown, t);
      }
    }
  }

  /** A round that finds only WAITING and SUCCESS tasks gives up exactly when the waiting tasks wait for each other. */
  lemma DeadlockIff(plan: Plan, synced: Job, answers: Answers)
    requires ValidJob(plan, synced) && KnownDeps(plan) && !synced.cancel
    requires Quiet(Shown(synced)) && WaitingTasks(Shown(synced)) != {}
    ensures FromSynced(plan, synced, answers).outcome == Some(NoNext) <==> Stuck(plan, WaitingTasks(Shown(synced)))
    ensures Acyclic(plan) ==> FromSynced(plan, synced, answers).outcome != Some(NoNext)
  {
    ShownKeys(plan, synced);
    hide Shown;
    RoundOutcome(plan, synced, answers);
    FrontierUnlessStuck(plan, Shown(synced));
  }

  /** A round changes the statuses it works with only for the tasks it starts. */
  lemma ShownShape(plan: Plan, synced: Job, answers: Answers)
    requires ValidJob(plan, synced)
    ensures var r, shown := FromSynced(plan, synced, answers), Shown(synced);
      && r.shown.Keys == shown.Keys == plan.deps.Keys && r.job.cancel == synced.cancel
      && (forall t :: t in shown && t !in r.sent ==> r.shown[t] == shown[t])
      && (forall t :: t in shown && t in r.sent ==>
            r.shown[t] == Running || (r.shown[t] == Failed && r.outcome == Some(CodeFailed)))
      && (synced.cancel || AnyInterrupt(shown) ==> r.outcome == Some(NoNext) && r.sent == [])
      && (!synced.cancel && !AnyInterrupt(shown) ==> r.job == StartedJob(synced, Elements(r.sent)))
  {
    hide StartedRows, StartEntries;
  }

  /** Neither fold raises on what a round produces: a pass raises only on a dependency that names no task. */
  lemma PassNeverRaises(plan: Plan, synced: Job, answers: Answers)
    requires ValidJob(plan, synced) && KnownDeps(plan) && plan.names != []
    ensures PassStatus(FromSynced(plan, synced, answers)).Some?
  {
    ShownShape(plan, synced, answers);
    ShownKeys(plan, synced);
    var r := FromSynced(plan, synced, answers);
    hide Shown, FromSynced, JobStatusOf;
    if !synced.cancel && !AnyInterrupt(Shown(synced)) {
      RoundOutcome(plan, synced, answers);
    }
    SomeShown(r.shown, plan.names[0]);
    NoneMeans(r.outcome.value, r.shown.Values);
  }

  lemma NoneMeans(code: Code, s: set<Status>)
    ensures JobStatusOf(code, s) == None ==> s == {} || (code == CodeFailed && Failed !in s)
  {
    JobStatusMeaning(code, s);
  }

  lemma CanceledMeans(code: Code, s: set<Status>)
    ensures JobStatusOf(code, s) == Some(Canceled) ==>
      Canceled in s || (code == NoNext && Waiting in s && forall x :: x in s ==> x == Waiting || x == Success || x == Pass)
  {
    JobStatusMeaning(code, s);
  }

  lemma SomeShown(shown: map<Task, Status>, t: Task)
    requires t in shown
    ensures shown.Values != {}
  {
    assert shown[t] in shown.Values;
  }

  /** No false cancel: in an acyclic job a pass reports CANCELED only if the job was cancelled or a task is. */
  lemma NoFalseCancel(plan: Plan, synced: Job, answers: Answers)
    requires ValidJob(plan, synced) && Acyclic(plan)
    requires PassStatus(FromSynced(plan, synced, answers)) == Some(Canceled)
    ensures synced.cancel || Canceled in Shown(synced).Values
  {
    AcyclicKnows(plan);
    var r := FromSynced(plan, synced, answers);
    var shown := Shown(synced);
    JobStatusMeaning(r.outcome.value, r.shown.Values);
    if !synced.cancel && !AnyInterrupt(shown) {
      QuietPass(plan, synced, answers);
    }
  }

  /** Without interrupts and cancel, CANCELED can only come from a round that found nothing to start. */
  lemma QuietPass(plan: Plan, synced: Job, answers: Answers)
    requires ValidJob(plan, synced) && KnownDeps(plan) && !synced.cancel && !AnyInterrupt(Shown(synced))
    requires PassStatus(FromSynced(plan, synced, answers)) == Some(Canceled)
    ensures Stuck(plan, WaitingTasks(Shown(synced)))
  {
    hide Shown, FromSynced, Stuck, JobStatusOf, InFrontier, AnyInterrupt, KnownDeps;
    NoCanceledAfter(plan, synced, answers);
    var r, shown := FromSynced(plan, synced, answers), Shown(synced);
    CanceledMeans(r.outcome.value, r.shown.Values);
    NothingStarted(plan, synced, answers);
    ShownNeverPass(plan, synced);
    OnlyQuiet(shown);
    DeadlockIff(plan, synced, answers);
  }

  lemma NoCanceledAfter(plan: Plan, synced: Job, answers: Answers)
    requires ValidJob(plan, synced) && KnownDeps(plan) && !synced.cancel && !AnyInterrupt(Shown(synced))
    ensures var r := FromSynced(plan, synced, answers);
      r.outcome.Some? && Canceled !in r.shown.Values && !r.job.cancel
  {
    RoundOutcome(plan, synced, answers);
    ShownShape(plan, synced, answers);
    hide Shown, FromSynced;
    var r := FromSynced(plan, synced, answers);
    NoneCanceled(Shown(synced), r.shown, r.sent);
  }

  /** A round that returns NO_NEXT without interrupt or cancel has changed no status. */
  lemma NothingStarted(plan: Plan, synced: Job, answers: Answers)
    requires ValidJob(plan, synced) && KnownDeps(plan) && !synced.cancel && !AnyInterrupt(Shown(synced))
    requires FromSynced(plan, synced, answers).outcome == Some(NoNext)
    ensures FromSynced(plan, synced, answers).shown == Shown(synced)
  {
    hide Shown, FromSynced, AnyInterrupt, KnownDeps, ValidHistory, InFrontier, SomeFrontier, StartedJob;
    ShownShape(plan, synced, answers);
    NoneSent(plan, synced, answers);
  }

  lemma NoneSent(plan: Plan, synced: Job, answers: Answers)
    requires ValidJob(plan, synced) && KnownDeps(plan) && !synced.cancel && !AnyInterrupt(Shown(synced))
    requires FromSynced(plan, synced, answers).outcome == Some(NoNext)
    ensures FromSynced(plan, synced, answers).sent == []
  {
    hide Shown, FromSynced, AnyInterrupt, KnownDeps, ValidHistory, InFrontier, SomeFrontier, FrontierGranted;
    RoundOutcome(plan, synced, answers);
    SyncedStartsFrontier(plan, synced, answers);
    SentIsFrontier(plan, Shown(synced), FromSynced(plan, synced, answers).sent);
  }

  lemma SentIsFrontier(plan: Plan, shown: map<Task, Status>, sent: seq<Task>)
    requires forall t :: t in sent ==> InFrontier(plan, shown, t)
    ensures sent != [] ==> SomeFrontier(plan, shown)
  {
    if sent != [] {
      assert InFrontier(plan, shown, sent[0]);
    }
  }

  lemma NoneCanceled(shown: map<Task, Status>, after: map<Task, Status>, sent: seq<Task>)
    requires !AnyInterrupt(shown) && after.Keys == shown.Keys
    requires forall t :: t in shown && t !in sent ==> after[t] == shown[t]
    requires forall t :: t in shown && t in sent ==> after[t] == Running || after[t] == Failed
    ensures Canceled !in after.Values
  {
    forall t | t in after ensures after[t] != Canceled {
      assert t !in sent ==> !Interrupt(shown[t]);
    }
  }

  lemma OnlyQuiet(shown: map<Task, Status>)
    requires Waiting in shown.Values && forall t :: t in shown ==> shown[t] != Pass
    requires forall x :: x in shown.Values ==> x == Waiting || x == Success || x == Pass
    ensures Quiet(shown) && WaitingTasks(shown) != {}
  {
    forall t | t in shown ensures shown[t] == Waiting || shown[t] == Success {
      assert shown[t] in shown.Values;
    }
    var t :| t in shown && shown[t] == Waiting;
    assert t in WaitingTasks(shown);
  }

  lemma ShownNeverPass(plan: Plan, job: Job)
    requires ValidJob(plan, job)
    ensures forall t :: t in Shown(job) ==> Shown(job)[t] != Pass
  {
    forall t | t in job.tasks ensures Current(job.tasks[t]) != Pass {
      TaskStatusMeaning(Head(job.tasks[t]).parties.Values);
    }
  }

  // ------------------------------------------------------------------
  // Dependency paths
  // ------------------------------------------------------------------

  /** A chain of dependencies, each task depending on the next. */
  ghost predicate Path(plan: Plan, p: seq<Task>) {
    && p != [] && (forall t :: t in p ==> t in plan.deps)
    && forall i :: 0 <= i < |p| - 1 ==> p[i + 1] in plan.deps[p[i]]
  }

  ghost predicate DependsOn(plan: Plan, t: Task, u: Task) {
    exists p :: Path(plan, p) && |p| > 1 && p[0] == t && p[|p| - 1] == u
  }

  lemma PathTail(plan: Plan, p: seq<Task>)
    requires Path(plan, p)
    ensures p[0] in plan.deps && p[|p| - 1] in plan.deps
    ensures |p| > 1 ==> p[1] in plan.deps[p[0]] && Path(plan, p[1..]) && p[1..][|p| - 2] == p[|p| - 1]
  {
    if |p| > 1 {
      assert p[0 + 1] in plan.deps[p[0]];
      var rest := p[1..];
      forall i | 0 <= i < |rest| - 1 ensures rest[i + 1] in plan.deps[rest[i]] {
        assert p[i + 1 + 1] in plan.deps[p[i + 1]];
      }
    }
  }

  lemma PathPart(plan: Plan, p: seq<Task>, i: nat, j: nat)
    requires Path(plan, p) && i < j < |p|
    ensures Path(plan, p[i..j + 1]) && DependsOn(plan, p[i], p[j])
  {
    var part := p[i..j + 1];
    forall k | 0 <= k < |part| - 1 ensures part[k + 1] in plan.deps[part[k]] {
      assert p[i + k + 1] in plan.deps[p[i + k]];
    }
  }

  /** The tasks of a path back to its start wait for each other. */
  lemma CycleIsStuck(plan: Plan, p: seq<Task>)
    requires Path(plan, p) && |p| > 1 && p[0] == p[|p| - 1]
    ensures Stuck(plan, Elements(p))
  {
    var s := Elements(p);
    assert p[0] in s;
    forall t | t in s ensures WaitsIn(plan, s, t) {
      var i :| 0 <= i < |p| && p[i] == t;
      var k := if i == |p| - 1 then 0 else i;
      assert p[k] == t && p[k + 1] in plan.deps[p[k]] && p[k + 1] in s;
    }
  }

  /** In a stuck set whose dependencies are all known there are paths of any length. */
  lemma {:induction false} StuckPath(plan: Plan, s: set<Task>, n: nat) returns (p: seq<Task>)
    requires Stuck(plan, s) && KnownDeps(plan)
    ensures Path(plan, p) && |p| == n + 1 && Elements(p) <= s
  {
    if n == 0 {
      var t :| t in s;
      p := [t];
    } else {
      var q := StuckPath(plan, s, n - 1);
      var last := q[|q| - 1];
      assert last in Elements(q) && WaitsIn(plan, s, last);
      var d :| d in plan.deps[last] && (d in s || d !in plan.deps);
      p := q + [d];
      forall i | 0 <= i < |p| - 1 ensures p[i + 1] in plan.deps[p[i]] {
        assert i < |q| - 1 ==> q[i + 1] in plan.deps[q[i]];
      }
      ElementsAppend(q, d);
    }
  }

  lemma Repeats(p: seq<Task>, s: set<Task>)
    requires Elements(p) <= s && |p| > |s|
    ensures !Distinct(p)
  {
    if Distinct(p) {
      DistinctCount(p);
      SubsetCount(Elements(p), s);
    }
  }

  /** No stuck set means what one expects: every dependency names a task, and no task depends on itself along a path. */
  lemma AcyclicIff(plan: Plan)
    ensures Acyclic(plan) <==> KnownDeps(plan) && forall t :: !DependsOn(plan, t, t)
  {
    if Acyclic(plan) {
      AcyclicKnows(plan);
      forall t ensures !DependsOn(plan, t, t) {
        if DependsOn(plan, t, t) {
          var p :| Path(plan, p) && |p| > 1 && p[0] == t && p[|p| - 1] == t;
          CycleIsStuck(plan, p);
        }
      }
    } else if KnownDeps(plan) {
      var s :| Stuck(plan, s);
      var p := StuckPath(plan, s, |s|);
      Repeats(p, s);
      var i, j :| 0 <= i < j < |p| && p[i] == p[j];
      PathPart(plan, p, i, j);
    }
  }

  lemma {:induction false} AncestorsSuccess(plan: Plan, job: Job, p: seq<Task>)
    requires ValidJob(plan, job) && Closed(plan, job) && Path(plan, p)
    requires Current(job.tasks[p[0]]) == Success
    ensures Current(job.tasks[p[|p| - 1]]) == Success
  {
    PathTail(plan, p);
    if |p| > 1 {
      AncestorsSuccess(plan, job, p[1..]);
    }
  }

  /** An interrupted task has no SUCCESS descendant. */
  lemma InterruptedBlocks(plan: Plan, job: Job, t: Task, u: Task)
    requires Inv(plan, job) && DependsOn(plan, t, u) && u in job.tasks && Interrupt(Current(job.tasks[u]))
    ensures t in job.tasks && Current(job.tasks[t]) != Success
  {
    InvClosed(plan, job);
    var p :| Path(plan, p) && |p| > 1 && p[0] == t && p[|p| - 1] == u;
    PathTail(plan, p);
    if Current(job.tasks[t]) == Success {
      AncestorsSuccess(plan, job, p);
    }
  }

  lemma FrontierPair(plan: Plan, synced: Job, t: Task, u: Task)
    requires Inv(plan, synced) && InFrontier(plan, Shown(synced), t) && InFrontier(plan, Shown(synced), u)
    ensures !DependsOn(plan, t, u)
  {
    InvClosed(plan, synced);
    hide Path, Closed, Inv;
    if DependsOn(plan, t, u) {
      var p :| Path(plan, p) && |p| > 1 && p[0] == t && p[|p| - 1] == u;
      PathTail(plan, p);
      assert Shown(synced)[p[1]] == Success;
      AncestorsSuccess(plan, synced, p[1..]);
    }
  }

  /** The tasks one round starts are independent: none depends, however indirectly, on another. */
  lemma StartedAntichain(plan: Plan, synced: Job, answers: Answers)
    requires Inv(plan, synced)
    ensures var sent := FromSynced(plan, synced, answers).sent;
      forall t, u :: t in sent && u in sent ==> !DependsOn(plan, t, u)
  {
    SyncedStartsFrontier(plan, synced, answers);
    hide FromSynced, DependsOn, InFrontier, Inv;
    var sent := FromSynced(plan, synced, answers).sent;
    forall t, u | t in sent && u in sent ensures !DependsOn(plan, t, u) {
      FrontierPair(plan, synced, t, u);
    }
  }
}
