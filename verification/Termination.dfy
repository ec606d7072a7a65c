// How a run ends when the parties cooperate: every started task succeeds before
// the next pass, resources are granted and nobody cancels.
module Termination {
  import opened Common
  import opened Statuses
  import opened Aggregation
  import opened Federated
  import opened Jobs
  import opened Rounds
  import opened Reruns
  import opened Runs
  import opened Progress

  /** What one pass meets: collected reports, start replies, rerun answers. */
  datatype Env = Env(inbox: Inbox, answers: Answers, attempts: Attempts)

  /** Started tasks turn SUCCESS by this pass and all others stay WAITING. */
  ghost predicate Delivers(job: Job, inbox: Inbox)
    requires ValidRows(job.tasks)
  {
    forall t :: t in job.tasks ==>
      Folded(Collected(Head(job.tasks[t]), Lookup(inbox, t, []))) == if IsStarted(job, t) then Success else Waiting
  }

  ghost predicate Benign(plan: Plan, job: Job, env: Env) {
    && ValidJob(plan, job) && HonestInbox(job, env.inbox) && Delivers(job, env.inbox) && HeardAll(plan, env.attempts)
    && forall t :: t in plan.deps ==> Lookup(env.answers, t, NoResource) == StartOk
  }

  ghost predicate BenignRun(plan: Plan, retries: int, js: seq<Job>, envs: seq<Env>) {
    && ValidPlan(plan) && plan.names != []
    && |js| == |envs| + 1 && js[0] == InitialJob(plan, retries)
    && forall i :: 0 <= i < |envs| ==> BenignPass(plan, js[i], envs[i], js[i + 1])
  }

  ghost predicate BenignPass(plan: Plan, job: Job, env: Env, job': Job) {
    Benign(plan, job, env) && job' == RunPass(plan, job, env.inbox, env.answers, env.attempts).job
  }

  ghost function StartedTasks(job: Job): set<Task>
    requires ValidRows(job.tasks)
  {
    set t | t in job.tasks && IsStarted(job, t)
  }

  /** The tasks that can start once those in s succeeded. */
  ghost function NextTasks(plan: Plan, s: set<Task>): set<Task> {
    set t | t in plan.deps && t !in s && forall d :: d in plan.deps[t] ==> d in s
  }

  lemma NextIsNew(plan: Plan, s: set<Task>)
    ensures NextTasks(plan, s) <= plan.deps.Keys - s
  {
  }

  lemma StartedAreTasks(plan: Plan, job: Job)
    requires ValidJob(plan, job)
    ensures StartedTasks(job) <= plan.deps.Keys
  {
  }

  lemma SomethingNext(plan: Plan, s: set<Task>)
    requires Acyclic(plan) && s < plan.deps.Keys
    ensures NextTasks(plan, s) != {}
  {
    var left := plan.deps.Keys - s;
    assert left != {} by {
      var u :| u in plan.deps && u !in s;
      assert u in left;
    }
    assert !Stuck(plan, left);
    var t :| t in left && !WaitsIn(plan, left, t);
    assert t in NextTasks(plan, s);
  }

  // ------------------------------------------------------------------
  // One benign pass
  // ------------------------------------------------------------------

  lemma DeliveredShown(plan: Plan, job: Job, inbox: Inbox)
    requires ValidJob(plan, job) && Delivers(job, inbox)
    ensures ValidJob(plan, SyncedJob(job, inbox))
    ensures var shown := Shown(SyncedJob(job, inbox));
      && shown.Keys == plan.deps.Keys
      && (forall t :: t in shown ==> shown[t] == if t in StartedTasks(job) then Success else Waiting)
      && !AnyInterrupt(shown)
      && (forall t :: InFrontier(plan, shown, t) <==> t in NextTasks(plan, StartedTasks(job)))
    ensures StartedTasks(SyncedJob(job, inbox)) == StartedTasks(job)
  {
    hide Collected, CanChange, SyncedVersion, FederatedStatus, Folded;
    SyncedJobValid(plan, job, inbox);
    var shown := Shown(SyncedJob(job, inbox));
    forall t | t in job.tasks
      ensures shown[t] == if t in StartedTasks(job) then Success else Waiting
      ensures Latest(SyncedJob(job, inbox).tasks[t]) == Latest(job.tasks[t])
    {
      SyncedHead(job.tasks[t], Lookup(inbox, t, []));
    }
  }

  /** The synchronised tasks in s are SUCCESS, the others WAITING, and next is the frontier. */
  ghost predicate Split(plan: Plan, synced: Job, s: set<Task>, next: set<Task>) {
    && ValidJob(plan, synced) && KnownDeps(plan) && !synced.cancel
    && StartedTasks(synced) == s && !AnyInterrupt(Shown(synced))
    && (forall t :: t in plan.deps ==> Shown(synced)[t] == if t in s then Success else Waiting)
    && (forall t :: InFrontier(plan, Shown(synced), t) <==> t in next)
  }

  /** What the round leaves: the frontier RUNNING, the rest as it was. */
  ghost predicate RoundLeaves(plan: Plan, synced: Job, r: RoundResult, s: set<Task>, next: set<Task>) {
    && r.outcome == Some(if next == {} then NoNext else HaveNext)
    && r.retry == [] && ValidJob(plan, r.job) && StartedTasks(r.job) == s + next
    && r.job.status == synced.status && r.job.cancel == synced.cancel && r.job.rerun == synced.rerun
    && r.shown.Keys == plan.deps.Keys
    && forall t :: t in r.shown ==> r.shown[t] == if t in s then Success else if t in next then Running else Waiting
  }

  lemma SplitRound(plan: Plan, synced: Job, answers: Answers, s: set<Task>, next: set<Task>)
    requires Split(plan, synced, s, next)
    requires forall t :: t in plan.deps ==> Lookup(answers, t, NoResource) == StartOk
    ensures RoundLeaves(plan, synced, FromSynced(plan, synced, answers), s, next)
  {
    SentIsNext(plan, synced, answers, s, next);
    SplitCode(plan, synced, answers, s, next);
    ShownShape(plan, synced, answers);
    hide FromSynced, Shown, FrontierGranted, KnownDeps, SomeFrontier, AnyInterrupt, InFrontier, ValidHistory, StartedTasks,
      StartedRows, StartEntries;
    StartedOne(plan, synced, next);
  }

  lemma SplitCode(plan: Plan, synced: Job, answers: Answers, s: set<Task>, next: set<Task>)
    requires Split(plan, synced, s, next)
    requires forall t :: t in plan.deps ==> Lookup(answers, t, NoResource) == StartOk
    ensures var r := FromSynced(plan, synced, answers);
      r.outcome == Some(if next == {} then NoNext else HaveNext) && r.retry == []
  {
    assert FrontierGranted(plan, Shown(synced), answers);
    RoundOutcome(plan, synced, answers);
    hide FromSynced, Shown, FrontierGranted, KnownDeps, AnyInterrupt, InFrontier, ValidHistory;
    FrontierOrNone(plan, Shown(synced), next);
  }

  lemma SentIsNext(plan: Plan, synced: Job, answers: Answers, s: set<Task>, next: set<Task>)
    requires Split(plan, synced, s, next)
    requires forall t :: t in plan.deps ==> Lookup(answers, t, NoResource) == StartOk
    ensures Elements(FromSynced(plan, synced, answers).sent) == next
    ensures next <= plan.deps.Keys - s
  {
    hide FromSynced, Shown, KnownDeps, SomeFrontier, AnyInterrupt, ValidHistory;
    assert FrontierGranted(plan, Shown(synced), answers);
    RoundOutcome(plan, synced, answers);
    SyncedStartsFrontier(plan, synced, answers);
    assert forall t :: t in next ==> InFrontier(plan, Shown(synced), t);
    var r := FromSynced(plan, synced, answers);
    assert forall t :: t in r.sent <==> t in next;
  }

  lemma BenignSplit(plan: Plan, job: Job, env: Env)
    requires Benign(plan, job, env) && KnownDeps(plan) && !job.cancel
    ensures ValidJob(plan, SyncedJob(job, env.inbox))
    ensures Split(plan, SyncedJob(job, env.inbox), StartedTasks(job), NextTasks(plan, StartedTasks(job)))
  {
    DeliveredShown(plan, job, env.inbox);
  }

  lemma FrontierOrNone(plan: Plan, shown: map<Task, Status>, next: set<Task>)
    requires forall t :: InFrontier(plan, shown, t) <==> t in next
    ensures SomeFrontier(plan, shown) <==> next != {}
  {
    if t :| t in next {
      assert InFrontier(plan, shown, t);
    }
  }

  lemma StartedOne(plan: Plan, job: Job, next: set<Task>)
    requires ValidJob(plan, job) && next <= plan.deps.Keys
    ensures ValidJob(plan, StartedJob(job, next)) && StartedTasks(StartedJob(job, next)) == StartedTasks(job) + next
  {
    StartedJobValid(plan, job, next);
    StartLog(plan, job, next);
  }

  // ------------------------------------------------------------------
  // What the pass makes of it
  // ------------------------------------------------------------------

  /** Job status after a pass in which s was SUCCESS and next was started. */
  function BenignStatus(plan: Plan, s: set<Task>, next: set<Task>): Status {
    if s == plan.deps.Keys then Success
    else if next != {} then Running
    else if s == {} then Waiting
    else Canceled
  }

  lemma SplitStatus(plan: Plan, shown: map<Task, Status>, s: set<Task>, next: set<Task>)
    requires shown.Keys == plan.deps.Keys && shown != map[] && s <= plan.deps.Keys && next <= plan.deps.Keys - s
    requires forall t :: t in shown ==> shown[t] == if t in s then Success else if t in next then Running else Waiting
    ensures JobStatusOf(if next == {} then NoNext else HaveNext, shown.Values) == Some(BenignStatus(plan, s, next))
  {
    var code := if next == {} then NoNext else HaveNext;
    JobStatusMeaning(code, shown.Values);
    assert forall t :: t in shown ==> shown[t] in shown.Values;
    if t :| t in next {
      assert shown[t] == Running;
    } else if u :| u in plan.deps && u !in s {
      assert shown[u] == Waiting;
      if v :| v in s {
        assert shown[v] == Success;
      } else {
        assert shown.Values == {Waiting};
      }
    } else {
      var v :| v in shown;
      assert shown[v] == Success;
      assert s == plan.deps.Keys;
    }
  }

  ghost predicate PassLeaves(plan: Plan, job: Job, p: PassResult, s: set<Task>, next: set<Task>) {
    && ValidJob(plan, p.job) && StartedTasks(p.job) == s + next
    && p.status == Some(BenignStatus(plan, s, next))
    && p.job.status == PersistedStatus(job, BenignStatus(plan, s, next))
    && p.job.cancel == (BenignStatus(plan, s, next) == Canceled) && p.job.rerun == job.rerun
  }

  lemma LeavesAfter(plan: Plan, job: Job, synced: Job, r: RoundResult, attempts: Attempts, s: set<Task>, next: set<Task>)
    requires RoundLeaves(plan, synced, r, s, next) && GoodRound(plan, r) && !job.cancel
    requires synced.status == job.status && synced.cancel == job.cancel && synced.rerun == job.rerun
    requires plan.names != [] && ValidPlan(plan) && s <= plan.deps.Keys && next <= plan.deps.Keys - s
    ensures PassLeaves(plan, job, AfterRound(plan, r, attempts), s, next)
  {
    hide JobStatusOf, BenignStatus, ValidHistory;
    assert plan.names[0] in r.shown;
    SplitStatus(plan, r.shown, s, next);
  }

  lemma BenignPassResult(plan: Plan, job: Job, env: Env)
    requires Benign(plan, job, env) && KnownDeps(plan) && plan.names != [] && !job.cancel
    ensures PassLeaves(plan, job, RunPass(plan, job, env.inbox, env.answers, env.attempts),
                       StartedTasks(job), NextTasks(plan, StartedTasks(job)))
  {
    hide FromSynced, Split, AfterRound, RunPass, StartedTasks, NextTasks, KnownDeps, ValidHistory;
    hide PassLeaves, Delivers, RoundLeaves, GoodRound;
    var synced, s, next := SyncedJob(job, env.inbox), StartedTasks(job), NextTasks(plan, StartedTasks(job));
    BenignSplit(plan, job, env);
    SplitRound(plan, synced, env.answers, s, next);
    PassIsAfterRound(plan, job, env.inbox, env.answers, env.attempts);
    StartedAreTasks(plan, job);
    NextIsNew(plan, s);
    LeavesAfter(plan, job, synced, FromSynced(plan, synced, env.answers), env.attempts, s, next);
  }

  // ------------------------------------------------------------------
  // Whole benign runs
  // ------------------------------------------------------------------

  /** After n passes: everything started, or n tasks at least. */
  ghost predicate Ahead(plan: Plan, job: Job, n: nat) {
    && ValidJob(plan, job) && !job.cancel && !job.rerun
    && (job.status == Waiting || job.status == Running || job.status == Success)
    && StartedTasks(job) <= plan.deps.Keys
    && (StartedTasks(job) == plan.deps.Keys || |StartedTasks(job)| >= n)
  }

  lemma AheadStep(plan: Plan, job: Job, env: Env, job': Job, n: nat)
    requires Ahead(plan, job, n) && BenignPass(plan, job, env, job')
    requires Acyclic(plan) && plan.names != []
    ensures Ahead(plan, job', n + 1)
    ensures StartedTasks(job) == plan.deps.Keys ==> job'.status == Success
  {
    hide RunPass, StartedTasks, NextTasks, KnownDeps, Acyclic, ValidHistory, Benign, PassLeaves;
    var s, next := StartedTasks(job), NextTasks(plan, StartedTasks(job));
    AcyclicKnows(plan);
    BenignPassResult(plan, job, env);
    NextIsNew(plan, s);
    if s != plan.deps.Keys {
      SomethingNext(plan, s);
    }
    LeavesAhead(plan, job, RunPass(plan, job, env.inbox, env.answers, env.attempts), s, next, n);
  }

  lemma LeavesAhead(plan: Plan, job: Job, p: PassResult, s: set<Task>, next: set<Task>, n: nat)
    requires Ahead(plan, job, n) && s == StartedTasks(job) && next <= plan.deps.Keys - s
    requires PassLeaves(plan, job, p, s, next) && (s != plan.deps.Keys ==> next != {})
    ensures Ahead(plan, p.job, n + 1)
    ensures s == plan.deps.Keys ==> p.job.status == Success
  {
    hide StartedTasks, ValidHistory;
    if s != plan.deps.Keys {
      assert |s + next| == |s| + |next|;
      assert |next| != 0;
    } else {
      assert next == {};
    }
  }

  lemma InitialAhead(plan: Plan, retries: int)
    requires ValidPlan(plan)
    ensures Ahead(plan, InitialJob(plan, retries), 0)
  {
  }

  lemma {:induction false} BenignAhead(plan: Plan, retries: int, js: seq<Job>, envs: seq<Env>, n: nat)
    requires BenignRun(plan, retries, js, envs) && Acyclic(plan) && n <= |envs|
    ensures Ahead(plan, js[n], n)
  {
    hide Ahead, BenignPass, Acyclic, InitialJob;
    if n == 0 {
      InitialAhead(plan, retries);
    } else {
      BenignAhead(plan, retries, js, envs, n - 1);
      assert BenignPass(plan, js[n - 1], envs[n - 1], js[n]);
      AheadStep(plan, js[n - 1], envs[n - 1], js[n], n - 1);
    }
  }

  /** Termination: with an acyclic dependency relation and N tasks the job is SUCCESS after N + 1 passes. */
  lemma AcyclicSucceeds(plan: Plan, retries: int, js: seq<Job>, envs: seq<Env>)
    requires BenignRun(plan, retries, js, envs) && Acyclic(plan) && |envs| == |plan.names| + 1
    ensures js[|envs|].status == Success
  {
    var n := |plan.names|;
    BenignAhead(plan, retries, js, envs, n);
    assert BenignPass(plan, js[n], envs[n], js[n + 1]);
    DistinctCount(plan.names);
    SubsetCount(StartedTasks(js[n]), plan.deps.Keys);
    AheadStep(plan, js[n], envs[n], js[n + 1], n);
  }

  // ------------------------------------------------------------------
  // Cyclic dependencies
  // ------------------------------------------------------------------

  ghost predicate NoneStarted(job: Job, s: set<Task>) {
    forall t, v :: (t, v) in job.started ==> t !in s
  }

  /** A round starts no task of a stuck set. */
  lemma StuckNotSent(plan: Plan, synced: Job, answers: Answers, s: set<Task>, t: Task)
    requires Inv(plan, synced) && Stuck(plan, s) && NoneStarted(synced, s)
    requires t in FromSynced(plan, synced, answers).sent
    ensures t !in s
  {
    SyncedStartsFrontier(plan, synced, answers);
    assert InFrontier(plan, Shown(synced), t);
    hide FromSynced, FrontierGranted, AnyInterrupt;
    forall d | d in plan.deps[t] ensures d !in s {
      assert Current(synced.tasks[d]) == Success;
      assert IsStarted(synced, d);
    }
    assert !WaitsIn(plan, s, t);
  }

  lemma StuckRound(plan: Plan, synced: Job, answers: Answers, s: set<Task>)
    requires Inv(plan, synced) && Stuck(plan, s) && NoneStarted(synced, s)
    ensures var r := FromSynced(plan, synced, answers);
      NoneStarted(r.job, s) && PassStatus(r) != Some(Success)
  {
    hide FromSynced, PassStatus, StartedJob, AnyInterrupt;
    var r := FromSynced(plan, synced, answers);
    forall t | t in r.sent ensures t !in s {
      StuckNotSent(plan, synced, answers, s, t);
    }
    RoundStarted(plan, synced, answers);
    ShownShape(plan, synced, answers);
    var t :| t in s;
    StuckNotDone(plan, synced, s, t);
    NotDoneNoSuccess(r, t);
  }

  lemma NotDoneNoSuccess(r: RoundResult, t: Task)
    requires t in r.shown && !Done(r.shown[t])
    ensures PassStatus(r) != Some(Success)
  {
    assert r.shown[t] in r.shown.Values;
    if r.outcome.Some? {
      JobStatusMeaning(r.outcome.value, r.shown.Values);
    }
  }

  lemma UnstartedNoSuccess(plan: Plan, job: Job, t: Task)
    requires Inv(plan, job) && t in job.tasks && !IsStarted(job, t)
    ensures Current(job.tasks[t]) != Success
  {
  }

  lemma StuckNotDone(plan: Plan, synced: Job, s: set<Task>, t: Task)
    requires Inv(plan, synced) && NoneStarted(synced, s) && t in s && t in synced.tasks
    ensures !Done(Shown(synced)[t])
  {
    TaskStatusMeaning(Head(synced.tasks[t]).parties.Values);
    UnstartedNoSuccess(plan, synced, t);
  }

  lemma RoundStarted(plan: Plan, synced: Job, answers: Answers)
    requires ValidJob(plan, synced)
    ensures var r := FromSynced(plan, synced, answers);
      forall t, v :: (t, v) in r.job.started ==> (t, v) in synced.started || t in r.sent
  {
    ShownShape(plan, synced, answers);
    hide StartedRows, WalkFrom;
  }

  lemma AfterRoundStarted(plan: Plan, synced: Job, answers: Answers, attempts: Attempts)
    requires ValidJob(plan, synced) && GoodRound(plan, FromSynced(plan, synced, answers))
    ensures var r := FromSynced(plan, synced, answers);
      var p := AfterRound(plan, r, attempts);
      && p.job.started == r.job.started && p.status == PassStatus(r)
      && p.job.status == if p.status.Some? then PersistedStatus(synced, p.status.value) else synced.status
  {
    hide FromSynced, Rerun, PassStatus, AutoRows, ValidHistory, JobCanChange;
    RoundSignals(plan, synced, answers);
    var r := FromSynced(plan, synced, answers);
    if PassStatus(r).Some? && r.retry != [] {
      var settled := Settled(r.job, PassStatus(r).value);
      AutoRowsInJob(settled, r.shown, r.retry);
      RerunSignals(plan, settled, AutoRows(settled, r.shown, r.retry), true, attempts);
    }
  }

  /** A rerun touches neither the start log nor the status; without an exception it sets both signals. */
  lemma RerunSignals(plan: Plan, job: Job, rows: seq<Row>, auto: bool, attempts: Attempts)
    requires forall r :: r in rows ==> r.task in job.tasks && r.task in plan.parties
    ensures var r := Rerun(plan, job, rows, auto, attempts);
      && r.job.started == job.started && r.job.status == job.status
      && (if r.raised then r.job.cancel == job.cancel && r.job.rerun == job.rerun else !r.job.cancel && r.job.rerun)
  {
    RerunRowsFrame(plan, job, rows, auto, attempts);
  }

  lemma RoundSignals(plan: Plan, synced: Job, answers: Answers)
    requires ValidJob(plan, synced)
    ensures var j := FromSynced(plan, synced, answers).job;
      j.status == synced.status && j.cancel == synced.cancel && j.rerun == synced.rerun
  {
  }

  /** A pass starts no task of a stuck set and never finds the job SUCCESS. */
  lemma StuckPass(plan: Plan, job: Job, env: Env, s: set<Task>)
    requires Inv(plan, job) && HonestInbox(job, env.inbox) && Stuck(plan, s) && NoneStarted(job, s)
    ensures var p := RunPass(plan, job, env.inbox, env.answers, env.attempts);
      && NoneStarted(p.job, s) && p.status != Some(Success)
      && (p.job.status == Success ==> job.status == Success)
  {
    hide FromSynced, AfterRound, RunPass, Stuck, PassStatus, GoodRound;
    SyncKeepsInv(plan, job, env.inbox);
    PassIsAfterRound(plan, job, env.inbox, env.answers, env.attempts);
    StuckRound(plan, SyncedJob(job, env.inbox), env.answers, s);
    AfterRoundStarted(plan, SyncedJob(job, env.inbox), env.answers, env.attempts);
  }

  /** Over every calm run: the tasks of a stuck set are never started and never SUCCESS. */
  lemma {:induction false} StuckForever(plan: Plan, retries: int, js: seq<Job>, steps: seq<Step>, s: set<Task>, n: nat)
    requires IsRun(plan, retries, js, steps) && CalmRun(plan, js, steps) && Stuck(plan, s) && n <= |steps|
    ensures Inv(plan, js[n]) && NoneStarted(js[n], s)
    ensures forall t :: t in s ==> t in js[n].tasks && Current(js[n].tasks[t]) != Success
  {
    hide Stuck, Apply, Allowed, Calm, Inv;
    RunKeepsInv(plan, retries, js, steps, n);
    if n > 0 {
      StuckForever(plan, retries, js, steps, s, n - 1);
      assert Follows(plan, js[n - 1], steps[n - 1], js[n]);
      StuckStep(plan, js[n - 1], steps[n - 1], s);
    } else {
      assert InitialJob(plan, retries).started == {};
    }
    StuckNoSuccess(plan, js[n], s);
  }

  lemma StuckNoSuccess(plan: Plan, job: Job, s: set<Task>)
    requires Inv(plan, job) && Stuck(plan, s) && NoneStarted(job, s)
    ensures forall t :: t in s ==> t in job.tasks && Current(job.tasks[t]) != Success
  {
    forall t | t in s ensures t in job.tasks && Current(job.tasks[t]) != Success {
      UnstartedNoSuccess(plan, job, t);
    }
  }

  lemma StuckStep(plan: Plan, job: Job, step: Step, s: set<Task>)
    requires Inv(plan, job) && Allowed(plan, job, step) && Stuck(plan, s) && NoneStarted(job, s)
    ensures NoneStarted(Apply(plan, job, step), s)
  {
    hide RunPass, RerunRows, Stuck, SelectedRow, Honest, IsStarted, DepsSuccess;
    match step
    case PassStep(inbox, answers, attempts) =>
      StuckPass(plan, job, Env(inbox, answers, attempts), s);
    case ManualRerunStep(rows, attempts) =>
      RerunRowsFrame(plan, job, rows, false, attempts);
    case _ =>
  }

  lemma {:induction false} StuckBenign(plan: Plan, retries: int, js: seq<Job>, envs: seq<Env>, s: set<Task>, n: nat)
    requires BenignRun(plan, retries, js, envs) && Stuck(plan, s) && n <= |envs|
    ensures Inv(plan, js[n]) && NoneStarted(js[n], s) && js[n].status != Success
  {
    hide RunPass, Stuck, Delivers;
    if n == 0 {
      InitialInv(plan, retries);
    } else {
      StuckBenign(plan, retries, js, envs, s, n - 1);
      var job, env := js[n - 1], envs[n - 1];
      assert BenignPass(plan, job, env, js[n]);
      StuckPass(plan, job, env, s);
      PassKeepsInv(plan, job, env.inbox, env.answers, env.attempts);
    }
  }

  /** A cooperating run of N tasks is SUCCESS after N + 1 passes exactly when the dependencies are acyclic and
      each names a task. */
  lemma SucceedsIffAcyclic(plan: Plan, retries: int, js: seq<Job>, envs: seq<Env>)
    requires BenignRun(plan, retries, js, envs) && |envs| == |plan.names| + 1
    ensures js[|envs|].status == Success <==> Acyclic(plan)
  {
    if Acyclic(plan) {
      AcyclicSucceeds(plan, retries, js, envs);
    } else {
      var s :| Stuck(plan, s);
      StuckBenign(plan, retries, js, envs, s, |envs|);
    }
  }

  // ------------------------------------------------------------------
  // Cooperating runs exist
  // ------------------------------------------------------------------

  function SuccessReports(ps: seq<Party>): (r: seq<Report>)
    ensures |r| == |ps|
  {
    if ps == [] then [] else [Report(ps[0], Success)] + SuccessReports(ps[1..])
  }

  lemma {:induction false} SuccessReported(v: Version, ps: seq<Party>)
    requires forall p :: p in v.parties ==> v.parties[p] == Waiting || v.parties[p] == Success
    ensures var w := Collected(v, SuccessReports(ps));
      && w.parties.Keys == v.parties.Keys
      && forall p :: p in v.parties ==> w.parties[p] == if p in ps then Success else v.parties[p]
    decreases |ps|
  {
    if ps != [] {
      var u := Reported(v, Report(ps[0], Success));
      assert SuccessReports(ps)[0] == Report(ps[0], Success) && SuccessReports(ps)[1..] == SuccessReports(ps[1..]);
      SuccessReported(u, ps[1..]);
    }
  }

  /** The parties of a task in some order. */
  ghost function Listed(s: set<Party>): (r: seq<Party>)
    ensures Elements(r) == s
  {
    if s == {} then [] else
      var p :| p in s;
      var rest := Listed(s - {p});
      assert Elements([p] + rest) == {p} + Elements(rest);
      [p] + rest
  }

  /** Every party row is WAITING or SUCCESS, and WAITING where nothing was started. */
  ghost predicate Plain(plan: Plan, job: Job) {
    && ValidJob(plan, job)
    && forall t :: t in job.tasks ==> PlainTask(plan.parties[t], Head(job.tasks[t]).parties, IsStarted(job, t))
  }

  ghost predicate PlainTask(parties: set<Party>, rows: map<Party, Status>, started: bool) {
    && parties != {} && rows.Keys == parties
    && forall p :: p in rows ==> rows[p] == Waiting || (rows[p] == Success && started)
  }

  ghost function Delivery(plan: Plan, job: Job): Inbox
    requires ValidJob(plan, job)
  {
    map t | t in job.tasks && IsStarted(job, t) :: SuccessReports(Listed(plan.parties[t]))
  }

  lemma UniformFold(v: Version, s: Status)
    requires v.parties != map[] && forall p :: p in v.parties ==> v.parties[p] == s
    requires s == Waiting || s == Success
    ensures Folded(v) == s
  {
    var p :| p in v.parties;
    assert v.parties[p] in v.parties.Values;
    assert v.parties.Values == {s};
  }

  lemma DeliveryWorks(plan: Plan, job: Job, t: Task)
    requires Plain(plan, job) && t in job.tasks
    ensures var reports := Lookup(Delivery(plan, job), t, []);
      var w := Collected(Head(job.tasks[t]), reports);
      && Honest(reports, IsStarted(job, t))
      && Folded(w) == (if IsStarted(job, t) then Success else Waiting)
      && PlainTask(plan.parties[t], w.parties, IsStarted(job, t))
  {
    var v := Head(job.tasks[t]);
    assert PlainTask(plan.parties[t], v.parties, IsStarted(job, t));
    var q :| q in plan.parties[t];
    assert q in v.parties;
    if IsStarted(job, t) {
      var ps := Listed(plan.parties[t]);
      SuccessReported(v, ps);
      var w := Collected(v, SuccessReports(ps));
      assert forall p :: p in w.parties ==> p in Elements(ps);
      assert q in w.parties;
      UniformFold(w, Success);
    } else {
      UniformFold(v, Waiting);
    }
  }

  lemma PlainSynced(plan: Plan, job: Job)
    requires Plain(plan, job)
    ensures HonestInbox(job, Delivery(plan, job)) && Delivers(job, Delivery(plan, job))
    ensures Plain(plan, SyncedJob(job, Delivery(plan, job))) && !AnyInterrupt(Shown(SyncedJob(job, Delivery(plan, job))))
  {
    hide Collected, Folded, Delivery, PlainTask, CanChange;
    var inbox := Delivery(plan, job);
    forall t | t in job.tasks
      ensures Honest(Lookup(inbox, t, []), IsStarted(job, t))
      ensures Folded(Collected(Head(job.tasks[t]), Lookup(inbox, t, []))) == if IsStarted(job, t) then Success else Waiting
      ensures PlainTask(plan.parties[t], Collected(Head(job.tasks[t]), Lookup(inbox, t, [])).parties, IsStarted(job, t))
    {
      DeliveryWorks(plan, job, t);
    }
    DeliveredShown(plan, job, inbox);
    var synced := SyncedJob(job, inbox);
    forall t | t in synced.tasks ensures PlainTask(plan.parties[t], Head(synced.tasks[t]).parties, IsStarted(synced, t)) {
      SyncedHead(job.tasks[t], Lookup(inbox, t, []));
    }
  }

  lemma PlainStarted(plan: Plan, job: Job, sent: set<Task>)
    requires Plain(plan, job)
    ensures Plain(plan, StartedJob(job, sent))
  {
    hide PlainTask, Shown, Folded, ValidHistory, Changed;
    var j := StartedJob(job, sent);
    StartedJobValid(plan, job, sent);
    forall t | t in j.tasks ensures PlainTask(plan.parties[t], Head(j.tasks[t]).parties, IsStarted(j, t)) {
      PlainMore(plan.parties[t], Head(job.tasks[t]).parties, IsStarted(job, t), IsStarted(j, t));
    }
  }

  lemma PlainMore(parties: set<Party>, rows: map<Party, Status>, before: bool, after: bool)
    requires PlainTask(parties, rows, before) && (before ==> after)
    ensures PlainTask(parties, rows, after)
  {
  }

  lemma PlainPass(plan: Plan, job: Job, env: Env)
    requires Plain(plan, job) && env.inbox == Delivery(plan, job)
    ensures Plain(plan, RunPass(plan, job, env.inbox, env.answers, env.attempts).job)
  {
    hide AfterRound, RunPass, FromSynced, Shown, StartedJob, PlainTask, AnyInterrupt, PassStatus;
    var synced := SyncedJob(job, env.inbox);
    PlainSynced(plan, job);
    PassIsAfterRound(plan, job, env.inbox, env.answers, env.attempts);
    var r := FromSynced(plan, synced, env.answers);
    PlainRound(plan, synced, env.answers);
    NothingRetried(plan, r, env.attempts);
  }

  lemma PlainRound(plan: Plan, synced: Job, answers: Answers)
    requires Plain(plan, synced) && !AnyInterrupt(Shown(synced))
    ensures var r := FromSynced(plan, synced, answers);
      Plain(plan, r.job) && r.retry == []
  {
    NothingToRetry(plan.names, synced, Shown(synced));
    PlainStarted(plan, synced, Elements(FromSynced(plan, synced, answers).sent));
    hide Plain, StartedJob, Shown;
  }

  lemma NothingRetried(plan: Plan, r: RoundResult, attempts: Attempts)
    requires GoodRound(plan, r) && r.retry == [] && Plain(plan, r.job)
    ensures Plain(plan, AfterRound(plan, r, attempts).job)
  {
    hide PassStatus, PlainTask;
    var j := AfterRound(plan, r, attempts).job;
    assert j.tasks == r.job.tasks && j.started == r.job.started;
    forall t | t in j.tasks ensures PlainTask(plan.parties[t], Head(j.tasks[t]).parties, IsStarted(j, t)) {
      assert PlainTask(plan.parties[t], Head(r.job.tasks[t]).parties, IsStarted(r.job, t));
    }
  }

  /** Nothing above is vacuous: every plan whose tasks have parties has cooperating runs of every length. */
  lemma {:induction false} BenignRunExists(plan: Plan, retries: int, n: nat) returns (js: seq<Job>, envs: seq<Env>)
    requires ValidPlan(plan) && plan.names != []
    requires forall t :: t in plan.parties ==> plan.parties[t] != {}
    ensures |envs| == n && BenignRun(plan, retries, js, envs) && Plain(plan, js[n])
  {
    hide RunPass, Plain;
    if n == 0 {
      InitialPlain(plan, retries);
      js, envs := [InitialJob(plan, retries)], [];
    } else {
      js, envs := BenignRunExists(plan, retries, n - 1);
      var job := js[n - 1];
      var env := PlainEnv(plan, job);
      var job' := RunPass(plan, job, env.inbox, env.answers, env.attempts).job;
      BenignLonger(plan, retries, js, envs, env, job');
      js, envs := js + [job'], envs + [env];
    }
  }

  lemma PlainEnv(plan: Plan, job: Job) returns (env: Env)
    requires Plain(plan, job)
    ensures Benign(plan, job, env)
    ensures Plain(plan, RunPass(plan, job, env.inbox, env.answers, env.attempts).job)
  {
    hide RunPass, Delivers, HeardAll, Turndown;
    var attempts := Turndown(plan, Task(""), 0);
    TurndownHeard(plan, Task(""), 0);
    env := Env(Delivery(plan, job), map t | t in plan.deps :: StartOk, attempts);
    PlainSynced(plan, job);
    PlainPass(plan, job, env);
  }

  lemma BenignLonger(plan: Plan, retries: int, js: seq<Job>, envs: seq<Env>, env: Env, job': Job)
    requires BenignRun(plan, retries, js, envs) && BenignPass(plan, js[|envs|], env, job')
    ensures BenignRun(plan, retries, js + [job'], envs + [env])
  {
    hide BenignPass;
    var js', envs' := js + [job'], envs + [env];
    forall i | 0 <= i < |envs'| ensures BenignPass(plan, js'[i], envs'[i], js'[i + 1]) {
      if i < |envs| {
        assert BenignPass(plan, js[i], envs[i], js[i + 1]);
      }
    }
  }

  lemma InitialPlain(plan: Plan, retries: int)
    requires ValidPlan(plan) && forall t :: t in plan.parties ==> plan.parties[t] != {}
    ensures Plain(plan, InitialJob(plan, retries))
  {
  }

  function PassOf(env: Env): Step {
    PassStep(env.inbox, env.answers, env.attempts)
  }

  /** A cooperating run is a run, and a calm one. */
  lemma BenignIsRun(plan: Plan, retries: int, js: seq<Job>, envs: seq<Env>)
    requires BenignRun(plan, retries, js, envs)
    ensures var steps := seq(|envs|, i requires 0 <= i < |envs| => PassOf(envs[i]));
      IsRun(plan, retries, js, steps) && CalmRun(plan, js, steps)
  {
    hide RunPass, Delivers, HeardAll, HonestInbox;
    var steps := seq(|envs|, i requires 0 <= i < |envs| => PassOf(envs[i]));
    forall i | 0 <= i < |steps| ensures Follows(plan, js[i], steps[i], js[i + 1]) {
      assert BenignPass(plan, js[i], envs[i], js[i + 1]);
    }
  }
}
