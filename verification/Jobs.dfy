// The rows the scheduler keeps for one job, as values: every task's versions
// with their party rows, and the job's signals.
module Jobs {
  import opened Common
  import opened Statuses
  import opened Aggregation
  import opened Federated

  datatype Task = Task(name: string)

  /** Which kind of rerun made a version; kept by the model to count automatic reruns. */
  datatype Origin = Created | ByAutoRerun | ByManualRerun

  /** One task version: its status row and its party rows. */
  datatype Version = Version(status: Status, retries: int, origin: Origin, parties: map<Party, Status>)

  /** All versions of a task; the index is the version number, None a number that was never adopted. */
  type History = seq<Option<Version>>

  predicate ValidHistory(h: History) {
    |h| > 0 && h[0].Some? && h[|h| - 1].Some?
  }

  function Latest(h: History): nat
    requires ValidHistory(h)
  {
    |h| - 1
  }

  function Head(h: History): Version
    requires ValidHistory(h)
  {
    h[|h| - 1].value
  }

  /** What the parties' rows of a version fold to. */
  function Folded(v: Version): Status {
    FederatedStatus(v.parties.Values)
  }

  /** Status of the task: the fold over the parties of its latest version. */
  function Current(h: History): Status
    requires ValidHistory(h)
  {
    Folded(Head(h))
  }

  /** Names in creation order, inferred dependencies, and the parties that run each task. */
  datatype Plan = Plan(names: seq<Task>, deps: map<Task, seq<Task>>, parties: map<Task, set<Party>>)

  ghost predicate ValidPlan(plan: Plan) {
    Distinct(plan.names) && plan.deps.Keys == plan.parties.Keys == Elements(plan.names)
  }

  /** Every dependency names a task of the job. */
  ghost predicate KnownDeps(plan: Plan) {
    forall t, d :: t in plan.deps && d in plan.deps[t] ==> d in plan.deps
  }

  /** started logs the (task, version) pairs for which the start command was sent. */
  datatype Job = Job(tasks: map<Task, History>, status: Status, cancel: bool, rerun: bool, started: set<(Task, nat)>)

  ghost predicate ValidRows(tasks: map<Task, History>) {
    forall t :: t in tasks ==> ValidHistory(tasks[t])
  }

  ghost predicate ValidJob(plan: Plan, job: Job) {
    ValidPlan(plan) && job.tasks.Keys == plan.deps.Keys && ValidRows(job.tasks)
  }

  predicate IsStarted(job: Job, t: Task)
    requires t in job.tasks && ValidHistory(job.tasks[t])
  {
    (t, Latest(job.tasks[t])) in job.started
  }

  /** Version 0 of a task. */
  function FirstHistory(parties: set<Party>, retries: int): History {
    [Some(FreshVersion(parties, retries, Created))]
  }

  function FirstRows(parties: map<Task, set<Party>>, retries: int): map<Task, History> {
    map t | t in parties :: FirstHistory(parties[t], retries)
  }

  /** A job as create_schedule_tasks leaves it. */
  function InitialJob(plan: Plan, retries: int): Job {
    Job(FirstRows(plan.parties, retries), Waiting, false, false, {})
  }

  function FreshVersion(parties: set<Party>, retries: int, origin: Origin): Version {
    Version(Waiting, retries, origin, map p | p in parties :: Waiting)
  }

  lemma FreshVersionStatus(parties: set<Party>, retries: int, origin: Origin)
    ensures parties != {} ==> Folded(FreshVersion(parties, retries, origin)) == Waiting
    ensures Folded(FreshVersion(parties, retries, origin)) != Success
  {
    var v := FreshVersion(parties, retries, origin);
    assert forall s :: s in v.parties.Values ==> s == Waiting;
    if parties != {} {
      var p :| p in parties;
      assert v.parties[p] == Waiting;
      assert v.parties.Values == {Waiting};
    } else {
      assert v.parties.Values == {};
    }
  }

  // ------------------------------------------------------------------
  // Party reports
  // ------------------------------------------------------------------

  datatype Report = Report(party: Party, status: Status)

  /** A reported status lands in the party's row when the row accepts the change. */
  function Reported(v: Version, r: Report): Version {
    if r.party in v.parties
    then v.(parties := v.parties[r.party := Changed(v.parties[r.party], r.status)])
    else v
  }

  function Collected(v: Version, reports: seq<Report>): Version
    decreases |reports|
  {
    if reports == [] then v else Collected(Reported(v, reports[0]), reports[1..])
  }

  /** Replaces the latest version. */
  function WithHead(h: History, v: Version): History
    requires ValidHistory(h)
  {
    h[|h| - 1 := Some(v)]
  }

  /** Party rows that reached SUCCESS or PASS never change again, so a task that is SUCCESS stays so. */
  lemma {:induction false} SuccessIsFinal(v: Version, reports: seq<Report>)
    requires Folded(v) == Success
    ensures Folded(Collected(v, reports)) == Success
    decreases |reports|
  {
    if reports != [] {
      var w := Reported(v, reports[0]);
      TaskStatusMeaning(v.parties.Values);
      forall p | p in v.parties ensures Done(v.parties[p]) {
        assert v.parties[p] in v.parties.Values;
      }
      assert w == v by {
        if reports[0].party in v.parties {
          assert v.parties[reports[0].party := v.parties[reports[0].party]] == v.parties;
        }
      }
      SuccessIsFinal(w, reports[1..]);
    }
  }

  /** Reports never touch the status row, the budget or the set of parties. */
  lemma {:induction false} CollectedFrame(v: Version, reports: seq<Report>)
    ensures Collected(v, reports).status == v.status && Collected(v, reports).retries == v.retries
    ensures Collected(v, reports).origin == v.origin && Collected(v, reports).parties.Keys == v.parties.Keys
    decreases |reports|
  {
    if reports != [] {
      CollectedFrame(Reported(v, reports[0]), reports[1..]);
    }
  }

  /** The environment's only promise: SUCCESS or PASS is reported for started versions only. */
  predicate Honest(reports: seq<Report>, started: bool) {
    started || forall r :: r in reports ==> !Done(r.status)
  }

  /** So a version turns SUCCESS only if it was started. */
  lemma {:induction false} NoSuccessUnstarted(v: Version, reports: seq<Report>)
    requires Folded(v) != Success && Honest(reports, false)
    ensures Folded(Collected(v, reports)) != Success
    decreases |reports|
  {
    if reports != [] {
      var r := reports[0];
      var w := Reported(v, r);
      assert r in reports;
      assert Folded(w) != Success by {
        TaskStatusMeaning(v.parties.Values);
        TaskStatusMeaning(w.parties.Values);
        if q :| q in v.parties {
          assert v.parties[q] in v.parties.Values;
          var s :| s in v.parties.Values && !Done(s);
          var p :| p in v.parties && v.parties[p] == s;
          assert !Done(w.parties[p]);
          assert w.parties[p] in w.parties.Values;
        } else {
          assert w == v;
        }
      }
      NoSuccessUnstarted(w, reports[1..]);
    }
  }
}
