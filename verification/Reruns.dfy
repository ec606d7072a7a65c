// Reruns: which rows a rerun picks, how a new version number is negotiated with
// the parties, and what that does to a task's history and retry budget.
module Reruns {
  import opened Common
  import opened Statuses
  import opened Federated
  import opened Jobs

  /** The status row handed to prepare_rerun_task. */
  datatype Row = Row(task: Task, version: nat, status: Status, retries: int)

  /** Answers to the successive rerun commands for one task; a missing answer accepts nothing. */
  function Answer(answers: seq<Response>, i: nat): Response {
    if i < |answers| then answers[i] else map[]
  }

  const RETRY_TIMES: nat := 3

  /** Version numbers are offered one by one, three times at most; the first one every party accepts wins. */
  function AcceptedVersion(version: nat, answers: seq<Response>): Option<nat> {
    if AllOk(Answer(answers, 0)) then Some(version + 1)
    else if AllOk(Answer(answers, 1)) then Some(version + 2)
    else if AllOk(Answer(answers, 2)) then Some(version + 3)
    else None
  }

  /** Rows are inserted once: a version number that already has rows keeps them. */
  function Inserted(h: History, w: nat, v: Version): History {
    if w >= |h| then h + seq(w - |h|, _ => None) + [Some(v)]
    else if h[w].None? then h[w := Some(v)]
    else h
  }

  lemma InsertedValid(h: History, w: nat, v: Version)
    requires ValidHistory(h)
    ensures ValidHistory(Inserted(h, w, v))
    ensures w > Latest(h) ==> Latest(Inserted(h, w, v)) == w && Head(Inserted(h, w, v)) == v
    ensures w <= Latest(h) ==> Latest(Inserted(h, w, v)) == Latest(h) && Head(Inserted(h, w, v)) == Head(h)
    ensures Inserted(h, w, v)[0] == h[0]
  {
  }

  datatype Prepared = Prepared(history: History, can: bool, raised: bool)

  /** prepare_rerun_task: which tasks may be rerun, and the new version if one is made. */
  function Prepare(parties: set<Party>, h: History, row: Row, auto: bool, force: bool, answers: seq<Response>): Prepared {
    var auto' := auto && !force;
    if !force && row.status == Success then Prepared(h, false, false)
    else if !force && auto && row.retries < 1 then Prepared(h, false, false)
    else if row.status == Waiting then Prepared(h, true, false)
    else
      match AcceptedVersion(row.version, answers)
      case None => Prepared(h, true, true)
      case Some(w) =>
        var v := FreshVersion(parties, if auto' then row.retries - 1 else row.retries,
                              if auto' then ByAutoRerun else ByManualRerun);
        Prepared(Inserted(h, w, v), true, false)
  }

  type Attempts = map<Task, seq<Response>>

  datatype RerunResult = RerunResult(job: Job, raised: bool)

  /** The rows in order; a task whose three offers are all turned down ends the loop with an exception. */
  function RerunRows(plan: Plan, job: Job, rows: seq<Row>, auto: bool, attempts: Attempts): RerunResult
    requires forall r :: r in rows ==> r.task in job.tasks && r.task in plan.parties
    decreases |rows|
  {
    if rows == [] then RerunResult(job, false)
    else
      var r := rows[0];
      var p := Prepare(plan.parties[r.task], job.tasks[r.task], r, auto, false, Lookup(attempts, r.task, []));
      var job' := job.(tasks := job.tasks[r.task := p.history]);
      if p.raised then RerunResult(job', true) else RerunRows(plan, job', rows[1..], auto, attempts)
  }

  /** rerun_job: afterwards the rerun signal is up and the cancel signal is down. */
  function Rerun(plan: Plan, job: Job, rows: seq<Row>, auto: bool, attempts: Attempts): RerunResult
    requires forall r :: r in rows ==> r.task in job.tasks && r.task in plan.parties
  {
    var r := RerunRows(plan, job, rows, auto, attempts);
    if r.raised then r else RerunResult(r.job.(rerun := true, cancel := false), false)
  }

  // ------------------------------------------------------------------
  // Row selection
  // ------------------------------------------------------------------

  /** The newest version below n whose status row is interrupted. */
  function SelectedBelow(h: History, n: nat): Option<nat>
    requires n <= |h|
  {
    if n == 0 then None
    else if h[n - 1].Some? && Interrupt(h[n - 1].value.status) then Some(n - 1)
    else SelectedBelow(h, n - 1)
  }

  lemma {:induction false} SelectedBelowMeaning(h: History, n: nat)
    requires n <= |h|
    ensures var s := SelectedBelow(h, n);
      && (s.Some? ==> s.value < n && h[s.value].Some? && Interrupt(h[s.value].value.status))
      && (forall v :: 0 <= v < n && h[v].Some? && Interrupt(h[v].value.status) ==> s.Some? && v <= s.value)
  {
    if n > 0 {
      SelectedBelowMeaning(h, n - 1);
    }
  }

  function RowAt(t: Task, h: History, v: nat): Row
    requires v < |h| && h[v].Some?
  {
    Row(t, v, h[v].value.status, h[v].value.retries)
  }

  /** A manual rerun filters the rows by interrupt status first and takes the newest of those. */
  function SelectedRow(t: Task, h: History): Option<Row> {
    SelectedBelowMeaning(h, |h|);
    match SelectedBelow(h, |h|)
    case None => None
    case Some(v) => Some(RowAt(t, h, v))
  }

  ghost predicate DistinctTasks(rows: seq<Row>) {
    forall i, j :: 0 <= i < j < |rows| ==> rows[i].task != rows[j].task
  }

  /** rows is what the manual query returns, in whatever order the database returns it. */
  ghost predicate ManualRows(job: Job, rows: seq<Row>) {
    && DistinctTasks(rows)
    && (forall r :: r in rows ==> r.task in job.tasks && SelectedRow(r.task, job.tasks[r.task]) == Some(r))
    && (forall t :: t in job.tasks && SelectedRow(t, job.tasks[t]).Some? ==>
          SelectedRow(t, job.tasks[t]).value in rows)
  }

  /** An automatic rerun takes the latest row of each task on the round's retry list. */
  function AutoRows(job: Job, shown: map<Task, Status>, retry: seq<Task>): seq<Row>
    requires forall t :: t in retry ==> t in shown && t in job.tasks && ValidHistory(job.tasks[t])
  {
    seq(|retry|, i requires 0 <= i < |retry| =>
      assert retry[i] in retry;
      Row(retry[i], Latest(job.tasks[retry[i]]), shown[retry[i]], Head(job.tasks[retry[i]]).retries))
  }

  lemma AutoRowsInJob(job: Job, shown: map<Task, Status>, retry: seq<Task>)
    requires forall t :: t in retry ==> t in shown && t in job.tasks && ValidHistory(job.tasks[t])
    ensures forall r :: r in AutoRows(job, shown, retry) ==> r.task in job.tasks
  {
    forall r | r in AutoRows(job, shown, retry) ensures r.task in job.tasks {
      var i :| 0 <= i < |retry| && AutoRows(job, shown, retry)[i] == r;
      assert retry[i] in retry;
    }
  }

  // ------------------------------------------------------------------
  // Negotiating a version
  // ------------------------------------------------------------------

  /** The loop takes the first offer that was accepted. */
  lemma OffersInOrder(version: nat, answers: seq<Response>)
    ensures match AcceptedVersion(version, answers)
      case Some(w) => version < w <= version + RETRY_TIMES && AllOk(Answer(answers, w - version - 1))
        && forall i: nat :: i < w - version - 1 ==> !AllOk(Answer(answers, i))
      case None => forall i: nat :: i < RETRY_TIMES ==> !AllOk(Answer(answers, i))
  {
  }

  /** Every offer is answered by exactly the parties it goes to, whatever they say; a party that cannot be reached
      has an error code entered for it. */
  ghost predicate Heard(parties: set<Party>, answers: seq<Response>) {
    forall i: nat :: i < RETRY_TIMES ==> AnsweredParties(Answer(answers, i)) == parties
  }

  ghost predicate HeardAll(plan: Plan, attempts: Attempts) {
    forall t :: t in plan.parties ==> Heard(plan.parties[t], Lookup(attempts, t, []))
  }

  /** Every one of the parties accepts offer k. */
  predicate AcceptedBy(parties: set<Party>, answers: seq<Response>, k: nat) {
    parties != {} && forall p :: p in parties ==> Accepts(Answer(answers, k), p)
  }

  /** Offer k is the first that every one of the parties accepts. */
  ghost predicate FirstAccepted(parties: set<Party>, answers: seq<Response>, k: nat) {
    AcceptedBy(parties, answers, k) && forall j: nat :: j < k ==> !AcceptedBy(parties, answers, j)
  }

  /** A number is adopted exactly if every party of the task accepted that very number and no smaller offer was
      accepted by all; none is adopted exactly if none of the three offers was. */
  lemma AcceptedByEveryParty(parties: set<Party>, version: nat, answers: seq<Response>)
    requires Heard(parties, answers)
    ensures forall k: nat :: k < RETRY_TIMES ==>
      (AcceptedVersion(version, answers) == Some(version + 1 + k) <==> FirstAccepted(parties, answers, k))
    ensures AcceptedVersion(version, answers).Some? ==>
      version < AcceptedVersion(version, answers).value <= version + RETRY_TIMES
    ensures AcceptedVersion(version, answers) == None <==>
      forall k: nat :: k < RETRY_TIMES ==> !AcceptedBy(parties, answers, k)
  {
    hide Heard, AllOk, AcceptedBy, Answer, FirstAccepted;
    OfferIs(parties, answers, 0);
    OfferIs(parties, answers, 1);
    OfferIs(parties, answers, 2);
    FirstOfThree(parties, answers);
    forall k: nat | k < RETRY_TIMES
      ensures AcceptedVersion(version, answers) == Some(version + 1 + k) <==> FirstAccepted(parties, answers, k)
      ensures AcceptedVersion(version, answers) == None ==> !AcceptedBy(parties, answers, k)
    {
      if k == 0 {
      } else if k == 1 {
      } else {
        assert k == 2;
      }
    }
  }

  lemma OfferIs(parties: set<Party>, answers: seq<Response>, i: nat)
    requires Heard(parties, answers) && i < RETRY_TIMES
    ensures AllOk(Answer(answers, i)) <==> AcceptedBy(parties, answers, i)
  {
    AllOkIff(Answer(answers, i), parties);
  }

  lemma FirstOfThree(parties: set<Party>, answers: seq<Response>)
    ensures FirstAccepted(parties, answers, 0) <==> AcceptedBy(parties, answers, 0)
    ensures FirstAccepted(parties, answers, 1) <==> AcceptedBy(parties, answers, 1) && !AcceptedBy(parties, answers, 0)
    ensures var first := AcceptedBy(parties, answers, 0) || AcceptedBy(parties, answers, 1);
      FirstAccepted(parties, answers, 2) <==> AcceptedBy(parties, answers, 2) && !first
  {
    hide AcceptedBy;
  }

  /** No number offered for this row can pass the task's latest version. */
  predicate TooOld(h: History, row: Row)
    requires ValidHistory(h)
  {
    row.version + RETRY_TIMES <= Latest(h)
  }

  /** Rerunning one row never touches the head of a task unless it makes a newer version, WAITING or without
      parties; so a task that is not SUCCESS, or whose row is too old, loses no success. */
  lemma PrepareMoves(parties: set<Party>, h: History, row: Row, auto: bool, answers: seq<Response>)
    requires ValidHistory(h) && row.version <= Latest(h)
    requires Current(h) != Success || TooOld(h, row)
    ensures var p := Prepare(parties, h, row, auto, false, answers);
      && ValidHistory(p.history)
      && (Latest(p.history) == Latest(h) ==> Head(p.history) == Head(h))
      && (Latest(p.history) != Latest(h) ==>
            && Current(h) != Success && Current(p.history) != Success
            && Latest(h) < Latest(p.history) <= Latest(h) + RETRY_TIMES)
  {
    var p := Prepare(parties, h, row, auto, false, answers);
    OffersInOrder(row.version, answers);
    if p.history != h {
      var w := AcceptedVersion(row.version, answers).value;
      var v := FreshVersion(parties, if auto then row.retries - 1 else row.retries,
                            if auto then ByAutoRerun else ByManualRerun);
      InsertedValid(h, w, v);
      FreshVersionStatus(parties, v.retries, v.origin);
    }
  }

  // ------------------------------------------------------------------
  // One row among many
  // ------------------------------------------------------------------

  /** Tasks other than the rows' own keep their histories. */
  lemma {:induction false} RerunRowsFrame(plan: Plan, job: Job, rows: seq<Row>, auto: bool, attempts: Attempts)
    requires forall r :: r in rows ==> r.task in job.tasks && r.task in plan.parties
    ensures var j := RerunRows(plan, job, rows, auto, attempts).job;
      && j.tasks.Keys == job.tasks.Keys && j == job.(tasks := j.tasks)
      && forall t :: t in job.tasks && (forall r :: r in rows ==> r.task != t) ==> j.tasks[t] == job.tasks[t]
    decreases |rows|
  {
    if rows != [] {
      var r := rows[0];
      var p := Prepare(plan.parties[r.task], job.tasks[r.task], r, auto, false, Lookup(attempts, r.task, []));
      if !p.raised {
        RerunRowsFrame(plan, job.(tasks := job.tasks[r.task := p.history]), rows[1..], auto, attempts);
      }
    }
  }

  function PreparedRow(plan: Plan, job: Job, r: Row, auto: bool, attempts: Attempts): Prepared
    requires r.task in job.tasks && r.task in plan.parties
  {
    Prepare(plan.parties[r.task], job.tasks[r.task], r, auto, false, Lookup(attempts, r.task, []))
  }

  /** The rows before position i go through without an exception. */
  ghost predicate GoesThrough(plan: Plan, job: Job, rows: seq<Row>, auto: bool, attempts: Attempts, i: nat)
    requires i <= |rows| && forall r :: r in rows ==> r.task in job.tasks && r.task in plan.parties
  {
    forall j :: 0 <= j < i ==> !PreparedRow(plan, job, rows[j], auto, attempts).raised
  }

  /** Each row's task ends with what preparing that row alone gives, if the loop gets that far, and untouched if not. */
  lemma {:induction false} RerunRowsEach(plan: Plan, job: Job, rows: seq<Row>, auto: bool, attempts: Attempts, i: nat)
    requires forall r :: r in rows ==> r.task in job.tasks && r.task in plan.parties
    requires DistinctTasks(rows) && i < |rows|
    ensures var j := RerunRows(plan, job, rows, auto, attempts).job;
      && j.tasks.Keys == job.tasks.Keys
      && (GoesThrough(plan, job, rows, auto, attempts, i) ==>
            j.tasks[rows[i].task] == PreparedRow(plan, job, rows[i], auto, attempts).history)
      && (!GoesThrough(plan, job, rows, auto, attempts, i) ==> j.tasks[rows[i].task] == job.tasks[rows[i].task])
    decreases |rows|
  {
    hide Prepare, DistinctTasks;
    var r := rows[0];
    var p := PreparedRow(plan, job, r, auto, attempts);
    var job' := job.(tasks := job.tasks[r.task := p.history]);
    RerunRowsFrame(plan, job, rows, auto, attempts);
    DistinctRest(rows);
    if !p.raised {
      RerunRowsFrame(plan, job', rows[1..], auto, attempts);
      if i > 0 {
        RerunRowsEach(plan, job', rows[1..], auto, attempts, i - 1);
        GoesOn(plan, job, rows, auto, attempts, i);
      }
    } else if i > 0 {
      assert !GoesThrough(plan, job, rows, auto, attempts, i);
    }
  }

  lemma DistinctRest(rows: seq<Row>)
    requires DistinctTasks(rows) && rows != []
    ensures DistinctTasks(rows[1..]) && forall k :: 0 < k < |rows| ==> rows[k].task != rows[0].task
    ensures forall r :: r in rows[1..] ==> r.task != rows[0].task
  {
  }

  lemma GoesOn(plan: Plan, job: Job, rows: seq<Row>, auto: bool, attempts: Attempts, i: nat)
    requires forall r :: r in rows ==> r.task in job.tasks && r.task in plan.parties
    requires DistinctTasks(rows) && 0 < i < |rows| && !PreparedRow(plan, job, rows[0], auto, attempts).raised
    ensures var job' := job.(tasks := job.tasks[rows[0].task := PreparedRow(plan, job, rows[0], auto, attempts).history]);
      && (forall r :: r in rows[1..] ==> r.task in job'.tasks)
      && (GoesThrough(plan, job', rows[1..], auto, attempts, i - 1) <==> GoesThrough(plan, job, rows, auto, attempts, i))
      && PreparedRow(plan, job', rows[i], auto, attempts) == PreparedRow(plan, job, rows[i], auto, attempts)
  {
    hide Prepare;
    var job' := job.(tasks := job.tasks[rows[0].task := PreparedRow(plan, job, rows[0], auto, attempts).history]);
    DistinctRest(rows);
    forall j | 0 <= j < i - 1
      ensures PreparedRow(plan, job', rows[1..][j], auto, attempts) == PreparedRow(plan, job, rows[j + 1], auto, attempts)
    {
      assert rows[1..][j] == rows[j + 1];
    }
    if GoesThrough(plan, job', rows[1..], auto, attempts, i - 1) {
      forall j | 0 <= j < i ensures !PreparedRow(plan, job, rows[j], auto, attempts).raised {
        assert j > 0 ==> rows[1..][j - 1] == rows[j];
      }
    }
  }

  // ------------------------------------------------------------------
  // Answers the parties can give
  // ------------------------------------------------------------------

  function Unanimous(parties: set<Party>, code: ReturnCode): Response {
    ResponseOf(map p | p in parties :: code)
  }

  /** The parties of t turn down k offers and accept the next; all others accept at once. */
  function Turndown(plan: Plan, t: Task, k: nat): Attempts {
    map s | s in plan.parties ::
      seq(RETRY_TIMES, i => Unanimous(plan.parties[s], if s == t && i < k then Refusal(1) else Ok))
  }

  lemma UnanimousAnswers(parties: set<Party>, code: ReturnCode)
    ensures AnsweredParties(Unanimous(parties, code)) == parties
    ensures AllOk(Unanimous(parties, code)) <==> parties != {} && code == Ok
  {
    ResponseOfIs(map p | p in parties :: code);
    AllOkIff(Unanimous(parties, code), parties);
  }

  lemma TurndownAnswer(plan: Plan, t: Task, k: nat, s: Task, i: nat)
    requires s in plan.parties && i < RETRY_TIMES
    ensures Answer(Lookup(Turndown(plan, t, k), s, []), i)
      == Unanimous(plan.parties[s], if s == t && i < k then Refusal(1) else Ok)
  {
  }

  lemma TurndownHeard(plan: Plan, t: Task, k: nat)
    ensures HeardAll(plan, Turndown(plan, t, k))
  {
    var attempts := Turndown(plan, t, k);
    forall s, i: nat | s in plan.parties && i < RETRY_TIMES
      ensures AnsweredParties(Answer(Lookup(attempts, s, []), i)) == plan.parties[s]
    {
      TurndownAnswer(plan, t, k, s, i);
      UnanimousAnswers(plan.parties[s], if s == t && i < k then Refusal(1) else Ok);
    }
  }

  lemma TurndownAccepts(plan: Plan, t: Task, k: nat, s: Row)
    requires s.task in plan.parties && plan.parties[s.task] != {} && k < RETRY_TIMES
    ensures AcceptedVersion(s.version, Lookup(Turndown(plan, t, k), s.task, []))
      == Some(s.version + 1 + if s.task == t then k else 0)
  {
    hide Turndown, Unanimous, AllOk, Answer;
    TurndownAnswer(plan, t, k, s.task, 0);
    TurndownAnswer(plan, t, k, s.task, 1);
    TurndownAnswer(plan, t, k, s.task, 2);
    UnanimousAnswers(plan.parties[s.task], Refusal(1));
    UnanimousAnswers(plan.parties[s.task], Ok);
  }

  // ------------------------------------------------------------------
  // When a manual rerun is harmless
  // ------------------------------------------------------------------

  /** The rows up to i belong to tasks with parties; a task without parties ends the loop with an exception. */
  predicate Reached(plan: Plan, rows: seq<Row>, i: nat)
    requires i < |rows|
  {
    forall j :: 0 <= j <= i ==> rows[j].task in plan.parties && plan.parties[rows[j].task] != {}
  }

  /** A selected row is an interrupted row of its task. */
  lemma SelectedRowIsInterrupted(job: Job, rows: seq<Row>, i: nat)
    requires ManualRows(job, rows) && i < |rows|
    ensures rows[i].task in job.tasks && Interrupt(rows[i].status) && rows[i].version < |job.tasks[rows[i].task]|
  {
    assert rows[i] in rows;
    var h := job.tasks[rows[i].task];
    SelectedBelowMeaning(h, |h|);
  }

  /** How long the history gets when an interrupted row is rerun by hand. */
  lemma PrepareLength(parties: set<Party>, h: History, row: Row, answers: seq<Response>)
    requires Interrupt(row.status)
    ensures var p := Prepare(parties, h, row, false, false, answers);
      match AcceptedVersion(row.version, answers)
      case None => p.raised && p.history == h
      case Some(w) => !p.raised && |p.history| == if w < |h| then |h| else w + 1
  {
  }

  /** A row behind a task without parties is never rerun, and such a task is left as it is. */
  lemma UnreachedKept(plan: Plan, job: Job, rows: seq<Row>, attempts: Attempts, i: nat)
    requires ValidJob(plan, job) && ManualRows(job, rows) && HeardAll(plan, attempts)
    requires i < |rows| && !Reached(plan, rows, i)
    ensures var t, j := rows[i].task, RerunRows(plan, job, rows, false, attempts).job;
      t in job.tasks && t in j.tasks && j.tasks[t] == job.tasks[t]
  {
    SelectedRowIsInterrupted(job, rows, i);
    hide Prepare, RerunRows, HeardAll, SelectedRow;
    RerunRowsEach(plan, job, rows, false, attempts, i);
    var j: nat :| j <= i && !(rows[j].task in plan.parties && plan.parties[rows[j].task] != {});
    PartylessRaises(plan, job, rows, attempts, j);
    assert j < i ==> !GoesThrough(plan, job, rows, false, attempts, i);
  }

  lemma PartylessRaises(plan: Plan, job: Job, rows: seq<Row>, attempts: Attempts, j: nat)
    requires ValidJob(plan, job) && ManualRows(job, rows) && HeardAll(plan, attempts)
    requires j < |rows| && rows[j].task in plan.parties && plan.parties[rows[j].task] == {}
    ensures rows[j].task in job.tasks
    ensures var p := PreparedRow(plan, job, rows[j], false, attempts);
      p.raised && p.history == job.tasks[rows[j].task]
  {
    hide AllOk;
    SelectedRowIsInterrupted(job, rows, j);
    var t := rows[j].task;
    AcceptedByEveryParty(plan.parties[t], rows[j].version, Lookup(attempts, t, []));
    PrepareLength(plan.parties[t], job.tasks[t], rows[j], Lookup(attempts, t, []));
  }

  /** Tasks that are SUCCESS keep their version. */
  ghost predicate KeepsSuccess(plan: Plan, job: Job, rows: seq<Row>, attempts: Attempts)
    requires ValidJob(plan, job)
    requires forall r :: r in rows ==> r.task in job.tasks && r.task in plan.parties
  {
    var j := RerunRows(plan, job, rows, false, attempts).job;
    forall t :: t in job.tasks && Current(job.tasks[t]) == Success ==> t in j.tasks && |j.tasks[t]| == |job.tasks[t]|
  }

  /** The row's task is not SUCCESS, or the row is too old for any accepted number to pass the latest version. */
  predicate LosesNoSuccess(job: Job, r: Row) {
    r.task in job.tasks && ValidHistory(job.tasks[r.task])
    && (Current(job.tasks[r.task]) != Success || TooOld(job.tasks[r.task], r))
  }

  /** Whatever the parties answer, a manual rerun keeps the version of every SUCCESS task exactly when no row it gets
      to is a SUCCESS task's row recent enough for an offered number to pass its latest version.  All of this can be
      read off the rows before the call. */
  lemma ManualRerunKeepsSuccessIff(plan: Plan, job: Job, rows: seq<Row>)
    requires ValidJob(plan, job) && ManualRows(job, rows)
    ensures (forall attempts :: HeardAll(plan, attempts) ==> KeepsSuccess(plan, job, rows, attempts))
      <==> forall i: nat :: i < |rows| && Reached(plan, rows, i) ==> LosesNoSuccess(job, rows[i])
  {
    hide Reached, LosesNoSuccess, KeepsSuccess, HeardAll;
    if forall i: nat :: i < |rows| && Reached(plan, rows, i) ==> LosesNoSuccess(job, rows[i]) {
      forall attempts | HeardAll(plan, attempts) ensures KeepsSuccess(plan, job, rows, attempts) {
        SafeRowsKeepSuccess(plan, job, rows, attempts);
      }
    } else {
      var i: nat :| i < |rows| && Reached(plan, rows, i) && !LosesNoSuccess(job, rows[i]);
      var attempts := UnsafeRowLosesSuccess(plan, job, rows, i);
      assert HeardAll(plan, attempts) && !KeepsSuccess(plan, job, rows, attempts);
    }
  }

  lemma SafeRowsKeepSuccess(plan: Plan, job: Job, rows: seq<Row>, attempts: Attempts)
    requires ValidJob(plan, job) && ManualRows(job, rows) && HeardAll(plan, attempts)
    requires forall i: nat :: i < |rows| && Reached(plan, rows, i) ==> LosesNoSuccess(job, rows[i])
    ensures KeepsSuccess(plan, job, rows, attempts)
  {
    RerunRowsFrame(plan, job, rows, false, attempts);
    hide RerunRows, ManualRows, HeardAll, Reached;
    var j := RerunRows(plan, job, rows, false, attempts).job;
    forall t | t in job.tasks && Current(job.tasks[t]) == Success ensures |j.tasks[t]| == |job.tasks[t]| {
      if i: nat :| i < |rows| && rows[i].task == t {
        SafeRowKeepsLength(plan, job, rows, attempts, i);
      }
    }
  }

  lemma SafeRowKeepsLength(plan: Plan, job: Job, rows: seq<Row>, attempts: Attempts, i: nat)
    requires ValidJob(plan, job) && ManualRows(job, rows) && HeardAll(plan, attempts) && i < |rows|
    requires rows[i].task in job.tasks && (Reached(plan, rows, i) ==> TooOld(job.tasks[rows[i].task], rows[i]))
    ensures var t := rows[i].task;
      var j := RerunRows(plan, job, rows, false, attempts).job;
      t in j.tasks && |j.tasks[t]| == |job.tasks[t]|
  {
    hide HeardAll;
    var t := rows[i].task;
    SelectedRowIsInterrupted(job, rows, i);
    RerunRowsEach(plan, job, rows, false, attempts, i);
    if Reached(plan, rows, i) {
      PrepareLength(plan.parties[t], job.tasks[t], rows[i], Lookup(attempts, t, []));
      OffersInOrder(rows[i].version, Lookup(attempts, t, []));
    } else {
      UnreachedKept(plan, job, rows, attempts, i);
    }
  }

  /** With the answers of Turndown the loop gets to every reached row. */
  lemma TurndownReaches(plan: Plan, job: Job, rows: seq<Row>, t: Task, k: nat, i: nat)
    requires ValidJob(plan, job) && ManualRows(job, rows) && i < |rows| && Reached(plan, rows, i) && k < RETRY_TIMES
    ensures GoesThrough(plan, job, rows, false, Turndown(plan, t, k), i)
  {
    var attempts := Turndown(plan, t, k);
    forall j: nat | j < i ensures !PreparedRow(plan, job, rows[j], false, attempts).raised {
      SelectedRowIsInterrupted(job, rows, j);
      var s := rows[j].task;
      TurndownAccepts(plan, t, k, rows[j]);
      PrepareLength(plan.parties[s], job.tasks[s], rows[j], Lookup(attempts, s, []));
    }
  }

  lemma UnsafeRowLosesSuccess(plan: Plan, job: Job, rows: seq<Row>, i: nat) returns (attempts: Attempts)
    requires ValidJob(plan, job) && ManualRows(job, rows) && i < |rows| && Reached(plan, rows, i)
    requires !LosesNoSuccess(job, rows[i])
    ensures HeardAll(plan, attempts) && !KeepsSuccess(plan, job, rows, attempts)
  {
    var t := rows[i].task;
    SelectedRowIsInterrupted(job, rows, i);
    var k: nat := Latest(job.tasks[t]) - rows[i].version;
    attempts := Turndown(plan, t, k);
    TurndownHeard(plan, t, k);
    TurndownReaches(plan, job, rows, t, k, i);
    TurndownAccepts(plan, t, k, rows[i]);
    hide Turndown, Prepare, RerunRows, HeardAll, Reached;
    RerunRowsEach(plan, job, rows, false, attempts, i);
    PrepareLength(plan.parties[t], job.tasks[t], rows[i], Lookup(attempts, t, []));
    assert !KeepsSuccess(plan, job, rows, attempts);
  }
}
