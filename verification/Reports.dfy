// What collected reports do to the rows of one task version, against the table
// of status changes written out as pairs.
module Reports {
  import opened Statuses
  import opened Federated
  import opened Jobs
  import opened Rounds

  /** Every status change a task row accepts. */
  const ROW_CHANGES: set<(Status, Status)> := {
    (Waiting, Running), (Waiting, Success),
    (Running, Canceled), (Running, Timeout), (Running, Failed), (Running, Pass), (Running, Success),
    (Canceled, Waiting),
    (Timeout, Failed), (Timeout, Success)}

  lemma ChangedIs(from: Status, to: Status)
    ensures Changed(from, to) == if (from, to) in ROW_CHANGES then to else from
  {
    match from
    case Waiting => case Running => case Canceled => case Timeout => case Failed => case Pass => case Success =>
  }

  /** The report takes p's row out of status from. */
  predicate Leaves(from: Status, r: Report, p: Party) {
    r.party == p && (from, r.status) in ROW_CHANGES
  }

  ghost predicate NoneLeaves(from: Status, reports: seq<Report>, p: Party) {
    forall r :: r in reports ==> !Leaves(from, r, p)
  }

  lemma ReportedRow(v: Version, r: Report, p: Party)
    requires p in v.parties
    ensures p in Reported(v, r).parties
    ensures Reported(v, r).parties[p] == if Leaves(v.parties[p], r, p) then r.status else v.parties[p]
  {
    ChangedIs(v.parties[p], r.status);
  }

  lemma {:induction false} CollectedSplit(v: Version, a: seq<Report>, b: seq<Report>)
    ensures Collected(v, a + b) == Collected(Collected(v, a), b)
    decreases |a|
  {
    if a == [] {
      assert a + b == b;
    } else {
      assert (a + b)[0] == a[0] && (a + b)[1..] == a[1..] + b;
      CollectedSplit(Reported(v, a[0]), a[1..], b);
    }
  }

  /** A row stays as it is until the first report its status accepts ... */
  lemma {:induction false} RowStays(v: Version, reports: seq<Report>, p: Party)
    requires p in v.parties && NoneLeaves(v.parties[p], reports, p)
    ensures p in Collected(v, reports).parties && Collected(v, reports).parties[p] == v.parties[p]
    decreases |reports|
  {
    if reports != [] {
      assert reports[0] in reports;
      ReportedRow(v, reports[0], p);
      assert forall r :: r in reports[1..] ==> r in reports;
      RowStays(Reported(v, reports[0]), reports[1..], p);
    }
  }

  /** ... and then takes the reported status; the later reports find it there. */
  lemma RowMoves(v: Version, reports: seq<Report>, p: Party, i: nat)
    requires p in v.parties && i < |reports|
    requires NoneLeaves(v.parties[p], reports[..i], p) && Leaves(v.parties[p], reports[i], p)
    ensures var mid := Collected(v, reports[..i + 1]);
      && p in mid.parties && mid.parties[p] == reports[i].status
      && Collected(v, reports) == Collected(mid, reports[i + 1..])
  {
    hide Collected, ROW_CHANGES;
    RowStays(v, reports[..i], p);
    assert reports[..i + 1] == reports[..i] + [reports[i]];
    CollectedSplit(v, reports[..i], [reports[i]]);
    OneCollected(Collected(v, reports[..i]), reports[i]);
    ReportedRow(Collected(v, reports[..i]), reports[i], p);
    assert reports == reports[..i + 1] + reports[i + 1..];
    CollectedSplit(v, reports[..i + 1], reports[i + 1..]);
  }

  lemma OneCollected(v: Version, r: Report)
    ensures Collected(v, [r]) == Reported(v, r)
  {
    assert [r][1..] == [];
  }

  // ------------------------------------------------------------------
  // A running party
  // ------------------------------------------------------------------

  const ENDS: set<Status> := {Canceled, Timeout, Failed, Pass, Success}

  /** Report i is the first in which p reports that it has ended. */
  ghost predicate FirstEnd(reports: seq<Report>, p: Party, i: nat) {
    && i < |reports| && reports[i].party == p && reports[i].status in ENDS
    && forall j :: 0 <= j < i ==> !(reports[j].party == p && reports[j].status in ENDS)
  }

  ghost predicate Says(reports: seq<Report>, p: Party, s: Status) {
    exists r :: r in reports && r.party == p && r.status == s
  }

  /** Where a running row stands after reports whose first end report is number i: at that status; but a cancelled
      party may wait again, and a timed-out one may still fail or succeed. */
  ghost predicate EndsAs(reports: seq<Report>, p: Party, i: nat, row: Status)
    requires i < |reports|
  {
    var s, later := reports[i].status, reports[i + 1..];
    && (s == Failed || s == Pass || s == Success ==> row == s)
    && (s == Timeout && !Says(later, p, Failed) && !Says(later, p, Success) ==> row == Timeout)
    && (s == Timeout && (Says(later, p, Failed) || Says(later, p, Success)) ==>
          (row == Failed || row == Success) && Says(later, p, row))
    && (s == Canceled && !Says(later, p, Waiting) ==> row == Canceled)
  }

  /** A running party's row ends with the first end status it reports, whichever of the five that is. */
  lemma RunningRowEnds(v: Version, reports: seq<Report>, p: Party, i: nat)
    requires p in v.parties && v.parties[p] == Running && FirstEnd(reports, p, i)
    ensures p in Collected(v, reports).parties && EndsAs(reports, p, i, Collected(v, reports).parties[p])
  {
    forall r | r in reports[..i] ensures !Leaves(Running, r, p) {
      var j :| 0 <= j < i && reports[..i][j] == r;
      assert r == reports[j];
    }
    RowMoves(v, reports, p, i);
    hide Collected;
    EndedRowEnds(Collected(v, reports[..i + 1]), reports, p, i);
  }

  lemma EndedRowEnds(mid: Version, reports: seq<Report>, p: Party, i: nat)
    requires p in mid.parties && i < |reports| && mid.parties[p] == reports[i].status && reports[i].status in ENDS
    ensures var w := Collected(mid, reports[i + 1..]);
      p in w.parties && EndsAs(reports, p, i, w.parties[p])
  {
    hide Collected;
    var later := reports[i + 1..];
    CollectedFrame(mid, later);
    if NoneLeaves(mid.parties[p], later, p) {
      RowStays(mid, later, p);
    } else if reports[i].status == Timeout {
      var r :| r in later && Leaves(Timeout, r, p);
      TimedOutSettles(mid, later, p, r);
    }
  }

  /** FAILED or SUCCESS settles a row that timed out. */
  lemma {:induction false} TimedOutSettles(v: Version, reports: seq<Report>, p: Party, r: Report)
    requires p in v.parties && v.parties[p] == Timeout && r in reports && Leaves(Timeout, r, p)
    ensures p in Collected(v, reports).parties
    ensures var row := Collected(v, reports).parties[p];
      (row == Failed || row == Success) && Says(reports, p, row)
    decreases |reports|
  {
    var u, rest := Reported(v, reports[0]), reports[1..];
    ReportedRow(v, reports[0], p);
    if Leaves(Timeout, reports[0], p) {
      assert reports[0] in reports;
      RowStays(u, rest, p);
    } else {
      assert reports == [reports[0]] + rest;
      TimedOutSettles(u, rest, p, r);
    }
  }

  ghost predicate RunningRowsEnd(v: Version, reports: seq<Report>, v': Version) {
    && v'.parties.Keys == v.parties.Keys
    && forall p, i: nat :: p in v.parties && v.parties[p] == Running && FirstEnd(reports, p, i)
         ==> EndsAs(reports, p, i, v'.parties[p])
  }

  lemma RunningRows(v: Version, reports: seq<Report>)
    ensures RunningRowsEnd(v, reports, Collected(v, reports))
  {
    hide EndsAs;
    CollectedFrame(v, reports);
    forall p, i: nat | p in v.parties && v.parties[p] == Running && FirstEnd(reports, p, i)
      ensures i < |reports| && EndsAs(reports, p, i, Collected(v, reports).parties[p])
    {
      RunningRowEnds(v, reports, p, i);
    }
  }

  lemma InterruptShows(v: Version, p: Party)
    requires p in v.parties && v.parties[p] in {Canceled, Timeout, Failed}
    ensures Folded(v) in {Canceled, Timeout, Failed}
  {
    assert v.parties[p] in v.parties.Values;
  }

  /** So a version with a running party that reports CANCELED, TIMEOUT or FAILED, and nothing that undoes it, shows an
      interrupt. */
  lemma RunningPartyInterrupts(v: Version, reports: seq<Report>, p: Party, i: nat)
    requires p in v.parties && v.parties[p] == Running && FirstEnd(reports, p, i)
    requires reports[i].status in {Canceled, Timeout, Failed}
    requires reports[i].status == Canceled ==> !Says(reports[i + 1..], p, Waiting)
    requires reports[i].status == Timeout ==> !Says(reports[i + 1..], p, Success)
    ensures Folded(Collected(v, reports)) in {Canceled, Timeout, Failed}
  {
    RunningRowEnds(v, reports, p, i);
    hide Folded, Collected;
    InterruptShows(Collected(v, reports), p);
  }

  // ------------------------------------------------------------------
  // The status row
  // ------------------------------------------------------------------

  /** After a sync the status row shows the fold if the table has the change, and what it showed before if not. */
  lemma StatusRowFollows(h: History, reports: seq<Report>)
    requires ValidHistory(h)
    ensures var row, fold := Head(h).status, Folded(Collected(Head(h), reports));
      Head(Synced(h, reports)).status == if (row, fold) in ROW_CHANGES then fold else row
  {
    CollectedFrame(Head(h), reports);
    ChangedIs(Head(h).status, Folded(Collected(Head(h), reports)));
    hide Collected, Folded, ROW_CHANGES, Changed;
  }

  /** A started task's waiting status row shows RUNNING. */
  lemma StartedRowRuns(h: History)
    requires ValidHistory(h)
    ensures Head(h).status == Waiting ==> Head(StartedHistory(h)).status == Running
    ensures Head(StartedHistory(h)).parties == Head(h).parties && Latest(StartedHistory(h)) == Latest(h)
  {
  }
}
