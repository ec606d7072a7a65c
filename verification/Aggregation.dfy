// The two status folds: parties into a task, tasks into a job.  Each is a
// method with the scheduler's own set surgery and level-ordered search, proved
// equal to a fold that looks at the set of statuses only; None stands for the
// exception the source raises.
module Aggregation {
  import opened Common
  import opened Statuses

  /** The interrupt statuses in level order, lowest first or highest first. */
  function InterruptsByLevel(highestFirst: bool): (r: seq<Status>)
    ensures forall s :: s in r <==> Interrupt(s)
    ensures forall i, j :: 0 <= i < j < |r| ==>
      if highestFirst then Level(r[i]) > Level(r[j]) else Level(r[i]) < Level(r[j])
  {
    if highestFirst then [Failed, Timeout, Canceled] else [Canceled, Timeout, Failed]
  }

  /** The interrupt of s that a search in level order finds first. */
  ghost predicate ExtremeInterrupt(s: set<Status>, x: Status, highest: bool) {
    x in s && Interrupt(x) &&
    forall y :: y in s && Interrupt(y) ==> if highest then Level(y) <= Level(x) else Level(x) <= Level(y)
  }

  /** Status of a task whose parties show exactly the statuses in s. */
  function TaskStatusOf(s: set<Status>): Option<Status> {
    if s == {} then None
    else if Canceled in s then Some(Canceled)
    else if Timeout in s then Some(Timeout)
    else if Failed in s then Some(Failed)
    else if s <= {Success, Pass} then Some(Success)
    else if s == {Waiting} then Some(Waiting)
    else Some(Running)
  }

  /** Status of a job whose tasks show exactly the statuses in s after a round that ended with code. */
  function JobStatusOf(code: Code, s: set<Status>): Option<Status> {
    if s == {} then None
    else if s <= {Success, Pass} then Some(Success)
    else if s == {Waiting} then Some(Waiting)
    else if Running in s || (Waiting in s && code == HaveNext) then Some(Running)
    else if Failed in s then Some(Failed)
    else if Timeout in s then Some(Timeout)
    else if Canceled in s then Some(Canceled)
    else if code == NoNext then Some(Canceled)
    else None
  }

  /** tmp is what the folds work on: PASS replaced by SUCCESS. */
  ghost predicate IsMerged(s: set<Status>, tmp: set<Status>) {
    && Pass !in tmp
    && (Success in tmp <==> Success in s || Pass in s)
    && forall x :: x != Pass && x != Success ==> (x in tmp <==> x in s)
  }

  lemma MergeKeepsFolds(s: set<Status>, tmp: set<Status>, code: Code)
    requires IsMerged(s, tmp)
    ensures TaskStatusOf(tmp) == TaskStatusOf(s)
    ensures JobStatusOf(code, tmp) == JobStatusOf(code, s)
  {
    assert s == {} <==> tmp == {} by {
      if s != {} {
        var x :| x in s;
        assert x in tmp || Success in tmp;
      }
    }
    assert s <= {Success, Pass} <==> tmp <= {Success, Pass} by {
      assert forall x :: x in s ==> x in tmp || x == Pass;
    }
    assert s == {Waiting} <==> tmp == {Waiting} by {
      assert forall x :: x in s ==> x in tmp || x == Pass;
    }
  }

  /** A set with two members is none of the one-member sets the folds single out. */
  lemma NotOneStatus(tmp: set<Status>)
    requires |tmp| != 1 && Pass !in tmp
    ensures tmp == {} || (tmp != {Waiting} && !(tmp <= {Success, Pass}))
  {
    if Success in tmp {
      AnotherMember(tmp, Success);
    }
    if Waiting in tmp {
      AnotherMember(tmp, Waiting);
    }
  }

  method MergePass(statuses: seq<Status>) returns (tmp: set<Status>)
    ensures IsMerged(Elements(statuses), tmp)
  {
    tmp := set x | x in statuses;
    if Pass in tmp {
      tmp := tmp - {Pass};
      tmp := tmp + {Success};
    }
  }

  /** The statuses of a map, one entry per key. */
  method ValueList<K>(m: map<K, Status>) returns (list: seq<Status>)
    ensures Elements(list) == m.Values
  {
    list := [];
    var rest := m.Keys;
    while rest != {}
      invariant rest <= m.Keys
      invariant Elements(list) == set k | k in m.Keys - rest :: m[k]
    {
      var k :| k in rest;
      ElementsAppend(list, m[k]);
      list := list + [m[k]];
      assert m.Keys - (rest - {k}) == (m.Keys - rest) + {k};
      rest := rest - {k};
    }
  }

  /** The level-ordered search both folds share. */
  method FirstInterrupt(tmp: set<Status>, highestFirst: bool) returns (found: Option<Status>)
    ensures found.None? ==> forall x :: x in tmp ==> !Interrupt(x)
    ensures found.Some? ==> ExtremeInterrupt(tmp, found.value, highestFirst)
  {
    var order := InterruptsByLevel(highestFirst);
    for i := 0 to |order|
      invariant forall k :: 0 <= k < i ==> order[k] !in tmp
    {
      if order[i] in tmp {
        return Some(order[i]);
      }
    }
    return None;
  }

  method CalculateMultiPartyTaskStatus(statuses: seq<Status>) returns (r: Option<Status>)
    ensures r == TaskStatusOf(Elements(statuses))
  {
    var tmp := MergePass(statuses);
    MergeKeepsFolds(Elements(statuses), tmp, NoNext);
    if |tmp| == 1 {
      var s :| s in tmp;
      SingletonOf(tmp, s);
      return Some(s);
    }
    NotOneStatus(tmp);
    var found := FirstInterrupt(tmp, false);
    if found.Some? {
      return found;
    }
    if Running in tmp {
      return Some(Running);
    }
    if Success in tmp {
      return Some(Running);
    }
    assert forall x :: x in tmp ==> x == Waiting;
    assert tmp == {};
    return None;
  }

  method CalculateJobStatus(code: Code, statuses: seq<Status>) returns (r: Option<Status>)
    ensures r == JobStatusOf(code, Elements(statuses))
  {
    var tmp := MergePass(statuses);
    MergeKeepsFolds(Elements(statuses), tmp, code);
    if |tmp| == 1 {
      var s :| s in tmp;
      SingletonOf(tmp, s);
      return Some(s);
    }
    NotOneStatus(tmp);
    if Running in tmp {
      return Some(Running);
    }
    if Waiting in tmp && code == HaveNext {
      return Some(Running);
    }
    var found := FirstInterrupt(tmp, true);
    if found.Some? {
      return found;
    }
    assert forall x :: x in tmp ==> x in {Waiting, Success};
    if tmp == {Waiting, Success} && code == NoNext {
      return Some(Canceled);
    }
    assert tmp == {} || tmp == {Waiting, Success};
    return None;
  }

  // ------------------------------------------------------------------
  // What the folds mean
  // ------------------------------------------------------------------

  /** A party list raises only when it is empty; a task shows the lowest-level interrupt present. */
  lemma TaskStatusMeaning(s: set<Status>)
    ensures TaskStatusOf(s) == None <==> s == {}
    ensures TaskStatusOf(s) == Some(Success) <==> s != {} && forall x :: x in s ==> Done(x)
    ensures TaskStatusOf(s) == Some(Waiting) <==> s == {Waiting}
    ensures forall x :: Interrupt(x) ==> (TaskStatusOf(s) == Some(x) <==> ExtremeInterrupt(s, x, false))
    ensures TaskStatusOf(s) != Some(Pass)
  {
    assert forall x :: Done(x) <==> x in {Success, Pass};
    forall x | Interrupt(x) ensures TaskStatusOf(s) == Some(x) <==> ExtremeInterrupt(s, x, false) {
      assert x in s && x != Canceled && Canceled in s ==> !ExtremeInterrupt(s, x, false);
      assert x == Failed && Timeout in s ==> !ExtremeInterrupt(s, x, false);
    }
  }

  /** Every outcome of the task fold: CANCELED outranks TIMEOUT, TIMEOUT outranks FAILED, and without an interrupt a task
      runs unless all its parties wait or all are done. */
  lemma TaskFoldCases(s: set<Status>)
    ensures TaskStatusOf(s) == Some(Canceled) <==> Canceled in s
    ensures TaskStatusOf(s) == Some(Timeout) <==> Timeout in s && Canceled !in s
    ensures TaskStatusOf(s) == Some(Failed) <==> Failed in s && Timeout !in s && Canceled !in s
    ensures TaskStatusOf(s) == Some(Running) <==>
      && s != {} && s != {Waiting} && Canceled !in s && Timeout !in s && Failed !in s
      && exists x :: x in s && x != Success && x != Pass
  {
    assert s <= {Success, Pass} <==> forall x :: x in s ==> x == Success || x == Pass;
  }

  /** Only WAITING and finished tasks are left, some of each, and the round found nothing to start. */
  predicate GaveUp(code: Code, s: set<Status>) {
    code == NoNext && Waiting in s && s != {Waiting} && s <= {Waiting, Success, Pass}
  }

  /** A job is open while a task runs, or waits with something just started beside it; otherwise it shows the
      highest-level interrupt present, and CANCELED also for a job that gave up. */
  lemma JobStatusMeaning(code: Code, s: set<Status>)
    ensures JobStatusOf(code, s) == Some(Success) <==> s != {} && forall x :: x in s ==> Done(x)
    ensures JobStatusOf(code, s) == Some(Waiting) <==> s == {Waiting}
    ensures JobStatusOf(code, s) == Some(Running) <==>
      Running in s || (Waiting in s && s != {Waiting} && code == HaveNext)
    ensures forall x :: Interrupt(x) ==>
      (JobStatusOf(code, s) == Some(x) <==>
        (Running !in s && !(Waiting in s && code == HaveNext) && ExtremeInterrupt(s, x, true))
        || (x == Canceled && GaveUp(code, s)))
    ensures JobStatusOf(code, s) == None <==>
      s == {} || (code == CodeFailed && Waiting in s && s != {Waiting} && s <= {Waiting, Success, Pass})
    ensures JobStatusOf(code, s) != Some(Pass)
  {
    assert forall x :: Done(x) <==> x in {Success, Pass};
    forall x ensures Interrupt(x) || x in {Waiting, Running, Success, Pass} {
      match x
      case Waiting => case Running => case Canceled => case Timeout => case Failed => case Pass => case Success =>
    }
    assert forall x :: x in s && !Interrupt(x) && x != Running ==> x in {Waiting, Success, Pass};
    assert Failed in s ==> forall x :: ExtremeInterrupt(s, x, true) <==> x == Failed;
    assert Failed !in s && Timeout in s ==> forall x :: ExtremeInterrupt(s, x, true) <==> x == Timeout;
    assert Failed !in s && Timeout !in s && Canceled in s ==> forall x :: ExtremeInterrupt(s, x, true) <==> x == Canceled;
  }

  /** What a task row shows for its parties; a task without party rows is FAILED. */
  function FederatedStatus(parties: set<Status>): Status {
    if parties == {} then Failed else TaskStatusOf(parties).value
  }

  /** Both levels together: the job is SUCCESS exactly when every party of every task is SUCCESS or PASS. */
  lemma TwoLevelSuccess(code: Code, tasks: seq<set<Status>>)
    requires tasks != []
    ensures JobStatusOf(code, set t | t in tasks :: FederatedStatus(t)) == Some(Success)
      <==> forall i :: 0 <= i < |tasks| ==> tasks[i] != {} && forall x :: x in tasks[i] ==> Done(x)
  {
    var s := set t | t in tasks :: FederatedStatus(t);
    assert FederatedStatus(tasks[0]) in s;
    JobStatusMeaning(code, s);
    forall t | t in tasks
      ensures Done(FederatedStatus(t)) <==> t != {} && forall x :: x in t ==> Done(x)
    {
      TaskStatusMeaning(t);
    }
    if JobStatusOf(code, s) == Some(Success) {
      forall i | 0 <= i < |tasks|
        ensures tasks[i] != {} && forall x :: x in tasks[i] ==> Done(x)
      {
        assert FederatedStatus(tasks[i]) in s;
      }
    }
  }
}
