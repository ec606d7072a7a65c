// Which visited tasks must be run again: the hand-written search through a
// party's graph, and what it means for the scheduler.
module Revisit {
  import opened Common
  import opened Jobs
  import opened Graphs

  /** Invalid tasks: not visited yet, or failed. */
  function Invalid(g: Graph, visited: seq<Task>, failed: seq<Task>): set<Task> {
    (g.nodes - Elements(visited)) + Elements(failed)
  }

  /** The visited tasks that are invalid or have an invalid ancestor, in visiting order. */
  ghost function NeedRevisit(g: Graph, bad: set<Task>, visited: seq<Task>): seq<Task> {
    if visited == [] then []
    else
      var front, last := visited[..|visited| - 1], visited[|visited| - 1];
      NeedRevisit(g, bad, front) + if Tainted(g, bad, last) then [last] else []
  }

  lemma {:induction false} NeedRevisitMembers(g: Graph, bad: set<Task>, visited: seq<Task>)
    ensures forall t :: t in NeedRevisit(g, bad, visited) <==> t in visited && Tainted(g, bad, t)
  {
    if visited != [] {
      NeedRevisitMembers(g, bad, visited[..|visited| - 1]);
    }
  }

  /** The library raises for the predecessors of a task that is no node. */
  predicate Searchable(g: Graph, bad: set<Task>, visited: seq<Task>) {
    forall t :: t in visited ==> t in bad || t in g.nodes
  }

  /** What the search of one task has established: everything seen is an ancestor-or-self of it, nothing seen is
      bad, and everything seen but not on the stack has all its predecessors seen. */
  ghost predicate Searching(g: Graph, bad: set<Task>, start: Task, seen: set<Task>, stack: seq<Task>) {
    && start in seen && seen <= g.nodes && seen !! bad
    && (forall t :: t in stack ==> t in seen)
    && (forall t :: t in seen && t !in stack ==> Predecessors(g, t) <= seen)
    && (forall t :: t in seen ==> (Tainted(g, bad, t) ==> Tainted(g, bad, start)))
  }

  lemma PredecessorTaint(g: Graph, bad: set<Task>, t: Task, d: Task)
    requires d in Predecessors(g, t) && Tainted(g, bad, d)
    ensures Tainted(g, bad, t)
  {
    TaintedUnfold(g, bad, t);
  }

  lemma BadIsTainted(g: Graph, bad: set<Task>, t: Task)
    requires t in bad
    ensures Tainted(g, bad, t)
  {
    TaintedUnfold(g, bad, t);
  }

  lemma SearchDone(g: Graph, bad: set<Task>, start: Task, seen: set<Task>)
    requires Searching(g, bad, start, seen, [])
    ensures !Tainted(g, bad, start)
  {
    forall p | Chain(g, p) && p[0] == start ensures p[|p| - 1] !in bad {
      ClosedIsClean(g, bad, seen, p);
    }
  }

  /** The while loop over the stack; false when an invalid ancestor was found. */
  method SearchAncestors(g: Graph, bad: set<Task>, start: Task) returns (valid: bool)
    requires WellFormed(g) && start in g.nodes && start !in bad
    ensures valid <==> !Tainted(g, bad, start)
  {
    hide Tainted;
    valid := true;
    var seen, stack := {start}, [start];
    while |stack| > 0 && valid
      invariant valid ==> Searching(g, bad, start, seen, stack)
      invariant !valid ==> Tainted(g, bad, start)
      decreases valid, g.nodes - seen, |stack|
    {
      var task := stack[|stack| - 1];
      stack := stack[..|stack| - 1];
      ghost var seen0, stack0 := seen, stack;
      var rest := Predecessors(g, task);
      while rest != {}
        invariant rest <= Predecessors(g, task) && Predecessors(g, task) - rest <= seen
        invariant seen0 <= seen && (seen == seen0 ==> stack == stack0)
        invariant task in seen && start in seen && seen <= g.nodes && seen !! bad
        invariant forall t :: t in stack ==> t in seen
        invariant forall t :: t in seen && t !in stack && t != task ==> Predecessors(g, t) <= seen
        invariant forall t :: t in seen ==> (Tainted(g, bad, t) ==> Tainted(g, bad, start))
      {
        var pre :| pre in rest;
        rest := rest - {pre};
        if pre in seen {
          continue;
        }
        if pre in bad {
          valid := false;
          BadIsTainted(g, bad, pre);
          PredecessorTaint(g, bad, task, pre);
          break;
        }
        assert Tainted(g, bad, pre) ==> Tainted(g, bad, start) by {
          if Tainted(g, bad, pre) {
            PredecessorTaint(g, bad, task, pre);
          }
        }
        seen := seen + {pre};
        stack := stack + [pre];
      }
    }
    if valid {
      assert stack == [];
      SearchDone(g, bad, start, seen);
    }
  }

  /** get_need_revisit_tasks over the party graph; sorted is what the library's topological sort returned.
      None stands for the exceptions: a cyclic graph, or a visited task that is neither a node nor invalid. */
  method GetNeedRevisitTasks(g: Graph, sorted: Option<seq<Task>>, visited: seq<Task>, failed: seq<Task>)
    returns (r: Option<seq<Task>>)
    requires WellFormed(g) && SortsTo(g, sorted)
    ensures r.None? <==> sorted.None? || exists t :: t in visited && t !in failed && t !in g.nodes
    ensures r.Some? ==> r.value == NeedRevisit(g, Invalid(g, visited, failed), visited)
  {
    if sorted.None? {
      return None;
    }
    var bad := Elements(sorted.value) - Elements(visited);
    bad := bad + Elements(failed);
    assert bad == Invalid(g, visited, failed);
    var found: seq<Task> := [];
    assert visited[..0] == [];
    for i := 0 to |visited|
      invariant found == NeedRevisit(g, bad, visited[..i])
      invariant Searchable(g, bad, visited[..i])
    {
      var t := visited[i];
      assert visited[..i + 1][..i] == visited[..i];
      if t in bad {
        BadIsTainted(g, bad, t);
        found := found + [t];
        continue;
      }
      if t !in g.nodes {
        assert t in visited && t !in failed;
        return None;
      }
      var valid := SearchAncestors(g, bad, t);
      if !valid {
        found := found + [t];
      }
    }
    assert visited[..|visited|] == visited;
    return Some(found);
  }

  /** The library raises exactly for a visited task that did not fail and is no node. */
  lemma SearchableIff(g: Graph, visited: seq<Task>, failed: seq<Task>)
    ensures Searchable(g, Invalid(g, visited, failed), visited) <==> forall t :: t in visited ==> t in failed || t in g.nodes
  {
  }

  /** The tasks to run again stand in the order in which they were visited. */
  lemma {:induction false} RevisitInOrder(g: Graph, bad: set<Task>, visited: seq<Task>, e: (Task, Task))
    requires Distinct(visited) && Ordered(visited, e)
    ensures Ordered(NeedRevisit(g, bad, visited), e) && Distinct(NeedRevisit(g, bad, visited))
  {
    var wanted := set t | t in visited && Tainted(g, bad, t);
    RevisitRestricted(g, bad, visited, wanted);
    RestrictedOrdered(visited, wanted, e);
    RestrictedMembers(visited, wanted);
  }

  lemma {:induction false} RevisitRestricted(g: Graph, bad: set<Task>, visited: seq<Task>, wanted: set<Task>)
    requires forall t :: t in visited ==> (t in wanted <==> Tainted(g, bad, t))
    ensures NeedRevisit(g, bad, visited) == Restricted(visited, wanted)
  {
    if visited != [] {
      RevisitRestricted(g, bad, visited[..|visited| - 1], wanted);
    }
  }

  // ------------------------------------------------------------------
  // What it is for
  // ------------------------------------------------------------------

  /** The visited tasks that need no rerun. */
  ghost function Kept(g: Graph, bad: set<Task>, visited: seq<Task>): set<Task> {
    set t | t in visited && !Tainted(g, bad, t)
  }

  /** What is kept is visited, not failed, and closed under predecessors. */
  lemma KeptIsClosed(g: Graph, visited: seq<Task>, failed: seq<Task>, t: Task)
    requires WellFormed(g)
    requires t in Kept(g, Invalid(g, visited, failed), visited)
    ensures t !in failed
    ensures Predecessors(g, t) <= Kept(g, Invalid(g, visited, failed), visited)
  {
    var bad := Invalid(g, visited, failed);
    TaintedUnfold(g, bad, t);
    forall d | d in Predecessors(g, t) ensures d in Kept(g, bad, visited) {
      TaintedUnfold(g, bad, d);
    }
  }

  /** Asking again about the kept tasks finds nothing to rerun. */
  lemma RevisitIsStable(g: Graph, visited: seq<Task>, failed: seq<Task>, kept: seq<Task>)
    requires WellFormed(g)
    requires Elements(kept) == Kept(g, Invalid(g, visited, failed), visited)
    ensures NeedRevisit(g, Invalid(g, kept, failed), kept) == []
  {
    var bad, again := Invalid(g, visited, failed), Invalid(g, kept, failed);
    forall t | t in kept ensures !Tainted(g, again, t) {
      assert t in Elements(kept);
      forall u | u in Elements(kept) ensures Predecessors(g, u) <= Elements(kept) && u !in again {
        KeptIsClosed(g, visited, failed, u);
      }
      forall p | Chain(g, p) && p[0] == t ensures p[|p| - 1] !in again {
        ClosedIsClean(g, again, Elements(kept), p);
      }
    }
    NoneTainted(g, again, kept);
  }

  lemma {:induction false} NoneTainted(g: Graph, bad: set<Task>, visited: seq<Task>)
    requires forall t :: t in visited ==> !Tainted(g, bad, t)
    ensures NeedRevisit(g, bad, visited) == []
  {
    if visited != [] {
      NoneTainted(g, bad, visited[..|visited| - 1]);
    }
  }

  /** A visited task is rerun exactly when it failed or has a predecessor that was never visited or is itself rerun. */
  lemma RevisitEquation(g: Graph, visited: seq<Task>, failed: seq<Task>, t: Task)
    requires WellFormed(g) && t in visited
    ensures var again := NeedRevisit(g, Invalid(g, visited, failed), visited);
      t in again <==> t in failed || exists d :: d in Predecessors(g, t) && (d !in visited || d in again)
  {
    var bad := Invalid(g, visited, failed);
    var again := NeedRevisit(g, bad, visited);
    NeedRevisitMembers(g, bad, visited);
    TaintedUnfold(g, bad, t);
    forall d | d in Predecessors(g, t) ensures Tainted(g, bad, d) <==> d !in visited || d in again {
      if d !in visited {
        BadIsTainted(g, bad, d);
      }
    }
  }
}
