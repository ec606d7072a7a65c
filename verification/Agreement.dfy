// The parser's graphs and the scheduler's dependency relation, side by side.
module Agreement {
  import opened Common
  import opened Statuses
  import opened Federated
  import opened Jobs
  import opened Runs
  import opened Graphs
  import opened Parser
  import opened Revisit
  import opened Progress
  import opened Termination

  lemma PlanIsValid(dag: DagSpec, order: seq<Task>)
    requires TopologicalOrder(Parsed(dag).all, order)
    ensures ValidPlan(PlanOf(dag, order))
  {
  }

  /** Along a party graph's edges the SUCCESS tasks of any safe state are closed. */
  lemma SuccessClosedInGraph(dag: DagSpec, order: seq<Task>, job: Job, p: Party, t: Task, d: Task)
    requires Inv(PlanOf(dag, order), job) && p in Parsed(dag).dags
    requires d in Predecessors(Parsed(dag).dags[p], t) && t in job.tasks && Current(job.tasks[t]) == Success
    ensures d in job.tasks && Current(job.tasks[d]) == Success && d in Parsed(dag).dags[p].nodes
  {
    GraphsAgree(dag);
    InvClosed(PlanOf(dag, order), job);
    hide Parsed, Inv;
    assert (d, t) in Parsed(dag).dags[p].edges;
    assert IsDependency(dag, (d, t));
    assert d in PlanOf(dag, order).deps[t];
  }

  /** The lists the rerun path would hand to get_need_revisit_tasks for one party: visited are the SUCCESS tasks of
      its graph, failed are interrupted tasks. */
  ghost predicate RerunLists(job: Job, g: Graph, visited: seq<Task>, failed: seq<Task>)
    requires ValidRows(job.tasks)
  {
    && (forall t :: t in visited <==> t in g.nodes && t in job.tasks && Current(job.tasks[t]) == Success)
    && (forall t :: t in failed ==> t in job.tasks && Interrupt(Current(job.tasks[t])))
  }

  /** In a safe state the search finds nothing to rerun and does not raise. */
  lemma NothingToRevisit(dag: DagSpec, order: seq<Task>, job: Job, p: Party, visited: seq<Task>, failed: seq<Task>)
    requires Inv(PlanOf(dag, order), job) && p in Parsed(dag).dags
    requires RerunLists(job, Parsed(dag).dags[p], visited, failed)
    ensures var g := Parsed(dag).dags[p];
      && Searchable(g, Invalid(g, visited, failed), visited)
      && NeedRevisit(g, Invalid(g, visited, failed), visited) == []
  {
    hide Parsed, Inv, PlanOf;
    var g := Parsed(dag).dags[p];
    var bad, seen := Invalid(g, visited, failed), Elements(visited);
    forall t | t in seen ensures Predecessors(g, t) <= seen {
      forall d | d in Predecessors(g, t) ensures d in seen {
        SuccessClosedInGraph(dag, order, job, p, t, d);
      }
    }
    forall t | t in visited ensures !Tainted(g, bad, t) {
      forall c | Chain(g, c) && c[0] == t ensures c[|c| - 1] !in bad {
        ClosedIsClean(g, bad, seen, c);
      }
    }
    NoneTainted(g, bad, visited);
  }

  /** So in every state of every calm run the step the rerun path leaves out would change nothing. */
  lemma RerunLosesNothing(dag: DagSpec, order: seq<Task>, retries: int, js: seq<Job>, steps: seq<Step>, n: nat,
                          p: Party, visited: seq<Task>, failed: seq<Task>)
    requires IsRun(PlanOf(dag, order), retries, js, steps) && CalmRun(PlanOf(dag, order), js, steps) && n <= |steps|
    requires p in Parsed(dag).dags && ValidRows(js[n].tasks) && RerunLists(js[n], Parsed(dag).dags[p], visited, failed)
    ensures var g := Parsed(dag).dags[p];
      NeedRevisit(g, Invalid(g, visited, failed), visited) == []
  {
    hide Parsed, PlanOf, CalmRun, RerunLists, NeedRevisit;
    RunKeepsInv(PlanOf(dag, order), retries, js, steps, n);
    NothingToRevisit(dag, order, js[n], p, visited, failed);
  }

  // ------------------------------------------------------------------
  // Acyclic graphs, cyclic dependencies
  // ------------------------------------------------------------------

  /** Every channel of every task makes an edge at some party. */
  ghost predicate EveryChannelUsed(dag: DagSpec) {
    forall t, d :: t in dag.tasks && d in InferredDeps(dag.tasks[t].inputs) ==> (d, t) in Parsed(dag).all.edges
  }

  /** Some party of the job runs t, does not skip it, and has a channel of t that feeds it from d. */
  ghost predicate WantedSomewhere(dag: DagSpec, e: (Task, Task)) {
    exists p :: p in Places(dag.parties) && WantedEdge(dag, p, e)
  }

  /** Where no restricted channel brings a producer that does not run there, the specification alone tells whether
      every channel is used. */
  lemma EveryChannelUsedIff(dag: DagSpec)
    requires ValidSpec(dag) && forall p :: p in Places(dag.parties) ==> NoPhantoms(dag, p)
    ensures EveryChannelUsed(dag)
      <==> forall t, d :: t in dag.tasks && d in InferredDeps(dag.tasks[t].inputs) ==> WantedSomewhere(dag, (d, t))
  {
    GraphsAgree(dag);
    hide Parsed, NoPhantoms, WantedEdge, InferredDeps, Places;
    forall e ensures e in Parsed(dag).all.edges <==> WantedSomewhere(dag, e) {
      EdgeIsWanted(dag, e);
    }
  }

  lemma EdgeIsWanted(dag: DagSpec, e: (Task, Task))
    requires ValidSpec(dag) && forall p :: p in Places(dag.parties) ==> NoPhantoms(dag, p)
    ensures e in Parsed(dag).all.edges <==> WantedSomewhere(dag, e)
  {
    GraphsAgree(dag);
    hide Parsed, NoPhantoms, WantedEdge, Places;
    forall p | p in Places(dag.parties)
      ensures p in Parsed(dag).dags && (e in Parsed(dag).dags[p].edges <==> WantedEdge(dag, p, e))
    {
      PartyGraphIs(dag, p);
    }
    if p :| p in Parsed(dag).dags && e in Parsed(dag).dags[p].edges {
      assert p in Elements(Places(dag.parties));
      assert WantedEdge(dag, p, e);
    }
    if WantedSomewhere(dag, e) {
      var p :| p in Places(dag.parties) && WantedEdge(dag, p, e);
      assert EdgeSomewhere(Parsed(dag), e);
    }
  }

  /** The plan of a sorted specification is one the scheduler can run: cooperating runs of every length exist. */
  lemma SortedJobRuns(dag: DagSpec, order: seq<Task>, retries: int, n: nat) returns (js: seq<Job>, envs: seq<Env>)
    requires TopologicalOrder(Parsed(dag).all, order) && order != []
    requires forall t :: t in order ==> PlacesOf(dag, t) != []
    ensures |envs| == n && BenignRun(PlanOf(dag, order), retries, js, envs)
  {
    hide Parsed;
    PlanIsValid(dag, order);
    var plan := PlanOf(dag, order);
    forall t | t in plan.parties ensures plan.parties[t] != {} {
      assert PlacesOf(dag, t)[0] in plan.parties[t];
    }
    js, envs := BenignRunExists(plan, retries, n);
  }

  /** From the specification to the end of the job: sorted, with every channel used and every task somewhere to run,
      N tasks need N + 1 passes when the parties cooperate. */
  lemma SortedJobSucceeds(dag: DagSpec, order: seq<Task>, retries: int, js: seq<Job>, envs: seq<Env>)
    requires EveryChannelUsed(dag) && TopologicalOrder(Parsed(dag).all, order)
    requires BenignRun(PlanOf(dag, order), retries, js, envs) && |envs| == |order| + 1
    ensures js[|envs|].status == Success
  {
    SortedJobIsAcyclic(dag, order);
    hide Parsed, Acyclic, BenignPass, EveryChannelUsed;
    AcyclicSucceeds(PlanOf(dag, order), retries, js, envs);
  }

  function Position(order: seq<Task>, t: Task): nat {
    if order == [] || order[0] == t then 0 else 1 + Position(order[1..], t)
  }

  lemma {:induction false} PositionIs(order: seq<Task>, t: Task)
    requires t in order
    ensures Position(order, t) < |order| && order[Position(order, t)] == t
  {
    if order[0] != t {
      PositionIs(order[1..], t);
    }
  }

  /** Then the order the tasks are created in orders the dependencies too, so the job cannot deadlock. */
  lemma SortedJobIsAcyclic(dag: DagSpec, order: seq<Task>)
    requires EveryChannelUsed(dag) && TopologicalOrder(Parsed(dag).all, order)
    ensures Acyclic(PlanOf(dag, order)) && KnownDeps(PlanOf(dag, order))
  {
    var plan := PlanOf(dag, order);
    GraphsAgree(dag);
    hide Parsed;
    var rank := map t | t in plan.deps :: Position(order, t);
    forall t, d | t in plan.deps && d in plan.deps[t] ensures d in plan.deps && rank[d] < rank[t] {
      assert (d, t) in Parsed(dag).all.edges;
      assert d in Elements(order) && t in Elements(order);
      assert Ordered(order, (d, t));
      PositionIs(order, d);
      PositionIs(order, t);
    }
    forall t | t in plan.deps ensures Falls(plan, rank, t) {
    }
    RankedIsAcyclic(plan, rank);
  }

  /** Two tasks that each take an input from the other, restricted to a party that runs neither. */
  function CrossedSpec(a: Task, b: Task): DagSpec {
    var host := [PartySpec("host", ["10000"])];
    DagSpec([PartySpec("guest", ["9999"])], [a, b],
            map[a := TaskSpec([], [TaskOutput([Channel(b, host)])]), b := TaskSpec([], [TaskOutput([Channel(a, host)])])])
  }

  /** It parses into graphs without edges, so every sort succeeds, and yet its two tasks wait for each other. */
  lemma CrossedDeadlocks(a: Task, b: Task)
    requires a != b
    ensures var dag := CrossedSpec(a, b);
      && ValidSpec(dag) && PlacesKnown(dag)
      && TopologicalOrder(Parsed(dag).all, [a, b])
      && KnownDeps(PlanOf(dag, [a, b])) && Stuck(PlanOf(dag, [a, b]), {a, b})
  {
    hide Parsed, NodesFor, PlacesOf, InferredDeps, Stuck;
    var dag := CrossedSpec(a, b);
    CrossedStays(dag, a, b);
    CrossedPlaces(dag, a, b);
    CrossedStuck(dag, a, b);
  }

  lemma CrossedStuck(dag: DagSpec, a: Task, b: Task)
    requires a != b && dag == CrossedSpec(a, b)
    ensures KnownDeps(PlanOf(dag, [a, b])) && Stuck(PlanOf(dag, [a, b]), {a, b})
  {
    hide InferredDeps, PlacesOf;
    var plan := PlanOf(dag, [a, b]);
    CrossedDeps(dag, a, b, a, b);
    CrossedDeps(dag, a, b, b, a);
    assert plan.deps[a] == [b] && plan.deps[b] == [a];
    assert b in plan.deps[a] && a in plan.deps[b];
    assert WaitsIn(plan, {a, b}, a) && WaitsIn(plan, {a, b}, b);
  }

  lemma CrossedPlaces(dag: DagSpec, a: Task, b: Task)
    requires a != b && dag == CrossedSpec(a, b)
    ensures Places(dag.parties) == PlacesOf(dag, a) == PlacesOf(dag, b) == [Party("guest", "9999")]
  {
    assert dag.parties[1..] == [];
  }

  lemma CrossedDeps(dag: DagSpec, a: Task, b: Task, t: Task, d: Task)
    requires a != b && dag == CrossedSpec(a, b) && ((t == a && d == b) || (t == b && d == a))
    ensures InferredDeps(dag.tasks[t].inputs) == [d]
  {
    var inputs := dag.tasks[t].inputs;
    var channels := inputs[0].channels;
    assert inputs[..0] == [] && channels[..0] == [];
    assert Producers(channels) == [d];
  }

  lemma CrossedStays(dag: DagSpec, a: Task, b: Task)
    requires a != b && dag == CrossedSpec(a, b)
    ensures Parsed(dag) == NodesOnly(dag, [a, b])
  {
    var guest := Party("guest", "9999");
    var s := NodesOnly(dag, [a, b]);
    CrossedPlaces(dag, a, b);
    assert [guest][..0] == [] && [a, b][..1] == [a] && [a][..0] == [];
    forall t | t == a || t == b ensures VisitPlaces(dag, s, t, [guest]) == s {
      var inputs := dag.tasks[t].inputs;
      var channels := inputs[0].channels;
      assert inputs[..0] == [] && channels[..0] == [] && channels[0].parties[..0] == [];
      assert CountedProducers(s.dags[guest], guest, channels) == [];
      assert s.dags[guest := s.dags[guest]] == s.dags;
      assert VisitInputs(s, guest, t, inputs) == s;
    }
    assert VisitTasks(dag, s, [a]) == s;
    assert VisitTasks(dag, s, [a, b]) == s;
  }
}
