// The DAG parser: one graph per party and a global graph, built in place from
// the job's specification, and the dependency relation the scheduler uses.
module Parser {
  import opened Common
  import opened Federated
  import opened Jobs
  import opened Graphs

  datatype PartySpec = PartySpec(role: string, ids: seq<string>)

  /** An input channel from another task's output; parties is empty when it is not restricted. */
  datatype Channel = Channel(producer: Task, parties: seq<PartySpec>)

  /** The channels of one input key and source; only task outputs make edges. */
  datatype Input = Warehouse | TaskOutput(channels: seq<Channel>)

  datatype TaskSpec = TaskSpec(parties: seq<PartySpec>, inputs: seq<Input>)

  /** Task names in file order. */
  datatype DagSpec = DagSpec(parties: seq<PartySpec>, names: seq<Task>, tasks: map<Task, TaskSpec>)

  ghost predicate ValidSpec(dag: DagSpec) {
    Distinct(dag.names) && dag.tasks.Keys == Elements(dag.names)
  }

  // ------------------------------------------------------------------
  // Parties
  // ------------------------------------------------------------------

  /** All (role, party) pairs of a list of party specs, in order. */
  function Places(specs: seq<PartySpec>): seq<Party> {
    if specs == [] then []
    else
      seq(|specs[0].ids|, i requires 0 <= i < |specs[0].ids| => Party(specs[0].role, specs[0].ids[i])) + Places(specs[1..])
  }

  /** check_party_in and task_can_run: some entry with this role lists the party. */
  predicate PartyIn(p: Party, specs: seq<PartySpec>) {
    exists i :: 0 <= i < |specs| && specs[i].role == p.role && p.id in specs[i].ids
  }

  lemma {:induction false} PlacesMembers(specs: seq<PartySpec>, p: Party)
    ensures p in Places(specs) <==> PartyIn(p, specs)
  {
    if specs != [] {
      var rest := specs[1..];
      PlacesMembers(rest, p);
      var first := seq(|specs[0].ids|, i requires 0 <= i < |specs[0].ids| => Party(specs[0].role, specs[0].ids[i]));
      assert p in first <==> specs[0].role == p.role && p.id in specs[0].ids by {
        if k :| 0 <= k < |specs[0].ids| && specs[0].role == p.role && specs[0].ids[k] == p.id {
          assert first[k] == p;
        }
      }
      assert specs == [specs[0]] + rest;
      if i :| 0 <= i < |specs| && specs[i].role == p.role && p.id in specs[i].ids {
        assert i > 0 ==> rest[i - 1] == specs[i];
      }
      if i :| 0 <= i < |rest| && rest[i].role == p.role && p.id in rest[i].ids {
        assert specs[i + 1] == rest[i];
      }
    }
  }

  /** The same test through a dictionary built from the entries: the last entry of the role decides. */
  predicate LastEntryHas(p: Party, specs: seq<PartySpec>) {
    specs != [] &&
    if specs[|specs| - 1].role == p.role then p.id in specs[|specs| - 1].ids
    else LastEntryHas(p, specs[..|specs| - 1])
  }

  /** The ids of the last entry with this role. */
  function LastIds(specs: seq<PartySpec>, role: string): seq<string> {
    if specs == [] then []
    else if specs[|specs| - 1].role == role then specs[|specs| - 1].ids
    else LastIds(specs[..|specs| - 1], role)
  }

  predicate Within(some: seq<string>, all: seq<string>) {
    forall id :: id in some ==> id in all
  }

  /** The last entry of each role lists all ids that any entry of the role lists. */
  ghost predicate LastEntriesCover(specs: seq<PartySpec>) {
    forall i :: 0 <= i < |specs| ==> Within(specs[i].ids, LastIds(specs, specs[i].role))
  }

  lemma {:induction false} LastEntryIs(p: Party, specs: seq<PartySpec>)
    ensures LastEntryHas(p, specs) <==> p.id in LastIds(specs, p.role)
    ensures LastEntryHas(p, specs) ==> PartyIn(p, specs)
  {
    if specs != [] {
      var front := specs[..|specs| - 1];
      LastEntryIs(p, front);
      if PartyIn(p, front) {
        var i :| 0 <= i < |front| && front[i].role == p.role && p.id in front[i].ids;
        assert specs[i] == front[i];
      }
    }
  }

  /** The dictionary test implies the plain one; the two agree for every party exactly when the last entry of each
      role lists every id of that role. */
  lemma LastEntryMeaning(specs: seq<PartySpec>)
    ensures forall p :: LastEntryHas(p, specs) ==> PartyIn(p, specs)
    ensures (forall p :: PartyIn(p, specs) ==> LastEntryHas(p, specs)) <==> LastEntriesCover(specs)
  {
    forall p ensures LastEntryHas(p, specs) <==> p.id in LastIds(specs, p.role)
      ensures LastEntryHas(p, specs) ==> PartyIn(p, specs)
    {
      LastEntryIs(p, specs);
    }
    if forall p :: PartyIn(p, specs) ==> LastEntryHas(p, specs) {
      forall i, id | 0 <= i < |specs| && id in specs[i].ids ensures id in LastIds(specs, specs[i].role) {
        var p := Party(specs[i].role, id);
        assert PartyIn(p, specs);
        assert LastEntryHas(p, specs);
      }
    }
  }

  function PartiesOf(dag: DagSpec, t: Task): seq<PartySpec>
    requires t in dag.tasks
  {
    if dag.tasks[t].parties != [] then dag.tasks[t].parties else dag.parties
  }

  /** A task's own party list is consulted through the dictionary; a task without one is never skipped. */
  predicate NotSkipped(dag: DagSpec, t: Task, p: Party)
    requires t in dag.tasks
  {
    dag.tasks[t].parties == [] || LastEntryHas(p, dag.tasks[t].parties)
  }

  // ------------------------------------------------------------------
  // Edges
  // ------------------------------------------------------------------

  /** A channel counts for a party if it is restricted to it, or unrestricted with the producer already a node there. */
  predicate Counts(g: Graph, p: Party, c: Channel) {
    if c.parties != [] then LastEntryHas(p, c.parties) else c.producer in g.nodes
  }

  function CountedProducers(g: Graph, p: Party, channels: seq<Channel>): seq<Task> {
    if channels == [] then []
    else
      var front, last := channels[..|channels| - 1], channels[|channels| - 1];
      CountedProducers(g, p, front) + if Counts(g, p, last) then [last.producer] else []
  }

  function WithEdges(g: Graph, producers: seq<Task>, t: Task): Graph {
    if producers == [] then g
    else AddEdge(WithEdges(g, producers[..|producers| - 1], t), producers[|producers| - 1], t)
  }

  /** The party graphs and the global graph. */
  datatype State = State(dags: map<Party, Graph>, all: Graph)

  function AddProducers(s: State, p: Party, producers: seq<Task>, t: Task): State
    requires p in s.dags
  {
    State(s.dags[p := WithEdges(s.dags[p], producers, t)], WithEdges(s.all, producers, t))
  }

  function VisitInputs(s: State, p: Party, t: Task, inputs: seq<Input>): (r: State)
    requires p in s.dags
    ensures r.dags.Keys == s.dags.Keys
  {
    if inputs == [] then s
    else
      var before := VisitInputs(s, p, t, inputs[..|inputs| - 1]);
      match inputs[|inputs| - 1]
      case Warehouse => before
      case TaskOutput(channels) => AddProducers(before, p, CountedProducers(before.dags[p], p, channels), t)
  }

  function VisitTask(dag: DagSpec, s: State, p: Party, t: Task): State {
    if p in s.dags && t in dag.tasks && NotSkipped(dag, t, p) then VisitInputs(s, p, t, dag.tasks[t].inputs) else s
  }

  function VisitPlaces(dag: DagSpec, s: State, t: Task, places: seq<Party>): State {
    if places == [] then s
    else VisitTask(dag, VisitPlaces(dag, s, t, places[..|places| - 1]), places[|places| - 1], t)
  }

  function VisitTasks(dag: DagSpec, s: State, names: seq<Task>): State {
    if names == [] then s
    else
      var front, last := names[..|names| - 1], names[|names| - 1];
      VisitPlaces(dag, VisitTasks(dag, s, front), last, PlacesOf(dag, last))
  }

  function PlacesOf(dag: DagSpec, t: Task): seq<Party> {
    if t in dag.tasks then Places(PartiesOf(dag, t)) else []
  }

  /** Before any edge: each party's graph holds the tasks it runs, the global graph all tasks. */
  function NodesFor(dag: DagSpec, names: seq<Task>, p: Party): set<Task> {
    set t | t in names && p in PlacesOf(dag, t)
  }

  function NodesOnly(dag: DagSpec, names: seq<Task>): State {
    State(map p | p in Places(dag.parties) :: Graph(NodesFor(dag, names, p), {}), Graph(Elements(names), {}))
  }

  /** What parse_dag leaves. */
  function Parsed(dag: DagSpec): State {
    VisitTasks(dag, NodesOnly(dag, dag.names), dag.names)
  }

  /** Every party of every task is a party of the job; otherwise parsing raises. */
  ghost predicate PlacesKnown(dag: DagSpec) {
    forall t :: t in dag.names ==> AllIn(PlacesOf(dag, t), Places(dag.parties))
  }

  ghost predicate AllIn(some: seq<Party>, all: seq<Party>) {
    forall p :: p in some ==> p in all
  }

  /** t runs at p: its own list holds p, or it has none and the job's list does. */
  ghost predicate RunsAt(dag: DagSpec, t: Task, p: Party) {
    t in dag.tasks && if dag.tasks[t].parties != [] then PartyIn(p, dag.tasks[t].parties) else PartyIn(p, dag.parties)
  }

  lemma RunsAtIs(dag: DagSpec, t: Task, p: Party)
    ensures p in PlacesOf(dag, t) <==> RunsAt(dag, t, p)
  {
    if t in dag.tasks {
      PlacesMembers(dag.tasks[t].parties, p);
      PlacesMembers(dag.parties, p);
    }
  }

  /** Every party in any task's own list is in the job's list. */
  ghost predicate OwnListsKnown(dag: DagSpec) {
    forall t, p :: t in dag.tasks && PartyIn(p, dag.tasks[t].parties) ==> PartyIn(p, dag.parties)
  }

  /** So parsing raises exactly on a task list with a party the job does not list. */
  lemma PlacesKnownIff(dag: DagSpec)
    requires ValidSpec(dag)
    ensures PlacesKnown(dag) <==> OwnListsKnown(dag)
  {
    hide PlacesOf, Places;
    forall t, p | t in dag.tasks
      ensures p in PlacesOf(dag, t) <==> RunsAt(dag, t, p)
      ensures p in Places(dag.parties) <==> PartyIn(p, dag.parties)
    {
      RunsAtIs(dag, t, p);
      PlacesMembers(dag.parties, p);
    }
    if PlacesKnown(dag) {
      forall t, p | t in dag.tasks && PartyIn(p, dag.tasks[t].parties) ensures PartyIn(p, dag.parties) {
        assert t in Elements(dag.names);
        assert RunsAt(dag, t, p);
      }
    }
    if OwnListsKnown(dag) {
      forall t, p | t in dag.names && p in PlacesOf(dag, t) ensures p in Places(dag.parties) {
        assert t in Elements(dag.names);
        assert RunsAt(dag, t, p);
      }
    }
  }

  // ------------------------------------------------------------------
  // The dependency relation
  // ------------------------------------------------------------------

  function Producers(channels: seq<Channel>): seq<Task> {
    if channels == [] then [] else Producers(channels[..|channels| - 1]) + [channels[|channels| - 1].producer]
  }

  /** infer_dependent_tasks: every producer named by a task-output channel, restricted or not. */
  function InferredDeps(inputs: seq<Input>): seq<Task> {
    if inputs == [] then []
    else
      InferredDeps(inputs[..|inputs| - 1]) +
      match inputs[|inputs| - 1]
      case Warehouse => []
      case TaskOutput(channels) => Producers(channels)
  }

  function DepsOf(dag: DagSpec, t: Task): seq<Task> {
    if t in dag.tasks then InferredDeps(dag.tasks[t].inputs) else []
  }

  /** The scheduler's plan for a specification: one status row per node of the global graph, in the order its sort
      returned; a node that is no task of the specification has no parties. */
  function PlanOf(dag: DagSpec, order: seq<Task>): Plan {
    Plan(order, map t | t in order :: DepsOf(dag, t), map t | t in order :: Elements(PlacesOf(dag, t)))
  }

  lemma {:induction false} CountedAreProducers(g: Graph, p: Party, channels: seq<Channel>)
    ensures forall d :: d in CountedProducers(g, p, channels) ==> d in Producers(channels)
  {
    if channels != [] {
      CountedAreProducers(g, p, channels[..|channels| - 1]);
    }
  }

  // ------------------------------------------------------------------
  // Agreement of the graphs
  // ------------------------------------------------------------------

  lemma {:induction false} WithEdgesMeaning(g: Graph, producers: seq<Task>, t: Task)
    ensures WithEdges(g, producers, t).nodes == g.nodes + if producers == [] then {} else Elements(producers) + {t}
    ensures WithEdges(g, producers, t).edges == g.edges + set d | d in producers :: (d, t)
  {
    if producers != [] {
      var front := producers[..|producers| - 1];
      WithEdgesMeaning(g, front, t);
      assert Elements(producers) == Elements(front) + {producers[|producers| - 1]};
    }
  }

  ghost predicate EdgeSomewhere(s: State, e: (Task, Task)) {
    exists p :: p in s.dags && e in s.dags[p].edges
  }

  ghost predicate IsDependency(dag: DagSpec, e: (Task, Task)) {
    e.1 in dag.tasks && e.0 in InferredDeps(dag.tasks[e.1].inputs)
  }

  /** Party graphs sit inside the global graph, every global edge is some party's, and every edge is an inferred
      dependency. */
  ghost predicate Agree(dag: DagSpec, s: State) {
    && WellFormed(s.all)
    && (forall p :: p in s.dags ==> WellFormed(s.dags[p]) && s.dags[p].nodes <= s.all.nodes && s.dags[p].edges <= s.all.edges)
    && (forall e :: e in s.all.edges ==> EdgeSomewhere(s, e) && IsDependency(dag, e))
  }

  lemma AddProducersAgrees(dag: DagSpec, s: State, p: Party, producers: seq<Task>, t: Task)
    requires Agree(dag, s) && p in s.dags
    requires forall d :: d in producers ==> IsDependency(dag, (d, t))
    ensures Agree(dag, AddProducers(s, p, producers, t))
  {
    var s' := AddProducers(s, p, producers, t);
    WithEdgesMeaning(s.all, producers, t);
    WithEdgesMeaning(s.dags[p], producers, t);
    forall e | e in s'.all.edges ensures EdgeSomewhere(s', e) && IsDependency(dag, e) {
      if e in s.all.edges {
        var q :| q in s.dags && e in s.dags[q].edges;
        assert e in s'.dags[q].edges;
      } else {
        assert e in s'.dags[p].edges;
      }
    }
  }

  lemma {:induction false} VisitInputsAgrees(dag: DagSpec, s: State, p: Party, t: Task, n: nat)
    requires Agree(dag, s) && p in s.dags && t in dag.tasks && n <= |dag.tasks[t].inputs|
    ensures Agree(dag, VisitInputs(s, p, t, dag.tasks[t].inputs[..n]))
    ensures forall d :: d in InferredDeps(dag.tasks[t].inputs[..n]) ==> d in InferredDeps(dag.tasks[t].inputs)
    decreases n
  {
    var inputs := dag.tasks[t].inputs;
    InferredPrefix(inputs, n);
    if n > 0 {
      VisitInputsAgrees(dag, s, p, t, n - 1);
      assert inputs[..n][..n - 1] == inputs[..n - 1];
      var before := VisitInputs(s, p, t, inputs[..n - 1]);
      if inputs[n - 1].TaskOutput? {
        var channels := inputs[n - 1].channels;
        CountedAreProducers(before.dags[p], p, channels);
        assert inputs[..n][n - 1] == inputs[n - 1];
        AddProducersAgrees(dag, before, p, CountedProducers(before.dags[p], p, channels), t);
      }
    }
  }

  lemma {:induction false} InferredPrefix(inputs: seq<Input>, n: nat)
    requires n <= |inputs|
    ensures forall d :: d in InferredDeps(inputs[..n]) ==> d in InferredDeps(inputs)
    decreases |inputs| - n
  {
    if n == |inputs| {
      assert inputs[..n] == inputs;
    } else {
      assert inputs[..n + 1][..n] == inputs[..n];
      InferredPrefix(inputs, n + 1);
    }
  }

  lemma VisitTaskAgrees(dag: DagSpec, s: State, p: Party, t: Task)
    requires Agree(dag, s)
    ensures Agree(dag, VisitTask(dag, s, p, t)) && VisitTask(dag, s, p, t).dags.Keys == s.dags.Keys
  {
    if p in s.dags && t in dag.tasks && NotSkipped(dag, t, p) {
      var inputs := dag.tasks[t].inputs;
      VisitInputsAgrees(dag, s, p, t, |inputs|);
      assert inputs[..|inputs|] == inputs;
    }
  }

  lemma {:induction false} VisitPlacesAgrees(dag: DagSpec, s: State, t: Task, places: seq<Party>)
    requires Agree(dag, s)
    ensures Agree(dag, VisitPlaces(dag, s, t, places)) && VisitPlaces(dag, s, t, places).dags.Keys == s.dags.Keys
  {
    hide Agree;
    if places != [] {
      var front := places[..|places| - 1];
      VisitPlacesAgrees(dag, s, t, front);
      VisitTaskAgrees(dag, VisitPlaces(dag, s, t, front), places[|places| - 1], t);
    }
  }

  lemma {:induction false} VisitTasksAgrees(dag: DagSpec, s: State, names: seq<Task>)
    requires Agree(dag, s)
    ensures Agree(dag, VisitTasks(dag, s, names)) && VisitTasks(dag, s, names).dags.Keys == s.dags.Keys
  {
    hide Agree;
    if names != [] {
      var front, last := names[..|names| - 1], names[|names| - 1];
      VisitTasksAgrees(dag, s, front);
      VisitPlacesAgrees(dag, VisitTasks(dag, s, front), last, PlacesOf(dag, last));
    }
  }

  /** Graph agreement: the global edges are the union of the party edges and a part of the inferred dependencies. */
  lemma GraphsAgree(dag: DagSpec)
    ensures var s := Parsed(dag);
      && s.dags.Keys == Elements(Places(dag.parties))
      && Agree(dag, s)
      && (forall e :: e in s.all.edges <==> EdgeSomewhere(s, e))
  {
    VisitTasksAgrees(dag, NodesOnly(dag, dag.names), dag.names);
  }

  // ------------------------------------------------------------------
  // Exactly which edges
  // ------------------------------------------------------------------

  /** The channel makes an edge at p when the tasks that run there are nodes: restricted to p, or unrestricted with
      its producer running at p. */
  predicate Feeds(p: Party, runs: set<Task>, c: Channel) {
    if c.parties != [] then LastEntryHas(p, c.parties) else c.producer in runs
  }

  predicate FedBy(p: Party, runs: set<Task>, inputs: seq<Input>, src: Task, i: nat, j: nat) {
    && i < |inputs| && inputs[i].TaskOutput? && j < |inputs[i].channels|
    && inputs[i].channels[j].producer == src && Feeds(p, runs, inputs[i].channels[j])
  }

  ghost predicate Fed(p: Party, runs: set<Task>, inputs: seq<Input>, src: Task) {
    exists i, j :: FedBy(p, runs, inputs, src, i, j)
  }

  /** No restricted channel brings a producer to p that does not run there. */
  ghost predicate NoPhantoms(dag: DagSpec, p: Party) {
    forall t, src :: t in dag.tasks && Fed(p, NodesFor(dag, dag.names, p), dag.tasks[t].inputs, src)
      ==> src in NodesFor(dag, dag.names, p)
  }

  lemma {:induction false} CountedMembers(g: Graph, p: Party, channels: seq<Channel>, src: Task)
    ensures src in CountedProducers(g, p, channels)
      <==> (exists j :: 0 <= j < |channels| && channels[j].producer == src && Feeds(p, g.nodes, channels[j]))
  {
    if channels != [] {
      var front := channels[..|channels| - 1];
      CountedMembers(g, p, front, src);
      assert forall j :: 0 <= j < |front| ==> front[j] == channels[j];
    }
  }

  lemma FedLast(p: Party, runs: set<Task>, inputs: seq<Input>, src: Task)
    requires inputs != []
    ensures var front, last := inputs[..|inputs| - 1], inputs[|inputs| - 1];
      var byLast := last.TaskOutput? && src in CountedProducers(Graph(runs, {}), p, last.channels);
      Fed(p, runs, inputs, src) <==> Fed(p, runs, front, src) || byLast
  {
    var front, n := inputs[..|inputs| - 1], |inputs| - 1;
    var last := inputs[n];
    forall i: nat, j: nat | i < n ensures FedBy(p, runs, inputs, src, i, j) <==> FedBy(p, runs, front, src, i, j) {
      assert front[i] == inputs[i];
    }
    if last.TaskOutput? {
      CountedMembers(Graph(runs, {}), p, last.channels, src);
      if j :| 0 <= j < |last.channels| && last.channels[j].producer == src && Feeds(p, runs, last.channels[j]) {
        assert FedBy(p, runs, inputs, src, n, j);
      }
    }
  }

  /** The inputs of one task at one party add exactly the edges they feed. */
  lemma {:induction false} VisitInputsEdges(s: State, p: Party, t: Task, inputs: seq<Input>, runs: set<Task>)
    requires p in s.dags && s.dags[p].nodes == runs && t in runs
    requires forall src :: Fed(p, runs, inputs, src) ==> src in runs
    ensures var s' := VisitInputs(s, p, t, inputs);
      && s'.dags[p].nodes == runs
      && (forall e :: e in s'.dags[p].edges <==> e in s.dags[p].edges || (e.1 == t && Fed(p, runs, inputs, e.0)))
      && (forall q :: q in s.dags && q != p ==> s'.dags[q] == s.dags[q])
  {
    if inputs != [] {
      var front, last := inputs[..|inputs| - 1], inputs[|inputs| - 1];
      forall src ensures Fed(p, runs, front, src) ==> Fed(p, runs, inputs, src) {
        FedLast(p, runs, inputs, src);
      }
      VisitInputsEdges(s, p, t, front, runs);
      var before := VisitInputs(s, p, t, front);
      if last.TaskOutput? {
        var producers := CountedProducers(before.dags[p], p, last.channels);
        CountedByNodes(before.dags[p], Graph(runs, {}), p, last.channels);
        WithEdgesMeaning(before.dags[p], producers, t);
        forall d | d in producers ensures d in runs {
          FedLast(p, runs, inputs, d);
        }
      }
      forall e ensures e in VisitInputs(s, p, t, inputs).dags[p].edges
        <==> e in s.dags[p].edges || (e.1 == t && Fed(p, runs, inputs, e.0))
      {
        FedLast(p, runs, inputs, e.0);
      }
    }
  }

  lemma {:induction false} CountedByNodes(g: Graph, h: Graph, p: Party, channels: seq<Channel>)
    requires g.nodes == h.nodes
    ensures CountedProducers(g, p, channels) == CountedProducers(h, p, channels)
  {
    if channels != [] {
      CountedByNodes(g, h, p, channels[..|channels| - 1]);
    }
  }

  /** An edge of p's graph: t runs at p, is not skipped, and some channel of t feeds it from src. */
  ghost predicate WantedEdge(dag: DagSpec, p: Party, e: (Task, Task)) {
    e.1 in dag.tasks && p in PlacesOf(dag, e.1) && NotSkipped(dag, e.1, p)
    && Fed(p, NodesFor(dag, dag.names, p), dag.tasks[e.1].inputs, e.0)
  }

  ghost predicate EdgesAre(dag: DagSpec, s: State, p: Party, done: seq<Task>) {
    && p in s.dags && s.dags[p].nodes == NodesFor(dag, dag.names, p)
    && forall e :: e in s.dags[p].edges <==> e.1 in done && WantedEdge(dag, p, e)
  }

  lemma VisitTaskEdges(dag: DagSpec, s: State, p: Party, q: Party, t: Task)
    requires NoPhantoms(dag, p) && p in s.dags && t in NodesFor(dag, dag.names, p)
    requires s.dags[p].nodes == NodesFor(dag, dag.names, p)
    ensures var s' := VisitTask(dag, s, q, t);
      && s'.dags.Keys == s.dags.Keys
      && (q != p ==> s'.dags[p] == s.dags[p])
      && (q == p ==> s'.dags[p].nodes == s.dags[p].nodes)
      && (q == p ==>
            forall e :: e in s'.dags[p].edges <==> e in s.dags[p].edges || (e.1 == t && WantedEdge(dag, p, e)))
  {
    if q in s.dags && t in dag.tasks && NotSkipped(dag, t, q) {
      if q == p {
        VisitInputsEdges(s, p, t, dag.tasks[t].inputs, NodesFor(dag, dag.names, p));
      } else {
        VisitInputsOthers(s, q, t, dag.tasks[t].inputs, p);
      }
    }
  }

  lemma {:induction false} VisitInputsOthers(s: State, q: Party, t: Task, inputs: seq<Input>, p: Party)
    requires q in s.dags && p in s.dags && p != q
    ensures VisitInputs(s, q, t, inputs).dags[p] == s.dags[p]
  {
    if inputs != [] {
      VisitInputsOthers(s, q, t, inputs[..|inputs| - 1], p);
    }
  }

  lemma {:induction false} VisitPlacesEdges(dag: DagSpec, s: State, p: Party, t: Task, places: seq<Party>)
    requires NoPhantoms(dag, p) && p in s.dags && s.dags[p].nodes == NodesFor(dag, dag.names, p)
    requires p in places ==> t in NodesFor(dag, dag.names, p)
    ensures var s' := VisitPlaces(dag, s, t, places);
      && s'.dags.Keys == s.dags.Keys && s'.dags[p].nodes == s.dags[p].nodes
      && forall e :: e in s'.dags[p].edges <==> e in s.dags[p].edges || (p in places && e.1 == t && WantedEdge(dag, p, e))
  {
    hide WantedEdge, NoPhantoms, NodesFor, VisitTask;
    if places != [] {
      var front, q := places[..|places| - 1], places[|places| - 1];
      VisitPlacesEdges(dag, s, p, t, front);
      var before := VisitPlaces(dag, s, t, front);
      if q == p {
        VisitTaskEdges(dag, before, p, q, t);
      } else {
        VisitTaskOthers(dag, before, p, q, t);
      }
    }
  }

  lemma VisitTaskOthers(dag: DagSpec, s: State, p: Party, q: Party, t: Task)
    requires p in s.dags && q != p
    ensures VisitTask(dag, s, q, t).dags.Keys == s.dags.Keys && VisitTask(dag, s, q, t).dags[p] == s.dags[p]
  {
    if q in s.dags && t in dag.tasks && NotSkipped(dag, t, q) {
      VisitInputsOthers(s, q, t, dag.tasks[t].inputs, p);
    }
  }

  lemma {:induction false} VisitTasksEdges(dag: DagSpec, s: State, p: Party, names: seq<Task>)
    requires NoPhantoms(dag, p) && EdgesAre(dag, s, p, []) && forall t :: t in names ==> t in dag.names
    ensures EdgesAre(dag, VisitTasks(dag, s, names), p, names)
  {
    if names != [] {
      var front, last := names[..|names| - 1], names[|names| - 1];
      VisitTasksEdges(dag, s, p, front);
      VisitPlacesEdges(dag, VisitTasks(dag, s, front), p, last, PlacesOf(dag, last));
    }
  }

  /** Without phantom producers a party's graph has exactly the tasks it runs and the edges its channels feed, in
      whatever order tasks and inputs are written. */
  lemma PartyGraphIs(dag: DagSpec, p: Party)
    requires ValidSpec(dag) && p in Places(dag.parties) && NoPhantoms(dag, p)
    ensures p in Parsed(dag).dags
    ensures Parsed(dag).dags[p].nodes == NodesFor(dag, dag.names, p)
    ensures forall e :: e in Parsed(dag).dags[p].edges <==> WantedEdge(dag, p, e)
  {
    VisitTasksEdges(dag, NodesOnly(dag, dag.names), p, dag.names);
  }

  /** The channel counts for p: restricted to parties whose last entry of p's role lists p, or unrestricted with its
      producer running at p. */
  ghost predicate CountsAt(dag: DagSpec, p: Party, c: Channel) {
    if c.parties != [] then p.id in LastIds(c.parties, p.role) else RunsAt(dag, c.producer, p)
  }

  predicate ChannelAt(inputs: seq<Input>, c: Channel, i: nat, j: nat) {
    i < |inputs| && inputs[i].TaskOutput? && j < |inputs[i].channels| && inputs[i].channels[j] == c
  }

  ghost predicate ChannelOf(dag: DagSpec, t: Task, c: Channel) {
    t in dag.tasks && exists i, j :: ChannelAt(dag.tasks[t].inputs, c, i, j)
  }

  /** The same in the specification's own terms: p's graph has the tasks that run at p, and an edge from d to t exactly
      if t runs at p, the dictionary of its own list does not miss p, and some channel of t from d counts at p. */
  lemma PartyGraphMeaning(dag: DagSpec, p: Party, d: Task, t: Task)
    requires ValidSpec(dag) && p in Places(dag.parties) && NoPhantoms(dag, p)
    ensures p in Parsed(dag).dags
    ensures t in Parsed(dag).dags[p].nodes <==> RunsAt(dag, t, p)
    ensures (d, t) in Parsed(dag).dags[p].edges <==>
      && RunsAt(dag, t, p) && (dag.tasks[t].parties == [] || p.id in LastIds(dag.tasks[t].parties, p.role))
      && exists c :: ChannelOf(dag, t, c) && c.producer == d && CountsAt(dag, p, c)
  {
    PartyGraphIs(dag, p);
    hide Parsed, NoPhantoms, NodesFor, Places;
    NodeIs(dag, p, t);
    RunsAtIs(dag, t, p);
    if t in dag.tasks {
      LastEntryIs(p, dag.tasks[t].parties);
      FedIff(dag, p, d, t);
    }
  }

  lemma FedIff(dag: DagSpec, p: Party, d: Task, t: Task)
    requires ValidSpec(dag) && t in dag.tasks
    ensures Fed(p, NodesFor(dag, dag.names, p), dag.tasks[t].inputs, d)
      <==> exists c :: ChannelOf(dag, t, c) && c.producer == d && CountsAt(dag, p, c)
  {
    var runs, inputs := NodesFor(dag, dag.names, p), dag.tasks[t].inputs;
    hide NodesFor, RunsAt;
    forall c ensures Feeds(p, runs, c) <==> CountsAt(dag, p, c) {
      NodeIs(dag, p, c.producer);
      LastEntryIs(p, c.parties);
    }
    if i: nat, j: nat :| FedBy(p, runs, inputs, d, i, j) {
      assert ChannelAt(inputs, inputs[i].channels[j], i, j);
      assert ChannelOf(dag, t, inputs[i].channels[j]);
    }
    if c :| ChannelOf(dag, t, c) && c.producer == d && CountsAt(dag, p, c) {
      var i: nat, j: nat :| ChannelAt(inputs, c, i, j);
      assert FedBy(p, runs, inputs, d, i, j);
    }
  }

  // ------------------------------------------------------------------
  // The plan
  // ------------------------------------------------------------------

  lemma {:induction false} ProducersMembers(channels: seq<Channel>, d: Task)
    ensures d in Producers(channels) <==> exists j :: 0 <= j < |channels| && channels[j].producer == d
  {
    if channels != [] {
      var front := channels[..|channels| - 1];
      ProducersMembers(front, d);
      assert forall j :: 0 <= j < |front| ==> front[j] == channels[j];
    }
  }

  ghost predicate Names(inputs: seq<Input>, d: Task, i: nat) {
    i < |inputs| && inputs[i].TaskOutput? && exists j :: 0 <= j < |inputs[i].channels| && inputs[i].channels[j].producer == d
  }

  ghost predicate SomeNames(inputs: seq<Input>, d: Task) {
    exists i: nat :: Names(inputs, d, i)
  }

  lemma NamesLast(inputs: seq<Input>, d: Task)
    requires inputs != []
    ensures SomeNames(inputs, d) <==> SomeNames(inputs[..|inputs| - 1], d) || Names(inputs, d, |inputs| - 1)
  {
    var front, n: nat := inputs[..|inputs| - 1], |inputs| - 1;
    forall i: nat | i < n ensures Names(inputs, d, i) <==> Names(front, d, i) {
      assert front[i] == inputs[i];
    }
    if i: nat :| Names(front, d, i) {
      assert Names(inputs, d, i);
    }
    if i: nat :| Names(inputs, d, i) && i < n {
      assert Names(front, d, i);
    }
  }

  lemma {:induction false} InferredMembers(inputs: seq<Input>, d: Task)
    ensures d in InferredDeps(inputs) <==> SomeNames(inputs, d)
  {
    if inputs != [] {
      var front, last := inputs[..|inputs| - 1], inputs[|inputs| - 1];
      InferredMembers(front, d);
      NamesLast(inputs, d);
      if last.TaskOutput? {
        ProducersMembers(last.channels, d);
      }
      hide SomeNames, Producers;
    }
  }

  /** The plan in the specification's own terms: a task depends on every producer that one of its channels names,
      restricted or not, and its parties are those it runs at. */
  lemma PlanMeaning(dag: DagSpec, order: seq<Task>, t: Task)
    requires t in order
    ensures var plan := PlanOf(dag, order);
      && plan.names == order && t in plan.deps && t in plan.parties
      && (forall d :: d in plan.deps[t] <==> exists c :: ChannelOf(dag, t, c) && c.producer == d)
      && (forall p :: p in plan.parties[t] <==> RunsAt(dag, t, p))
  {
    forall p ensures p in PlacesOf(dag, t) <==> RunsAt(dag, t, p) {
      RunsAtIs(dag, t, p);
    }
    hide PlacesOf, RunsAt;
    forall d ensures d in DepsOf(dag, t) <==> exists c :: ChannelOf(dag, t, c) && c.producer == d {
      DependencyIs(dag, t, d);
    }
  }

  lemma DependencyIs(dag: DagSpec, t: Task, d: Task)
    ensures d in DepsOf(dag, t) <==> exists c :: ChannelOf(dag, t, c) && c.producer == d
  {
    if t in dag.tasks {
      var inputs := dag.tasks[t].inputs;
      InferredMembers(inputs, d);
      hide InferredDeps;
      if i: nat :| Names(inputs, d, i) {
        var j :| 0 <= j < |inputs[i].channels| && inputs[i].channels[j].producer == d;
        assert ChannelAt(inputs, inputs[i].channels[j], i, j);
        assert ChannelOf(dag, t, inputs[i].channels[j]);
      }
      if c :| ChannelOf(dag, t, c) && c.producer == d {
        var i: nat, j: nat :| ChannelAt(inputs, c, i, j);
        assert Names(inputs, d, i);
      }
    }
  }

  // ------------------------------------------------------------------
  // What a role listed twice does
  // ------------------------------------------------------------------

  /** The edges into t of a party that skips t stay what they were. */
  ghost predicate SameInto(s: State, s': State, p: Party, t: Task) {
    p in s.dags && p in s'.dags && forall d :: (d, t) in s'.dags[p].edges <==> (d, t) in s.dags[p].edges
  }

  lemma {:induction false} InputsOfOthers(s: State, p: Party, u: Task, inputs: seq<Input>, t: Task)
    requires p in s.dags && u != t
    ensures SameInto(s, VisitInputs(s, p, u, inputs), p, t)
  {
    if inputs != [] {
      var front, last := inputs[..|inputs| - 1], inputs[|inputs| - 1];
      InputsOfOthers(s, p, u, front, t);
      var before := VisitInputs(s, p, u, front);
      if last.TaskOutput? {
        WithEdgesMeaning(before.dags[p], CountedProducers(before.dags[p], p, last.channels), u);
      }
    }
  }

  lemma SkippedVisit(dag: DagSpec, s: State, p: Party, q: Party, t: Task, u: Task)
    requires p in s.dags && t in dag.tasks && !NotSkipped(dag, t, p)
    ensures SameInto(s, VisitTask(dag, s, q, u), p, t)
  {
    if q != p {
      VisitTaskOthers(dag, s, p, q, u);
    } else if u in dag.tasks && NotSkipped(dag, u, p) {
      InputsOfOthers(s, p, u, dag.tasks[u].inputs, t);
    }
  }

  lemma {:induction false} SkippedPlaces(dag: DagSpec, s: State, p: Party, t: Task, u: Task, places: seq<Party>)
    requires p in s.dags && t in dag.tasks && !NotSkipped(dag, t, p)
    ensures SameInto(s, VisitPlaces(dag, s, u, places), p, t)
  {
    hide NotSkipped, VisitTask;
    if places != [] {
      var front := places[..|places| - 1];
      SkippedPlaces(dag, s, p, t, u, front);
      SkippedVisit(dag, VisitPlaces(dag, s, u, front), p, places[|places| - 1], t, u);
    }
  }

  lemma {:induction false} SkippedTasks(dag: DagSpec, s: State, p: Party, t: Task, names: seq<Task>)
    requires p in s.dags && t in dag.tasks && !NotSkipped(dag, t, p)
    ensures SameInto(s, VisitTasks(dag, s, names), p, t)
  {
    hide NotSkipped, VisitPlaces;
    if names != [] {
      var front, last := names[..|names| - 1], names[|names| - 1];
      SkippedTasks(dag, s, p, t, front);
      SkippedPlaces(dag, VisitTasks(dag, s, front), p, t, last, PlacesOf(dag, last));
    }
  }

  /** A party that a task's own list names in an earlier entry of its role only has no edge into that task. */
  lemma SkippedHasNoEdges(dag: DagSpec, p: Party, t: Task)
    requires p in Places(dag.parties) && t in dag.tasks && !NotSkipped(dag, t, p)
    ensures p in Parsed(dag).dags && forall d :: (d, t) !in Parsed(dag).dags[p].edges
  {
    SkippedTasks(dag, NodesOnly(dag, dag.names), p, t, dag.names);
  }

  /** b takes a's output; parties lists where b runs. */
  function ChainSpec(a: Task, b: Task, parties: seq<PartySpec>): DagSpec {
    DagSpec([PartySpec("guest", ["1", "2"])], [a, b],
            map[a := TaskSpec([], []), b := TaskSpec(parties, [TaskOutput([Channel(a, [])])])])
  }

  lemma ChainPlaces(a: Task, b: Task, parties: seq<PartySpec>, p: Party)
    requires a != b && PartyIn(p, [PartySpec("guest", ["1", "2"])]) && PartyIn(p, parties)
    ensures var dag := ChainSpec(a, b, parties);
      p in Places(dag.parties) && NodesFor(dag, dag.names, p) == {a, b}
  {
    PlacesMembers([PartySpec("guest", ["1", "2"])], p);
    PlacesMembers(parties, p);
  }

  /** With one entry for both guests b's graph edge is there at guest 1; with an entry for each it is lost, although
      b runs there just the same. */
  lemma TwoEntriesLoseEdge(a: Task, b: Task)
    requires a != b
    ensures var p, one, two := Party("guest", "1"), PartySpec("guest", ["1"]), PartySpec("guest", ["2"]);
      var both := PartySpec("guest", ["1", "2"]);
      var joint, split := ChainSpec(a, b, [both]), ChainSpec(a, b, [one, two]);
      && PartyIn(p, [one, two]) && !LastEntryHas(p, [one, two])
      && p in Parsed(joint).dags && p in Parsed(split).dags
      && b in NodesFor(joint, [a, b], p) && b in NodesFor(split, [a, b], p)
      && (a, b) in Parsed(joint).dags[p].edges && (a, b) !in Parsed(split).dags[p].edges
  {
    hide Parsed, Places, NodesFor;
    var p, one, two := Party("guest", "1"), PartySpec("guest", ["1"]), PartySpec("guest", ["2"]);
    var both := PartySpec("guest", ["1", "2"]);
    assert [one, two][0] == one && [both][0] == both;
    assert PartyIn(p, [one, two]) && PartyIn(p, [both]);
    ChainPlaces(a, b, [both], p);
    ChainPlaces(a, b, [one, two], p);
    SkippedHasNoEdges(ChainSpec(a, b, [one, two]), p, b);
    JointEdge(a, b, both, p);
  }

  lemma JointEdge(a: Task, b: Task, both: PartySpec, p: Party)
    requires a != b && p.role == both.role == "guest" && p.id in both.ids && p.id == "1"
    ensures var joint := ChainSpec(a, b, [both]);
      p in Parsed(joint).dags && (a, b) in Parsed(joint).dags[p].edges
  {
    var dag := ChainSpec(a, b, [both]);
    assert [both][0] == both && [PartySpec("guest", ["1", "2"])][0].ids[0] == "1";
    ChainPlaces(a, b, [both], p);
    PlacesMembers([both], p);
    var runs := NodesFor(dag, dag.names, p);
    hide Parsed, Places, NodesFor;
    assert FedBy(p, runs, dag.tasks[b].inputs, a, 0, 0);
    forall t, src | t in dag.tasks && Fed(p, runs, dag.tasks[t].inputs, src) ensures src in runs {
      var i, j :| FedBy(p, runs, dag.tasks[t].inputs, src, i, j);
    }
    PartyGraphIs(dag, p);
    assert WantedEdge(dag, p, (a, b));
  }

  // ------------------------------------------------------------------
  // Orders
  // ------------------------------------------------------------------

  /** A topological order of the global graph, restricted to a party's nodes, is one of the party's graph. */
  lemma PartyOrder(dag: DagSpec, order: seq<Task>, p: Party)
    requires p in Places(dag.parties) && TopologicalOrder(Parsed(dag).all, order)
    ensures p in Parsed(dag).dags
    ensures TopologicalOrder(Parsed(dag).dags[p], Restricted(order, Parsed(dag).dags[p].nodes))
  {
    GraphsAgree(dag);
    hide Parsed;
    RestrictedTopological(Parsed(dag).all, Parsed(dag).dags[p], order);
  }

  /** The tasks create_tasks creates for a party. */
  function CreatedFor(dag: DagSpec, order: seq<Task>, p: Party): seq<Task> {
    Restricted(order, NodesFor(dag, dag.names, p))
  }

  lemma {:induction false} VisitTasksNodes(dag: DagSpec, s: State, names: seq<Task>)
    ensures s.all.nodes <= VisitTasks(dag, s, names).all.nodes
  {
    if names != [] {
      VisitTasksNodes(dag, s, names[..|names| - 1]);
      VisitPlacesNodes(dag, VisitTasks(dag, s, names[..|names| - 1]), names[|names| - 1], PlacesOf(dag, names[|names| - 1]));
    }
  }

  lemma {:induction false} VisitPlacesNodes(dag: DagSpec, s: State, t: Task, places: seq<Party>)
    ensures s.all.nodes <= VisitPlaces(dag, s, t, places).all.nodes
  {
    if places != [] {
      var front, p := places[..|places| - 1], places[|places| - 1];
      VisitPlacesNodes(dag, s, t, front);
      var before := VisitPlaces(dag, s, t, front);
      if p in before.dags && t in dag.tasks && NotSkipped(dag, t, p) {
        VisitInputsNodes(before, p, t, dag.tasks[t].inputs);
      }
    }
  }

  lemma {:induction false} VisitInputsNodes(s: State, p: Party, t: Task, inputs: seq<Input>)
    requires p in s.dags
    ensures s.all.nodes <= VisitInputs(s, p, t, inputs).all.nodes
  {
    if inputs != [] {
      var front, last := inputs[..|inputs| - 1], inputs[|inputs| - 1];
      VisitInputsNodes(s, p, t, front);
      var before := VisitInputs(s, p, t, front);
      if last.TaskOutput? {
        WithEdgesMeaning(before.all, CountedProducers(before.dags[p], p, last.channels), t);
      }
    }
  }

  lemma NamesAreNodes(dag: DagSpec)
    ensures Elements(dag.names) <= Parsed(dag).all.nodes
  {
    VisitTasksNodes(dag, NodesOnly(dag, dag.names), dag.names);
  }

  /** Each task the party must run is created exactly once ... */
  lemma CreatedExactlyOnce(dag: DagSpec, order: seq<Task>, p: Party)
    requires ValidSpec(dag) && TopologicalOrder(Parsed(dag).all, order)
    ensures Distinct(CreatedFor(dag, order, p))
    ensures forall t :: t in CreatedFor(dag, order, p) <==> RunsAt(dag, t, p)
  {
    hide Parsed;
    NamesAreNodes(dag);
    CreatedMembers(dag, order, p);
    RestrictedMembers(order, NodesFor(dag, dag.names, p));
    forall t | RunsAt(dag, t, p) ensures t in order {
      assert t in Elements(order);
    }
  }

  /** Whatever the order: of its tasks, those that run at the party. */
  lemma CreatedMembers(dag: DagSpec, order: seq<Task>, p: Party)
    requires ValidSpec(dag)
    ensures forall t :: t in CreatedFor(dag, order, p) <==> t in order && RunsAt(dag, t, p)
  {
    RestrictedMembers(order, NodesFor(dag, dag.names, p));
    forall t ensures t in NodesFor(dag, dag.names, p) <==> RunsAt(dag, t, p) {
      NodeIs(dag, p, t);
    }
  }

  lemma NodeIs(dag: DagSpec, p: Party, t: Task)
    requires ValidSpec(dag)
    ensures t in NodesFor(dag, dag.names, p) <==> RunsAt(dag, t, p)
  {
    RunsAtIs(dag, t, p);
    assert t in dag.tasks ==> t in Elements(dag.names);
  }

  /** ... and after every task its party's graph puts before it. */
  lemma CreatedInOrder(dag: DagSpec, order: seq<Task>, p: Party, e: (Task, Task))
    requires p in Places(dag.parties) && TopologicalOrder(Parsed(dag).all, order)
    requires p in Parsed(dag).dags && e in Parsed(dag).dags[p].edges
    ensures Ordered(CreatedFor(dag, order, p), e)
  {
    GraphsAgree(dag);
    hide Parsed;
    RestrictedOrdered(order, NodesFor(dag, dag.names, p), e);
  }
}
