// The parser object: its graphs change step by step while the specification is
// read, and land where Parser says.
module DagParsers {
  import opened Common
  import opened Federated
  import opened Jobs
  import opened Graphs
  import opened Parser
  import opened Revisit

  /** Node phase: names before position i are done, and task i for the parties in done. */
  ghost function NodesAt(dag: DagSpec, i: nat, done: seq<Party>, p: Party): set<Task>
    requires i < |dag.names|
  {
    NodesFor(dag, dag.names[..i], p) + if p in done then {dag.names[i]} else {}
  }

  ghost function NodesUpTo(dag: DagSpec, i: nat, done: seq<Party>): map<Party, Graph>
    requires i < |dag.names|
  {
    map p | p in Places(dag.parties) :: Graph(NodesAt(dag, i, done, p), {})
  }

  lemma NodesStep(dag: DagSpec, i: nat, places: seq<Party>, j: nat)
    requires i < |dag.names| && j < |places| && places[j] in Places(dag.parties)
    ensures var now := NodesUpTo(dag, i, places[..j]);
      now[places[j] := AddNode(now[places[j]], dag.names[i])] == NodesUpTo(dag, i, places[..j + 1])
  {
    assert places[..j + 1] == places[..j] + [places[j]];
    forall p ensures NodesAt(dag, i, places[..j + 1], p)
      == if p == places[j] then NodesAt(dag, i, places[..j], p) + {dag.names[i]} else NodesAt(dag, i, places[..j], p)
    {
    }
  }

  lemma AllInStep(some: seq<Party>, j: nat, all: seq<Party>)
    requires j <= |some|
    ensures AllIn(some[..0], all)
    ensures j < |some| ==> (AllIn(some[..j + 1], all) <==> AllIn(some[..j], all) && some[j] in all)
    ensures j < |some| && some[j] !in all ==> !AllIn(some, all)
  {
    if j < |some| {
      assert some[..j + 1] == some[..j] + [some[j]];
    }
  }

  lemma NodesKeys(dag: DagSpec, i: nat, done: seq<Party>)
    requires i < |dag.names|
    ensures NodesUpTo(dag, i, done).Keys == Elements(Places(dag.parties))
  {
  }

  lemma NodesDone(dag: DagSpec, i: nat)
    requires i < |dag.names|
    ensures NodesUpTo(dag, i, []) == NodesOnly(dag, dag.names[..i]).dags
    ensures NodesUpTo(dag, i, PlacesOf(dag, dag.names[i])) == NodesOnly(dag, dag.names[..i + 1]).dags
    ensures AddNode(NodesOnly(dag, dag.names[..i]).all, dag.names[i]) == NodesOnly(dag, dag.names[..i + 1]).all
  {
    assert dag.names[..i + 1] == dag.names[..i] + [dag.names[i]];
    forall p
      ensures NodesFor(dag, dag.names[..i + 1], p) == NodesAt(dag, i, PlacesOf(dag, dag.names[i]), p)
      ensures NodesFor(dag, dag.names[..i], p) == NodesAt(dag, i, [], p)
    {
    }
  }

  lemma NoNodes(dag: DagSpec)
    ensures NodesOnly(dag, []) == State(map p | p in Places(dag.parties) :: EMPTY, EMPTY)
  {
    forall p ensures NodesFor(dag, [], p) == {} {
    }
  }

  function RuntimeParties(dag: DagSpec, names: seq<Task>): map<Task, seq<PartySpec>> {
    map t | t in names && t in dag.tasks :: PartiesOf(dag, t)
  }

  lemma RuntimePartiesStep(dag: DagSpec, i: nat)
    requires ValidSpec(dag) && i < |dag.names|
    ensures dag.names[i] in dag.tasks
    ensures RuntimeParties(dag, dag.names[..i])[dag.names[i] := PartiesOf(dag, dag.names[i])] == RuntimeParties(dag, dag.names[..i + 1])
  {
    assert dag.names[..i + 1] == dag.names[..i] + [dag.names[i]];
    assert dag.names[i] in Elements(dag.names);
  }

  class DagParser {
    var dags: map<Party, Graph>
    var globalDag: Graph
    var runtimeParties: map<Task, seq<PartySpec>>

    constructor ()
      ensures dags == map[] && globalDag == EMPTY && runtimeParties == map[]
    {
      dags, globalDag, runtimeParties := map[], EMPTY, map[];
    }

    function View(): State
      reads this
    {
      State(dags, globalDag)
    }

    /** The graph phases of parse_dag on a fresh parser; false stands for the KeyError of a task party the job does not
        list.  The configuration phase has failures of its own. */
    method ParseDag(dag: DagSpec) returns (ok: bool)
      requires ValidSpec(dag) && dags == map[] && globalDag == EMPTY && runtimeParties == map[]
      modifies this
      ensures ok <==> OwnListsKnown(dag)
      ensures ok ==> View() == Parsed(dag)
      ensures ok ==> runtimeParties == RuntimeParties(dag, dag.names)
    {
      PlacesKnownIff(dag);
      hide OwnListsKnown;
      AddParties(dag);
      ok := AddTasks(dag);
      if ok {
        ghost var start := View();
        assert dag.names[..0] == [];
        for i := 0 to |dag.names|
          invariant View() == VisitTasks(dag, start, dag.names[..i]) && dags.Keys == Elements(Places(dag.parties))
          invariant runtimeParties == RuntimeParties(dag, dag.names)
        {
          assert dag.names[..i + 1][..i] == dag.names[..i];
          InitUpstreamInputs(dag, dag.names[i]);
        }
        assert dag.names[..|dag.names|] == dag.names;
      }
    }

    /** An empty graph for every party of the job. */
    method AddParties(dag: DagSpec)
      requires dags == map[]
      modifies this`dags
      ensures dags == map p | p in Places(dag.parties) :: EMPTY
    {
      var places := Places(dag.parties);
      for i := 0 to |places|
        invariant dags == map p | p in places[..i] :: EMPTY
      {
        assert places[..i + 1] == places[..i] + [places[i]];
        dags := dags[places[i] := EMPTY];
      }
      assert places[..|places|] == places;
    }

    /** The first loop over the tasks: nodes and runtime parties. */
    method AddTasks(dag: DagSpec) returns (ok: bool)
      requires ValidSpec(dag) && globalDag == EMPTY && runtimeParties == map[]
      requires dags == map p | p in Places(dag.parties) :: EMPTY
      modifies this
      ensures ok <==> PlacesKnown(dag)
      ensures ok ==> View() == NodesOnly(dag, dag.names)
      ensures ok ==> runtimeParties == RuntimeParties(dag, dag.names)
    {
      assert dag.names[..0] == [];
      NoNodes(dag);
      hide NodesOnly, NodesUpTo, RuntimeParties, PlacesOf, AllIn;
      for i := 0 to |dag.names|
        invariant View() == NodesOnly(dag, dag.names[..i])
        invariant runtimeParties == RuntimeParties(dag, dag.names[..i])
        invariant forall k :: 0 <= k < i ==> AllIn(PlacesOf(dag, dag.names[k]), Places(dag.parties))
      {
        var name := dag.names[i];
        NodesDone(dag, i);
        globalDag := AddNode(globalDag, name);
        RuntimePartiesStep(dag, i);
        runtimeParties := runtimeParties[name := PartiesOf(dag, name)];
        var known := AddTaskNode(dag, i);
        if !known {
          return false;
        }
      }
      assert dag.names[..|dag.names|] == dag.names;
      return true;
    }

    method AddTaskNode(dag: DagSpec, i: nat) returns (known: bool)
      requires i < |dag.names| && dags == NodesUpTo(dag, i, [])
      modifies this`dags
      ensures known <==> AllIn(PlacesOf(dag, dag.names[i]), Places(dag.parties))
      ensures known ==> dags == NodesUpTo(dag, i, PlacesOf(dag, dag.names[i]))
    {
      var places := PlacesOf(dag, dag.names[i]);
      assert places[..0] == [];
      NodesKeys(dag, i, []);
      hide NodesUpTo, PlacesOf, Places, AllIn;
      AllInStep(places, 0, Places(dag.parties));
      for j := 0 to |places|
        invariant dags == NodesUpTo(dag, i, places[..j]) && dags.Keys == Elements(Places(dag.parties))
        invariant AllIn(places[..j], Places(dag.parties))
      {
        var p := places[j];
        AllInStep(places, j, Places(dag.parties));
        if p !in dags {
          return false;
        }
        NodesStep(dag, i, places, j);
        NodesKeys(dag, i, places[..j + 1]);
        dags := dags[p := AddNode(dags[p], dag.names[i])];
      }
      assert places[..|places|] == places;
      return true;
    }

    /** _init_upstream_inputs: one visit per party of the task. */
    method InitUpstreamInputs(dag: DagSpec, t: Task)
      requires t in dag.tasks
      modifies this`dags, this`globalDag
      ensures View() == VisitPlaces(dag, old(View()), t, PlacesOf(dag, t)) && dags.Keys == old(dags.Keys)
    {
      var places := PlacesOf(dag, t);
      assert places[..0] == [];
      for j := 0 to |places|
        invariant View() == VisitPlaces(dag, old(View()), t, places[..j]) && dags.Keys == old(dags.Keys)
      {
        assert places[..j + 1][..j] == places[..j];
        GetUpstreamInputs(dag, t, places[j]);
      }
      assert places[..|places|] == places;
    }

    /** _get_upstream_inputs, as far as it changes graphs. */
    method GetUpstreamInputs(dag: DagSpec, t: Task, p: Party)
      requires t in dag.tasks
      modifies this`dags, this`globalDag
      ensures View() == VisitTask(dag, old(View()), p, t) && dags.Keys == old(dags.Keys)
    {
      if dag.tasks[t].parties != [] && !LastEntryHas(p, dag.tasks[t].parties) {
        return;
      }
      if p !in dags {
        return;
      }
      var inputs := dag.tasks[t].inputs;
      assert inputs[..0] == [];
      for i := 0 to |inputs|
        invariant View() == VisitInputs(old(View()), p, t, inputs[..i]) && dags.Keys == old(dags.Keys)
      {
        assert inputs[..i + 1][..i] == inputs[..i];
        match inputs[i] {
          case Warehouse =>
          case TaskOutput(channels) =>
            var producers := FilterChannels(p, channels);
            AddEdges(p, producers, t);
        }
      }
      assert inputs[..|inputs|] == inputs;
    }

    /** The producers of the channels that count for p, against the graph as it is now. */
    method FilterChannels(p: Party, channels: seq<Channel>) returns (producers: seq<Task>)
      requires p in dags
      ensures producers == CountedProducers(dags[p], p, channels)
    {
      producers := [];
      assert channels[..0] == [];
      for i := 0 to |channels|
        invariant producers == CountedProducers(dags[p], p, channels[..i])
      {
        assert channels[..i + 1][..i] == channels[..i];
        var c := channels[i];
        if c.parties != [] {
          if !LastEntryHas(p, c.parties) {
            continue;
          }
        } else {
          if c.producer !in dags[p].nodes {
            continue;
          }
        }
        producers := producers + [c.producer];
      }
      assert channels[..|channels|] == channels;
    }

    /** _add_edge for every producer, in the party graph and in the global graph. */
    method AddEdges(p: Party, producers: seq<Task>, t: Task)
      requires p in dags
      modifies this`dags, this`globalDag
      ensures View() == AddProducers(old(View()), p, producers, t)
    {
      ghost var before := View();
      assert producers[..0] == [];
      assert dags[p := dags[p]] == dags;
      for i := 0 to |producers|
        invariant p in dags && View() == AddProducers(before, p, producers[..i], t)
      {
        assert producers[..i + 1][..i] == producers[..i];
        dags := dags[p := AddEdge(dags[p], producers[i], t)];
        globalDag := AddEdge(globalDag, producers[i], t);
      }
      assert producers[..|producers|] == producers;
    }

    /** get_need_revisit_tasks for one party; None when the party is unknown or the library raises. */
    method NeedRevisitTasks(p: Party, sorted: Option<seq<Task>>, visited: seq<Task>, failed: seq<Task>)
      returns (r: Option<seq<Task>>)
      requires p in dags ==> WellFormed(dags[p]) && SortsTo(dags[p], sorted)
      ensures r.Some? <==> p in dags && sorted.Some? && forall t :: t in visited ==> t in failed || t in dags[p].nodes
      ensures r.Some? ==> r.value == NeedRevisit(dags[p], Invalid(dags[p], visited, failed), visited)
    {
      if p !in dags {
        return None;
      }
      r := GetNeedRevisitTasks(dags[p], sorted, visited, failed);
    }

    /** The loop of create_tasks over a global order: a task is created if its runtime parties list the party; an
        unknown name has none. */
    method CreateTasks(dag: DagSpec, order: seq<Task>, p: Party) returns (made: seq<Task>)
      requires ValidSpec(dag) && runtimeParties == RuntimeParties(dag, dag.names)
      ensures made == CreatedFor(dag, order, p)
      ensures forall t :: t in made <==> t in order && RunsAt(dag, t, p)
    {
      CreatedMembers(dag, order, p);
      hide RunsAt;
      made := [];
      assert order[..0] == [];
      for i := 0 to |order|
        invariant made == CreatedFor(dag, order[..i], p)
      {
        assert order[..i + 1][..i] == order[..i];
        var t := order[i];
        var parties := if t in runtimeParties then runtimeParties[t] else [];
        PlacesMembers(parties, p);
        var run := CheckPartyIn(p, parties);
        if run {
          made := made + [t];
        }
      }
      assert order[..|order|] == order;
    }

    /** check_party_in. */
    method CheckPartyIn(p: Party, specs: seq<PartySpec>) returns (found: bool)
      ensures found <==> PartyIn(p, specs)
    {
      for i := 0 to |specs|
        invariant forall k :: 0 <= k < i ==> !(specs[k].role == p.role && p.id in specs[k].ids)
      {
        if specs[i].role == p.role && p.id in specs[i].ids {
          return true;
        }
      }
      return false;
    }

    method ProducersOf(channels: seq<Channel>) returns (producers: seq<Task>)
      ensures producers == Producers(channels)
    {
      producers := [];
      assert channels[..0] == [];
      for j := 0 to |channels|
        invariant producers == Producers(channels[..j])
      {
        assert channels[..j + 1][..j] == channels[..j];
        producers := producers + [channels[j].producer];
      }
      assert channels[..|channels|] == channels;
    }

    /** infer_dependent_tasks. */
    method InferDependentTasks(inputs: seq<Input>) returns (deps: seq<Task>)
      ensures deps == InferredDeps(inputs)
    {
      deps := [];
      assert inputs[..0] == [];
      for i := 0 to |inputs|
        invariant deps == InferredDeps(inputs[..i])
      {
        assert inputs[..i + 1][..i] == inputs[..i];
        match inputs[i] {
          case Warehouse =>
          case TaskOutput(channels) =>
            var producers := ProducersOf(channels);
            deps := deps + producers;
        }
      }
      assert inputs[..|inputs|] == inputs;
    }
  }
}
