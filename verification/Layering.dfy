// Task configuration and parameters per party: layers written one over the
// other into each party's own copy.
module Layering {
  import opened Common
  import opened Federated
  import opened Jobs
  import opened Parser

  type Dict = map<string, string>

  /** What a site's section says about one task. */
  datatype SiteTask = SiteTask(conf: Dict, parameters: Dict)

  /** A section of party_tasks. */
  datatype Site = Site(parties: seq<PartySpec>, conf: Dict, tasks: map<Task, SiteTask>)

  // ------------------------------------------------------------------
  // Layers
  // ------------------------------------------------------------------

  /** A dictionary after an update that happens only if it is wanted and not empty. */
  function With(m: Dict, wanted: bool, extra: Dict): Dict {
    if wanted && extra != map[] then m + extra else m
  }

  /** Updating again with the same entries changes nothing. */
  lemma WithAgain(m: Dict, wanted: bool, extra: Dict)
    ensures With(m, wanted, extra) + extra == With(m, true, extra)
  {
    if wanted && extra != map[] {
      assert m + extra + extra == m + extra;
    } else if extra == map[] {
      assert m + extra == m;
    }
  }

  lemma WithAll(m: Dict, extra: Dict)
    ensures With(m, true, extra) == m + extra
  {
    assert m + map[] == m;
  }

  /** Later layers win. */
  function Overlay(layers: seq<Dict>): Dict {
    if layers == [] then map[] else Overlay(layers[..|layers| - 1]) + layers[|layers| - 1]
  }

  /** Layer i holds the last definition of key. */
  ghost predicate LastAt(layers: seq<Dict>, key: string, i: nat) {
    i < |layers| && key in layers[i] && forall j :: i < j < |layers| ==> key !in layers[j]
  }

  /** Key by key the last definition counts. */
  lemma {:induction false} OverlayIsLast(layers: seq<Dict>, key: string)
    ensures key in Overlay(layers) <==> exists i: nat :: LastAt(layers, key, i)
    ensures forall i: nat :: LastAt(layers, key, i) ==> Overlay(layers)[key] == layers[i][key]
  {
    if layers != [] {
      var n := |layers| - 1;
      var front := layers[..n];
      OverlayIsLast(front, key);
      assert key in layers[n] ==> LastAt(layers, key, n);
      forall i: nat | i < n ensures LastAt(layers, key, i) <==> LastAt(front, key, i) && key !in layers[n] {
        assert forall j :: i < j < n ==> front[j] == layers[j];
      }
      if i: nat :| LastAt(front, key, i) && key !in layers[n] {
        assert LastAt(layers, key, i);
      }
    }
  }

  /** A site's layers for one task at one of its parties: its common configuration, then the task's. */
  function SiteLayers(site: Site, t: Task, p: Party): seq<Dict> {
    if p !in Places(site.parties) then []
    else [site.conf] + if t in site.tasks then [site.tasks[t].conf] else []
  }

  function SiteParameters(site: Site, t: Task, p: Party): seq<Dict> {
    if p in Places(site.parties) && t in site.tasks then [site.tasks[t].parameters] else []
  }

  function ConfLayers(base: seq<Dict>, sites: seq<Site>, t: Task, p: Party): seq<Dict> {
    if sites == [] then base
    else ConfLayers(base, sites[..|sites| - 1], t, p) + SiteLayers(sites[|sites| - 1], t, p)
  }

  function ParameterLayers(common: Dict, sites: seq<Site>, t: Task, p: Party): seq<Dict> {
    if sites == [] then [common]
    else ParameterLayers(common, sites[..|sites| - 1], t, p) + SiteParameters(sites[|sites| - 1], t, p)
  }

  /** What the site says about the task, empty if nothing. */
  function Section(site: Site, t: Task): SiteTask {
    if t in site.tasks then site.tasks[t] else SiteTask(map[], map[])
  }

  lemma OverlayOne(layers: seq<Dict>, extra: Dict)
    ensures Overlay(layers + [extra]) == With(Overlay(layers), true, extra)
  {
    assert (layers + [extra])[..|layers|] == layers;
    assert Overlay(layers) + map[] == Overlay(layers);
  }

  lemma OverlayMore(layers: seq<Dict>, site: Site, t: Task, p: Party)
    ensures var here, section := p in Places(site.parties), Section(site, t);
      && Overlay(layers + SiteLayers(site, t, p)) == With(With(Overlay(layers), here, site.conf), here, section.conf)
      && Overlay(layers + SiteParameters(site, t, p)) == With(Overlay(layers), here, section.parameters)
  {
    hide Overlay;
    assert layers + [] == layers;
    if p in Places(site.parties) {
      OverlayOne(layers, site.conf);
      if t in site.tasks {
        OverlayOne(layers + [site.conf], site.tasks[t].conf);
        assert layers + SiteLayers(site, t, p) == layers + [site.conf] + [site.tasks[t].conf];
        OverlayOne(layers, site.tasks[t].parameters);
      } else {
        assert layers + SiteLayers(site, t, p) == layers + [site.conf];
      }
    }
  }

  /** A site section that writes anything for a task must name only parties that run it; else the lookup raises. */
  ghost predicate Fits(site: Site, t: Task, runs: set<Party>) {
    Writes(site, t) ==> Elements(Places(site.parties)) <= runs
  }

  predicate Writes(site: Site, t: Task) {
    site.conf != map[] || (t in site.tasks && (site.tasks[t].conf != map[] || site.tasks[t].parameters != map[]))
  }

  // ------------------------------------------------------------------
  // The objects
  // ------------------------------------------------------------------

  /** A dictionary with an identity: whoever holds it sees every update. */
  class DictObj {
    var entries: Dict

    constructor (entries: Dict)
      ensures this.entries == entries
    {
      this.entries := entries;
    }

    /** copy.deepcopy */
    method DeepCopy() returns (c: DictObj)
      ensures fresh(c) && c.entries == entries
    {
      c := new DictObj(entries);
    }

    method Update(extra: Dict)
      modifies this
      ensures entries == old(entries) + extra
    {
      entries := entries + extra;
    }
  }

  /** A party's node of a task; the dictionaries may be shared as far as the type goes. */
  class TaskNode {
    const conf: DictObj
    const parameters: DictObj

    constructor (conf: DictObj, parameters: DictObj)
      ensures this.conf == conf && this.parameters == parameters
    {
      this.conf, this.parameters := conf, parameters;
    }
  }

  type Nodes = map<Party, TaskNode>

  function Confs(nodes: Nodes): set<DictObj> {
    set p | p in nodes :: nodes[p].conf
  }

  function Parameters(nodes: Nodes): set<DictObj> {
    set p | p in nodes :: nodes[p].parameters
  }

  /** No dictionary is held twice. */
  ghost predicate Unshared(nodes: Nodes) {
    && (forall p, q :: p in nodes && q in nodes && p != q ==> nodes[p].conf != nodes[q].conf)
    && (forall p, q :: p in nodes && q in nodes && p != q ==> nodes[p].parameters != nodes[q].parameters)
    && Confs(nodes) !! Parameters(nodes)
  }

  /** d is the configuration, or the parameters, of one of the listed parties. */
  ghost predicate IsConfOf(nodes: Nodes, places: seq<Party>, d: DictObj) {
    exists p :: p in places && p in nodes && nodes[p].conf == d
  }

  ghost predicate IsParametersOf(nodes: Nodes, places: seq<Party>, d: DictObj) {
    exists p :: p in places && p in nodes && nodes[p].parameters == d
  }

  lemma HoldsOwn(nodes: Nodes, p: Party)
    requires p in nodes
    ensures IsConfOf(nodes, [p], nodes[p].conf)
  {
    assert p in [p];
  }

  /** An update for some parties is an update for exactly those parties, whichever are listed, iff no configuration is
      shared: this is what the deep copies are for. */
  lemma IsolatedIff(nodes: Nodes)
    ensures (forall places, q :: q in nodes && IsConfOf(nodes, places, nodes[q].conf) ==> q in places)
      <==> forall p, q :: p in nodes && q in nodes && p != q ==> nodes[p].conf != nodes[q].conf
  {
    if forall places, q :: q in nodes && IsConfOf(nodes, places, nodes[q].conf) ==> q in places {
      forall p, q | p in nodes && q in nodes && p != q ensures nodes[p].conf != nodes[q].conf {
        HoldsOwn(nodes, p);
        assert q !in [p];
      }
    }
  }

  /** conf.update for every listed party; false is the KeyError of a party without a node.  A dictionary changes exactly
      if a listed party holds it, whoever else holds it too. */
  method UpdateConf(nodes: Nodes, places: seq<Party>, extra: Dict) returns (ok: bool)
    modifies Confs(nodes)
    ensures ok <==> Elements(places) <= nodes.Keys
    ensures ok ==>
      forall d :: d in Confs(nodes) ==> d.entries == With(old(d.entries), IsConfOf(nodes, places, d), extra)
  {
    forall d | d in Confs(nodes) ensures With(d.entries, false, extra) == d.entries {
    }
    for i := 0 to |places|
      invariant forall k :: 0 <= k < i ==> places[k] in nodes
      invariant forall d :: d in Confs(nodes) ==> d.entries == With(old(d.entries), IsConfOf(nodes, places[..i], d), extra)
    {
      var p := places[i];
      if p !in nodes {
        assert p in Elements(places);
        return false;
      }
      var conf := nodes[p].conf;
      assert conf in Confs(nodes);
      WithAgain(old(conf.entries), IsConfOf(nodes, places[..i], conf), extra);
      conf.Update(extra);
      OneMore(nodes, places, i);
    }
    assert places[..|places|] == places;
    return true;
  }

  lemma OneMore(nodes: Nodes, places: seq<Party>, i: nat)
    requires i < |places| && places[i] in nodes
    ensures forall d :: d in Confs(nodes) ==>
      (IsConfOf(nodes, places[..i + 1], d) <==> IsConfOf(nodes, places[..i], d) || nodes[places[i]].conf == d)
    ensures forall d :: d in Parameters(nodes) ==>
      (IsParametersOf(nodes, places[..i + 1], d) <==> IsParametersOf(nodes, places[..i], d) || nodes[places[i]].parameters == d)
  {
    assert places[..i + 1] == places[..i] + [places[i]];
    assert places[i] in places[..i + 1];
    assert forall p :: p in places[..i] ==> p in places[..i + 1];
  }

  /** runtime_parameters.update, likewise. */
  method UpdateParameters(nodes: Nodes, places: seq<Party>, extra: Dict) returns (ok: bool)
    modifies Parameters(nodes)
    ensures ok <==> Elements(places) <= nodes.Keys
    ensures ok ==>
      forall d :: d in Parameters(nodes) ==> d.entries == With(old(d.entries), IsParametersOf(nodes, places, d), extra)
  {
    forall d | d in Parameters(nodes) ensures With(d.entries, false, extra) == d.entries {
    }
    for i := 0 to |places|
      invariant forall k :: 0 <= k < i ==> places[k] in nodes
      invariant forall d :: d in Parameters(nodes) ==>
        d.entries == With(old(d.entries), IsParametersOf(nodes, places[..i], d), extra)
    {
      var p := places[i];
      if p !in nodes {
        assert p in Elements(places);
        return false;
      }
      var parameters := nodes[p].parameters;
      assert parameters in Parameters(nodes);
      WithAgain(old(parameters.entries), IsParametersOf(nodes, places[..i], parameters), extra);
      parameters.Update(extra);
      OneMore(nodes, places, i);
    }
    assert places[..|places|] == places;
    return true;
  }

  /** Without a copy: two parties that hold the same dictionary both see what is written for one of them. */
  method SharedUpdateLeaks(nodes: Nodes, p: Party, q: Party, extra: Dict)
    requires p in nodes && q in nodes && p != q && nodes[p].conf == nodes[q].conf
    modifies Confs(nodes)
    ensures nodes[q].conf.entries == old(nodes[q].conf.entries) + extra
  {
    assert nodes[q].conf in Confs(nodes) && p in [p] && IsConfOf(nodes, [p], nodes[q].conf);
    WithAll(nodes[q].conf.entries, extra);
    hide With;
    var ok := UpdateConf(nodes, [p], extra);
    assert Elements([p]) == {p};
  }

  /** The first loop: deep copies for every party of the task. */
  method NewNodes(places: seq<Party>, conf: DictObj, common: DictObj) returns (nodes: Nodes)
    ensures nodes.Keys == Elements(places) && Unshared(nodes)
    ensures fresh(Confs(nodes)) && fresh(Parameters(nodes))
    ensures forall p :: p in nodes ==>
      nodes[p].conf.entries == conf.entries && nodes[p].parameters.entries == common.entries
  {
    nodes := map[];
    for i := 0 to |places|
      invariant nodes.Keys == Elements(places[..i]) && Unshared(nodes)
      invariant fresh(Confs(nodes)) && fresh(Parameters(nodes))
      invariant forall p :: p in nodes ==>
        nodes[p].conf.entries == conf.entries && nodes[p].parameters.entries == common.entries
    {
      var p := common.DeepCopy();
      var c := conf.DeepCopy();
      var n := new TaskNode(c, p);
      assert places[..i + 1] == places[..i] + [places[i]];
      AddedNode(nodes, places[i], n);
      nodes := nodes[places[i] := n];
    }
    assert places[..|places|] == places;
  }

  lemma AddedNode(nodes: Nodes, p: Party, n: TaskNode)
    requires Unshared(nodes) && n.conf != n.parameters
    requires n.conf !in Confs(nodes) + Parameters(nodes) && n.parameters !in Confs(nodes) + Parameters(nodes)
    ensures Unshared(nodes[p := n])
    ensures Confs(nodes[p := n]) <= Confs(nodes) + {n.conf}
    ensures Parameters(nodes[p := n]) <= Parameters(nodes) + {n.parameters}
  {
    assert forall q :: q in nodes ==> nodes[q].conf in Confs(nodes);
    assert forall q :: q in nodes ==> nodes[q].parameters in Parameters(nodes);
    var more := nodes[p := n];
    assert forall d :: d in Confs(more) ==> d !in Parameters(more);
  }

  ghost predicate Applied(site: Site, t: Task, p: Party, conf: Dict, parameters: Dict, conf': Dict, parameters': Dict) {
    var here, section := p in Places(site.parties), Section(site, t);
    && conf' == With(With(conf, here, site.conf), here, section.conf)
    && parameters' == With(parameters, here, section.parameters)
  }

  lemma UnsharedMembers(nodes: Nodes, places: seq<Party>)
    requires Unshared(nodes)
    ensures forall p :: p in nodes ==>
      && nodes[p].conf in Confs(nodes) && nodes[p].parameters in Parameters(nodes)
      && nodes[p].conf !in Parameters(nodes) && nodes[p].parameters !in Confs(nodes)
      && (IsConfOf(nodes, places, nodes[p].conf) <==> p in places)
      && (IsParametersOf(nodes, places, nodes[p].parameters) <==> p in places)
  {
  }

  /** One site section. */
  method ApplySite(nodes: Nodes, site: Site, t: Task) returns (ok: bool)
    requires Unshared(nodes)
    modifies Confs(nodes), Parameters(nodes)
    ensures ok <==> Fits(site, t, nodes.Keys)
    ensures ok ==> forall p :: p in nodes ==>
      Applied(site, t, p, old(nodes[p].conf.entries), old(nodes[p].parameters.entries),
              nodes[p].conf.entries, nodes[p].parameters.entries)
  {
    var places := Places(site.parties);
    UnsharedMembers(nodes, places);
    hide Unshared, IsConfOf, IsParametersOf;
    if site.conf != map[] {
      ok := UpdateConf(nodes, places, site.conf);
      if !ok {
        return;
      }
    }
    if t !in site.tasks {
      return true;
    }
    ok := ApplySiteTask(nodes, places, site.tasks[t]);
  }

  method ApplySiteTask(nodes: Nodes, places: seq<Party>, st: SiteTask) returns (ok: bool)
    requires Unshared(nodes)
    modifies Confs(nodes), Parameters(nodes)
    ensures ok <==> (st.conf != map[] || st.parameters != map[] ==> Elements(places) <= nodes.Keys)
    ensures ok ==> forall p :: p in nodes ==>
      && nodes[p].conf.entries == With(old(nodes[p].conf.entries), p in places, st.conf)
      && nodes[p].parameters.entries == With(old(nodes[p].parameters.entries), p in places, st.parameters)
  {
    UnsharedMembers(nodes, places);
    hide Unshared, IsConfOf, IsParametersOf;
    if st.conf != map[] {
      ok := UpdateConf(nodes, places, st.conf);
      if !ok {
        return;
      }
    }
    if st.parameters != map[] {
      ok := UpdateParameters(nodes, places, st.parameters);
      if !ok {
        return;
      }
    }
    return true;
  }

  /** What the site sections leave at one party. */
  ghost predicate Layered(sites: seq<Site>, t: Task, p: Party, base: seq<Dict>, common: Dict, conf: Dict, parameters: Dict) {
    conf == Overlay(ConfLayers(base, sites, t, p)) && parameters == Overlay(ParameterLayers(common, sites, t, p))
  }

  lemma LayeredMore(sites: seq<Site>, i: nat, t: Task, p: Party, base: seq<Dict>, common: Dict,
                    conf: Dict, parameters: Dict, conf': Dict, parameters': Dict)
    requires i < |sites| && Layered(sites[..i], t, p, base, common, conf, parameters)
    requires Applied(sites[i], t, p, conf, parameters, conf', parameters')
    ensures Layered(sites[..i + 1], t, p, base, common, conf', parameters')
  {
    hide Overlay, With;
    assert sites[..i + 1][..i] == sites[..i];
    OverlayMore(ConfLayers(base, sites[..i], t, p), sites[i], t, p);
    OverlayMore(ParameterLayers(common, sites[..i], t, p), sites[i], t, p);
  }

  /** _init_task_runtime_parameters_and_conf with the task configuration its caller prepares: job, task, then each
      site's layers for the party.  Every dictionary it leaves is a fresh object held by one party only; the job's and
      the task's own dictionaries are read and copied, never written, so the next task starts from the same ones. */
  method InitTask(t: Task, places: seq<Party>, jobConf: DictObj, taskConf: DictObj, common: DictObj, sites: seq<Site>)
    returns (nodes: Nodes, ok: bool)
    ensures nodes.Keys == Elements(places) && Unshared(nodes) && fresh(Confs(nodes)) && fresh(Parameters(nodes))
    ensures unchanged(jobConf) && unchanged(taskConf) && unchanged(common)
    ensures ok <==> forall i :: 0 <= i < |sites| ==> Fits(sites[i], t, Elements(places))
    ensures ok ==> forall p :: p in nodes ==>
      Layered(sites, t, p, [jobConf.entries, taskConf.entries], common.entries,
              nodes[p].conf.entries, nodes[p].parameters.entries)
  {
    ghost var base := [jobConf.entries, taskConf.entries];
    BaseOverlay(jobConf.entries, taskConf.entries, common.entries);
    var conf := jobConf.DeepCopy();
    assert jobConf.entries + map[] == jobConf.entries;
    if taskConf.entries != map[] {
      conf.Update(taskConf.entries);
    }
    nodes := NewNodes(places, conf, common);
    UnsharedMembers(nodes, []);
    assert sites[..0] == [];
    hide Unshared, Fits, Applied;
    for i := 0 to |sites|
      invariant forall k :: 0 <= k < i ==> Fits(sites[k], t, Elements(places))
      invariant forall p :: p in nodes ==>
        Layered(sites[..i], t, p, base, common.entries, nodes[p].conf.entries, nodes[p].parameters.entries)
    {
      label before:
      ok := ApplySite(nodes, sites[i], t);
      if !ok {
        return;
      }
      forall p | p in nodes
        ensures Layered(sites[..i + 1], t, p, base, common.entries, nodes[p].conf.entries, nodes[p].parameters.entries)
      {
        LayeredMore(sites, i, t, p, base, common.entries, old@before(nodes[p].conf.entries),
                    old@before(nodes[p].parameters.entries), nodes[p].conf.entries, nodes[p].parameters.entries);
      }
    }
    assert sites[..|sites|] == sites;
    ok := true;
  }

  /** What the configuration loop of the parser reads for one task. */
  datatype TaskConf = TaskConf(places: seq<Party>, conf: DictObj, common: DictObj)

  /** All nodes of the tasks initialised so far. */
  function AllConfs(done: map<Task, Nodes>): set<DictObj> {
    set t, d | t in done && d in Confs(done[t]) :: d
  }

  function AllParameters(done: map<Task, Nodes>): set<DictObj> {
    set t, d | t in done && d in Parameters(done[t]) :: d
  }

  /** Across tasks, too, no dictionary is held twice. */
  ghost predicate AllUnshared(done: map<Task, Nodes>) {
    && (forall t :: t in done ==> Unshared(done[t]))
    && (forall t, u :: t in done && u in done && t != u ==>
          Confs(done[t]) + Parameters(done[t]) !! Confs(done[u]) + Parameters(done[u]))
  }

  lemma AddedTask(done: map<Task, Nodes>, t: Task, nodes: Nodes)
    requires AllUnshared(done) && t !in done && Unshared(nodes)
    requires Confs(nodes) + Parameters(nodes) !! AllConfs(done) + AllParameters(done)
    ensures AllUnshared(done[t := nodes])
    ensures AllConfs(done[t := nodes]) == AllConfs(done) + Confs(nodes)
    ensures AllParameters(done[t := nodes]) == AllParameters(done) + Parameters(nodes)
  {
    hide Unshared, Confs, Parameters;
    forall u | u in done ensures Confs(done[u]) <= AllConfs(done) && Parameters(done[u]) <= AllParameters(done) {
    }
    var more := done[t := nodes];
    assert more[t] == nodes && forall u :: u in done ==> more[u] == done[u];
    forall d | d in AllConfs(done) ensures d in AllConfs(more) {
      var u :| u in done && d in Confs(done[u]);
      assert u in more && d in Confs(more[u]);
    }
    forall d | d in AllParameters(done) ensures d in AllParameters(more) {
      var u :| u in done && d in Parameters(done[u]);
      assert u in more && d in Parameters(more[u]);
    }
  }

  /** Every task finished so far has what its layers say. */
  ghost predicate AllLayered(done: map<Task, Nodes>, confs: map<Task, TaskConf>, jobConf: DictObj, sites: seq<Site>)
    requires done.Keys <= confs.Keys
    reads AllConfs(done), AllParameters(done), jobConf, ConfObjects(confs)
  {
    forall t, p :: t in done && p in done[t] ==>
      assert done[t][p].conf in Confs(done[t]) && done[t][p].parameters in Parameters(done[t]);
      Layered(sites, t, p, [jobConf.entries, confs[t].conf.entries], confs[t].common.entries,
              done[t][p].conf.entries, done[t][p].parameters.entries)
  }

  function ConfObjects(confs: map<Task, TaskConf>): set<DictObj> {
    (set t | t in confs :: confs[t].conf) + set t | t in confs :: confs[t].common
  }

  /** The loop over the tasks: each gets what its own layers say, from one job configuration that none of them
      changes, in dictionaries that are shared neither between parties nor between tasks. */
  method InitTasks(tasks: seq<Task>, confs: map<Task, TaskConf>, jobConf: DictObj, sites: seq<Site>)
    returns (done: map<Task, Nodes>, ok: bool)
    requires Distinct(tasks) && Elements(tasks) <= confs.Keys
    ensures ok <==> forall t, i :: t in tasks && 0 <= i < |sites| ==> Fits(sites[i], t, Elements(confs[t].places))
    ensures ok ==> done.Keys == Elements(tasks) && AllLayered(done, confs, jobConf, sites)
    ensures AllUnshared(done) && fresh(AllConfs(done)) && fresh(AllParameters(done))
    ensures unchanged(jobConf) && unchanged(ConfObjects(confs))
  {
    done := map[];
    hide Fits, Unshared, Layered;
    for k := 0 to |tasks|
      invariant done.Keys == Elements(tasks[..k])
      invariant forall t, i :: t in tasks[..k] && 0 <= i < |sites| ==> Fits(sites[i], t, Elements(confs[t].places))
      invariant AllLayered(done, confs, jobConf, sites)
      invariant AllUnshared(done) && fresh(AllConfs(done)) && fresh(AllParameters(done))
    {
      var t := tasks[k];
      assert t in Elements(tasks) && t !in tasks[..k];
      assert tasks[..k + 1] == tasks[..k] + [t];
      var nodes;
      nodes, ok := InitTask(t, confs[t].places, jobConf, confs[t].conf, confs[t].common, sites);
      if !ok {
        return;
      }
      AddedTask(done, t, nodes);
      done := done[t := nodes];
    }
    assert tasks[..|tasks|] == tasks;
    ok := true;
  }

  lemma BaseOverlay(jobConf: Dict, taskConf: Dict, common: Dict)
    ensures Overlay([jobConf, taskConf]) == jobConf + taskConf && Overlay([common]) == common
  {
    assert [jobConf, taskConf][..1] == [jobConf] && [jobConf][..0] == [] && [common][..0] == [];
    assert Overlay([jobConf]) == map[] + jobConf == jobConf;
    assert Overlay([common]) == map[] + common == common;
  }

  /** A section that writes for every task names host 10000, where this task does not run. */
  lemma UnfitSite(t: Task)
    ensures var guest, host := PartySpec("guest", ["9999"]), PartySpec("host", ["10000"]);
      !Fits(Site([guest, host], map["cores" := "4"], map[]), t, Elements(Places([guest])))
  {
    var guest, host := PartySpec("guest", ["9999"]), PartySpec("host", ["10000"]);
    var p := Party("host", "10000");
    PlacesMembers([guest, host], p);
    PlacesMembers([guest], p);
    assert [guest, host][1].role == p.role && p.id in [guest, host][1].ids;
    assert PartyIn(p, [guest, host]) && !PartyIn(p, [guest]);
    assert p in Elements(Places([guest, host])) && p !in Elements(Places([guest]));
    assert map["cores" := "4"] != map[] by {
      assert "cores" in map["cores" := "4"];
    }
  }

  /** So at each party a key has the value of its last definition among job, task and that party's site sections. */
  lemma LastDefinitionWins(jobConf: Dict, taskConf: Dict, sites: seq<Site>, t: Task, p: Party, key: string)
    ensures var layers := ConfLayers([jobConf, taskConf], sites, t, p);
      && |layers| >= 2 && layers[0] == jobConf && layers[1] == taskConf
      && (key in Overlay(layers) <==> exists i: nat :: LastAt(layers, key, i))
      && (forall i: nat :: LastAt(layers, key, i) ==> Overlay(layers)[key] == layers[i][key])
  {
    BaseFirst(jobConf, taskConf, sites, t, p);
    OverlayIsLast(ConfLayers([jobConf, taskConf], sites, t, p), key);
  }

  lemma {:induction false} BaseFirst(jobConf: Dict, taskConf: Dict, sites: seq<Site>, t: Task, p: Party)
    ensures var layers := ConfLayers([jobConf, taskConf], sites, t, p);
      |layers| >= 2 && layers[0] == jobConf && layers[1] == taskConf
  {
    if sites != [] {
      BaseFirst(jobConf, taskConf, sites[..|sites| - 1], t, p);
    }
  }

  // ------------------------------------------------------------------
  // Which definition counts
  // ------------------------------------------------------------------

  /** The site's section says something about key for task t at p. */
  ghost predicate Configures(site: Site, t: Task, p: Party, key: string) {
    p in Places(site.parties) && (key in site.conf || (t in site.tasks && key in site.tasks[t].conf))
  }

  ghost predicate LastSite(sites: seq<Site>, t: Task, p: Party, key: string, i: nat) {
    && i < |sites| && Configures(sites[i], t, p, key)
    && forall j :: i < j < |sites| ==> !Configures(sites[j], t, p, key)
  }

  ghost predicate NoSite(sites: seq<Site>, t: Task, p: Party, key: string) {
    forall j :: 0 <= j < |sites| ==> !Configures(sites[j], t, p, key)
  }

  function Value(m: Dict, key: string): Option<string> {
    if key in m then Some(m[key]) else None
  }

  lemma SiteOverlay(layers: seq<Dict>, site: Site, t: Task, p: Party, key: string)
    ensures var m, m' := Overlay(layers), Overlay(layers + SiteLayers(site, t, p));
      if !Configures(site, t, p, key) then Value(m', key) == Value(m, key)
      else if t in site.tasks && key in site.tasks[t].conf then Value(m', key) == Some(site.tasks[t].conf[key])
      else Value(m', key) == Some(site.conf[key])
  {
    OverlayMore(layers, site, t, p);
    hide Overlay, SiteLayers, Places;
  }

  /** A party's configuration key by key: the last site that names the party and defines the key decides, its section
      for the task before its common one; */
  lemma {:induction false} ConfFromSite(base: seq<Dict>, sites: seq<Site>, t: Task, p: Party, key: string, i: nat)
    requires LastSite(sites, t, p, key, i)
    ensures Value(Overlay(ConfLayers(base, sites, t, p)), key)
      == if t in sites[i].tasks && key in sites[i].tasks[t].conf then Some(sites[i].tasks[t].conf[key])
         else Value(sites[i].conf, key)
  {
    hide Overlay, SiteLayers, Places;
    var n := |sites| - 1;
    SiteOverlay(ConfLayers(base, sites[..n], t, p), sites[n], t, p, key);
    if i < n {
      assert sites[..n][i] == sites[i];
      ConfFromSite(base, sites[..n], t, p, key, i);
    }
  }

  /** without such a site the task's definition counts, then the job's. */
  lemma {:induction false} ConfFromBase(jobConf: Dict, taskConf: Dict, sites: seq<Site>, t: Task, p: Party, key: string)
    requires NoSite(sites, t, p, key)
    ensures Value(Overlay(ConfLayers([jobConf, taskConf], sites, t, p)), key)
      == if key in taskConf then Some(taskConf[key]) else Value(jobConf, key)
  {
    BaseOverlay(jobConf, taskConf, map[]);
    hide Overlay, SiteLayers, Configures;
    if sites != [] {
      var n := |sites| - 1;
      SiteOverlay(ConfLayers([jobConf, taskConf], sites[..n], t, p), sites[n], t, p, key);
      ConfFromBase(jobConf, taskConf, sites[..n], t, p, key);
    }
  }

  ghost predicate Sets(site: Site, t: Task, p: Party, key: string) {
    p in Places(site.parties) && t in site.tasks && key in site.tasks[t].parameters
  }

  ghost predicate LastSetter(sites: seq<Site>, t: Task, p: Party, key: string, i: nat) {
    i < |sites| && Sets(sites[i], t, p, key) && forall j :: i < j < |sites| ==> !Sets(sites[j], t, p, key)
  }

  /** And its parameters: the last site that names the party and sets the key for the task decides, */
  lemma {:induction false} ParameterFromSite(common: Dict, sites: seq<Site>, t: Task, p: Party, key: string, i: nat)
    requires LastSetter(sites, t, p, key, i)
    ensures Value(Overlay(ParameterLayers(common, sites, t, p)), key) == Value(sites[i].tasks[t].parameters, key)
  {
    hide Overlay, SiteParameters, Places;
    var n := |sites| - 1;
    OverlayMore(ParameterLayers(common, sites[..n], t, p), sites[n], t, p);
    if i < n {
      assert sites[..n][i] == sites[i];
      ParameterFromSite(common, sites[..n], t, p, key, i);
    }
  }

  /** else the task. */
  lemma {:induction false} ParameterFromTask(common: Dict, sites: seq<Site>, t: Task, p: Party, key: string)
    requires forall j :: 0 <= j < |sites| ==> !Sets(sites[j], t, p, key)
    ensures Value(Overlay(ParameterLayers(common, sites, t, p)), key) == Value(common, key)
  {
    BaseOverlay(map[], map[], common);
    hide Overlay, SiteParameters, Places;
    if sites != [] {
      var n := |sites| - 1;
      OverlayMore(ParameterLayers(common, sites[..n], t, p), sites[n], t, p);
      ParameterFromTask(common, sites[..n], t, p, key);
    }
  }
}
