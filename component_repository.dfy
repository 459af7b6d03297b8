/** ComponentRepository: holds the published areas, teams, components and summary, refreshes them
    from the component metadata, and answers read-side queries over them. A refresh fetches and
    loads the metadata, scans the loaded components and publishes the result: the first refresh
    publishes the loaded maps before scanning and every summary as it is delivered; a later refresh
    publishes nothing until the scan has finished. */
module ComponentRepositories {
  import opened Common
  import opened Catalog
  import ScanEngine
  import MetadataLoader

  /** A scanner as the scanner finder returns it, and the description of it the repository hands out. */
  datatype ScannerInfo = ScannerInfo(id: string, description: string, notes: Option<string>)
  datatype ScannerView = ScannerView(id: string, description: string, notes: Option<string>)

  /** A test as the test finder returns it, and the description of it the repository hands out. */
  datatype TestInfo = TestInfo(id: string, description: string, notes: Option<string>, priority: Priority)
  datatype TestView = TestView(id: string, description: string, notes: Option<string>, priority: Priority)

  // ---------------------------------------------------------------------------------------------
  // Read side

  /** nodeBelongsToComponent: Objects.equals on the node's component id, so a null id matches null. */
  predicate NodeBelongsTo(componentId: Option<string>, n: SubComponentNode) {
    n.componentId == componentId
  }

  /** callGraphIncludesComponent: some node of the call graph belongs to the component. */
  predicate CallGraphIncludes(componentId: Option<string>, g: SummaryCallGraph) {
    exists i :: 0 <= i < |g.nodes| && NodeBelongsTo(componentId, g.nodes[i])
  }

  function BelongsTo(componentId: Option<string>): SubComponentNode -> bool {
    n => NodeBelongsTo(componentId, n)
  }

  function Includes(componentId: Option<string>): SummaryCallGraph -> bool {
    g => CallGraphIncludes(componentId, g)
  }

  /** The nodes of a summary that belong to the component, in order. */
  function NodesOf(summary: Summary, componentId: Option<string>): (r: seq<SubComponentNode>)
    ensures forall i :: 0 <= i < |r| ==> r[i].componentId == componentId && r[i] in summary.subComponentNodes
    ensures forall i :: 0 <= i < |summary.subComponentNodes| && summary.subComponentNodes[i].componentId == componentId
              ==> summary.subComponentNodes[i] in r
  {
    Filter(summary.subComponentNodes, BelongsTo(componentId))
  }

  /** The call graphs of a summary that include the component, in order. */
  function CallGraphsOf(summary: Summary, componentId: Option<string>): (r: seq<SummaryCallGraph>)
    ensures forall i :: 0 <= i < |r| ==> CallGraphIncludes(componentId, r[i]) && r[i] in summary.callGraphs
    ensures forall i :: 0 <= i < |summary.callGraphs| && CallGraphIncludes(componentId, summary.callGraphs[i])
              ==> summary.callGraphs[i] in r
  {
    Filter(summary.callGraphs, Includes(componentId))
  }

  /** mapScanner: null maps to null, otherwise the id, description and notes are copied. */
  function MapScanner(s: Option<ScannerInfo>): (r: Option<ScannerView>)
    ensures r.None? <==> s.None?
    ensures r.Some? ==> r.value.id == s.value.id && r.value.description == s.value.description && r.value.notes == s.value.notes
  {
    match s
    case None => None
    case Some(x) => Some(ScannerView(x.id, x.description, x.notes))
  }

  function MapTest(t: TestInfo): (r: TestView)
    ensures r.id == t.id && r.description == t.description && r.notes == t.notes && r.priority == t.priority
  {
    TestView(t.id, t.description, t.notes, t.priority)
  }

  function ScannerViewId(v: ScannerView): string { v.id }
  function TestViewId(v: TestView): string { v.id }

  function ScannerViews(all: seq<ScannerInfo>): (r: seq<ScannerView>)
    ensures |r| == |all|
    ensures forall i :: 0 <= i < |all| ==> r[i] == ScannerView(all[i].id, all[i].description, all[i].notes)
  {
    seq(|all|, i requires 0 <= i < |all| => MapScanner(Some(all[i])).value)
  }

  function TestViews(all: seq<TestInfo>): (r: seq<TestView>)
    ensures |r| == |all|
    ensures forall i :: 0 <= i < |all| ==> r[i] == TestView(all[i].id, all[i].description, all[i].notes, all[i].priority)
  {
    seq(|all|, i requires 0 <= i < |all| => MapTest(all[i]))
  }

  /** getScanners: every scanner mapped, then sorted by id. */
  function Scanners(all: seq<ScannerInfo>): seq<ScannerView> {
    SortBy(ScannerViews(all), ByKey(ScannerViewId))
  }

  /** getTests: every test mapped, then sorted by id. */
  function Tests(all: seq<TestInfo>): seq<TestView> {
    SortBy(TestViews(all), ByKey(TestViewId))
  }

  /** getScanners lists one description per scanner, sorted by id: a permutation of the mapped
      scanners, each as often as it was registered. */
  lemma ScannersSortedById(all: seq<ScannerInfo>)
    ensures SortedBy(Scanners(all), ByKey(ScannerViewId))
    ensures |Scanners(all)| == |all|
    ensures multiset(Scanners(all)) == multiset(ScannerViews(all))
    ensures forall v :: v in Scanners(all) <==> exists i :: 0 <= i < |all| && v == ScannerView(all[i].id, all[i].description, all[i].notes)
  {
    var mapped := ScannerViews(all);
    ByKeyIsTotalPreorder(ScannerViewId);
    SortBySorted(mapped, ByKey(ScannerViewId));
    forall v ensures v in Scanners(all) <==> v in mapped {
      SortByMembers(mapped, ByKey(ScannerViewId), v);
    }
    forall v | v in mapped ensures exists i :: 0 <= i < |all| && v == ScannerView(all[i].id, all[i].description, all[i].notes) {
      var i :| 0 <= i < |mapped| && mapped[i] == v;
      assert v == ScannerView(all[i].id, all[i].description, all[i].notes);
    }
    forall i | 0 <= i < |all| ensures ScannerView(all[i].id, all[i].description, all[i].notes) in mapped {
      assert mapped[i] == ScannerView(all[i].id, all[i].description, all[i].notes);
    }
  }

  /** getTests lists one description per test, sorted by id: a permutation of the mapped tests,
      each as often as it was registered. */
  lemma TestsSortedById(all: seq<TestInfo>)
    ensures SortedBy(Tests(all), ByKey(TestViewId))
    ensures |Tests(all)| == |all|
    ensures multiset(Tests(all)) == multiset(TestViews(all))
    ensures forall v :: v in Tests(all) <==> exists i :: 0 <= i < |all| && v == TestView(all[i].id, all[i].description, all[i].notes, all[i].priority)
  {
    var mapped := TestViews(all);
    ByKeyIsTotalPreorder(TestViewId);
    SortBySorted(mapped, ByKey(TestViewId));
    forall v ensures v in Tests(all) <==> v in mapped {
      SortByMembers(mapped, ByKey(TestViewId), v);
    }
    forall v | v in mapped ensures exists i :: 0 <= i < |all| && v == TestView(all[i].id, all[i].description, all[i].notes, all[i].priority) {
      var i :| 0 <= i < |mapped| && mapped[i] == v;
      assert v == TestView(all[i].id, all[i].description, all[i].notes, all[i].priority);
    }
    forall i | 0 <= i < |all| ensures TestView(all[i].id, all[i].description, all[i].notes, all[i].priority) in mapped {
      assert mapped[i] == TestView(all[i].id, all[i].description, all[i].notes, all[i].priority);
    }
  }

  /** getTest: the mapped test, or null when the finder knows no such test. */
  function GetTest(found: Option<TestInfo>): (r: Option<TestView>)
    ensures r.None? <==> found.None?
    ensures r.Some? ==> r.value.id == found.value.id && r.value.priority == found.value.priority
  {
    match found
    case None => None
    case Some(t) => Some(MapTest(t))
  }

  // ---------------------------------------------------------------------------------------------
  // The summary published by a later refresh

  /** A later refresh as written: the summary holder starts out null and is set by each delivery,
      and whatever it holds when the scan ends is published; None stands for null. */
  function LaterRefreshSummaryAsWritten(delivered: seq<Summary>): (r: Option<Summary>)
    ensures r.None? <==> delivered == []
    ensures r.Some? ==> r.value == delivered[|delivered| - 1]
  {
    if delivered == [] then None else Some(Last(delivered))
  }

  /** A later refresh with the holder starting out at the published summary: the last delivered
      summary, or the published one kept when nothing was delivered, as the first refresh does. */
  function LaterRefreshSummary(published: Summary, delivered: seq<Summary>): (r: Summary)
    ensures delivered != [] ==> LaterRefreshSummaryAsWritten(delivered) == Some(r)
    ensures delivered == [] ==> r == published
  {
    ScanEngine.LastOr(published, delivered)
  }

  /** All scanners fail to refresh: nothing is delivered. */
  lemma {:induction false} FailingScannersDeliverNothing(start: Summary, scanners: seq<ScanEngine.Scanner>)
    requires forall i :: 0 <= i < |scanners| ==> scanners[i].refreshFailure.Some?
    ensures ScanEngine.TransformChain(start, scanners) == []
    decreases |scanners|
  {
    if scanners != [] {
      FailingScannersDeliverNothing(start, scanners[..|scanners| - 1]);
    }
  }

  /** When every scanner fails to refresh, a later refresh as written publishes a null summary;
      the corrected one keeps the published summary. */
  lemma AllRefreshesFailPublishesNull(env: ScanEngine.Environment, m: map<string, Component>, order: seq<string>,
                                      reg: ScanEngine.Registry, published: Summary)
    requires WellKeyed(m)
    requires forall k :: k in order <==> k in m
    requires NoDuplicates(order)
    requires forall i :: 0 <= i < |ScanEngine.RunOrder(reg)| ==> ScanEngine.RunOrder(reg)[i].refreshFailure.Some?
    requires ScanEngine.RegistryKeeps(reg)
    ensures LaterRefreshSummaryAsWritten(ScanEngine.EngineEffect(env, m, order, reg).delivered).None?
    ensures LaterRefreshSummary(published, ScanEngine.EngineEffect(env, m, order, reg).delivered) == published
  {
    ScanEngine.ScanDeliversSummariesInStageOrder(env, m, order, reg);
    FailingScannersDeliverNothing(EmptySummary, ScanEngine.RunOrder(reg));
  }

  // ---------------------------------------------------------------------------------------------
  // The repository

  /** The iteration order of the loaded component map: every key once, in an order the model does
      not fix. */
  method IterationOrder(m: map<string, Component>) returns (order: seq<string>)
    ensures forall k :: k in order <==> k in m
    ensures NoDuplicates(order)
  {
    order := [];
    var remaining := m.Keys;
    while remaining != {}
      invariant forall k :: k in m <==> k in order || k in remaining
      invariant forall k :: k in order ==> k !in remaining
      invariant NoDuplicates(order)
      decreases remaining
    {
      var k :| k in remaining;
      order := order + [k];
      remaining := remaining - {k};
    }
  }

  class ComponentRepository {
    var areas: map<string, Area>
    var teams: map<string, Team>
    var components: ComponentMap
    var summary: Summary
    /** Every value assigned to `summary`, oldest first. */
    ghost var publishedSummaries: seq<Summary>
    /** The entries of every component map published by updateState, as they were when published. */
    ghost var publishedComponents: seq<map<string, Component>>

    /** Every published map is keyed by the ids of its items. */
    ghost predicate Valid()
      reads this, components
    {
      && WellKeyed(components.entries)
      && (forall k :: k in areas ==> areas[k].id == k)
      && (forall k :: k in teams ==> teams[k].id == k)
    }

    constructor ()
      ensures Valid()
      ensures areas == map[] && teams == map[] && components.entries == map[] && summary == EmptySummary
      ensures publishedSummaries == [] && publishedComponents == []
    {
      areas := map[];
      teams := map[];
      components := new ComponentMap(map[]);
      summary := EmptySummary;
      publishedSummaries := [];
      publishedComponents := [];
    }

    /** getComponent: the published entry for the id, or null. */
    function GetComponent(componentId: string): (r: Option<Component>)
      reads this, components
      ensures r.Some? <==> componentId in components.entries
      ensures r.Some? ==> r.value == components.entries[componentId]
      ensures Valid() && r.Some? ==> r.value.id == componentId
    {
      if componentId in components.entries then Some(components.entries[componentId]) else None
    }

    /** getComponentNodes: the published summary's nodes of the component. */
    function ComponentNodes(componentId: Option<string>): (r: seq<SubComponentNode>)
      reads this
      ensures r == NodesOf(summary, componentId)
    {
      NodesOf(summary, componentId)
    }

    /** getComponentCallGraphs: the published summary's call graphs that include the component. */
    function ComponentCallGraphs(componentId: Option<string>): (r: seq<SummaryCallGraph>)
      reads this
      ensures r == CallGraphsOf(summary, componentId)
    {
      CallGraphsOf(summary, componentId)
    }

    /** updateState: publish the loader's maps; the component map is published as the very object
        the scan updates. */
    method UpdateState(out: MetadataLoader.Output, cm: ComponentMap)
      modifies this
      ensures areas == out.areas && teams == out.teams && components == cm
      ensures summary == old(summary) && publishedSummaries == old(publishedSummaries)
      ensures publishedComponents == old(publishedComponents) + [cm.entries]
    {
      areas := out.areas;
      teams := out.teams;
      components := cm;
      publishedComponents := publishedComponents + [cm.entries];
    }

    /** doRefresh. `fetched` is what the metadata repository returned (an exception as Err); the
        scan runs over the loaded components in the iteration order returned as `order`. */
    method DoRefresh(firstTime: bool, fetched: Result<MetadataLoader.ComponentMetadata, string>,
                     bean: MetadataLoader.BeanValidation, env: ScanEngine.Environment, reg: ScanEngine.Registry)
      returns (thrown: Option<string>, order: seq<string>)
      requires Valid()
      requires ScanEngine.RegistryKeeps(reg)
      modifies this
      ensures Valid()
      ensures fetched.Err? ==> thrown == Some(fetched.error)
      ensures fetched.Err? ==> areas == old(areas) && teams == old(teams) && components == old(components)
                               && summary == old(summary) && publishedSummaries == old(publishedSummaries)
                               && publishedComponents == old(publishedComponents)
      ensures fetched.Ok? ==> thrown.None? && NoDuplicates(order)
      ensures fetched.Ok? ==> forall k :: k in order <==> k in MetadataLoader.LoadComponentMetadata(bean, fetched.value).components
      ensures fetched.Ok? ==>
        var out := MetadataLoader.LoadComponentMetadata(bean, fetched.value);
        var scanned := ScanEngine.EngineEffect(env, out.components, order, reg);
        && areas == out.areas && teams == out.teams
        && components.entries == scanned.components
        && summary == ScanEngine.LastOr(old(summary), scanned.delivered)
        && (firstTime ==> publishedComponents == old(publishedComponents) + [out.components]
                          && publishedSummaries == old(publishedSummaries) + scanned.delivered)
        && (!firstTime ==> publishedComponents == old(publishedComponents) + [scanned.components]
                           && publishedSummaries == old(publishedSummaries) + [summary])
    {
      order := [];
      if fetched.Err? {
        thrown := Some(fetched.error);
        return;
      }
      thrown := None;
      var out := MetadataLoader.LoadComponentMetadata(bean, fetched.value);
      order := ScanAndPublish(firstTime, out, env, reg);
    }

    /** The part of doRefresh after loading: scan the loaded components and publish, in the order
        the refresh mode prescribes. */
    method ScanAndPublish(firstTime: bool, out: MetadataLoader.Output, env: ScanEngine.Environment, reg: ScanEngine.Registry)
      returns (order: seq<string>)
      requires WellKeyed(out.components)
      requires forall k :: k in out.areas ==> out.areas[k].id == k
      requires forall k :: k in out.teams ==> out.teams[k].id == k
      requires ScanEngine.RegistryKeeps(reg)
      modifies this
      ensures NoDuplicates(order) && forall k :: k in order <==> k in out.components
      ensures Valid()
      ensures
        var scanned := ScanEngine.EngineEffect(env, out.components, order, reg);
        && areas == out.areas && teams == out.teams
        && components.entries == scanned.components
        && summary == ScanEngine.LastOr(old(summary), scanned.delivered)
        && (firstTime ==> publishedComponents == old(publishedComponents) + [out.components]
                          && publishedSummaries == old(publishedSummaries) + scanned.delivered)
        && (!firstTime ==> publishedComponents == old(publishedComponents) + [scanned.components]
                           && publishedSummaries == old(publishedSummaries) + [summary])
    {
      var cm := new ComponentMap(out.components);
      if firstTime {
        UpdateState(out, cm);
      }
      order := IterationOrder(cm.entries);
      var delivered := ScanEngine.Scan(env, cm, order, reg);
      ghost var scanned := ScanEngine.EngineEffect(env, out.components, order, reg);
      assert cm.entries == scanned.components && delivered == scanned.delivered;
      assert WellKeyed(cm.entries);
      Publish(firstTime, out, cm, delivered);
    }

    /** The publishing half of doRefresh, after the scan: a first refresh has published the maps
        already and now publishes each delivered summary as it comes; a later refresh publishes
        the scanned maps, then the last delivered summary. */
    method Publish(firstTime: bool, out: MetadataLoader.Output, cm: ComponentMap, delivered: seq<Summary>)
      requires WellKeyed(cm.entries)
      requires forall k :: k in out.areas ==> out.areas[k].id == k
      requires forall k :: k in out.teams ==> out.teams[k].id == k
      requires firstTime ==> areas == out.areas && teams == out.teams && components == cm
      modifies this
      ensures Valid()
      ensures areas == out.areas && teams == out.teams && components == cm
      ensures summary == ScanEngine.LastOr(old(summary), delivered)
      ensures firstTime ==> publishedComponents == old(publishedComponents)
                            && publishedSummaries == old(publishedSummaries) + delivered
      ensures !firstTime ==> publishedComponents == old(publishedComponents) + [cm.entries]
                             && publishedSummaries == old(publishedSummaries) + [summary]
    {
      if firstTime {
        if delivered != [] {
          summary := Last(delivered);
        }
        publishedSummaries := publishedSummaries + delivered;
      } else {
        UpdateState(out, cm);
        summary := LaterRefreshSummary(summary, delivered);
        publishedSummaries := publishedSummaries + [summary];
      }
    }
  }

  /** getComponentNodes keeps each node of the component as often as the summary holds it, drops
      every other node, and keeps the summary's order. */
  lemma NodesOfExact(nodes: seq<SubComponentNode>, more: seq<SubComponentNode>, callGraphs: seq<SummaryCallGraph>,
                     componentId: Option<string>, n: SubComponentNode)
    ensures multiset(NodesOf(Summary(nodes, callGraphs), componentId))[n] ==
      if n.componentId == componentId then multiset(nodes)[n] else 0
    ensures NodesOf(Summary(nodes + more, callGraphs), componentId) ==
      NodesOf(Summary(nodes, callGraphs), componentId) + NodesOf(Summary(more, callGraphs), componentId)
  {
    FilterCount(nodes, BelongsTo(componentId), n);
    FilterConcat(nodes, more, BelongsTo(componentId));
  }

  /** getComponentCallGraphs keeps exactly the call graphs with a node of the component, each as
      often as the summary holds it. */
  lemma CallGraphsOfExact(summary: Summary, componentId: Option<string>, g: SummaryCallGraph)
    ensures multiset(CallGraphsOf(summary, componentId))[g] ==
      if (exists i :: 0 <= i < |g.nodes| && g.nodes[i].componentId == componentId) then multiset(summary.callGraphs)[g] else 0
  {
    FilterCount(summary.callGraphs, Includes(componentId), g);
  }
}
