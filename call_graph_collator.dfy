/*
 * The call-graph collator of the Zipkin scanner. Each trace becomes a call graph of sub-component
 * nodes and dependencies; call graphs with the same nodes and the same (source, target) pairs are
 * merged into one summary call graph that counts the traces behind it and sums, dependency by
 * dependency, the sample sizes of the merged graphs.
 */
module CallGraphCollation {
  import opened Common
  import opened Catalog
  import opened SummaryDependencies

  /** CollatorComponentDependency: one dependency between the nodes of a trace. */
  datatype CollatorDependency = CollatorDependency(sourceIndex: Option<int>, targetIndex: Option<int>,
                                                   relatedIndexes: seq<Option<int>>)

  /** Equal dependencies of one trace, as the generic dependency collator groups them: never empty. */
  datatype DuplicateGroup = DuplicateGroup(first: CollatorDependency, others: seq<CollatorDependency>)

  /** What the generic dependency collator makes of one trace: its nodes and its groups of duplicate
      dependencies, in the order it hands them to the merge function. */
  datatype TraceDependencies = TraceDependencies(nodes: seq<SubComponentNode>, duplicates: seq<DuplicateGroup>)

  /** CallGraphDependency (timestamps and durations are not part of this model). */
  datatype CallGraphDependency = CallGraphDependency(sourceIndex: Option<int>, targetIndex: Option<int>,
                                                     relatedIndexes: seq<Option<int>>, sampleSize: int)

  datatype CallGraph = CallGraph(nodes: seq<SubComponentNode>, dependencies: seq<CallGraphDependency>, traceCount: int)

  datatype IndexPair = IndexPair(sourceIndex: Option<int>, targetIndex: Option<int>)

  /** The grouping key of a call graph: its nodes and the (source, target) pair of each dependency. */
  datatype SimpleCallGraph = SimpleCallGraph(nodes: seq<SubComponentNode>, dependencies: seq<IndexPair>)

  /** DependencyHelper.mergeRelatedIndexes, over the related-index lists of the merged items. */
  type MergeRelated = seq<seq<Option<int>>> -> seq<Option<int>>

  function Members(group: DuplicateGroup): seq<CollatorDependency> {
    [group.first] + group.others
  }

  /** mergeDuplicateDependencies: one dependency of a trace's call graph. */
  function MergeDuplicateDependencies(mergeRelated: MergeRelated, group: DuplicateGroup): (d: CallGraphDependency)
    ensures d.sourceIndex == Members(group)[0].sourceIndex && d.targetIndex == Members(group)[0].targetIndex
    ensures d.sampleSize == |Members(group)|
  {
    var members := Members(group);
    CallGraphDependency(group.first.sourceIndex, group.first.targetIndex,
      mergeRelated(seq(|members|, k requires 0 <= k < |members| => members[k].relatedIndexes)), |members|)
  }

  /** createCallGraphs applied to the collated dependencies of one trace. */
  function TraceCallGraph(mergeRelated: MergeRelated, t: TraceDependencies): (g: CallGraph)
    ensures g.nodes == t.nodes && g.traceCount == 1 && |g.dependencies| == |t.duplicates|
    ensures forall i :: 0 <= i < |t.duplicates| ==> g.dependencies[i].sampleSize == 1 + |t.duplicates[i].others|
  {
    CallGraph(t.nodes, seq(|t.duplicates|, i requires 0 <= i < |t.duplicates| =>
      MergeDuplicateDependencies(mergeRelated, t.duplicates[i])), 1)
  }

  function Pairs(dependencies: seq<CallGraphDependency>): (r: seq<IndexPair>)
    ensures |r| == |dependencies|
    ensures forall i :: 0 <= i < |r| ==> r[i] == IndexPair(dependencies[i].sourceIndex, dependencies[i].targetIndex)
  {
    seq(|dependencies|, i requires 0 <= i < |dependencies| =>
      IndexPair(dependencies[i].sourceIndex, dependencies[i].targetIndex))
  }

  /** createSimpleCallGraph */
  function Simple(g: CallGraph): SimpleCallGraph {
    SimpleCallGraph(g.nodes, Pairs(g.dependencies))
  }

  function KeyIs(key: SimpleCallGraph): CallGraph -> bool {
    g => Simple(g) == key
  }

  function HasKey(key: SimpleCallGraph): seq<CallGraph> -> bool {
    group => |group| > 0 && Simple(group[0]) == key
  }

  // ---------------------------------------------------------------------------------------------
  // Grouping

  predicate NonEmptyGroups(groups: seq<seq<CallGraph>>) {
    forall j :: 0 <= j < |groups| ==> |groups[j]| > 0
  }

  function Key(group: seq<CallGraph>): SimpleCallGraph
    requires |group| > 0
  {
    Simple(group[0])
  }

  /** Adding one call graph to the groups: to the group of its key, or as a new group. */
  function AddToGroup(groups: seq<seq<CallGraph>>, g: CallGraph): (r: seq<seq<CallGraph>>)
    requires NonEmptyGroups(groups)
    ensures NonEmptyGroups(r)
  {
    match FindFirst(groups, HasKey(Simple(g)))
    case Some(j) => groups[j := groups[j] + [g]]
    case None => groups + [[g]]
  }

  /** Collectors.groupingBy(createSimpleCallGraph), the groups listed in the order their keys first
      occur. */
  function Groups(graphs: seq<CallGraph>): (groups: seq<seq<CallGraph>>)
    ensures NonEmptyGroups(groups)
  {
    if graphs == [] then [] else AddToGroup(Groups(graphs[..|graphs| - 1]), graphs[|graphs| - 1])
  }

  /** Each group holds, in order, exactly the graphs of its key. */
  ghost predicate GroupsFiltered(groups: seq<seq<CallGraph>>, graphs: seq<CallGraph>)
    requires NonEmptyGroups(groups)
  {
    forall j :: 0 <= j < |groups| ==> groups[j] == Filter(graphs, KeyIs(Key(groups[j])))
  }

  /** No two groups share a key. */
  predicate KeysDistinct(groups: seq<seq<CallGraph>>)
    requires NonEmptyGroups(groups)
  {
    forall j, j' :: 0 <= j < j' < |groups| ==> Key(groups[j]) != Key(groups[j'])
  }

  /** Every graph's key has a group. */
  ghost predicate KeysCover(groups: seq<seq<CallGraph>>, graphs: seq<CallGraph>)
    requires NonEmptyGroups(groups)
  {
    forall i :: 0 <= i < |graphs| ==> exists j :: 0 <= j < |groups| && Key(groups[j]) == Simple(graphs[i])
  }

  /** `groups` is a grouping of `graphs` by key. */
  ghost predicate GroupingOf(groups: seq<seq<CallGraph>>, graphs: seq<CallGraph>) {
    NonEmptyGroups(groups) && GroupsFiltered(groups, graphs) && KeysDistinct(groups) && KeysCover(groups, graphs)
  }

  lemma FilterSnoc(graphs: seq<CallGraph>, g: CallGraph, key: SimpleCallGraph)
    ensures Filter(graphs + [g], KeyIs(key)) == Filter(graphs, KeyIs(key)) + (if Simple(g) == key then [g] else [])
  {
    FilterConcat(graphs, [g], KeyIs(key));
    assert [g][1..] == [];
  }

  /** A graph whose key has a group joins the end of that group; the keys stay as they were. */
  lemma ExistingGroupShape(groups: seq<seq<CallGraph>>, g: CallGraph, j: nat)
    requires NonEmptyGroups(groups)
    requires FindFirst(groups, HasKey(Simple(g))) == Some(j)
    ensures var r := AddToGroup(groups, g);
      && j < |groups| && r == groups[j := groups[j] + [g]] && Key(groups[j]) == Simple(g)
      && forall j' :: 0 <= j' < |r| ==> Key(r[j']) == Key(groups[j'])
  {
  }

  lemma ExistingGroupDistinct(groups: seq<seq<CallGraph>>, g: CallGraph, j: nat)
    requires NonEmptyGroups(groups) && KeysDistinct(groups)
    requires FindFirst(groups, HasKey(Simple(g))) == Some(j)
    ensures KeysDistinct(AddToGroup(groups, g))
  {
    ExistingGroupShape(groups, g, j);
  }

  lemma ExistingGroupFiltered(groups: seq<seq<CallGraph>>, graphs: seq<CallGraph>, g: CallGraph, j: nat)
    requires NonEmptyGroups(groups) && GroupsFiltered(groups, graphs) && KeysDistinct(groups)
    requires FindFirst(groups, HasKey(Simple(g))) == Some(j)
    ensures GroupsFiltered(AddToGroup(groups, g), graphs + [g])
  {
    var r := AddToGroup(groups, g);
    ExistingGroupShape(groups, g, j);
    forall j' | 0 <= j' < |r| ensures r[j'] == Filter(graphs + [g], KeyIs(Key(r[j']))) {
      FilterSnoc(graphs, g, Key(groups[j']));
    }
  }

  lemma ExistingGroupCovers(groups: seq<seq<CallGraph>>, graphs: seq<CallGraph>, g: CallGraph, j: nat)
    requires NonEmptyGroups(groups) && KeysCover(groups, graphs)
    requires FindFirst(groups, HasKey(Simple(g))) == Some(j)
    ensures KeysCover(AddToGroup(groups, g), graphs + [g])
  {
    var r := AddToGroup(groups, g);
    var all := graphs + [g];
    ExistingGroupShape(groups, g, j);
    forall i | 0 <= i < |all| ensures exists j' :: 0 <= j' < |r| && Key(r[j']) == Simple(all[i]) {
      if i < |graphs| {
        assert all[i] == graphs[i];
        var j' :| 0 <= j' < |groups| && Key(groups[j']) == Simple(graphs[i]);
        assert Key(r[j']) == Simple(all[i]);
      } else {
        assert Key(r[j]) == Simple(all[i]);
      }
    }
  }

  lemma AddToExistingGroup(groups: seq<seq<CallGraph>>, graphs: seq<CallGraph>, g: CallGraph, j: nat)
    requires GroupingOf(groups, graphs)
    requires FindFirst(groups, HasKey(Simple(g))) == Some(j)
    ensures GroupingOf(AddToGroup(groups, g), graphs + [g])
  {
    ExistingGroupDistinct(groups, g, j);
    ExistingGroupFiltered(groups, graphs, g, j);
    ExistingGroupCovers(groups, graphs, g, j);
  }

  /** A graph whose key has no group starts a new last group, with a key no other group has. */
  lemma NewGroupShape(groups: seq<seq<CallGraph>>, g: CallGraph)
    requires NonEmptyGroups(groups)
    requires FindFirst(groups, HasKey(Simple(g))).None?
    ensures var r := AddToGroup(groups, g);
      && r == groups + [[g]] && Key(r[|groups|]) == Simple(g)
      && forall j' :: 0 <= j' < |groups| ==> Key(r[j']) == Key(groups[j']) != Simple(g)
  {
    forall j' | 0 <= j' < |groups| ensures Key(groups[j']) != Simple(g) {
      assert !HasKey(Simple(g))(groups[j']);
    }
  }

  /** No graph has the key of a new group. */
  lemma NewKeyUnseen(groups: seq<seq<CallGraph>>, graphs: seq<CallGraph>, g: CallGraph)
    requires NonEmptyGroups(groups) && KeysCover(groups, graphs)
    requires forall j' :: 0 <= j' < |groups| ==> Key(groups[j']) != Simple(g)
    ensures Filter(graphs, KeyIs(Simple(g))) == []
  {
  }

  lemma NewGroupDistinct(groups: seq<seq<CallGraph>>, g: CallGraph)
    requires NonEmptyGroups(groups) && KeysDistinct(groups)
    requires FindFirst(groups, HasKey(Simple(g))).None?
    ensures KeysDistinct(AddToGroup(groups, g))
  {
    NewGroupShape(groups, g);
  }

  /** Groups whose key differs from a new graph's keep being exactly the graphs of their key. */
  lemma OtherGroupsStayFiltered(groups: seq<seq<CallGraph>>, graphs: seq<CallGraph>, g: CallGraph)
    requires NonEmptyGroups(groups) && GroupsFiltered(groups, graphs)
    requires forall j' :: 0 <= j' < |groups| ==> Key(groups[j']) != Simple(g)
    ensures forall j' :: 0 <= j' < |groups| ==> groups[j'] == Filter(graphs + [g], KeyIs(Key(groups[j'])))
  {
    forall j' | 0 <= j' < |groups| ensures groups[j'] == Filter(graphs + [g], KeyIs(Key(groups[j']))) {
      FilterSnoc(graphs, g, Key(groups[j']));
    }
  }

  lemma NewGroupFiltered(groups: seq<seq<CallGraph>>, graphs: seq<CallGraph>, g: CallGraph)
    requires NonEmptyGroups(groups) && GroupsFiltered(groups, graphs) && KeysCover(groups, graphs)
    requires FindFirst(groups, HasKey(Simple(g))).None?
    ensures GroupsFiltered(AddToGroup(groups, g), graphs + [g])
  {
    var r := AddToGroup(groups, g);
    NewGroupShape(groups, g);
    NewKeyUnseen(groups, graphs, g);
    FilterSnoc(graphs, g, Simple(g));
    OtherGroupsStayFiltered(groups, graphs, g);
    forall j' | 0 <= j' < |r| ensures r[j'] == Filter(graphs + [g], KeyIs(Key(r[j']))) {
      if j' < |groups| {
        assert r[j'] == groups[j'];
      } else {
        assert r[j'] == [g];
      }
    }
  }

  lemma NewGroupCovers(groups: seq<seq<CallGraph>>, graphs: seq<CallGraph>, g: CallGraph)
    requires NonEmptyGroups(groups) && KeysCover(groups, graphs)
    requires FindFirst(groups, HasKey(Simple(g))).None?
    ensures KeysCover(AddToGroup(groups, g), graphs + [g])
  {
    var r := AddToGroup(groups, g);
    var all := graphs + [g];
    NewGroupShape(groups, g);
    forall i | 0 <= i < |all| ensures exists j' :: 0 <= j' < |r| && Key(r[j']) == Simple(all[i]) {
      if i < |graphs| {
        assert all[i] == graphs[i];
        var j' :| 0 <= j' < |groups| && Key(groups[j']) == Simple(graphs[i]);
        assert Key(r[j']) == Simple(all[i]);
      } else {
        assert Key(r[|groups|]) == Simple(all[i]);
      }
    }
  }

  lemma AddNewGroup(groups: seq<seq<CallGraph>>, graphs: seq<CallGraph>, g: CallGraph)
    requires GroupingOf(groups, graphs)
    requires FindFirst(groups, HasKey(Simple(g))).None?
    ensures GroupingOf(AddToGroup(groups, g), graphs + [g])
  {
    NewGroupDistinct(groups, g);
    NewGroupFiltered(groups, graphs, g);
    NewGroupCovers(groups, graphs, g);
  }

  /** The groups are exactly the grouping of the call graphs by key. */
  lemma {:induction false} GroupsAreGrouping(graphs: seq<CallGraph>)
    ensures GroupingOf(Groups(graphs), graphs)
  {
    if graphs != [] {
      var front := graphs[..|graphs| - 1];
      var g := graphs[|graphs| - 1];
      assert front + [g] == graphs;
      var groups := Groups(front);
      assert Groups(graphs) == AddToGroup(groups, g);
      GroupsAreGrouping(front);
      match FindFirst(groups, HasKey(Simple(g)))
      case Some(j) => AddToExistingGroup(groups, front, g, j);
      case None => AddNewGroup(groups, front, g);
    }
  }

  // ---------------------------------------------------------------------------------------------
  // Merging a group

  /** All graphs of a group have the group's key, and so as many dependencies as its first one. */
  predicate SameKey(group: seq<CallGraph>) {
    |group| > 0 && forall k :: 0 <= k < |group| ==> Simple(group[k]) == Simple(group[0])
  }

  /** The dependency at `index` of every graph of the group, in order. */
  function DependenciesAt(group: seq<CallGraph>, index: nat): (r: seq<CallGraphDependency>)
    requires SameKey(group) && index < |group[0].dependencies|
    ensures |r| == |group|
  {
    seq(|group|, k requires 0 <= k < |group| =>
      assert |Pairs(group[k].dependencies)| == |Pairs(group[0].dependencies)|;
      group[k].dependencies[index])
  }

  /** getSampleSize */
  function SampleSize(dependencies: seq<CallGraphDependency>): int {
    Sum(seq(|dependencies|, k requires 0 <= k < |dependencies| => dependencies[k].sampleSize))
  }

  /** mergeDuplicateCallGraphDependencies for one dependency index. */
  function MergeDependencyAt(mergeRelated: MergeRelated, group: seq<CallGraph>, index: nat): (d: SummaryComponentDependency)
    requires SameKey(group) && index < |group[0].dependencies|
    ensures d.sourceIndex == group[0].dependencies[index].sourceIndex
    ensures d.targetIndex == group[0].dependencies[index].targetIndex
    ensures d.manual == Some(false)
    ensures d.sampleSize == Some(SampleSize(DependenciesAt(group, index)))
  {
    var duplicates := DependenciesAt(group, index);
    SummaryComponentDependency(duplicates[0].sourceIndex, duplicates[0].targetIndex,
      Some(mergeRelated(seq(|duplicates|, k requires 0 <= k < |duplicates| => duplicates[k].relatedIndexes))),
      Some(false), Some(SampleSize(duplicates)))
  }

  /** mergeDuplicateCallGraphs */
  function MergeDuplicateCallGraphs(mergeRelated: MergeRelated, group: seq<CallGraph>): (r: SummaryCallGraph)
    requires SameKey(group)
    ensures r.nodes == group[0].nodes && r.traceCount == |group|
    ensures |r.dependencies| == |group[0].dependencies|
    ensures OutputKey(r) == Key(group)
  {
    var r := SummaryCallGraph(group[0].nodes, seq(|group[0].dependencies|, i requires 0 <= i < |group[0].dependencies| =>
      MergeDependencyAt(mergeRelated, group, i)), |group|);
    assert OutputKey(r).dependencies == Pairs(group[0].dependencies);
    r
  }

  /** The grouping key of a summary call graph. */
  function OutputKey(g: SummaryCallGraph): SimpleCallGraph {
    SimpleCallGraph(g.nodes, seq(|g.dependencies|, i requires 0 <= i < |g.dependencies| =>
      IndexPair(g.dependencies[i].sourceIndex, g.dependencies[i].targetIndex)))
  }

  // ---------------------------------------------------------------------------------------------
  // collateCallGraphs

  function TraceGraphs<Span>(collate: seq<Span> -> TraceDependencies, mergeRelated: MergeRelated, traces: seq<seq<Span>>)
    : (graphs: seq<CallGraph>)
    ensures |graphs| == |traces|
    ensures forall i :: 0 <= i < |traces| ==> graphs[i] == TraceCallGraph(mergeRelated, collate(traces[i]))
  {
    seq(|traces|, i requires 0 <= i < |traces| => TraceCallGraph(mergeRelated, collate(traces[i])))
  }

  /** Every group of the grouping holds graphs of one key. */
  lemma GroupsShareKeys(graphs: seq<CallGraph>)
    ensures forall j :: 0 <= j < |Groups(graphs)| ==> SameKey(Groups(graphs)[j])
  {
    var groups := Groups(graphs);
    GroupsAreGrouping(graphs);
    forall j | 0 <= j < |groups| ensures SameKey(groups[j]) {
      var same := Filter(graphs, KeyIs(Key(groups[j])));
      assert groups[j] == same;
      assert forall k :: 0 <= k < |same| ==> KeyIs(Key(groups[j]))(same[k]);
    }
  }

  function MergeGroups(mergeRelated: MergeRelated, groups: seq<seq<CallGraph>>): (r: seq<SummaryCallGraph>)
    requires forall j :: 0 <= j < |groups| ==> SameKey(groups[j])
    ensures |r| == |groups|
    ensures forall j :: 0 <= j < |groups| ==> r[j] == MergeDuplicateCallGraphs(mergeRelated, groups[j])
  {
    seq(|groups|, j requires 0 <= j < |groups| => MergeDuplicateCallGraphs(mergeRelated, groups[j]))
  }

  /** collateCallGraphs; `collate` is the generic dependency collator applied to one trace. */
  function CollateCallGraphs<Span>(collate: seq<Span> -> TraceDependencies, mergeRelated: MergeRelated,
                                   traces: seq<seq<Span>>): seq<SummaryCallGraph>
  {
    var graphs := TraceGraphs(collate, mergeRelated, traces);
    GroupsShareKeys(graphs);
    MergeGroups(mergeRelated, Groups(graphs))
  }

  /** The collated call graphs are the merged groups, one per group and with the group's key. */
  lemma CollatedGroups<Span>(collate: seq<Span> -> TraceDependencies, mergeRelated: MergeRelated, traces: seq<seq<Span>>)
    ensures var r := CollateCallGraphs(collate, mergeRelated, traces);
      var groups := Groups(TraceGraphs(collate, mergeRelated, traces));
      && |r| == |groups|
      && forall j :: 0 <= j < |r| ==>
           SameKey(groups[j]) && r[j] == MergeDuplicateCallGraphs(mergeRelated, groups[j]) && OutputKey(r[j]) == Key(groups[j])
  {
    GroupsShareKeys(TraceGraphs(collate, mergeRelated, traces));
  }

  /** No two collated call graphs share nodes and (source, target) pairs. */
  lemma CollatedKeysDistinct<Span>(collate: seq<Span> -> TraceDependencies, mergeRelated: MergeRelated, traces: seq<seq<Span>>)
    ensures var r := CollateCallGraphs(collate, mergeRelated, traces);
      forall j, j' :: 0 <= j < j' < |r| ==> OutputKey(r[j]) != OutputKey(r[j'])
  {
    var graphs := TraceGraphs(collate, mergeRelated, traces);
    GroupsAreGrouping(graphs);
    assert KeysDistinct(Groups(graphs));
    CollatedGroups(collate, mergeRelated, traces);
  }

  /** Every trace's call graph has the nodes and (source, target) pairs of a collated call graph. */
  lemma CollatedCoverTraces<Span>(collate: seq<Span> -> TraceDependencies, mergeRelated: MergeRelated, traces: seq<seq<Span>>)
    ensures var r := CollateCallGraphs(collate, mergeRelated, traces);
      var graphs := TraceGraphs(collate, mergeRelated, traces);
      forall i :: 0 <= i < |traces| ==> exists j :: 0 <= j < |r| && OutputKey(r[j]) == Simple(graphs[i])
  {
    var graphs := TraceGraphs(collate, mergeRelated, traces);
    var r := CollateCallGraphs(collate, mergeRelated, traces);
    var groups := Groups(graphs);
    GroupsAreGrouping(graphs);
    assert KeysCover(groups, graphs);
    CollatedGroups(collate, mergeRelated, traces);
    forall i | 0 <= i < |traces| ensures exists j :: 0 <= j < |r| && OutputKey(r[j]) == Simple(graphs[i]) {
      var j :| 0 <= j < |groups| && Key(groups[j]) == Simple(graphs[i]);
      assert OutputKey(r[j]) == Simple(graphs[i]);
    }
  }

  /** Each collated call graph merges exactly the traces of its key, in trace order. */
  lemma CollatedMergesByKey<Span>(collate: seq<Span> -> TraceDependencies, mergeRelated: MergeRelated, traces: seq<seq<Span>>)
    ensures var r := CollateCallGraphs(collate, mergeRelated, traces);
      var graphs := TraceGraphs(collate, mergeRelated, traces);
      forall j :: 0 <= j < |r| ==>
        var same := Filter(graphs, KeyIs(OutputKey(r[j])));
        SameKey(same) && r[j] == MergeDuplicateCallGraphs(mergeRelated, same)
  {
    var graphs := TraceGraphs(collate, mergeRelated, traces);
    var groups := Groups(graphs);
    GroupsAreGrouping(graphs);
    assert GroupsFiltered(groups, graphs);
    CollatedGroups(collate, mergeRelated, traces);
  }

  /** A collated call graph counts the traces whose call graph has its nodes and (source, target)
      pairs, and each of its dependencies sums the sample sizes of those traces' dependencies at
      the same position, takes its indexes from the first such trace and is not manual. */
  lemma CollatedCounts<Span>(collate: seq<Span> -> TraceDependencies, mergeRelated: MergeRelated,
                             traces: seq<seq<Span>>, j: nat, index: nat)
    requires j < |CollateCallGraphs(collate, mergeRelated, traces)|
    ensures var r := CollateCallGraphs(collate, mergeRelated, traces)[j];
      var same := Filter(TraceGraphs(collate, mergeRelated, traces), KeyIs(OutputKey(r)));
      && SameKey(same)
      && r.traceCount == |same| >= 1
      && (index < |r.dependencies| ==>
            && index < |same[0].dependencies|
            && r.dependencies[index].sampleSize == Some(SampleSize(DependenciesAt(same, index)))
            && r.dependencies[index].sourceIndex == same[0].dependencies[index].sourceIndex
            && r.dependencies[index].targetIndex == same[0].dependencies[index].targetIndex
            && r.dependencies[index].manual == Some(false))
  {
    CollatedMergesByKey(collate, mergeRelated, traces);
  }

  /** Within one trace's call graph, a dependency's sample size is the number of duplicates merged. */
  lemma TraceSampleSize(mergeRelated: MergeRelated, t: TraceDependencies, i: nat)
    requires i < |t.duplicates|
    ensures TraceCallGraph(mergeRelated, t).dependencies[i].sampleSize == |Members(t.duplicates[i])|
  {
  }
}
