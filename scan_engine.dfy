/** ScanEngine: runs every scanner over the shared id -> component map in a fixed order of stages,
    records refresh and scan failures as scanner errors on the affected components, applies the
    component transformers the scanners return (re-validating each result) and folds every
    scanner's summary transformer into a running summary that is handed to a consumer.

    The specification is a set of functions over values (UpdateAll, UnitEffect, UnitsEffect,
    StageEffect, RunStages, EngineEffect); the methods at the end do the same work in place on a
    ComponentMap and are proved equal to them. */
module ScanEngine {
  import opened Common
  import opened Catalog

  // ---------------------------------------------------------------------------------------------
  // Scanners and their inputs

  datatype Input =
    | ComponentInput(component: Component)
    | RepoInput(repo: Repo)
    | CodebaseInput(codebase: Codebase)
    | ComponentAndCodebaseInput(component: Component, codebase: Codebase)

  /** What the engine calls but this model does not define: reference() of repos, codebases and
      component/codebase pairs, the escaping applied to references in messages, and bean
      validation of a component (Some(violation) when it is invalid). */
  datatype Environment = Environment(
    repoReference: Repo -> string,
    codebaseReference: Codebase -> string,
    pairReference: (Component, Codebase) -> string,
    escape: string -> string,
    validate: Component -> Option<string>)

  /** ObjectWithReference.reference(); a component is referred to by its id. */
  function Reference(env: Environment, input: Input): string {
    match input
    case ComponentInput(c) => c.id
    case RepoInput(r) => env.repoReference(r)
    case CodebaseInput(cb) => env.codebaseReference(cb)
    case ComponentAndCodebaseInput(c, cb) => env.pairReference(c, cb)
  }

  /** A scanner's Output: errors (failed() when there are any), an optional component transformer
      (a UnaryOperator<Component>) and an optional value for the next stage (the repo scanner's
      codebase). */
  datatype Output = Output(errors: seq<ScannerError>, transformer: Option<Component -> Component>, output: Option<Codebase>)

  /** The outcome of Scanner.scan: an Output, or an exception described by `cause`. */
  datatype ScanOutcome = Returned(output: Output) | Threw(cause: string)

  /** A component transformer that keeps the component's id and keeps its old scanner errors in
      front. The engine needs this of every transformer: it looks components up again by their
      ids, so a transformer that renamed a component would leave the map keyed by stale ids. */
  ghost predicate KeepsIdAndErrors(t: Component -> Component) {
    forall c :: t(c).id == c.id && IsPrefix(c.scannerErrors, t(c).scannerErrors)
  }

  /** The transformer that rewrites only the facets, as every scanner of the system does
      (component.withX(...) on a facet). Such a transformer keeps ids and errors. */
  function OnFacets(f: Facets -> Facets): (t: Component -> Component)
    ensures KeepsIdAndErrors(t)
    ensures forall c :: t(c).facets == f(c.facets)
  {
    (c: Component) => c.(facets := f(c.facets))
  }

  /** A scan outcome whose transformer, if any, keeps ids and errors. */
  ghost predicate OutcomeKeeps(o: ScanOutcome) {
    o.Returned? && o.output.transformer.Some? ==> KeepsIdAndErrors(o.output.transformer.value)
  }

  /** A scanner: its id, whether refresh() throws (and why), scan() and transformSummary(). */
  datatype Scanner = Scanner(
    id: string,
    refreshFailure: Option<string>,
    scan: Input -> ScanOutcome,
    transformSummary: Summary -> Summary)

  /** ScannerFinder: the scanners of each category, in the order the engine runs them. */
  datatype Registry = Registry(
    componentScanners: seq<Scanner>,
    repoScanner: Scanner,
    codebaseScanners: seq<Scanner>,
    componentAndCodebaseScanners: seq<Scanner>,
    lateComponentScanners: seq<Scanner>)

  /** Every transformer the scanner can return keeps ids and errors. */
  ghost predicate TransformersKeep(s: Scanner) {
    forall i :: OutcomeKeeps(s.scan(i))
  }

  /** Every scanner of the list keeps ids and errors. */
  ghost predicate AllKeep(scanners: seq<Scanner>)
    decreases |scanners|
  {
    scanners != [] ==> AllKeep(scanners[..|scanners| - 1]) && TransformersKeep(scanners[|scanners| - 1])
  }

  lemma {:induction false} AllKeepPrefix(scanners: seq<Scanner>, n: nat)
    requires AllKeep(scanners) && n <= |scanners|
    ensures AllKeep(scanners[..n])
    decreases |scanners| - n
  {
    if n < |scanners| {
      AllKeepPrefix(scanners, n + 1);
      assert scanners[..n + 1][..n] == scanners[..n];
    } else {
      assert scanners[..n] == scanners;
    }
  }

  /** Every scanner of the registry keeps ids and errors. */
  ghost predicate RegistryKeeps(reg: Registry) {
    && AllKeep(reg.componentScanners) && TransformersKeep(reg.repoScanner) && AllKeep(reg.codebaseScanners)
    && AllKeep(reg.componentAndCodebaseScanners) && AllKeep(reg.lateComponentScanners)
  }

  /** Every scanner, in the order scan() runs them. */
  function RunOrder(reg: Registry): (r: seq<Scanner>)
    ensures |r| == |reg.componentScanners| + 1 + |reg.codebaseScanners| + |reg.componentAndCodebaseScanners| + |reg.lateComponentScanners|
  {
    reg.componentScanners + [reg.repoScanner] + reg.codebaseScanners + reg.componentAndCodebaseScanners + reg.lateComponentScanners
  }

  /** One entry of an input -> component ids map. */
  datatype Unit = Unit(input: Input, componentIds: seq<string>)

  /** One entry of an output -> component ids map. */
  type Outputs = seq<(Codebase, seq<string>)>

  const RefreshFailureMessage := "Failed to refresh scanner"
  const ValidationFailureMessage := "Validation failure for transformed component"

  function ScanFailureMessage(env: Environment, input: Input): string {
    "Failed to scan \"" + env.escape(Reference(env, input)) + "\""
  }

  // ---------------------------------------------------------------------------------------------
  // Updating one component

  /** The two ways the engine rewrites a component: appending errors or running a transformer. */
  datatype Update = AppendErrors(errors: seq<ScannerError>) | Transform(transformer: Component -> Component)

  function Apply(u: Update, c: Component): Component {
    match u
    case AppendErrors(e) => AddErrors(c, e)
    case Transform(t) => t(c)
  }

  /** Appending errors always keeps ids and errors; a transformer must be shown to. */
  ghost predicate Keeps(u: Update) {
    u.Transform? ==> KeepsIdAndErrors(u.transformer)
  }

  /** updateComponent: the updated component, with a validation error appended when the updated
      component fails validation. The component is kept either way; re-validation only appends.
      When the update keeps ids and errors, so does updateComponent. */
  function Updated(env: Environment, c: Component, scannerId: string, u: Update): (r: Component)
    ensures r.id == Apply(u, c).id && r.facets == Apply(u, c).facets
    ensures IsPrefix(Apply(u, c).scannerErrors, r.scannerErrors)
    ensures |r.scannerErrors| <= |Apply(u, c).scannerErrors| + 1
    ensures Keeps(u) ==> r.id == c.id && IsPrefix(c.scannerErrors, r.scannerErrors)
  {
    var t := Apply(u, c);
    match env.validate(t)
    case None => t
    case Some(violation) => AddErrors(t, [ScannerError(scannerId, ValidationFailureMessage, violation)])
  }

  /** After appending `errors`, a component holds its old errors, then exactly `errors`, then at
      most one more: the validation failure, present exactly when the result is invalid. Its id and
      facets are unchanged. */
  lemma AppendedErrorsThenValidation(env: Environment, c: Component, scannerId: string, errors: seq<ScannerError>)
    ensures var r := Updated(env, c, scannerId, AppendErrors(errors));
      && r.id == c.id && r.facets == c.facets
      && r.scannerErrors[..|c.scannerErrors| + |errors|] == c.scannerErrors + errors
      && (env.validate(AddErrors(c, errors)).None? ==> r.scannerErrors == c.scannerErrors + errors)
      && (env.validate(AddErrors(c, errors)).Some? ==>
            r.scannerErrors == c.scannerErrors + errors
              + [ScannerError(scannerId, ValidationFailureMessage, env.validate(AddErrors(c, errors)).value)])
  {
    var r := Updated(env, c, scannerId, AppendErrors(errors));
    assert (c.scannerErrors + errors + [ScannerError(scannerId, ValidationFailureMessage, "")])[..|c.scannerErrors| + |errors|]
      == c.scannerErrors + errors;
    if env.validate(AddErrors(c, errors)).Some? {
      var v := env.validate(AddErrors(c, errors)).value;
      assert (c.scannerErrors + errors + [ScannerError(scannerId, ValidationFailureMessage, v)])[..|c.scannerErrors| + |errors|]
        == c.scannerErrors + errors;
    }
  }

  /** A transformed component is stored even when it fails validation: its facets are the
      transformer's result, its errors gain only the validation failure. */
  lemma TransformedKeptWhenInvalid(env: Environment, c: Component, scannerId: string, t: Component -> Component)
    ensures var r := Updated(env, c, scannerId, Transform(t));
      && r.id == t(c).id && r.facets == t(c).facets
      && (env.validate(t(c)).None? ==> r == t(c))
      && (env.validate(t(c)).Some? ==>
            r.scannerErrors == t(c).scannerErrors
              + [ScannerError(scannerId, ValidationFailureMessage, env.validate(t(c)).value)])
  {
  }

  /** `r` has the keys of `m`, and each key still holds the component with the same id. */
  predicate SameIds(m: map<string, Component>, r: map<string, Component>) {
    && r.Keys == m.Keys
    && forall k :: k in m ==> r[k].id == m[k].id
  }

  /** `r` came from `m` by updates that keep keys and ids and only append errors. (The keys are
      kept by every update; ids and errors by updates that keep them.) */
  predicate Grows(m: map<string, Component>, r: map<string, Component>) {
    && SameIds(m, r)
    && forall k :: k in m ==> IsPrefix(m[k].scannerErrors, r[k].scannerErrors)
  }

  lemma GrowsTrans(a: map<string, Component>, b: map<string, Component>, c: map<string, Component>)
    requires Grows(a, b) && Grows(b, c)
    ensures Grows(a, c)
  {
    forall k | k in a ensures IsPrefix(a[k].scannerErrors, c[k].scannerErrors) {
      var x, y, z := a[k].scannerErrors, b[k].scannerErrors, c[k].scannerErrors;
      assert z[..|x|] == z[..|y|][..|x|];
    }
  }

  predicate IdsIn(ids: seq<string>, m: map<string, Component>) {
    forall id :: id in ids ==> id in m
  }

  /** updateComponents: updateComponent for each id in turn. */
  function UpdateAll(env: Environment, m: map<string, Component>, ids: seq<string>, scannerId: string, u: Update): (r: map<string, Component>)
    requires IdsIn(ids, m)
    ensures r.Keys == m.Keys
    ensures forall k :: k in m && k !in ids ==> r[k] == m[k]
    decreases |ids|
  {
    if ids == [] then m
    else
      var prev := UpdateAll(env, m, ids[..|ids| - 1], scannerId, u);
      var id := ids[|ids| - 1];
      prev[id := Updated(env, prev[id], scannerId, u)]
  }

  /** updateComponents with an update that keeps ids and errors: ids and keys stay, old errors
      stay in front, re-validation only appends. */
  lemma {:induction false} UpdateAllGrows(env: Environment, m: map<string, Component>, ids: seq<string>, scannerId: string, u: Update)
    requires IdsIn(ids, m)
    requires Keeps(u)
    ensures Grows(m, UpdateAll(env, m, ids, scannerId, u))
    decreases |ids|
  {
    if ids != [] {
      var init := ids[..|ids| - 1];
      UpdateAllGrows(env, m, init, scannerId, u);
      var prev := UpdateAll(env, m, init, scannerId, u);
      var id := ids[|ids| - 1];
      UpdatedGrows(env, prev, id, scannerId, u);
      GrowsTrans(m, prev, UpdateAll(env, m, ids, scannerId, u));
    }
  }

  /** One kept update of one entry grows the map. */
  lemma UpdatedGrows(env: Environment, m: map<string, Component>, id: string, scannerId: string, u: Update)
    requires id in m && Keeps(u)
    ensures Grows(m, m[id := Updated(env, m[id], scannerId, u)])
  {
    var c := Updated(env, m[id], scannerId, u);
    assert c.id == m[id].id && IsPrefix(m[id].scannerErrors, c.scannerErrors);
  }

  /** With no repeated ids, every id is updated exactly once. */
  lemma {:induction false} UpdateAllOnce(env: Environment, m: map<string, Component>, ids: seq<string>, scannerId: string, u: Update)
    requires IdsIn(ids, m)
    requires NoDuplicates(ids)
    ensures forall k :: k in ids ==> UpdateAll(env, m, ids, scannerId, u)[k] == Updated(env, m[k], scannerId, u)
    decreases |ids|
  {
    if ids != [] {
      var init := ids[..|ids| - 1];
      assert forall id :: id in init ==> id in ids;
      UpdateAllOnce(env, m, init, scannerId, u);
      var last := ids[|ids| - 1];
      assert last !in init;
      forall k | k in ids ensures UpdateAll(env, m, ids, scannerId, u)[k] == Updated(env, m[k], scannerId, u) {
        if k != last {
          var j :| 0 <= j < |ids| && ids[j] == k;
          assert init[j] == k;
        }
      }
    }
  }

  // ---------------------------------------------------------------------------------------------
  // Scanning one unit, one scanner, all stages

  /** The scanner's Output for a unit; an exception becomes Output.of(one "Failed to scan" error). */
  function OutputOf(env: Environment, s: Scanner, u: Unit): Output {
    match s.scan(u.input)
    case Returned(o) => o
    case Threw(cause) => Output([ScannerError(s.id, ScanFailureMessage(env, u.input), cause)], None, None)
  }

  datatype UnitResult = UnitResult(components: map<string, Component>, output: Option<(Codebase, seq<string>)>)

  /** executeScanner for one unit: errors are appended first, then the transformer runs; the unit's
      output (if any) is paired with its component ids. */
  function UnitEffect(env: Environment, m: map<string, Component>, s: Scanner, u: Unit): (r: UnitResult)
    requires IdsIn(u.componentIds, m)
    ensures r.components.Keys == m.Keys
    ensures forall k :: k in m && k !in u.componentIds ==> r.components[k] == m[k]
    ensures r.output.Some? ==> r.output.value.1 == u.componentIds
  {
    var o := OutputOf(env, s, u);
    var m1 := if |o.errors| > 0 then UpdateAll(env, m, u.componentIds, s.id, AppendErrors(o.errors)) else m;
    var m2 := if o.transformer.Some? then UpdateAll(env, m1, u.componentIds, s.id, Transform(o.transformer.value)) else m1;
    UnitResult(m2, if o.output.Some? then Some((o.output.value, u.componentIds)) else None)
  }

  lemma UnitEffectGrows(env: Environment, m: map<string, Component>, s: Scanner, u: Unit)
    requires IdsIn(u.componentIds, m)
    requires TransformersKeep(s)
    ensures Grows(m, UnitEffect(env, m, s, u).components)
  {
    var o := OutputOf(env, s, u);
    assert OutcomeKeeps(s.scan(u.input));
    var m1 := if |o.errors| > 0 then UpdateAll(env, m, u.componentIds, s.id, AppendErrors(o.errors)) else m;
    if |o.errors| > 0 {
      UpdateAllGrows(env, m, u.componentIds, s.id, AppendErrors(o.errors));
    }
    if o.transformer.Some? {
      UpdateAllGrows(env, m1, u.componentIds, s.id, Transform(o.transformer.value));
      GrowsTrans(m, m1, UnitEffect(env, m, s, u).components);
    }
  }

  /** A unit whose scan throws: each of its components gets exactly one "Failed to scan" error
      (then re-validation), the other components are untouched, and the unit yields no output. */
  lemma ScanExceptionRecorded(env: Environment, m: map<string, Component>, s: Scanner, u: Unit)
    requires IdsIn(u.componentIds, m)
    requires NoDuplicates(u.componentIds)
    requires s.scan(u.input).Threw?
    ensures var r := UnitEffect(env, m, s, u);
      && r.output == None
      && (forall k :: k in u.componentIds ==>
            r.components[k] == Updated(env, m[k], s.id,
              AppendErrors([ScannerError(s.id, ScanFailureMessage(env, u.input), s.scan(u.input).cause)])))
      && (forall k :: k in m && k !in u.componentIds ==> r.components[k] == m[k])
  {
    UpdateAllOnce(env, m, u.componentIds, s.id,
      AppendErrors([ScannerError(s.id, ScanFailureMessage(env, u.input), s.scan(u.input).cause)]));
  }

  /** All component ids of a list of units, in order. */
  function AllIds(units: seq<Unit>): (r: seq<string>)
    ensures forall i, id :: 0 <= i < |units| && id in units[i].componentIds ==> id in r
    ensures forall id :: id in r ==> exists i :: 0 <= i < |units| && id in units[i].componentIds
  {
    if units == [] then [] else AllIds(units[..|units| - 1]) + units[|units| - 1].componentIds
  }

  /** All component ids of a list of outputs, in order. */
  function OutputIds(outputs: Outputs): seq<string> {
    if outputs == [] then [] else OutputIds(outputs[..|outputs| - 1]) + outputs[|outputs| - 1].1
  }

  datatype UnitsResult = UnitsResult(components: map<string, Component>, outputs: Outputs)

  /** The units of one scanner, one after another, collecting the non-null outputs. */
  function UnitsEffect(env: Environment, m: map<string, Component>, s: Scanner, units: seq<Unit>): (r: UnitsResult)
    requires IdsIn(AllIds(units), m)
    ensures r.components.Keys == m.Keys
    ensures forall k :: k in m && k !in AllIds(units) ==> r.components[k] == m[k]
    ensures forall id :: id in OutputIds(r.outputs) ==> id in AllIds(units)
    decreases |units|
  {
    if units == [] then UnitsResult(m, [])
    else
      var init := units[..|units| - 1];
      var prev := UnitsEffect(env, m, s, init);
      var u := units[|units| - 1];
      var step := UnitEffect(env, prev.components, s, u);
      UnitsResult(step.components, if step.output.Some? then prev.outputs + [step.output.value] else prev.outputs)
  }

  lemma {:induction false} UnitsEffectGrows(env: Environment, m: map<string, Component>, s: Scanner, units: seq<Unit>)
    requires IdsIn(AllIds(units), m)
    requires TransformersKeep(s)
    ensures Grows(m, UnitsEffect(env, m, s, units).components)
    decreases |units|
  {
    if units != [] {
      var init := units[..|units| - 1];
      UnitsEffectGrows(env, m, s, init);
      var prev := UnitsEffect(env, m, s, init);
      UnitEffectGrows(env, prev.components, s, units[|units| - 1]);
      GrowsTrans(m, prev.components, UnitsEffect(env, m, s, units).components);
    }
  }

  /** The comparator of executeScanner: units by ascending reference. */
  function UnitOrder(env: Environment): (Unit, Unit) -> bool {
    ByKey((u: Unit) => Reference(env, u.input))
  }

  function SortUnits(env: Environment, units: seq<Unit>): seq<Unit> {
    SortBy(units, UnitOrder(env))
  }

  /** Units are scanned in ascending order of reference, and each unit exactly once. */
  lemma UnitsScannedInReferenceOrder(env: Environment, units: seq<Unit>)
    ensures multiset(SortUnits(env, units)) == multiset(units)
    ensures forall i, j :: 0 <= i < j < |units| ==>
      StrLe(Reference(env, SortUnits(env, units)[i].input), Reference(env, SortUnits(env, units)[j].input))
  {
    ByKeyIsTotalPreorder((u: Unit) => Reference(env, u.input));
    SortBySorted(units, UnitOrder(env));
  }

  lemma SortedUnitsSameIds(env: Environment, units: seq<Unit>)
    ensures forall id :: id in AllIds(SortUnits(env, units)) <==> id in AllIds(units)
  {
    var sorted := SortUnits(env, units);
    forall id ensures id in AllIds(sorted) <==> id in AllIds(units) {
      if id in AllIds(sorted) {
        var i :| 0 <= i < |sorted| && id in sorted[i].componentIds;
        SortByMembers(units, UnitOrder(env), sorted[i]);
        var j :| 0 <= j < |units| && units[j] == sorted[i];
      }
      if id in AllIds(units) {
        var i :| 0 <= i < |units| && id in units[i].componentIds;
        SortByMembers(units, UnitOrder(env), units[i]);
        var j :| 0 <= j < |sorted| && sorted[j] == units[i];
      }
    }
  }

  /** The engine's state between scanners: the component map, the current summary, and the
      summaries handed to the consumer so far. */
  datatype EngineState = EngineState(components: map<string, Component>, summary: Summary, delivered: seq<Summary>)

  datatype StageResult = StageResult(state: EngineState, outputs: Outputs)

  function RefreshError(s: Scanner): ScannerError
    requires s.refreshFailure.Some?
  {
    ScannerError(s.id, RefreshFailureMessage, s.refreshFailure.value)
  }

  /** executeScanner for one scanner over all its units. */
  function StageEffect(env: Environment, st: EngineState, s: Scanner, units: seq<Unit>): (r: StageResult)
    requires IdsIn(AllIds(units), st.components)
    ensures r.state.components.Keys == st.components.Keys
    ensures IdsIn(OutputIds(r.outputs), st.components)
  {
    if s.refreshFailure.Some? then
      StageResult(st.(components := UpdateUnits(env, st.components, units, s.id, AppendErrors([RefreshError(s)]))), [])
    else
      var sorted := SortUnits(env, units);
      SortedUnitsSameIds(env, units);
      var r := UnitsEffect(env, st.components, s, sorted);
      var next := s.transformSummary(st.summary);
      StageResult(EngineState(r.components, next, st.delivered + [next]), r.outputs)
  }

  /** addScannerErrorsToComponents for the component ids of each unit in turn. */
  function UpdateUnits(env: Environment, m: map<string, Component>, units: seq<Unit>, scannerId: string, u: Update): (r: map<string, Component>)
    requires IdsIn(AllIds(units), m)
    ensures r.Keys == m.Keys
    ensures forall k :: k in m && k !in AllIds(units) ==> r[k] == m[k]
    decreases |units|
  {
    if units == [] then m
    else UpdateAll(env, UpdateUnits(env, m, units[..|units| - 1], scannerId, u), units[|units| - 1].componentIds, scannerId, u)
  }

  lemma NoDuplicatesConcat(a: seq<string>, b: seq<string>)
    requires NoDuplicates(a + b)
    ensures NoDuplicates(a) && NoDuplicates(b)
    ensures forall x :: x in a ==> x !in b
  {
    forall i, j | 0 <= i < j < |a| ensures a[i] != a[j] {
      assert (a + b)[i] == a[i] && (a + b)[j] == a[j];
    }
    forall i, j | 0 <= i < j < |b| ensures b[i] != b[j] {
      assert (a + b)[|a| + i] == b[i] && (a + b)[|a| + j] == b[j];
    }
    forall x | x in a ensures x !in b {
      var i :| 0 <= i < |a| && a[i] == x;
      assert (a + b)[i] == x;
      forall j | 0 <= j < |b| ensures b[j] != x {
        assert (a + b)[|a| + j] == b[j];
      }
    }
  }

  /** With no id in two units (or twice in one), each unit's components are updated exactly once. */
  lemma {:induction false} UpdateUnitsOnce(env: Environment, m: map<string, Component>, units: seq<Unit>, scannerId: string, u: Update)
    requires IdsIn(AllIds(units), m)
    requires NoDuplicates(AllIds(units))
    ensures forall k :: k in AllIds(units) ==> UpdateUnits(env, m, units, scannerId, u)[k] == Updated(env, m[k], scannerId, u)
    decreases |units|
  {
    if units != [] {
      var init := units[..|units| - 1];
      var ids := units[|units| - 1].componentIds;
      assert AllIds(units) == AllIds(init) + ids;
      NoDuplicatesConcat(AllIds(init), ids);
      UpdateUnitsOnce(env, m, init, scannerId, u);
      var prev := UpdateUnits(env, m, init, scannerId, u);
      UpdateAllOnce(env, prev, ids, scannerId, u);
    }
  }

  lemma {:induction false} UpdateUnitsGrows(env: Environment, m: map<string, Component>, units: seq<Unit>, scannerId: string, u: Update)
    requires IdsIn(AllIds(units), m)
    requires Keeps(u)
    ensures Grows(m, UpdateUnits(env, m, units, scannerId, u))
    decreases |units|
  {
    if units != [] {
      var init := units[..|units| - 1];
      UpdateUnitsGrows(env, m, init, scannerId, u);
      var prev := UpdateUnits(env, m, init, scannerId, u);
      UpdateAllGrows(env, prev, units[|units| - 1].componentIds, scannerId, u);
      GrowsTrans(m, prev, UpdateUnits(env, m, units, scannerId, u));
    }
  }

  /** A scanner whose refresh throws: every component of every unit gets exactly one "Failed to
      refresh scanner" error (then re-validation), nothing is scanned, no output is produced and
      the summary is neither transformed nor delivered. */
  lemma RefreshFailureRecorded(env: Environment, st: EngineState, s: Scanner, units: seq<Unit>)
    requires IdsIn(AllIds(units), st.components)
    requires NoDuplicates(AllIds(units))
    requires s.refreshFailure.Some?
    ensures var r := StageEffect(env, st, s, units);
      && r.outputs == []
      && r.state.summary == st.summary && r.state.delivered == st.delivered
      && (forall k :: k in AllIds(units) ==>
            r.state.components[k] == Updated(env, st.components[k], s.id, AppendErrors([RefreshError(s)])))
      && (forall k :: k in st.components && k !in AllIds(units) ==> r.state.components[k] == st.components[k])
  {
    UpdateUnitsOnce(env, st.components, units, s.id, AppendErrors([RefreshError(s)]));
  }

  // ---------------------------------------------------------------------------------------------
  // The inputs of each stage

  /** getFreshComponentAndComponentIdMap: one unit per component of the current map, enumerated in
      `order` (the map's iteration order). */
  function ComponentUnits(m: map<string, Component>, order: seq<string>): (r: seq<Unit>)
    requires IdsIn(order, m)
    ensures |r| == |order|
    ensures forall i :: 0 <= i < |r| ==> r[i] == Unit(ComponentInput(m[order[i]]), [m[order[i]].id])
  {
    if order == [] then []
    else
      var k := order[|order| - 1];
      ComponentUnits(m, order[..|order| - 1]) + [Unit(ComponentInput(m[k]), [m[k].id])]
  }

  lemma {:induction false} ComponentUnitsIds(m: map<string, Component>, order: seq<string>)
    requires IdsIn(order, m)
    requires WellKeyed(m)
    ensures AllIds(ComponentUnits(m, order)) == order
    decreases |order|
  {
    if order != [] {
      var units := ComponentUnits(m, order);
      var init := order[..|order| - 1];
      assert units[..|units| - 1] == ComponentUnits(m, init);
      ComponentUnitsIds(m, init);
      assert order == init + [order[|order| - 1]];
    }
  }

  /** One group of getRepoAndComponentIdsMap: a repo and the ids of its components. */
  datatype RepoGroup = RepoGroup(repo: Repo, ids: seq<string>)

  /** groupingBy: adds `id` to the group of `repo`, opening a new group at the end when there is
      none. */
  function AddToGroup(groups: seq<RepoGroup>, repo: Repo, id: string): (r: seq<RepoGroup>)
    ensures |groups| <= |r| <= |groups| + 1
    ensures forall i :: 0 <= i < |groups| ==> r[i].repo == groups[i].repo
  {
    if groups == [] then [RepoGroup(repo, [id])]
    else if groups[0].repo == repo then [RepoGroup(repo, groups[0].ids + [id])] + groups[1..]
    else [groups[0]] + AddToGroup(groups[1..], repo, id)
  }

  /** What AddToGroup does to the groups' members: each old member stays in its group, `id` joins
      the group of `repo`, and nothing else joins any group. A new group opens only for a repo no
      group has. */
  lemma AddToGroupMembers(groups: seq<RepoGroup>, repo: Repo, id: string)
    ensures var r := AddToGroup(groups, repo, id);
      && (forall i, x :: 0 <= i < |groups| && x in groups[i].ids ==> x in r[i].ids)
      && (exists i :: 0 <= i < |r| && r[i].repo == repo && id in r[i].ids)
      && (forall i, x :: 0 <= i < |r| && x in r[i].ids ==> (i < |groups| && x in groups[i].ids) || (x == id && r[i].repo == repo))
      && (|r| == |groups| + 1 ==> r[|groups|].repo == repo && forall i :: 0 <= i < |groups| ==> groups[i].repo != repo)
  {
    AddToGroupKeeps(groups, repo, id);
    var w := AddToGroupJoins(groups, repo, id);
  }

  /** The members half of AddToGroupMembers: old members stay, and only `id` joins. */
  lemma {:induction false} AddToGroupKeeps(groups: seq<RepoGroup>, repo: Repo, id: string)
    ensures var r := AddToGroup(groups, repo, id);
      && (forall i, x :: 0 <= i < |groups| && x in groups[i].ids ==> x in r[i].ids)
      && (forall i, x :: 0 <= i < |r| && x in r[i].ids ==> (i < |groups| && x in groups[i].ids) || (x == id && r[i].repo == repo))
  {
    if groups != [] && groups[0].repo != repo {
      var rest := groups[1..];
      AddToGroupKeeps(rest, repo, id);
      var r := AddToGroup(groups, repo, id);
      var t := AddToGroup(rest, repo, id);
      assert r == [groups[0]] + t;
      forall i, x | 0 <= i < |groups| && x in groups[i].ids ensures x in r[i].ids {
        if i > 0 {
          assert groups[i] == rest[i - 1] && r[i] == t[i - 1];
        }
      }
      forall i, x | 0 <= i < |r| && x in r[i].ids
        ensures (i < |groups| && x in groups[i].ids) || (x == id && r[i].repo == repo)
      {
        if i == 0 {
          assert r[0] == groups[0];
        } else {
          assert r[i] == t[i - 1] && x in t[i - 1].ids;
          assert (i - 1 < |rest| && x in rest[i - 1].ids) || (x == id && t[i - 1].repo == repo);
          if i - 1 < |rest| && x in rest[i - 1].ids {
            assert groups[i] == rest[i - 1];
          }
        }
      }
    } else if groups != [] {
      var r := AddToGroup(groups, repo, id);
      assert r == [RepoGroup(repo, groups[0].ids + [id])] + groups[1..];
      assert forall i :: 1 <= i < |r| ==> r[i] == groups[i];
    }
  }

  /** The joining half of AddToGroupMembers: `id` lands in the group of `repo` at index `w`, a new
      one only when no group has that repo. */
  lemma {:induction false} AddToGroupJoins(groups: seq<RepoGroup>, repo: Repo, id: string) returns (w: nat)
    ensures var r := AddToGroup(groups, repo, id);
      && w < |r| && r[w].repo == repo && id in r[w].ids
      && (|r| == |groups| + 1 ==> r[|groups|].repo == repo && forall i :: 0 <= i < |groups| ==> groups[i].repo != repo)
  {
    var r := AddToGroup(groups, repo, id);
    if groups == [] {
      assert r[0] == RepoGroup(repo, [id]);
      w := 0;
    } else if groups[0].repo == repo {
      assert r[0] == RepoGroup(repo, groups[0].ids + [id]);
      assert |r| == |groups|;
      w := 0;
    } else {
      var rest := groups[1..];
      var j := AddToGroupJoins(rest, repo, id);
      var t := AddToGroup(rest, repo, id);
      assert r == [groups[0]] + t;
      assert forall i :: 1 <= i < |groups| ==> groups[i] == rest[i - 1];
      assert r[j + 1] == t[j];
      if |r| == |groups| + 1 {
        assert r[|groups|] == t[|rest|];
      }
      w := j + 1;
    }
  }

  function RepoGroups(m: map<string, Component>, order: seq<string>): seq<RepoGroup>
    requires IdsIn(order, m)
  {
    if order == [] then []
    else
      var k := order[|order| - 1];
      AddToGroup(RepoGroups(m, order[..|order| - 1]), m[k].facets.repo, m[k].id)
  }

  /** The groups have pairwise different repos, every id in a group belongs to a component of that
      group's repo, and every enumerated component is in some group. */
  predicate GroupedByRepo(m: map<string, Component>, order: seq<string>, groups: seq<RepoGroup>) {
    DistinctRepos(groups) && MembersMatchRepo(m, order, groups) && CoversOrder(order, groups)
  }

  predicate DistinctRepos(groups: seq<RepoGroup>) {
    forall i, j :: 0 <= i < j < |groups| ==> groups[i].repo != groups[j].repo
  }

  predicate MembersMatchRepo(m: map<string, Component>, order: seq<string>, groups: seq<RepoGroup>) {
    forall i, id :: 0 <= i < |groups| && id in groups[i].ids ==> id in m && m[id].facets.repo == groups[i].repo && id in order
  }

  predicate CoversOrder(order: seq<string>, groups: seq<RepoGroup>) {
    forall k :: k in order ==> exists i :: 0 <= i < |groups| && k in groups[i].ids
  }

  /** getRepoAndComponentIdsMap: components that share a repo form one unit, and no two units
      share a repo. */
  lemma RepoGroupsGroupByRepo(m: map<string, Component>, order: seq<string>)
    requires IdsIn(order, m)
    requires WellKeyed(m)
    ensures GroupedByRepo(m, order, RepoGroups(m, order))
  {
    RepoGroupsDistinct(m, order);
    RepoGroupsMembers(m, order);
    RepoGroupsCover(m, order);
  }

  lemma {:induction false} RepoGroupsDistinct(m: map<string, Component>, order: seq<string>)
    requires IdsIn(order, m)
    ensures DistinctRepos(RepoGroups(m, order))
    decreases |order|
  {
    if order != [] {
      var init := order[..|order| - 1];
      var k := order[|order| - 1];
      assert IdsIn(init, m) by {
        forall x | x in init ensures x in m { assert x in order; }
      }
      RepoGroupsDistinct(m, init);
      var g := RepoGroups(m, init);
      var repo := m[k].facets.repo;
      var w := AddToGroupJoins(g, repo, m[k].id);
      var r := RepoGroups(m, order);
      assert r == AddToGroup(g, repo, m[k].id);
      forall i, j | 0 <= i < j < |r| ensures r[i].repo != r[j].repo {
        if j < |g| {
          assert g[i].repo != g[j].repo;
        } else {
          assert r[j].repo == repo;
        }
      }
    }
  }

  lemma {:induction false} RepoGroupsMembers(m: map<string, Component>, order: seq<string>)
    requires IdsIn(order, m)
    requires WellKeyed(m)
    ensures MembersMatchRepo(m, order, RepoGroups(m, order))
    decreases |order|
  {
    if order != [] {
      var init := order[..|order| - 1];
      var k := order[|order| - 1];
      assert order == init + [k];
      assert IdsIn(init, m);
      RepoGroupsMembers(m, init);
      MembersMatchAdd(m, init, RepoGroups(m, init), k);
    }
  }

  /** Adding the next enumerated component to its repo's group keeps every member matched. */
  lemma MembersMatchAdd(m: map<string, Component>, init: seq<string>, g: seq<RepoGroup>, k: string)
    requires MembersMatchRepo(m, init, g)
    requires k in m && m[k].id == k
    ensures MembersMatchRepo(m, init + [k], AddToGroup(g, m[k].facets.repo, k))
  {
    var repo := m[k].facets.repo;
    var r := AddToGroup(g, repo, k);
    AddToGroupKeeps(g, repo, k);
    forall i, id | 0 <= i < |r| && id in r[i].ids
      ensures id in m && m[id].facets.repo == r[i].repo && id in init + [k]
    {
      if i < |g| && id in g[i].ids {
        assert id in m && m[id].facets.repo == g[i].repo && id in init;
        assert r[i].repo == g[i].repo;
      } else {
        assert id == k && r[i].repo == repo;
      }
    }
  }

  lemma {:induction false} RepoGroupsCover(m: map<string, Component>, order: seq<string>)
    requires IdsIn(order, m)
    requires WellKeyed(m)
    ensures CoversOrder(order, RepoGroups(m, order))
    decreases |order|
  {
    if order != [] {
      var init := order[..|order| - 1];
      var k := order[|order| - 1];
      assert IdsIn(init, m) by {
        forall x | x in init ensures x in m { assert x in order; }
      }
      RepoGroupsCover(m, init);
      assert order == init + [k];
      CoversAdd(init, RepoGroups(m, init), m[k].facets.repo, k);
    }
  }

  /** Adding the next enumerated id to its repo's group keeps every enumerated id covered. */
  lemma CoversAdd(init: seq<string>, g: seq<RepoGroup>, repo: Repo, k: string)
    requires CoversOrder(init, g)
    ensures CoversOrder(init + [k], AddToGroup(g, repo, k))
  {
    var r := AddToGroup(g, repo, k);
    AddToGroupKeeps(g, repo, k);
    var w := AddToGroupJoins(g, repo, k);
    forall x | x in init + [k] ensures exists i :: 0 <= i < |r| && x in r[i].ids {
      if x == k {
        assert x in r[w].ids;
      } else {
        assert x in init;
        var i :| 0 <= i < |g| && x in g[i].ids;
        assert x in r[i].ids;
      }
    }
  }

  function RepoUnits(groups: seq<RepoGroup>): (r: seq<Unit>)
    ensures |r| == |groups|
    ensures forall i :: 0 <= i < |r| ==> r[i] == Unit(RepoInput(groups[i].repo), groups[i].ids)
  {
    if groups == [] then [] else RepoUnits(groups[..|groups| - 1]) + [Unit(RepoInput(groups[|groups| - 1].repo), groups[|groups| - 1].ids)]
  }

  /** The repo scanner's units: one per repo of the current map. */
  function RepoStageUnits(m: map<string, Component>, order: seq<string>): (r: seq<Unit>)
    requires IdsIn(order, m)
    requires WellKeyed(m)
    ensures IdsIn(AllIds(r), m)
  {
    RepoGroupsGroupByRepo(m, order);
    RepoUnits(RepoGroups(m, order))
  }

  /** The codebase scanners' units: the repo scanner's outputs as they are. */
  function CodebaseUnits(outputs: Outputs): (r: seq<Unit>)
    ensures AllIds(r) == OutputIds(outputs)
  {
    if outputs == [] then []
    else
      var init := CodebaseUnits(outputs[..|outputs| - 1]);
      var last := outputs[|outputs| - 1];
      var r := init + [Unit(CodebaseInput(last.0), last.1)];
      assert r[..|r| - 1] == init;
      r
  }

  /** getFreshComponentAndCodebaseAndComponentIdsMap: one unit per (component, codebase) pair,
      with the component taken from the current map. */
  function PairUnits(m: map<string, Component>, outputs: Outputs): (r: seq<Unit>)
    requires IdsIn(OutputIds(outputs), m)
    ensures AllIds(r) == OutputIds(outputs)
  {
    if outputs == [] then []
    else
      var init := outputs[..|outputs| - 1];
      var last := outputs[|outputs| - 1];
      assert forall id :: id in OutputIds(init) ==> id in OutputIds(outputs);
      var a := PairUnits(m, init);
      var b := PairsOf(m, last.0, last.1);
      AllIdsConcat(a, b);
      a + b
  }

  function PairsOf(m: map<string, Component>, cb: Codebase, ids: seq<string>): (r: seq<Unit>)
    requires IdsIn(ids, m)
    ensures AllIds(r) == ids
  {
    if ids == [] then []
    else
      var init := PairsOf(m, cb, ids[..|ids| - 1]);
      var id := ids[|ids| - 1];
      var r := init + [Unit(ComponentAndCodebaseInput(m[id], cb), [id])];
      assert r[..|r| - 1] == init;
      assert ids == ids[..|ids| - 1] + [id];
      r
  }

  lemma {:induction false} AllIdsConcat(a: seq<Unit>, b: seq<Unit>)
    ensures AllIds(a + b) == AllIds(a) + AllIds(b)
    decreases |b|
  {
    if b != [] {
      var b' := b[..|b| - 1];
      assert (a + b)[..|a + b| - 1] == a + b';
      AllIdsConcat(a, b');
    } else {
      assert a + b == a;
    }
  }

  datatype Stage = ComponentStage | CodebaseStage | ComponentAndCodebaseStage

  /** The units a scanner of the given stage sees, rebuilt from the current map where the engine
      rebuilds them. */
  function StageUnits(stage: Stage, m: map<string, Component>, order: seq<string>, codebases: Outputs): (r: seq<Unit>)
    requires IdsIn(order, m) && WellKeyed(m) && IdsIn(OutputIds(codebases), m)
    ensures IdsIn(AllIds(r), m)
  {
    match stage
    case ComponentStage => ComponentUnitsIds(m, order); ComponentUnits(m, order)
    case CodebaseStage => CodebaseUnits(codebases)
    case ComponentAndCodebaseStage => PairUnits(m, codebases)
  }

  /** A run of scanners of one stage, one after another. Each stage's units are built from the
      ids of the current components, so the run needs transformers that keep those ids. */
  function RunStages(env: Environment, st: EngineState, stage: Stage, order: seq<string>, codebases: Outputs, scanners: seq<Scanner>): (r: EngineState)
    requires IdsIn(order, st.components) && WellKeyed(st.components) && IdsIn(OutputIds(codebases), st.components)
    requires AllKeep(scanners)
    ensures SameIds(st.components, r.components)
    ensures WellKeyed(r.components)
    decreases |scanners|
  {
    if scanners == [] then st
    else
      var prev := RunStages(env, st, stage, order, codebases, scanners[..|scanners| - 1]);
      var units := StageUnits(stage, prev.components, order, codebases);
      var s := scanners[|scanners| - 1];
      StageEffectGrows(env, prev, s, units);
      StageEffect(env, prev, s, units).state
  }

  /** One more scanner of a stage: the run over `scanners[..i + 1]` is the run over
      `scanners[..i]` followed by scanner `i`. */
  lemma RunStagesStep(env: Environment, st: EngineState, stage: Stage, order: seq<string>, codebases: Outputs, scanners: seq<Scanner>, i: nat)
    requires IdsIn(order, st.components) && WellKeyed(st.components) && IdsIn(OutputIds(codebases), st.components)
    requires AllKeep(scanners) && i < |scanners|
    ensures AllKeep(scanners[..i]) && AllKeep(scanners[..i + 1])
    ensures var prev := RunStages(env, st, stage, order, codebases, scanners[..i]);
      IdsIn(order, prev.components) && IdsIn(OutputIds(codebases), prev.components) && WellKeyed(prev.components)
      && RunStages(env, st, stage, order, codebases, scanners[..i + 1])
         == StageEffect(env, prev, scanners[i], StageUnits(stage, prev.components, order, codebases)).state
  {
    AllKeepPrefix(scanners, i + 1);
    AllKeepPrefix(scanners, i);
    assert scanners[..i + 1][..i] == scanners[..i];
  }

  /** A complete scan: component scanners, the repo scanner, codebase scanners,
      component-and-codebase scanners, late component scanners. `order` enumerates the map. */
  function EngineEffect(env: Environment, m: map<string, Component>, order: seq<string>, reg: Registry): (r: EngineState)
    requires WellKeyed(m)
    requires forall k :: k in order <==> k in m
    requires NoDuplicates(order)
    requires RegistryKeeps(reg)
    ensures SameIds(m, r.components)
  {
    var st0 := EngineState(m, EmptySummary, []);
    var st1 := RunStages(env, st0, ComponentStage, order, [], reg.componentScanners);
    var units := RepoStageUnits(st1.components, order);
    StageEffectGrows(env, st1, reg.repoScanner, units);
    var repo := StageEffect(env, st1, reg.repoScanner, units);
    var st2 := repo.state;
    var st3 := RunStages(env, st2, CodebaseStage, order, repo.outputs, reg.codebaseScanners);
    var st4 := RunStages(env, st3, ComponentAndCodebaseStage, order, repo.outputs, reg.componentAndCodebaseScanners);
    var st5 := RunStages(env, st4, ComponentStage, order, repo.outputs, reg.lateComponentScanners);
    st5
  }

  lemma StageEffectGrows(env: Environment, st: EngineState, s: Scanner, units: seq<Unit>)
    requires IdsIn(AllIds(units), st.components)
    requires TransformersKeep(s)
    ensures Grows(st.components, StageEffect(env, st, s, units).state.components)
  {
    if s.refreshFailure.Some? {
      UpdateUnitsGrows(env, st.components, units, s.id, AppendErrors([RefreshError(s)]));
    } else {
      SortedUnitsSameIds(env, units);
      UnitsEffectGrows(env, st.components, s, SortUnits(env, units));
    }
  }

  lemma {:induction false} RunStagesGrows(env: Environment, st: EngineState, stage: Stage, order: seq<string>, codebases: Outputs, scanners: seq<Scanner>)
    requires IdsIn(order, st.components) && WellKeyed(st.components) && IdsIn(OutputIds(codebases), st.components)
    requires AllKeep(scanners)
    ensures Grows(st.components, RunStages(env, st, stage, order, codebases, scanners).components)
    decreases |scanners|
  {
    if scanners != [] {
      var init := scanners[..|scanners| - 1];
      RunStagesGrows(env, st, stage, order, codebases, init);
      var prev := RunStages(env, st, stage, order, codebases, init);
      var units := StageUnits(stage, prev.components, order, codebases);
      StageEffectGrows(env, prev, scanners[|scanners| - 1], units);
      GrowsTrans(st.components, prev.components, RunStages(env, st, stage, order, codebases, scanners).components);
    }
  }

  /** Over a whole scan whose transformers keep ids and errors, the key set and every component's
      id are unchanged, and each component's errors before the scan are still its first errors
      afterwards: the engine itself only appends errors. */
  lemma ScanOnlyAppendsErrors(env: Environment, m: map<string, Component>, order: seq<string>, reg: Registry)
    requires WellKeyed(m)
    requires forall k :: k in order <==> k in m
    requires NoDuplicates(order)
    requires RegistryKeeps(reg)
    ensures Grows(m, EngineEffect(env, m, order, reg).components)
  {
    var st0 := EngineState(m, EmptySummary, []);
    var st1 := RunStages(env, st0, ComponentStage, order, [], reg.componentScanners);
    RunStagesGrows(env, st0, ComponentStage, order, [], reg.componentScanners);
    var units := RepoStageUnits(st1.components, order);
    var repo := StageEffect(env, st1, reg.repoScanner, units);
    StageEffectGrows(env, st1, reg.repoScanner, units);
    GrowsTrans(m, st1.components, repo.state.components);
    var st3 := RunStages(env, repo.state, CodebaseStage, order, repo.outputs, reg.codebaseScanners);
    RunStagesGrows(env, repo.state, CodebaseStage, order, repo.outputs, reg.codebaseScanners);
    GrowsTrans(m, repo.state.components, st3.components);
    var st4 := RunStages(env, st3, ComponentAndCodebaseStage, order, repo.outputs, reg.componentAndCodebaseScanners);
    RunStagesGrows(env, st3, ComponentAndCodebaseStage, order, repo.outputs, reg.componentAndCodebaseScanners);
    GrowsTrans(m, st3.components, st4.components);
    var st5 := RunStages(env, st4, ComponentStage, order, repo.outputs, reg.lateComponentScanners);
    RunStagesGrows(env, st4, ComponentStage, order, repo.outputs, reg.lateComponentScanners);
    GrowsTrans(m, st4.components, st5.components);
  }

  // ---------------------------------------------------------------------------------------------
  // The summary fold

  function LastOr(start: Summary, s: seq<Summary>): Summary {
    if s == [] then start else Last(s)
  }

  /** The summaries delivered by `scanners` starting from `start`: each scanner whose refresh
      succeeded applies its transformer to the previous result. */
  function TransformChain(start: Summary, scanners: seq<Scanner>): seq<Summary>
    decreases |scanners|
  {
    if scanners == [] then []
    else
      var prev := TransformChain(start, scanners[..|scanners| - 1]);
      var s := scanners[|scanners| - 1];
      if s.refreshFailure.Some? then prev else prev + [s.transformSummary(LastOr(start, prev))]
  }

  lemma {:induction false} TransformChainConcat(start: Summary, a: seq<Scanner>, b: seq<Scanner>)
    ensures TransformChain(start, a + b) == TransformChain(start, a) + TransformChain(LastOr(start, TransformChain(start, a)), b)
    decreases |b|
  {
    if b == [] {
      assert a + b == a;
    } else {
      var b' := b[..|b| - 1];
      assert (a + b)[..|a + b| - 1] == a + b';
      TransformChainConcat(start, a, b');
      var mid := LastOr(start, TransformChain(start, a));
      var tb := TransformChain(mid, b');
      assert LastOr(start, TransformChain(start, a) + tb) == LastOr(mid, tb);
    }
  }

  /** Summary bookkeeping of a stage: the delivered list grows by the stage's chain and the current
      summary is the last delivered one. */
  predicate SummaryAdvanced(st: EngineState, r: EngineState, scanners: seq<Scanner>) {
    && r.delivered == st.delivered + TransformChain(st.summary, scanners)
    && r.summary == LastOr(st.summary, TransformChain(st.summary, scanners))
  }

  lemma StageSummary(env: Environment, st: EngineState, s: Scanner, units: seq<Unit>)
    requires IdsIn(AllIds(units), st.components)
    ensures SummaryAdvanced(st, StageEffect(env, st, s, units).state, [s])
  {
    assert [s][..0] == [];
  }

  lemma {:induction false} RunStagesSummary(env: Environment, st: EngineState, stage: Stage, order: seq<string>, codebases: Outputs, scanners: seq<Scanner>)
    requires IdsIn(order, st.components) && WellKeyed(st.components) && IdsIn(OutputIds(codebases), st.components)
    requires AllKeep(scanners)
    ensures SummaryAdvanced(st, RunStages(env, st, stage, order, codebases, scanners), scanners)
    decreases |scanners|
  {
    if scanners != [] {
      var init := scanners[..|scanners| - 1];
      var s := scanners[|scanners| - 1];
      RunStagesSummaryStep(env, st, stage, order, codebases, scanners);
      RunStagesSummary(env, st, stage, order, codebases, init);
      assert init + [s] == scanners;
      SummaryAdvancedTrans(st, RunStages(env, st, stage, order, codebases, init),
        RunStages(env, st, stage, order, codebases, scanners), init, [s]);
    }
  }

  /** The last scanner of a stage advances the summary by one step. */
  lemma RunStagesSummaryStep(env: Environment, st: EngineState, stage: Stage, order: seq<string>, codebases: Outputs, scanners: seq<Scanner>)
    requires IdsIn(order, st.components) && WellKeyed(st.components) && IdsIn(OutputIds(codebases), st.components)
    requires AllKeep(scanners) && scanners != []
    ensures AllKeep(scanners[..|scanners| - 1])
    ensures SummaryAdvanced(RunStages(env, st, stage, order, codebases, scanners[..|scanners| - 1]),
      RunStages(env, st, stage, order, codebases, scanners), [scanners[|scanners| - 1]])
  {
    var prev := RunStages(env, st, stage, order, codebases, scanners[..|scanners| - 1]);
    StageSummary(env, prev, scanners[|scanners| - 1], StageUnits(stage, prev.components, order, codebases));
  }

  lemma SummaryAdvancedTrans(a: EngineState, b: EngineState, c: EngineState, x: seq<Scanner>, y: seq<Scanner>)
    requires SummaryAdvanced(a, b, x) && SummaryAdvanced(b, c, y)
    ensures SummaryAdvanced(a, c, x + y)
  {
    TransformChainConcat(a.summary, x, y);
  }

  /** Stage order and the summary fold: over a whole scan, the consumer receives, in the order
      component, repo, codebase, component-and-codebase, late component scanners, one summary per
      scanner whose refresh succeeded, each its transformer applied to the previous one (starting
      from the empty summary); the engine's final summary is the last of them. */
  lemma ScanDeliversSummariesInStageOrder(env: Environment, m: map<string, Component>, order: seq<string>, reg: Registry)
    requires WellKeyed(m)
    requires forall k :: k in order <==> k in m
    requires NoDuplicates(order)
    requires RegistryKeeps(reg)
    ensures EngineEffect(env, m, order, reg).delivered == TransformChain(EmptySummary, RunOrder(reg))
    ensures EngineEffect(env, m, order, reg).summary == LastOr(EmptySummary, TransformChain(EmptySummary, RunOrder(reg)))
  {
    var st0 := EngineState(m, EmptySummary, []);
    var st1 := RunStages(env, st0, ComponentStage, order, [], reg.componentScanners);
    RunStagesSummary(env, st0, ComponentStage, order, [], reg.componentScanners);
    var units := RepoStageUnits(st1.components, order);
    var repo := StageEffect(env, st1, reg.repoScanner, units);
    StageEffectGrows(env, st1, reg.repoScanner, units);
    StageSummary(env, st1, reg.repoScanner, units);
    var st2 := repo.state;
    SummaryAdvancedTrans(st0, st1, st2, reg.componentScanners, [reg.repoScanner]);
    var st3 := RunStages(env, st2, CodebaseStage, order, repo.outputs, reg.codebaseScanners);
    RunStagesSummary(env, st2, CodebaseStage, order, repo.outputs, reg.codebaseScanners);
    SummaryAdvancedTrans(st0, st2, st3, reg.componentScanners + [reg.repoScanner], reg.codebaseScanners);
    var st4 := RunStages(env, st3, ComponentAndCodebaseStage, order, repo.outputs, reg.componentAndCodebaseScanners);
    RunStagesSummary(env, st3, ComponentAndCodebaseStage, order, repo.outputs, reg.componentAndCodebaseScanners);
    SummaryAdvancedTrans(st0, st3, st4, reg.componentScanners + [reg.repoScanner] + reg.codebaseScanners, reg.componentAndCodebaseScanners);
    var st5 := RunStages(env, st4, ComponentStage, order, repo.outputs, reg.lateComponentScanners);
    RunStagesSummary(env, st4, ComponentStage, order, repo.outputs, reg.lateComponentScanners);
    SummaryAdvancedTrans(st0, st4, st5,
      reg.componentScanners + [reg.repoScanner] + reg.codebaseScanners + reg.componentAndCodebaseScanners, reg.lateComponentScanners);
  }

  /** A failed repo scanner leaves the codebase and component-and-codebase stages without units. */
  lemma FailedRepoScannerStarvesCodebaseStages(env: Environment, st: EngineState, s: Scanner, units: seq<Unit>, order: seq<string>)
    requires IdsIn(AllIds(units), st.components)
    requires s.refreshFailure.Some?
    requires IdsIn(order, st.components) && WellKeyed(st.components)
    ensures var r := StageEffect(env, st, s, units);
      && r.outputs == []
      && CodebaseUnits(r.outputs) == []
      && PairUnits(r.state.components, r.outputs) == []
  {
  }

  // ---------------------------------------------------------------------------------------------
  // The engine, in place

  /** The ObjectReference<Summary> of scan() together with the consumer it feeds: `delivered` is
      every summary handed to the consumer. */
  class SummaryChannel {
    var current: Summary
    var delivered: seq<Summary>

    constructor ()
      ensures current == EmptySummary && delivered == []
    {
      current := EmptySummary;
      delivered := [];
    }

    /** summaryTransformerConsumer: transform, hand to the consumer, then remember. */
    method Accept(transformer: Summary -> Summary)
      modifies this
      ensures current == transformer(old(current))
      ensures delivered == old(delivered) + [current]
    {
      var transformed := transformer(current);
      delivered := delivered + [transformed];
      current := transformed;
    }
  }

  method UpdateComponent(env: Environment, cm: ComponentMap, id: string, scannerId: string, u: Update)
    requires id in cm.entries
    modifies cm
    ensures cm.entries == old(cm.entries)[id := Updated(env, old(cm.entries)[id], scannerId, u)]
  {
    var component := Apply(u, cm.entries[id]);
    var violation := env.validate(component);
    if violation.Some? {
      component := AddErrors(component, [ScannerError(scannerId, ValidationFailureMessage, violation.value)]);
    }
    cm.entries := cm.entries[id := component];
  }

  method UpdateComponents(env: Environment, cm: ComponentMap, ids: seq<string>, scannerId: string, u: Update)
    requires IdsIn(ids, cm.entries)
    modifies cm
    ensures cm.entries == UpdateAll(env, old(cm.entries), ids, scannerId, u)
  {
    for i := 0 to |ids|
      invariant IdsIn(ids[..i], old(cm.entries))
      invariant cm.entries == UpdateAll(env, old(cm.entries), ids[..i], scannerId, u)
    {
      assert ids[..i + 1][..i] == ids[..i];
      UpdateComponent(env, cm, ids[i], scannerId, u);
    }
    assert ids[..|ids|] == ids;
  }

  /** executeScanner for one unit, in place. */
  method ExecuteUnit(env: Environment, cm: ComponentMap, s: Scanner, u: Unit) returns (output: Option<(Codebase, seq<string>)>)
    requires IdsIn(u.componentIds, cm.entries)
    modifies cm
    ensures UnitResult(cm.entries, output) == UnitEffect(env, old(cm.entries), s, u)
  {
    var out: Output;
    match s.scan(u.input) {
      case Returned(o) => out := o;
      case Threw(cause) => out := Output([ScannerError(s.id, ScanFailureMessage(env, u.input), cause)], None, None);
    }
    if |out.errors| > 0 {
      UpdateComponents(env, cm, u.componentIds, s.id, AppendErrors(out.errors));
    }
    if out.transformer.Some? {
      UpdateComponents(env, cm, u.componentIds, s.id, Transform(out.transformer.value));
    }
    output := if out.output.Some? then Some((out.output.value, u.componentIds)) else None;
  }

  /** The ids of the first `i + 1` units are among the ids of all of them. */
  lemma UnitsPrefixIds(units: seq<Unit>, i: nat, m: map<string, Component>)
    requires i < |units| && IdsIn(AllIds(units), m)
    ensures units[..i + 1][..i] == units[..i] && units[..i + 1][i] == units[i]
    ensures IdsIn(AllIds(units[..i + 1]), m) && IdsIn(units[i].componentIds, m)
  {
    assert units[..i + 1][..i] == units[..i];
    forall id | id in AllIds(units[..i + 1]) ensures id in m {
      var j :| 0 <= j < i + 1 && id in units[..i + 1][j].componentIds;
      assert units[..i + 1][j] == units[j];
    }
  }

  /** addScannerErrorsToComponents for every unit, in place. */
  method AddErrorsToUnits(env: Environment, cm: ComponentMap, units: seq<Unit>, scannerId: string, errors: seq<ScannerError>)
    requires IdsIn(AllIds(units), cm.entries)
    modifies cm
    ensures cm.entries == UpdateUnits(env, old(cm.entries), units, scannerId, AppendErrors(errors))
  {
    for i := 0 to |units|
      invariant IdsIn(AllIds(units[..i]), old(cm.entries))
      invariant cm.entries == UpdateUnits(env, old(cm.entries), units[..i], scannerId, AppendErrors(errors))
    {
      UnitsPrefixIds(units, i, old(cm.entries));
      UpdateComponents(env, cm, units[i].componentIds, scannerId, AppendErrors(errors));
    }
    assert units[..|units|] == units;
  }

  /** The per-unit half of executeScanner, in place: the units in the order given. */
  method ScanUnits(env: Environment, cm: ComponentMap, s: Scanner, units: seq<Unit>) returns (outputs: Outputs)
    requires IdsIn(AllIds(units), cm.entries)
    modifies cm
    ensures UnitsResult(cm.entries, outputs) == UnitsEffect(env, old(cm.entries), s, units)
  {
    outputs := [];
    for i := 0 to |units|
      invariant UnitsResult(cm.entries, outputs) == UnitsEffect(env, old(cm.entries), s, units[..i])
    {
      assert units[..i + 1][..i] == units[..i];
      var o := ExecuteUnit(env, cm, s, units[i]);
      if o.Some? {
        outputs := outputs + [o.value];
      }
    }
    assert units[..|units|] == units;
  }

  /** executeScanner for one scanner, in place. */
  method ExecuteScanner(env: Environment, cm: ComponentMap, channel: SummaryChannel, s: Scanner, units: seq<Unit>) returns (outputs: Outputs)
    requires IdsIn(AllIds(units), cm.entries)
    modifies cm, channel
    ensures StageEffect(env, EngineState(old(cm.entries), old(channel.current), old(channel.delivered)), s, units)
      == StageResult(EngineState(cm.entries, channel.current, channel.delivered), outputs)
  {
    if s.refreshFailure.Some? {
      AddErrorsToUnits(env, cm, units, s.id, [RefreshError(s)]);
      return [];
    }
    var sorted := SortUnits(env, units);
    SortedUnitsSameIds(env, units);
    outputs := ScanUnits(env, cm, s, sorted);
    channel.Accept(s.transformSummary);
  }

  /** A run of scanners of one stage, in place. */
  method ExecuteStage(env: Environment, cm: ComponentMap, channel: SummaryChannel, stage: Stage, order: seq<string>, codebases: Outputs, scanners: seq<Scanner>)
    requires IdsIn(order, cm.entries) && WellKeyed(cm.entries) && IdsIn(OutputIds(codebases), cm.entries)
    requires AllKeep(scanners)
    modifies cm, channel
    ensures EngineState(cm.entries, channel.current, channel.delivered)
      == RunStages(env, EngineState(old(cm.entries), old(channel.current), old(channel.delivered)), stage, order, codebases, scanners)
  {
    ghost var st0 := EngineState(cm.entries, channel.current, channel.delivered);
    for i := 0 to |scanners|
      invariant AllKeep(scanners[..i])
      invariant EngineState(cm.entries, channel.current, channel.delivered) == RunStages(env, st0, stage, order, codebases, scanners[..i])
    {
      RunStagesStep(env, st0, stage, order, codebases, scanners, i);
      var units := StageUnits(stage, cm.entries, order, codebases);
      var _ := ExecuteScanner(env, cm, channel, scanners[i], units);
    }
    assert scanners[..|scanners|] == scanners;
  }

  /** scan(): every stage in order over the shared map; returns what the consumer received. */
  method Scan(env: Environment, cm: ComponentMap, order: seq<string>, reg: Registry) returns (delivered: seq<Summary>)
    requires WellKeyed(cm.entries)
    requires forall k :: k in order <==> k in cm.entries
    requires NoDuplicates(order)
    requires RegistryKeeps(reg)
    modifies cm
    ensures cm.entries == EngineEffect(env, old(cm.entries), order, reg).components
    ensures delivered == EngineEffect(env, old(cm.entries), order, reg).delivered
  {
    var channel := new SummaryChannel();
    ExecuteStage(env, cm, channel, ComponentStage, order, [], reg.componentScanners);
    ghost var st1 := EngineState(cm.entries, channel.current, channel.delivered);
    var units := RepoStageUnits(cm.entries, order);
    var codebases := ExecuteScanner(env, cm, channel, reg.repoScanner, units);
    StageEffectGrows(env, st1, reg.repoScanner, units);
    ExecuteStage(env, cm, channel, CodebaseStage, order, codebases, reg.codebaseScanners);
    ExecuteStage(env, cm, channel, ComponentAndCodebaseStage, order, codebases, reg.componentAndCodebaseScanners);
    ExecuteStage(env, cm, channel, ComponentStage, order, codebases, reg.lateComponentScanners);
    delivered := channel.delivered;
  }
}
