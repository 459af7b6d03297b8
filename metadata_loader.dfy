/** ComponentMetadataLoader: turns merged component metadata into maps of areas, teams and
    components keyed by id. Each item is validated; an invalid item is skipped, and so is an item
    whose id is already loaded, so the first valid occurrence of an id wins. Cross-references
    (a team's area, a component's type, teams, platform and dependency targets) are only reported
    as warnings, never enforced. */
module MetadataLoader {
  import opened Common
  import opened Catalog
  import ComponentTypes

  /** The merged metadata; each list may be null. */
  datatype ComponentMetadata = ComponentMetadata(
    componentTypes: Option<seq<ComponentTypes.ComponentType>>,
    platforms: Option<seq<Platform>>,
    areas: Option<seq<Area>>,
    teams: Option<seq<Team>>,
    components: Option<seq<Component>>)

  /** Bean validation of the item kinds whose constraints this model does not spell out:
      Some(violation) when ValidatorService.validate throws. */
  datatype BeanValidation = BeanValidation(
    platform: Platform -> Option<string>,
    area: Area -> Option<string>,
    team: Team -> Option<string>,
    component: Component -> Option<string>)

  /** What an item validator does: throw a ValidationException (violation) or accept the item,
      possibly after logging warnings about it. */
  datatype Checked = Checked(violation: Option<string>, warnings: seq<string>)

  datatype Output = Output(areas: map<string, Area>, teams: map<string, Team>, components: map<string, Component>)

  // ---------------------------------------------------------------------------------------------
  // loadMapItems / loadMapItem

  /** loadMapItem applied to each item in turn, starting from an empty map. */
  function LoadItems<T>(items: seq<T>, idOf: T -> string, check: T -> Checked): map<string, T>
    decreases |items|
  {
    if items == [] then map[]
    else
      var m := LoadItems(items[..|items| - 1], idOf, check);
      var item := items[|items| - 1];
      if check(item).violation.Some? then m
      else if idOf(item) in m then m
      else m[idOf(item) := item]
  }

  /** loadMapItems: a null list loads nothing. */
  function LoadMapItems<T>(items: Option<seq<T>>, idOf: T -> string, check: T -> Checked): map<string, T> {
    match items
    case None => map[]
    case Some(s) => LoadItems(s, idOf, check)
  }

  /** Item `items[i]` passes validation and carries id `k`. */
  predicate ValidWithId<T>(items: seq<T>, i: int, k: string, idOf: T -> string, check: T -> Checked)
    requires 0 <= i < |items|
  {
    check(items[i]).violation.None? && idOf(items[i]) == k
  }

  /** The map holds, under each id that some valid item carries, the first valid item with that id,
      and nothing else. */
  ghost predicate FirstValidOccurrences<T>(items: seq<T>, idOf: T -> string, check: T -> Checked, r: map<string, T>) {
    && (forall k :: k in r <==> exists i :: 0 <= i < |items| && ValidWithId(items, i, k, idOf, check))
    && (forall k :: k in r ==> exists i :: 0 <= i < |items| && r[k] == items[i] && ValidWithId(items, i, k, idOf, check)
                                 && forall j :: 0 <= j < i ==> !ValidWithId(items, j, k, idOf, check))
  }

  /** Invalid items are skipped, a repeated id is skipped, so the first valid occurrence of an id is
      the one loaded; every key is its item's id. */
  lemma {:induction false} LoadItemsFirstValidWins<T>(items: seq<T>, idOf: T -> string, check: T -> Checked)
    ensures FirstValidOccurrences(items, idOf, check, LoadItems(items, idOf, check))
    ensures forall k :: k in LoadItems(items, idOf, check) ==> idOf(LoadItems(items, idOf, check)[k]) == k
    decreases |items|
  {
    if items != [] {
      var init := items[..|items| - 1];
      var n := |items| - 1;
      LoadItemsFirstValidWins(init, idOf, check);
      var m := LoadItems(init, idOf, check);
      var r := LoadItems(items, idOf, check);
      assert forall i :: 0 <= i < n ==> init[i] == items[i];
      var last := items[n];
      assert r == if check(last).violation.Some? || idOf(last) in m then m else m[idOf(last) := last];
      forall k ensures k in r <==> exists i :: 0 <= i < |items| && ValidWithId(items, i, k, idOf, check) {
        if k in m {
          var i :| 0 <= i < n && ValidWithId(init, i, k, idOf, check);
          assert ValidWithId(items, i, k, idOf, check);
        } else if k in r {
          assert ValidWithId(items, n, k, idOf, check);
        } else {
          forall i | 0 <= i < |items| ensures !ValidWithId(items, i, k, idOf, check) {
            if i < n {
              assert !ValidWithId(init, i, k, idOf, check);
            }
          }
        }
      }
      forall k | k in r ensures exists i :: 0 <= i < |items| && r[k] == items[i] && ValidWithId(items, i, k, idOf, check)
                                  && forall j :: 0 <= j < i ==> !ValidWithId(items, j, k, idOf, check)
      {
        if k in m {
          var i :| 0 <= i < n && m[k] == init[i] && ValidWithId(init, i, k, idOf, check)
                   && forall j :: 0 <= j < i ==> !ValidWithId(init, j, k, idOf, check);
          assert r[k] == items[i] && ValidWithId(items, i, k, idOf, check);
          forall j | 0 <= j < i ensures !ValidWithId(items, j, k, idOf, check) {
            assert !ValidWithId(init, j, k, idOf, check);
          }
        } else {
          assert r[k] == items[n] && ValidWithId(items, n, k, idOf, check);
          forall j | 0 <= j < n ensures !ValidWithId(items, j, k, idOf, check) {
            assert items[j] == init[j];
            assert !ValidWithId(init, j, k, idOf, check);
          }
        }
      }
    }
  }

  /** loadMapItems in place: a map filled item by item; loadMapItem returns early for an invalid
      item and for an id already present. */
  method LoadMapItemsInto<T>(items: Option<seq<T>>, idOf: T -> string, check: T -> Checked) returns (itemMap: map<string, T>)
    ensures itemMap == LoadMapItems(items, idOf, check)
    ensures items.Some? ==> FirstValidOccurrences(items.value, idOf, check, itemMap)
    ensures items.None? ==> itemMap == map[]
  {
    itemMap := map[];
    if items.None? {
      return;
    }
    var list := items.value;
    for i := 0 to |list|
      invariant itemMap == LoadItems(list[..i], idOf, check)
    {
      assert list[..i + 1][..i] == list[..i];
      var item := list[i];
      if check(item).violation.Some? {
        continue;
      }
      if idOf(item) in itemMap {
        continue;
      }
      itemMap := itemMap[idOf(item) := item];
    }
    assert list[..|list|] == list;
    LoadItemsFirstValidWins(list, idOf, check);
  }

  // ---------------------------------------------------------------------------------------------
  // The validators

  /** A bean violation throws before any cross-reference is looked at. */
  function Validated(violation: Option<string>, warnings: seq<string>): (c: Checked)
    ensures c.violation == violation
    ensures violation.Some? ==> c.warnings == []
    ensures violation.None? ==> c.warnings == warnings
  {
    if violation.Some? then Checked(violation, []) else Checked(None, warnings)
  }

  /** Component types: the constraints of ComponentType. */
  function ValidateComponentType(t: ComponentTypes.ComponentType): (c: Checked)
    ensures c.violation.None? <==> ComponentTypes.Valid(t)
    ensures c.warnings == []
  {
    Checked(if ComponentTypes.Valid(t) then None else Some("component type constraint violation"), [])
  }

  function ValidatePlatform(bean: BeanValidation, p: Platform): Checked {
    Checked(bean.platform(p), [])
  }

  function ValidateArea(bean: BeanValidation, a: Area): Checked {
    Checked(bean.area(a), [])
  }

  /** validateTeam: bean validation, then a warning when the team names an area that was not loaded. */
  function ValidateTeam(bean: BeanValidation, areas: map<string, Area>, t: Team): (c: Checked)
    ensures c.violation == bean.team(t)
    ensures c.violation.None? ==> (c.warnings != [] <==> t.areaId.Some? && t.areaId.value !in areas)
  {
    Validated(bean.team(t),
      if t.areaId.Some? && t.areaId.value !in areas then ["Cannot find area " + t.areaId.value + " for team " + t.id] else [])
  }

  /** The warnings of validateComponent, in the order it logs them. */
  function ComponentWarnings(types: map<string, ComponentTypes.ComponentType>, platforms: map<string, Platform>,
                             teams: map<string, Team>, componentIds: set<string>, c: Component): seq<string>
  {
    var f := c.facets;
    (if f.typeId !in types then ["Cannot find component type " + f.typeId + " for component " + c.id] else [])
    + MissingTeams(teams, c.id, f.teamIds)
    + (if f.platformId.Some? && f.platformId.value !in platforms then ["Cannot find platform " + f.platformId.value + " for component " + c.id] else [])
    + MissingTargets(componentIds, c.id, f.dependencies)
  }

  function MissingTeams(teams: map<string, Team>, componentId: string, teamIds: seq<string>): (r: seq<string>)
    ensures r == [] <==> forall i :: 0 <= i < |teamIds| ==> teamIds[i] in teams
  {
    if teamIds == [] then []
    else
      (if teamIds[0] in teams then [] else ["Cannot find team " + teamIds[0] + " for component " + componentId])
      + MissingTeams(teams, componentId, teamIds[1..])
  }

  function MissingTargets(componentIds: set<string>, componentId: string, deps: seq<ComponentDependency>): (r: seq<string>)
    ensures r == [] <==> forall i :: 0 <= i < |deps| ==> deps[i].targetComponentId in componentIds
  {
    if deps == [] then []
    else
      (if deps[0].targetComponentId in componentIds then []
       else ["Cannot find target component " + deps[0].targetComponentId + " for dependency of component " + componentId])
      + MissingTargets(componentIds, componentId, deps[1..])
  }

  /** validateComponent: bean validation, then warnings for every unknown cross-reference. */
  function ValidateComponent(bean: BeanValidation, types: map<string, ComponentTypes.ComponentType>, platforms: map<string, Platform>,
                             teams: map<string, Team>, componentIds: set<string>, c: Component): (r: Checked)
    ensures r.violation == bean.component(c)
  {
    Validated(bean.component(c), ComponentWarnings(types, platforms, teams, componentIds, c))
  }

  /** A component passes validation exactly when bean validation accepts it, whatever its type,
      teams, platform and dependency targets refer to; a bean-valid component gets no warning
      exactly when all of them are known. */
  lemma CrossReferencesOnlyWarn(bean: BeanValidation, types: map<string, ComponentTypes.ComponentType>, platforms: map<string, Platform>,
                                teams: map<string, Team>, componentIds: set<string>, c: Component)
    requires bean.component(c).None?
    ensures ValidateComponent(bean, types, platforms, teams, componentIds, c).violation.None?
    ensures ValidateComponent(bean, types, platforms, teams, componentIds, c).warnings == [] <==>
      && c.facets.typeId in types
      && (forall i :: 0 <= i < |c.facets.teamIds| ==> c.facets.teamIds[i] in teams)
      && (c.facets.platformId.Some? ==> c.facets.platformId.value in platforms)
      && (forall i :: 0 <= i < |c.facets.dependencies| ==> c.facets.dependencies[i].targetComponentId in componentIds)
  {
    var f := c.facets;
    var a := if f.typeId !in types then ["Cannot find component type " + f.typeId + " for component " + c.id] else [];
    var b := MissingTeams(teams, c.id, f.teamIds);
    var p := if f.platformId.Some? && f.platformId.value !in platforms then ["Cannot find platform " + f.platformId.value + " for component " + c.id] else [];
    var d := MissingTargets(componentIds, c.id, f.dependencies);
    assert |a + b + p + d| == |a| + |b| + |p| + |d|;
  }

  /** getComponentIds: the ids of every declared component, valid or not. */
  function DeclaredIds(components: seq<Component>): (ids: set<string>)
    ensures forall i :: 0 <= i < |components| ==> components[i].id in ids
    ensures forall id :: id in ids ==> exists i :: 0 <= i < |components| && components[i].id == id
  {
    set i | 0 <= i < |components| :: components[i].id
  }

  // ---------------------------------------------------------------------------------------------
  // loadComponentMetadata

  function TypeId(t: ComponentTypes.ComponentType): string { t.id }
  function PlatformId(p: Platform): string { p.id }
  function AreaId(a: Area): string { a.id }
  function TeamId(t: Team): string { t.id }
  function ComponentId(c: Component): string { c.id }

  function PlatformCheck(bean: BeanValidation): Platform -> Checked {
    p => ValidatePlatform(bean, p)
  }

  function AreaCheck(bean: BeanValidation): Area -> Checked {
    a => ValidateArea(bean, a)
  }

  function TeamCheck(bean: BeanValidation, areas: map<string, Area>): Team -> Checked {
    t => ValidateTeam(bean, areas, t)
  }

  function ComponentCheck(bean: BeanValidation, types: map<string, ComponentTypes.ComponentType>, platforms: map<string, Platform>,
                          teams: map<string, Team>, componentIds: set<string>): Component -> Checked {
    c => ValidateComponent(bean, types, platforms, teams, componentIds, c)
  }

  function LoadedTypes(md: ComponentMetadata): map<string, ComponentTypes.ComponentType> {
    LoadMapItems(md.componentTypes, TypeId, ValidateComponentType)
  }

  function LoadedPlatforms(bean: BeanValidation, md: ComponentMetadata): map<string, Platform> {
    LoadMapItems(md.platforms, PlatformId, PlatformCheck(bean))
  }

  function LoadedAreas(bean: BeanValidation, md: ComponentMetadata): map<string, Area> {
    LoadMapItems(md.areas, AreaId, AreaCheck(bean))
  }

  function LoadedTeams(bean: BeanValidation, md: ComponentMetadata): map<string, Team> {
    LoadMapItems(md.teams, TeamId, TeamCheck(bean, LoadedAreas(bean, md)))
  }

  /** The components, validated against the types, platforms and teams loaded before them and
      against the given set of declared component ids. */
  function LoadedComponents(bean: BeanValidation, md: ComponentMetadata, componentIds: set<string>): map<string, Component> {
    LoadMapItems(md.components, ComponentId,
      ComponentCheck(bean, LoadedTypes(md), LoadedPlatforms(bean, md), LoadedTeams(bean, md), componentIds))
  }

  /** Every loaded map is keyed by the ids of its items. */
  lemma LoadedKeyedByIds(bean: BeanValidation, md: ComponentMetadata, componentIds: set<string>)
    ensures WellKeyed(LoadedComponents(bean, md, componentIds))
    ensures forall k :: k in LoadedAreas(bean, md) ==> LoadedAreas(bean, md)[k].id == k
    ensures forall k :: k in LoadedTeams(bean, md) ==> LoadedTeams(bean, md)[k].id == k
  {
    if md.areas.Some? {
      LoadItemsFirstValidWins(md.areas.value, AreaId, AreaCheck(bean));
    }
    if md.teams.Some? {
      LoadItemsFirstValidWins(md.teams.value, TeamId, TeamCheck(bean, LoadedAreas(bean, md)));
    }
    if md.components.Some? {
      LoadItemsFirstValidWins(md.components.value, ComponentId,
        ComponentCheck(bean, LoadedTypes(md), LoadedPlatforms(bean, md), LoadedTeams(bean, md), componentIds));
    }
  }

  /** loadComponentMetadata as written: component types, platforms, areas, teams, then components.
      The set of declared component ids is computed from the components list before any component
      is loaded; a null list makes that throw a NullPointerException. */
  function LoadComponentMetadataAsWritten(bean: BeanValidation, md: ComponentMetadata): (r: Result<Output, string>)
    ensures r.Err? <==> md.components.None?
  {
    if md.components.None? then Err("NullPointerException")
    else Ok(Output(LoadedAreas(bean, md), LoadedTeams(bean, md), LoadedComponents(bean, md, DeclaredIds(md.components.value))))
  }

  /** loadComponentMetadata with the declared ids of a null components list taken as empty, as
      loadMapItems treats the null list itself. */
  function LoadComponentMetadata(bean: BeanValidation, md: ComponentMetadata): (r: Output)
    ensures md.components.Some? ==> LoadComponentMetadataAsWritten(bean, md) == Ok(r)
    ensures md.components.None? ==> r.components == map[]
    ensures WellKeyed(r.components)
    ensures forall k :: k in r.areas ==> r.areas[k].id == k
    ensures forall k :: k in r.teams ==> r.teams[k].id == k
  {
    LoadedKeyedByIds(bean, md, if md.components.Some? then DeclaredIds(md.components.value) else {});
    Output(LoadedAreas(bean, md), LoadedTeams(bean, md),
      LoadedComponents(bean, md, if md.components.Some? then DeclaredIds(md.components.value) else {}))
  }

  /** A null components list makes the loader as written throw, although loadMapItems loads the
      null list itself as an empty map, and the corrected loader returns the other maps as usual. */
  lemma NullComponentListThrows(bean: BeanValidation, md: ComponentMetadata)
    requires md.components.None?
    ensures LoadComponentMetadataAsWritten(bean, md).Err?
    ensures LoadMapItems(md.components, ComponentId, (c: Component) => Checked(None, [])) == map[]
    ensures LoadComponentMetadata(bean, md) == Output(LoadedAreas(bean, md), LoadedTeams(bean, md), map[])
  {
  }

  /** Only whether each item passes validation decides what is loaded; warnings play no part. */
  lemma {:induction false} LoadItemsIgnoresWarnings<T>(items: seq<T>, idOf: T -> string, check1: T -> Checked, check2: T -> Checked)
    requires forall i :: 0 <= i < |items| ==> check1(items[i]).violation == check2(items[i]).violation
    ensures LoadItems(items, idOf, check1) == LoadItems(items, idOf, check2)
    decreases |items|
  {
    if items != [] {
      var init := items[..|items| - 1];
      assert forall i :: 0 <= i < |init| ==> init[i] == items[i];
      LoadItemsIgnoresWarnings(init, idOf, check1, check2);
    }
  }

  /** Component validation with the cross-reference checks removed. */
  function BeanOnly(bean: BeanValidation): Component -> Checked {
    c => Checked(bean.component(c), [])
  }

  /** The loaded components are what bean validation alone would load: the first bean-valid
      component of each id, keyed by that id, whatever types, teams, platforms and dependency
      targets the components name. */
  lemma LoadedComponentsAreFirstValid(bean: BeanValidation, md: ComponentMetadata)
    requires md.components.Some?
    ensures LoadComponentMetadata(bean, md).components == LoadItems(md.components.value, ComponentId, BeanOnly(bean))
    ensures FirstValidOccurrences(md.components.value, ComponentId, BeanOnly(bean), LoadComponentMetadata(bean, md).components)
  {
    var cs := md.components.value;
    var check := ComponentCheck(bean, LoadedTypes(md), LoadedPlatforms(bean, md), LoadedTeams(bean, md), DeclaredIds(cs));
    forall i | 0 <= i < |cs| ensures check(cs[i]).violation == BeanOnly(bean)(cs[i]).violation {
      assert check(cs[i]).violation == bean.component(cs[i]);
    }
    LoadItemsIgnoresWarnings(cs, ComponentId, check, BeanOnly(bean));
    LoadItemsFirstValidWins(cs, ComponentId, BeanOnly(bean));
  }

  /** A bean-valid team is loaded whatever area it names, provided no earlier valid team has its id. */
  lemma TeamWithUnknownAreaStillLoaded(bean: BeanValidation, md: ComponentMetadata, i: nat)
    requires md.teams.Some? && i < |md.teams.value|
    requires bean.team(md.teams.value[i]).None?
    requires forall j :: 0 <= j < i ==> !(bean.team(md.teams.value[j]).None? && md.teams.value[j].id == md.teams.value[i].id)
    ensures md.teams.value[i].id in LoadComponentMetadata(bean, md).teams
    ensures LoadComponentMetadata(bean, md).teams[md.teams.value[i].id] == md.teams.value[i]
  {
    var ts := md.teams.value;
    var check := TeamCheck(bean, LoadedAreas(bean, md));
    var k := ts[i].id;
    LoadItemsFirstValidWins(ts, TeamId, check);
    var out := LoadItems(ts, TeamId, check);
    assert ValidWithId(ts, i, k, TeamId, check);
    var i' :| 0 <= i' < |ts| && out[k] == ts[i'] && ValidWithId(ts, i', k, TeamId, check)
              && forall j :: 0 <= j < i' ==> !ValidWithId(ts, j, k, TeamId, check);
    assert check(ts[i']).violation == bean.team(ts[i']);
    assert i' >= i;
    assert i' <= i;
  }

  /** Dependency targets are checked against every declared component, so a dependency on a
      component that is itself skipped as invalid draws no warning. */
  lemma SkippedTargetNotReported(bean: BeanValidation, md: ComponentMetadata, c: Component, target: nat)
    requires md.components.Some? && target < |md.components.value|
    requires bean.component(md.components.value[target]).Some?
    requires c.facets.dependencies == [ComponentDependency(md.components.value[target].id)]
    ensures MissingTargets(DeclaredIds(md.components.value), c.id, c.facets.dependencies) == []
  {
  }
}
