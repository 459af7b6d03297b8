/** The catalog's value types: components with the facts scanners attach to them (their facets),
    the errors scanners record against them, the repositories and codebases they live in, and the
    summary of observed call graphs. Java's `null` is `None`. */
module Catalog {
  import opened Common
  import opened SummaryDependencies

  /** A file-system path as its list of components below the root; the root itself is `[]`. */
  type Path = seq<string>

  /** Path.getParent(): drops the last component (the root has no parent and stays the root). */
  function Parent(p: Path): (q: Path)
    ensures p != [] ==> q + [p[|p| - 1]] == p
    ensures p == [] ==> q == []
  {
    if p == [] then [] else p[..|p| - 1]
  }

  /** Path.startsWith(other): `other` is a leading part of `p`, component by component. */
  predicate StartsWith(p: Path, other: Path) {
    IsPrefix(other, p)
  }

  datatype ScannerError = ScannerError(scannerId: string, message: string, cause: string)

  datatype Repo = Repo(url: string, ref: Option<string>)

  datatype Codebase = Codebase(repo: Repo, dir: Path)

  datatype SoftwareType = Jvm | Tool | Other
  datatype SoftwareDependencyType = Direct | Transitive

  datatype Software = Software(
    scannerId: string,
    softwareType: SoftwareType,
    dependencyType: SoftwareDependencyType,
    name: string,
    version: string,
    packaging: Option<string>)

  datatype SoftwareRepositoryScope = Normal | Buildscript
  datatype SoftwareRepository = SoftwareRepository(scannerId: string, url: string, scope: SoftwareRepositoryScope)

  datatype KeySoftware = KeySoftware(name: string, versions: seq<string>)

  datatype ComponentDependency = ComponentDependency(targetComponentId: string)

  datatype Zipkin = Zipkin(used: Option<bool>)
  datatype Readme = Readme(content: string)
  datatype Gradle = Gradle(used: bool)

  /** Everything about a component except its id and scanner errors: the metadata it was loaded with
      and the facts scanners add. */
  datatype Facets = Facets(
    typeId: string,
    platformId: Option<string>,
    teamIds: seq<string>,
    dependencies: seq<ComponentDependency>,
    repo: Repo,
    software: Option<seq<Software>>,
    softwareRepositories: seq<SoftwareRepository>,
    keySoftware: Option<seq<KeySoftware>>,
    zipkin: Option<Zipkin>,
    readme: Option<Readme>,
    gradle: Option<Gradle>)

  datatype Component = Component(id: string, scannerErrors: seq<ScannerError>, facets: Facets)

  /** Component.withScannerErrors applied to the old errors followed by `newErrors`. */
  function AddErrors(c: Component, newErrors: seq<ScannerError>): (r: Component)
    ensures r.id == c.id && r.facets == c.facets
    ensures |r.scannerErrors| == |c.scannerErrors| + |newErrors|
    ensures r.scannerErrors[..|c.scannerErrors|] == c.scannerErrors
    ensures r.scannerErrors[|c.scannerErrors|..] == newErrors
  {
    c.(scannerErrors := c.scannerErrors + newErrors)
  }

  /** A component map is keyed by component id. */
  predicate WellKeyed(m: map<string, Component>) {
    forall k :: k in m ==> m[k].id == k
  }

  datatype Area = Area(id: string)
  datatype Team = Team(id: string, areaId: Option<string>)
  datatype Platform = Platform(id: string)

  datatype SubComponentNode = SubComponentNode(componentId: Option<string>, spanName: string, tags: map<string, string>)

  datatype SummaryCallGraph = SummaryCallGraph(
    nodes: seq<SubComponentNode>,
    dependencies: seq<SummaryComponentDependency>,
    traceCount: int)

  datatype Summary = Summary(subComponentNodes: seq<SubComponentNode>, callGraphs: seq<SummaryCallGraph>)

  const EmptySummary := Summary([], [])

  /** Test priorities; only HIGH is used by the tests in this model. */
  datatype Priority = High | Medium | Low

  datatype TestOutcome = Pass | Fail | NotApplicable

  /** The result of a component test; a test may leave the message out. */
  datatype TestResult = TestResult(testId: string, outcome: TestOutcome, priority: Priority, message: Option<string>)

  /** The map of components by id that the engine and the repository share and update in place. */
  class ComponentMap {
    var entries: map<string, Component>

    constructor (entries: map<string, Component>)
      ensures this.entries == entries
    {
      this.entries := entries;
    }
  }
}
