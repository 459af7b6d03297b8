/** DependencyVersionFetcher: records a Spring Boot BOM (bill of materials) as software, fetches its POM
    and collects the versions its dependency-management section pins. The POM fetcher and the artifact
    coordinate parser are foreign and appear as functions of `Environment`. */
module DependencyVersions {
  import opened Common
  import opened Catalog

  /** MavenPackagings.BOM */
  const BomPackaging := "bom"

  datatype ArtifactParts = ArtifactParts(name: string, version: string)

  datatype DependencyItem = DependencyItem(name: string, version: string)

  datatype Pom = Pom(transitiveArtifactCoordinates: seq<string>, dependencyManagementDependencies: Option<seq<DependencyItem>>)

  /** What the POM fetcher found: only a jar, or a POM. */
  datatype PomOutcome = JarOnly | PomFound(pom: Pom)

  datatype Environment = Environment(
    artifactParts: string -> ArtifactParts,
    /** PomFetcher.fetchPom; `Err` is an exception it throws. */
    fetchPom: (string, set<SoftwareRepository>) -> Result<PomOutcome, string>)

  /** addProjectObjectModelSoftware: the software record for one POM artifact. */
  function PomSoftware(env: Environment, scannerId: string, coordinates: string, dependencyType: SoftwareDependencyType): (r: Software)
    ensures r.softwareType == Jvm && r.packaging == Some(BomPackaging)
    ensures r.scannerId == scannerId && r.dependencyType == dependencyType
    ensures r.name == env.artifactParts(coordinates).name && r.version == env.artifactParts(coordinates).version
  {
    var parts := env.artifactParts(coordinates);
    Software(scannerId, Jvm, dependencyType, parts.name, parts.version, Some(BomPackaging))
  }

  /** The TRANSITIVE software records for a list of coordinates. */
  function TransitiveSoftware(env: Environment, scannerId: string, coordinates: seq<string>): set<Software> {
    if coordinates == [] then {}
    else
      var last := PomSoftware(env, scannerId, coordinates[|coordinates| - 1], Transitive);
      TransitiveSoftware(env, scannerId, coordinates[..|coordinates| - 1]) + {last}
  }

  lemma {:induction false} TransitiveSoftwareMembers(env: Environment, scannerId: string, coordinates: seq<string>, s: Software)
    ensures s in TransitiveSoftware(env, scannerId, coordinates)
        <==> exists c :: c in coordinates && s == PomSoftware(env, scannerId, c, Transitive)
    decreases |coordinates|
  {
    if coordinates != [] {
      var init := coordinates[..|coordinates| - 1];
      TransitiveSoftwareMembers(env, scannerId, init, s);
      assert coordinates == init + [coordinates[|coordinates| - 1]];
      if s in TransitiveSoftware(env, scannerId, coordinates) && s !in TransitiveSoftware(env, scannerId, init) {
        assert s == PomSoftware(env, scannerId, coordinates[|coordinates| - 1], Transitive);
      }
    }
  }

  /** One dependency-management item: its version joins the set under its name, created when absent. */
  function AddVersion(versions: map<string, set<string>>, item: DependencyItem): map<string, set<string>> {
    var existing := if item.name in versions then versions[item.name] else {};
    versions[item.name := existing + {item.version}]
  }

  function AddVersions(versions: map<string, set<string>>, items: seq<DependencyItem>): map<string, set<string>> {
    if items == [] then versions
    else AddVersion(AddVersions(versions, items[..|items| - 1]), items[|items| - 1])
  }

  /** After collecting, `name` maps to a set holding `v` exactly when it did before or some item pins
      `name` at `v`. */
  lemma {:induction false} AddVersionsMembers(versions: map<string, set<string>>, items: seq<DependencyItem>, name: string, v: string)
    ensures (name in AddVersions(versions, items) && v in AddVersions(versions, items)[name])
        <==> (name in versions && v in versions[name]) || DependencyItem(name, v) in items
    decreases |items|
  {
    if items != [] {
      var init := items[..|items| - 1];
      AddVersionsMembers(versions, init, name, v);
      assert items == init + [items[|items| - 1]];
    }
  }

  /** Collecting never removes a name or a version; it only adds the items' names. */
  lemma {:induction false} AddVersionsGrows(versions: map<string, set<string>>, items: seq<DependencyItem>)
    ensures AddVersions(versions, items).Keys == versions.Keys + set i | i in items :: i.name
    ensures forall n :: n in versions ==> versions[n] <= AddVersions(versions, items)[n]
    decreases |items|
  {
    if items != [] {
      var init := items[..|items| - 1];
      AddVersionsGrows(versions, init);
      assert items == init + [items[|items| - 1]];
      assert (set i | i in items :: i.name) == (set i | i in init :: i.name) + {items[|items| - 1].name};
    }
  }

  datatype Fetched = Fetched(versions: map<string, set<string>>, software: set<Software>, failure: Option<string>)

  /** What findDependencyVersions leaves in the caller's collections, and the exception it raises. */
  function FetchEffect(env: Environment, scannerId: string, pomCoordinates: string, repositories: set<SoftwareRepository>,
                       versions: map<string, set<string>>, software: set<Software>): Fetched
  {
    var withBom := software + {PomSoftware(env, scannerId, pomCoordinates, Direct)};
    match env.fetchPom(pomCoordinates, repositories)
    case Err(e) => Fetched(versions, withBom, Some(e))
    case Ok(JarOnly) => Fetched(versions, withBom, None)
    case Ok(PomFound(pom)) =>
      var pinned := if pom.dependencyManagementDependencies.Some? then AddVersions(versions, pom.dependencyManagementDependencies.value) else versions;
      Fetched(pinned, withBom + TransitiveSoftware(env, scannerId, pom.transitiveArtifactCoordinates), None)
  }

  /** findDependencyVersions. The caller's software set and version map, which Java updates in place,
      go in as `software` and `versions` and come back as `software'` and `versions'`; `failure` is
      an exception from the POM fetcher, raised after the BOM itself was already recorded. */
  method FindDependencyVersions(env: Environment, scannerId: string, pomCoordinates: string,
                                repositories: set<SoftwareRepository>,
                                versions: map<string, set<string>>, software: set<Software>)
    returns (versions': map<string, set<string>>, software': set<Software>, failure: Option<string>)
    ensures Fetched(versions', software', failure) == FetchEffect(env, scannerId, pomCoordinates, repositories, versions, software)
    ensures PomSoftware(env, scannerId, pomCoordinates, Direct) in software'
    ensures failure.Some? <==> env.fetchPom(pomCoordinates, repositories).Err?
    ensures env.fetchPom(pomCoordinates, repositories).Err? || env.fetchPom(pomCoordinates, repositories) == Ok(JarOnly)
        ==> software' == software + {PomSoftware(env, scannerId, pomCoordinates, Direct)} && versions' == versions
    ensures env.fetchPom(pomCoordinates, repositories).Ok? && env.fetchPom(pomCoordinates, repositories).value.PomFound? ==>
      var pom := env.fetchPom(pomCoordinates, repositories).value.pom;
      && software' == software + {PomSoftware(env, scannerId, pomCoordinates, Direct)}
                      + TransitiveSoftware(env, scannerId, pom.transitiveArtifactCoordinates)
      && versions' == (if pom.dependencyManagementDependencies.Some? then AddVersions(versions, pom.dependencyManagementDependencies.value) else versions)
  {
    software' := software + {PomSoftware(env, scannerId, pomCoordinates, Direct)};
    versions' := versions;
    failure := None;
    var outcome := env.fetchPom(pomCoordinates, repositories);
    if outcome.Err? {
      failure := Some(outcome.error);
      return;
    }
    if outcome.value.PomFound? {
      var pom := outcome.value.pom;
      var coordinates := pom.transitiveArtifactCoordinates;
      for i := 0 to |coordinates|
        invariant software' == software + {PomSoftware(env, scannerId, pomCoordinates, Direct)}
                               + TransitiveSoftware(env, scannerId, coordinates[..i])
      {
        assert coordinates[..i + 1][..i] == coordinates[..i];
        software' := software' + {PomSoftware(env, scannerId, coordinates[i], Transitive)};
      }
      assert coordinates[..|coordinates|] == coordinates;
      if pom.dependencyManagementDependencies.Some? {
        var items := pom.dependencyManagementDependencies.value;
        for i := 0 to |items|
          invariant versions' == AddVersions(versions, items[..i])
        {
          assert items[..i + 1][..i] == items[..i];
          var item := items[i];
          var existing: set<string>;
          if item.name in versions' {
            existing := versions'[item.name];
          } else {
            existing := {};
          }
          versions' := versions'[item.name := existing + {item.version}];
        }
        assert items[..|items|] == items;
      }
    }
  }
}
