/** ArtifactVersionResolver: turns a possibly dynamic version (`1.+`, `latest.release`, a range) into
    a concrete one. Gradle's selector scheme and version comparator are foreign: a selector is
    described by whether it is dynamic and which versions it accepts, and versions are ordered by a
    total preorder on their source strings. */
module ArtifactVersions {
  import opened Common
  import opened Catalog

  datatype Selector = Selector(dynamic: bool, accepts: string -> bool)

  datatype Environment = Environment(
    /** VersionSelectorScheme.parseSelector */
    parseSelector: string -> Selector,
    /** DefaultVersionComparator on parsed versions, as "a is not above b" */
    versionLe: (string, string) -> bool,
    /** ArtifactVersionsFetcher.fetchArtifactVersions; `Err` is an exception it throws */
    fetchArtifactVersions: (string, string, set<SoftwareRepository>) -> Result<seq<string>, string>)

  datatype Failure =
    | FetchFailed(cause: string)
    /** "Could not find matching version for ..." naming the requested artifact */
    | NoMatchingVersion(groupId: string, artifactId: string, version: string)

  /** The fetched versions, highest first (the comparator reversed), stable for equal versions. */
  function HighestFirst(env: Environment, versions: seq<string>): seq<string> {
    SortBy(versions, Reversed(env.versionLe))
  }

  /** resolveArtifactVersion */
  function ResolveArtifactVersion(env: Environment, groupId: string, artifactId: string, version: string,
                                  repositories: set<SoftwareRepository>): (r: Result<string, Failure>)
    ensures !env.parseSelector(version).dynamic ==> r == Ok(version)
    ensures env.parseSelector(version).dynamic && r.Ok? ==>
      && env.fetchArtifactVersions(groupId, artifactId, repositories).Ok?
      && r.value in env.fetchArtifactVersions(groupId, artifactId, repositories).value
      && env.parseSelector(version).accepts(r.value)
  {
    var selector := env.parseSelector(version);
    if !selector.dynamic then Ok(version)
    else match env.fetchArtifactVersions(groupId, artifactId, repositories)
      case Err(e) => Err(FetchFailed(e))
      case Ok(fetched) =>
        var sorted := HighestFirst(env, fetched);
        match FindFirst(sorted, selector.accepts)
          case None => Err(NoMatchingVersion(groupId, artifactId, version))
          case Some(i) =>
            SortByMembers(fetched, Reversed(env.versionLe), sorted[i]);
            Ok(sorted[i])
  }

  /** A dynamic version resolves to a fetched version that the selector accepts and that no other
      accepted version is above. */
  lemma ResolvedIsHighestAccepted(env: Environment, groupId: string, artifactId: string, version: string,
                                  repositories: set<SoftwareRepository>)
    requires TotalPreorder(env.versionLe)
    requires env.parseSelector(version).dynamic
    requires ResolveArtifactVersion(env, groupId, artifactId, version, repositories).Ok?
    ensures var v := ResolveArtifactVersion(env, groupId, artifactId, version, repositories).value;
            var fetched := env.fetchArtifactVersions(groupId, artifactId, repositories).value;
            && v in fetched
            && env.parseSelector(version).accepts(v)
            && forall w :: w in fetched && env.parseSelector(version).accepts(w) ==> env.versionLe(w, v)
  {
    var selector := env.parseSelector(version);
    var fetched := env.fetchArtifactVersions(groupId, artifactId, repositories).value;
    var sorted := HighestFirst(env, fetched);
    var i := FindFirst(sorted, selector.accepts).value;
    var v := sorted[i];
    SortByMembers(fetched, Reversed(env.versionLe), v);
    ReversedIsTotalPreorder(env.versionLe);
    SortBySorted(fetched, Reversed(env.versionLe));
    forall w | w in fetched && selector.accepts(w)
      ensures env.versionLe(w, v)
    {
      SortByMembers(fetched, Reversed(env.versionLe), w);
      var j :| 0 <= j < |sorted| && sorted[j] == w;
      assert j >= i;
      if j > i {
        assert Reversed(env.versionLe)(sorted[i], sorted[j]);
      }
    }
  }

  /** A dynamic version fails exactly when the fetch fails or no fetched version is accepted. */
  lemma NoAcceptedVersionFails(env: Environment, groupId: string, artifactId: string, version: string,
                               repositories: set<SoftwareRepository>)
    requires env.parseSelector(version).dynamic
    requires env.fetchArtifactVersions(groupId, artifactId, repositories).Ok?
    ensures ResolveArtifactVersion(env, groupId, artifactId, version, repositories).Err?
        <==> forall w :: w in env.fetchArtifactVersions(groupId, artifactId, repositories).value
                         ==> !env.parseSelector(version).accepts(w)
    ensures ResolveArtifactVersion(env, groupId, artifactId, version, repositories).Err? ==>
        ResolveArtifactVersion(env, groupId, artifactId, version, repositories).error == NoMatchingVersion(groupId, artifactId, version)
  {
    var selector := env.parseSelector(version);
    var fetched := env.fetchArtifactVersions(groupId, artifactId, repositories).value;
    var sorted := HighestFirst(env, fetched);
    forall w ensures w in sorted <==> w in fetched {
      SortByMembers(fetched, Reversed(env.versionLe), w);
    }
  }
}
