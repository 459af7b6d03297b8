/*
 * The git cloner: where a repository is cloned to, which credentials it is cloned with, whether an
 * existing clone is fetched or cloned afresh, and which remote ref is checked out. The file system
 * is a set of directories plus the git clones among them; jgit's remote calls (fetch, ls-remote),
 * the URL encoder and the URI host parser are parameters.
 */
module GitCloning {
  import opened Common
  import opened Catalog

  const HeadRefName := "HEAD"
  const TagRefNamePrefix := "refs/tags/"
  const BranchRefNamePrefix := "refs/heads/"

  /** A remote ref: its full name and the id of the object it points at. */
  datatype Ref = Ref(name: string, objectId: string)

  /** A configured git host with the user name and password to use for it. */
  datatype GitHost = GitHost(host: string, username: string, password: string)

  datatype Credentials = UsernamePassword(username: string, password: string)

  /** A git clone on disk: the URL it was cloned from and the object checked out, if any. */
  datatype LocalClone = LocalClone(url: string, checkedOut: Option<string>)

  /** The directories on disk and the git clones among them, by directory. */
  datatype Disk = Disk(dirs: set<Path>, clones: map<Path, LocalClone>)

  /** Every clone lives in a directory that exists. */
  predicate Valid(disk: Disk) {
    forall p :: p in disk.clones ==> p in disk.dirs
  }

  datatype CloneFailure =
    | RefNotFound(repoRef: Option<string>)
    /** the encoded repo URL names no child of the repos directory */
    | NoRepoDir(dirName: string)

  /** How cloneOrFetchGit obtained the clone. */
  datatype FetchOutcome =
    /** the directory held a clone and fetching into it succeeded */
    | Reused
    /** the directory existed but opening or fetching failed, so it was deleted and cloned again */
    | Recloned
    /** the directory did not exist */
    | Cloned

  // ---------------------------------------------------------------------------------------------
  // Repo directory and credentials

  /** A directory name that denotes a child of the directory it is resolved against: not empty, and
      not one of the `.` and `..` entries every directory has (URLEncoder leaves dots as they are). */
  predicate ChildName(name: string) {
    name != "" && name != "." && name != ".."
  }

  /** getRepoDir as written: the directory on disk that `reposDir.resolve(name)` denotes for the
      encoded URL `name` (the encoder is a parameter). Resolving the empty path gives the repos
      directory itself, `.` denotes it too and `..` its parent; any other name, a child of it. */
  function RepoDirAsWritten(reposDir: Path, encode: string -> string, repoUrl: string): (p: Path)
    ensures !ChildName(encode(repoUrl)) ==> IsPrefix(p, reposDir)
    ensures ChildName(encode(repoUrl)) ==> p != [] && Parent(p) == reposDir && p[|p| - 1] == encode(repoUrl)
  {
    var name := encode(repoUrl);
    if name == "" || name == "." then reposDir
    else if name == ".." then Parent(reposDir)
    else reposDir + [name]
  }

  /** As written, a repo URL that encodes to "", "." or ".." resolves to the repos directory or its
      parent. That directory exists and holds no clone, so cloneOrFetchGit deletes it, and with it
      the clone of every other repo. */
  lemma {:induction false} NoChildNameDeletesAllClones(disk: Disk, reposDir: Path, encode: string -> string, repoUrl: string, fetchSucceeds: bool)
    requires !ChildName(encode(repoUrl))
    requires RepoDirAsWritten(reposDir, encode, repoUrl) in disk.dirs
    requires RepoDirAsWritten(reposDir, encode, repoUrl) !in disk.clones
    ensures var d := RepoDirAsWritten(reposDir, encode, repoUrl);
      && CloneOrFetchOutcome(disk, d, fetchSucceeds) == Recloned
      && forall p :: p in disk.clones && IsPrefix(reposDir, p) ==> p !in DeleteTree(disk, d).clones
  {
    var d := RepoDirAsWritten(reposDir, encode, repoUrl);
    forall p | p in disk.clones && IsPrefix(reposDir, p) ensures p !in DeleteTree(disk, d).clones {
      PrefixTrans(d, reposDir, p);
    }
  }

  lemma PrefixTrans(a: Path, b: Path, c: Path)
    requires IsPrefix(a, b) && IsPrefix(b, c)
    ensures IsPrefix(a, c)
  {
    assert c[..|a|] == c[..|b|][..|a|];
  }

  /** getRepoDir, corrected: a URL whose encoding names no child of the repos directory is refused
      before anything on disk is touched; otherwise the directory is the one the source resolves, the
      child of the repos directory named by the encoded URL. */
  function RepoDir(reposDir: Path, encode: string -> string, repoUrl: string): (r: Result<Path, CloneFailure>)
    ensures r.Ok? <==> ChildName(encode(repoUrl))
    ensures r.Ok? ==> r.value == RepoDirAsWritten(reposDir, encode, repoUrl)
    ensures r.Ok? ==> r.value != [] && Parent(r.value) == reposDir && r.value[|r.value| - 1] == encode(repoUrl)
    ensures r.Err? ==> r.error == NoRepoDir(encode(repoUrl))
  {
    var name := encode(repoUrl);
    if ChildName(name) then Ok(RepoDirAsWritten(reposDir, encode, repoUrl)) else Err(NoRepoDir(name))
  }

  /** Two repos share a directory exactly when their URLs encode alike, and otherwise neither
      directory lies inside the other: an injective encoder keeps clones apart. */
  lemma RepoDirsApart(reposDir: Path, encode: string -> string, url1: string, url2: string)
    requires RepoDir(reposDir, encode, url1).Ok? && RepoDir(reposDir, encode, url2).Ok?
    ensures var d1, d2 := RepoDir(reposDir, encode, url1).value, RepoDir(reposDir, encode, url2).value;
      && (d1 == d2 <==> encode(url1) == encode(url2))
      && (encode(url1) != encode(url2) ==> !IsPrefix(d1, d2))
  {
    var d1, d2 := RepoDir(reposDir, encode, url1).value, RepoDir(reposDir, encode, url2).value;
    assert |d1| == |d2| == |reposDir| + 1;
    if IsPrefix(d1, d2) {
      assert d1 == d2;
    }
  }

  function HostIs(urlHost: Option<string>): GitHost -> bool {
    (h: GitHost) => Some(h.host) == urlHost
  }

  /** getCredentialsProvider: no credentials when no hosts are configured; otherwise those of the first
      configured host equal to the URL's host (`None` when the URL has none), if there is one. */
  function CredentialsFor(hosts: Option<seq<GitHost>>, urlHost: Option<string>): (r: Option<Credentials>)
    ensures hosts.None? ==> r.None?
    ensures hosts.Some? ==> (r.None? <==> forall i :: 0 <= i < |hosts.value| ==> Some(hosts.value[i].host) != urlHost)
  {
    match hosts
    case None => None
    case Some(entries) =>
      match FindFirst(entries, HostIs(urlHost))
      case None => None
      case Some(i) => Some(UsernamePassword(entries[i].username, entries[i].password))
  }

  /** The credentials are those of the first matching host entry, whatever entries follow it. */
  lemma CredentialsOfFirstMatchingHost(hosts: seq<GitHost>, urlHost: Option<string>, i: nat)
    requires i < |hosts| && Some(hosts[i].host) == urlHost
    requires forall j :: 0 <= j < i ==> Some(hosts[j].host) != urlHost
    ensures CredentialsFor(Some(hosts), urlHost) == Some(UsernamePassword(hosts[i].username, hosts[i].password))
  {
    var k := FindFirst(hosts, HostIs(urlHost));
    assert HostIs(urlHost)(hosts[i]);
  }

  // ---------------------------------------------------------------------------------------------
  // Ref selection

  /** doesRefMatchSimpleName */
  predicate MatchesSimpleName(ref: Ref, simpleName: string) {
    ref.name == BranchRefNamePrefix + simpleName || ref.name == TagRefNamePrefix + simpleName
  }

  /** The refs checkoutRef accepts: `HEAD` for no ref, the branch or tag of that name otherwise. */
  predicate Selects(repoRef: Option<string>, ref: Ref) {
    match repoRef
    case None => ref.name == HeadRefName
    case Some(simpleName) => MatchesSimpleName(ref, simpleName)
  }

  function Selector(repoRef: Option<string>): Ref -> bool {
    (ref: Ref) => Selects(repoRef, ref)
  }

  /** getHeadRef for no ref, getRefBySimpleName otherwise: the first remote ref accepted. */
  function SelectRef(refs: seq<Ref>, repoRef: Option<string>): (r: Option<Ref>)
    ensures r.None? <==> forall i :: 0 <= i < |refs| ==> !Selects(repoRef, refs[i])
    ensures r.Some? ==> r.value in refs && Selects(repoRef, r.value)
  {
    match FindFirst(refs, Selector(repoRef))
    case None => None
    case Some(i) => Some(refs[i])
  }

  /** The ref selected is the first one accepted, whatever refs follow it. */
  lemma SelectRefIsFirst(refs: seq<Ref>, repoRef: Option<string>, i: nat)
    requires i < |refs| && Selects(repoRef, refs[i])
    requires forall j :: 0 <= j < i ==> !Selects(repoRef, refs[j])
    ensures SelectRef(refs, repoRef) == Some(refs[i])
  {
    var k := FindFirst(refs, Selector(repoRef));
    assert Selector(repoRef)(refs[i]);
  }

  /** A named ref never selects `HEAD`: both prefixes are longer than it. */
  lemma NamedRefIsNeverHead(simpleName: string, ref: Ref)
    requires ref.name == HeadRefName
    ensures !Selects(Some(simpleName), ref)
  {
    assert |BranchRefNamePrefix + simpleName| > |HeadRefName|;
    assert |TagRefNamePrefix + simpleName| > |HeadRefName|;
  }

  /** A branch ref is selected only by its own name, never by the name of another branch or of a tag. */
  lemma BranchSelectedOnlyByItsName(simpleName: string, branch: string, objectId: string)
    requires Selects(Some(simpleName), Ref(BranchRefNamePrefix + branch, objectId))
    ensures simpleName == branch
  {
    var name := BranchRefNamePrefix + branch;
    assert name[5] != (TagRefNamePrefix + simpleName)[5];
    assert name[|BranchRefNamePrefix|..] == branch;
    assert (BranchRefNamePrefix + simpleName)[|BranchRefNamePrefix|..] == simpleName;
  }

  /** A tag ref is selected only by its own name. */
  lemma TagSelectedOnlyByItsName(simpleName: string, tag: string, objectId: string)
    requires Selects(Some(simpleName), Ref(TagRefNamePrefix + tag, objectId))
    ensures simpleName == tag
  {
    var name := TagRefNamePrefix + tag;
    assert name[5] != (BranchRefNamePrefix + simpleName)[5];
    assert name[|TagRefNamePrefix|..] == tag;
    assert (TagRefNamePrefix + simpleName)[|TagRefNamePrefix|..] == simpleName;
  }

  // ---------------------------------------------------------------------------------------------
  // The disk

  /** A path and all its ancestors below the root: what Files.createDirectories leaves behind. */
  function Ancestry(p: Path): (r: set<Path>)
    ensures p != [] ==> p in r
    ensures forall q :: q in r ==> q != [] && IsPrefix(q, p)
  {
    assert p != [] ==> p[..|p|] == p;
    set i | 1 <= i <= |p| :: p[..i]
  }

  /** FileSystemUtils.deleteRecursively: the directory and everything below it are gone. */
  function DeleteTree(disk: Disk, dir: Path): (r: Disk)
    ensures forall d :: d in r.dirs <==> d in disk.dirs && !IsPrefix(dir, d)
    ensures forall p :: p in r.clones <==> p in disk.clones && !IsPrefix(dir, p)
    ensures forall p :: p in r.clones ==> r.clones[p] == disk.clones[p]
  {
    Disk(set d | d in disk.dirs && !IsPrefix(dir, d),
         map p | p in disk.clones && !IsPrefix(dir, p) :: disk.clones[p])
  }

  /** A clone into a directory: it and its ancestors exist, and it holds a fresh clone with nothing
      checked out. */
  function CloneInto(disk: Disk, dir: Path, url: string): (r: Disk)
    requires dir != []
    ensures r.dirs == disk.dirs + Ancestry(dir)
    ensures r.clones == disk.clones[dir := LocalClone(url, None)]
  {
    Disk(disk.dirs + Ancestry(dir), disk.clones[dir := LocalClone(url, None)])
  }

  /** The decision cloneOrFetchGit takes. Opening a directory that holds no clone fails like a fetch. */
  function CloneOrFetchOutcome(disk: Disk, repoDir: Path, fetchSucceeds: bool): (o: FetchOutcome)
    ensures o == Reused <==> repoDir in disk.dirs && repoDir in disk.clones && fetchSucceeds
    ensures o == Cloned <==> repoDir !in disk.dirs
  {
    if repoDir in disk.dirs then
      if repoDir in disk.clones && fetchSucceeds then Reused else Recloned
    else
      Cloned
  }

  /** The disk after cloneOrFetchGit took its decision. */
  function AfterCloneOrFetch(disk: Disk, repoDir: Path, repoUrl: string, outcome: FetchOutcome): Disk
    requires repoDir != []
  {
    match outcome
    case Reused => disk
    case Recloned => CloneInto(DeleteTree(disk, repoDir), repoDir, repoUrl)
    case Cloned => CloneInto(disk, repoDir, repoUrl)
  }

  /** After cloneOrFetchGit the repo dir holds a clone: the one that was there when it was reused,
      otherwise a fresh clone of the URL; clones outside the repo dir are untouched, and every clone
      still lives in an existing directory. */
  lemma CloneOrFetchLeavesClone(disk: Disk, repoDir: Path, repoUrl: string, fetchSucceeds: bool)
    requires repoDir != [] && Valid(disk)
    ensures var o := CloneOrFetchOutcome(disk, repoDir, fetchSucceeds);
      var after := AfterCloneOrFetch(disk, repoDir, repoUrl, o);
      && Valid(after)
      && repoDir in after.clones
      && (o == Reused ==> after.clones[repoDir] == disk.clones[repoDir])
      && (o != Reused ==> after.clones[repoDir] == LocalClone(repoUrl, None))
      && (forall p :: p in disk.clones && !IsPrefix(repoDir, p) ==> p in after.clones && after.clones[p] == disk.clones[p])
  {
    var o := CloneOrFetchOutcome(disk, repoDir, fetchSucceeds);
    var after := AfterCloneOrFetch(disk, repoDir, repoUrl, o);
    assert IsPrefix(repoDir, repoDir);
    forall p | p in disk.clones && !IsPrefix(repoDir, p) ensures p in after.clones && after.clones[p] == disk.clones[p] {
      assert p != repoDir;
    }
    if o == Recloned {
      var cleared := DeleteTree(disk, repoDir);
      assert Valid(cleared);
    }
  }

  /** The disk after checking out `ref` in the clone in `repoDir`. */
  function CheckedOut(disk: Disk, repoDir: Path, ref: Ref): (r: Disk)
    requires repoDir in disk.clones
    ensures r.dirs == disk.dirs && r.clones.Keys == disk.clones.Keys
    ensures r.clones[repoDir] == disk.clones[repoDir].(checkedOut := Some(ref.objectId))
    ensures forall p :: p in disk.clones && p != repoDir ==> r.clones[p] == disk.clones[p]
  {
    disk.(clones := disk.clones[repoDir := disk.clones[repoDir].(checkedOut := Some(ref.objectId))])
  }

  /** cloneOrPullRepo(repoUrl, repoRef) on a disk: clone or fetch, then check out the selected remote
      ref; when no remote ref matches, the clone or fetch has happened and nothing is checked out. */
  function PullEffect(disk: Disk, repoDir: Path, repoUrl: string, repoRef: Option<string>,
                      fetchSucceeds: bool, remoteRefs: seq<Ref>): (r: (Disk, Result<Path, CloneFailure>))
    requires repoDir != []
  {
    var fetched := AfterCloneOrFetch(disk, repoDir, repoUrl, CloneOrFetchOutcome(disk, repoDir, fetchSucceeds));
    assert repoDir in fetched.clones by {
      if repoDir !in disk.dirs || repoDir !in disk.clones || !fetchSucceeds {
        assert IsPrefix(repoDir, repoDir);
      }
    }
    match SelectRef(remoteRefs, repoRef)
    case None => (fetched, Err(RefNotFound(repoRef)))
    case Some(ref) => (CheckedOut(fetched, repoDir, ref), Ok(repoDir))
  }

  /** A pull fails exactly when no remote ref is accepted; a successful pull leaves the selected ref
      checked out in a clone in the repo dir. */
  lemma PullOutcome(disk: Disk, repoDir: Path, repoUrl: string, repoRef: Option<string>,
                    fetchSucceeds: bool, remoteRefs: seq<Ref>)
    requires repoDir != [] && Valid(disk)
    ensures var (after, r) := PullEffect(disk, repoDir, repoUrl, repoRef, fetchSucceeds, remoteRefs);
      && Valid(after)
      && (r.Err? <==> forall i :: 0 <= i < |remoteRefs| ==> !Selects(repoRef, remoteRefs[i]))
      && (r.Err? ==> r.error == RefNotFound(repoRef))
      && (r.Ok? ==>
            && r.value == repoDir && repoDir in after.clones
            && after.clones[repoDir].checkedOut == Some(SelectRef(remoteRefs, repoRef).value.objectId))
  {
    CloneOrFetchLeavesClone(disk, repoDir, repoUrl, fetchSucceeds);
  }

  /** Pulling again with a fetch that succeeds and the same remote refs changes nothing. */
  lemma PullIsRepeatable(disk: Disk, repoDir: Path, repoUrl: string, repoRef: Option<string>,
                         fetchSucceeds: bool, remoteRefs: seq<Ref>)
    requires repoDir != [] && Valid(disk)
    requires PullEffect(disk, repoDir, repoUrl, repoRef, fetchSucceeds, remoteRefs).1.Ok?
    ensures var once := PullEffect(disk, repoDir, repoUrl, repoRef, fetchSucceeds, remoteRefs).0;
      PullEffect(once, repoDir, repoUrl, repoRef, true, remoteRefs) == PullEffect(disk, repoDir, repoUrl, repoRef, fetchSucceeds, remoteRefs)
  {
    var once := PullEffect(disk, repoDir, repoUrl, repoRef, fetchSucceeds, remoteRefs).0;
    PullOutcome(disk, repoDir, repoUrl, repoRef, fetchSucceeds, remoteRefs);
    var ref := SelectRef(remoteRefs, repoRef).value;
    assert CloneOrFetchOutcome(once, repoDir, true) == Reused;
    var again := CheckedOut(once, repoDir, ref);
    assert again.clones == once.clones;
  }

  // ---------------------------------------------------------------------------------------------
  // The cloner

  class GitCloner {
    /** the repos directory configured for the service */
    const configuredReposDir: Path
    /** reposDir, set by initialize */
    var reposDir: Option<Path>
    var disk: Disk

    constructor (configuredReposDir: Path, disk: Disk)
      ensures this.configuredReposDir == configuredReposDir && this.disk == disk && reposDir == None
    {
      this.configuredReposDir := configuredReposDir;
      this.disk := disk;
      reposDir := None;
    }

    /** initialize: remember the repos directory and create it with its ancestors. */
    method Initialize()
      modifies this
      ensures reposDir == Some(configuredReposDir)
      ensures disk == old(disk).(dirs := old(disk).dirs + Ancestry(configuredReposDir))
    {
      reposDir := Some(configuredReposDir);
      disk := disk.(dirs := disk.dirs + Ancestry(configuredReposDir));
    }

    method DeleteRecursively(dir: Path)
      modifies this
      ensures disk == DeleteTree(old(disk), dir) && reposDir == old(reposDir)
    {
      disk := DeleteTree(disk, dir);
    }

    /** clone: jgit creates the directory and clones into it. */
    method Clone(repoUrl: string, repoDir: Path)
      requires repoDir != []
      modifies this
      ensures disk == CloneInto(old(disk), repoDir, repoUrl) && reposDir == old(reposDir)
    {
      disk := disk.(dirs := disk.dirs + Ancestry(repoDir));
      disk := disk.(clones := disk.clones[repoDir := LocalClone(repoUrl, None)]);
    }

    /** cloneOrFetchGit; whether fetching from the remote succeeds is a parameter. */
    method CloneOrFetchGit(repoUrl: string, repoDir: Path, fetchSucceeds: bool) returns (outcome: FetchOutcome)
      requires repoDir != []
      modifies this
      ensures outcome == CloneOrFetchOutcome(old(disk), repoDir, fetchSucceeds)
      ensures disk == AfterCloneOrFetch(old(disk), repoDir, repoUrl, outcome) && reposDir == old(reposDir)
    {
      if repoDir in disk.dirs {
        if repoDir in disk.clones && fetchSucceeds {
          return Reused;
        }
        DeleteRecursively(repoDir);
        Clone(repoUrl, repoDir);
        return Recloned;
      }
      Clone(repoUrl, repoDir);
      outcome := Cloned;
    }

    /** checkoutRef: check out the selected remote ref, or fail without checking anything out. */
    method CheckoutRef(repoDir: Path, remoteRefs: seq<Ref>, repoRef: Option<string>) returns (r: Result<Ref, CloneFailure>)
      requires repoDir in disk.clones
      modifies this
      ensures match SelectRef(remoteRefs, repoRef)
        case None => r == Err(RefNotFound(repoRef)) && disk == old(disk)
        case Some(ref) => r == Ok(ref) && disk == CheckedOut(old(disk), repoDir, ref)
      ensures reposDir == old(reposDir)
    {
      var refMatch: Option<Ref>;
      if repoRef.None? {
        refMatch := SelectRef(remoteRefs, None);
      } else {
        refMatch := SelectRef(remoteRefs, repoRef);
      }
      if refMatch.None? {
        return Err(RefNotFound(repoRef));
      }
      var clone := disk.clones[repoDir];
      disk := disk.(clones := disk.clones[repoDir := clone.(checkedOut := Some(refMatch.value.objectId))]);
      r := Ok(refMatch.value);
    }

    /** cloneOrPullRepo: the URL's host, the remote's fetch outcome and its refs are parameters, the
        latter two depending on the credentials chosen for the URL. */
    method CloneOrPullRepo(repoUrl: string, repoRef: Option<string>, encode: string -> string,
                           hosts: Option<seq<GitHost>>, urlHost: Option<string>,
                           fetchSucceeds: Option<Credentials> -> bool, remoteRefs: Option<Credentials> -> seq<Ref>)
      returns (r: Result<Path, CloneFailure>)
      requires reposDir.Some?
      modifies this
      ensures match RepoDir(old(reposDir).value, encode, repoUrl)
        case Err(e) => r == Err(e) && disk == old(disk)
        case Ok(repoDir) =>
          var credentials := CredentialsFor(hosts, urlHost);
          (disk, r) == PullEffect(old(disk), repoDir, repoUrl, repoRef, fetchSucceeds(credentials), remoteRefs(credentials))
      ensures reposDir == old(reposDir)
    {
      var dir := RepoDir(reposDir.value, encode, repoUrl);
      if dir.Err? {
        return Err(dir.error);
      }
      var repoDir := dir.value;
      var credentials := CredentialsFor(hosts, urlHost);
      var outcome := CloneOrFetchGit(repoUrl, repoDir, fetchSucceeds(credentials));
      assert IsPrefix(repoDir, repoDir);
      var checkout := CheckoutRef(repoDir, remoteRefs(credentials), repoRef);
      if checkout.Err? {
        return Err(checkout.error);
      }
      r := Ok(repoDir);
    }
  }
}
