/** GradleScanner: finds a codebase's Gradle build files and, for each, walks the chain of build files
    from `settings.gradle` down to it through a fixed list of processing phases, collecting the
    software and software repositories the chain declares.

    File contents, the Groovy parser, the build-file visitors and the plugin processor are foreign:
    they are functions of `Environment`. The inheriting maps and sets of one build-file chain are
    modelled as one "layer" of own entries per chain index; an item's contents as seen from index `i`
    are the layers `0..i` merged, later layers overriding earlier ones. A version added to a set an
    item inherits is recorded in that item's own layer: the write-through to the ancestor that owns
    the set is not modelled. */
module GradleScanning {
  import opened Common
  import opened Catalog
  import ScanEngine
  import DependencyVersions

  const ScannerId := "gradle"
  const BuildGradle := "build.gradle"
  const SettingsGradle := "settings.gradle"
  const GradleProperties := "gradle.properties"

  // ---------------------------------------------------------------------------------------------
  // The build-file chain

  /** What the do-while loop of getBuildFileChain collects from `current` on: `current` itself after
      the files found further up; `Err` when a parent of the root would be needed (Java's null). */
  function WalkUp(codebaseDir: Path, current: Path): (r: Result<seq<Path>, string>)
    decreases |current|
  {
    if |current| < 2 then Err("NullPointerException")
    else
      var next := Parent(Parent(current)) + [BuildGradle];
      if StartsWith(next, codebaseDir) then Append(WalkUp(codebaseDir, next), [current])
      else Ok([current])
  }

  function Append(r: Result<seq<Path>, string>, tail: seq<Path>): Result<seq<Path>, string> {
    match r
    case Ok(s) => Ok(s + tail)
    case Err(e) => Err(e)
  }

  lemma AppendAppend(r: Result<seq<Path>, string>, a: seq<Path>, b: seq<Path>)
    ensures Append(Append(r, a), b) == Append(r, a + b)
    ensures Append(r, []) == r
  {
    if r.Ok? {
      assert r.value + a + b == r.value + (a + b);
      assert r.value + [] == r.value;
    }
  }

  /** The chain getBuildFileChain returns: `settings.gradle` of the codebase, then the walk. */
  function BuildFileChain(codebaseDir: Path, buildFile: Path): Result<seq<Path>, string> {
    match WalkUp(codebaseDir, buildFile)
    case Ok(s) => Ok([codebaseDir + [SettingsGradle]] + s)
    case Err(e) => Err(e)
  }

  /** getBuildFileChain: prepends each build file, then `build.gradle` two levels up (the parent
      directory's), for as long as that lies under the codebase directory, and finally the codebase's
      `settings.gradle`. */
  method GetBuildFileChain(codebaseDir: Path, buildFile: Path) returns (chain: Result<seq<Path>, string>)
    ensures chain == BuildFileChain(codebaseDir, buildFile)
  {
    var files: seq<Path> := [];
    var current := buildFile;
    AppendAppend(WalkUp(codebaseDir, buildFile), [], []);
    while true
      invariant WalkUp(codebaseDir, buildFile) == Append(WalkUp(codebaseDir, current), files)
      decreases |current|
    {
      if |current| < 2 {
        assert WalkUp(codebaseDir, buildFile) == Err("NullPointerException");
        return Err("NullPointerException");
      }
      var next := Parent(Parent(current)) + [BuildGradle];
      if !StartsWith(next, codebaseDir) {
        assert WalkUp(codebaseDir, current) == Ok([current]);
        assert WalkUp(codebaseDir, buildFile) == Ok([current] + files);
        return Ok([codebaseDir + [SettingsGradle]] + ([current] + files));
      }
      AppendAppend(WalkUp(codebaseDir, next), [current], files);
      files := [current] + files;
      current := next;
    }
  }

  /** The `build.gradle` files of the codebase directory and of every directory on the way down to
      `codebaseDir + rel`, top first. */
  function BuildFilesDown(codebaseDir: Path, rel: seq<string>): (r: seq<Path>)
    ensures |r| == |rel| + 1
    ensures forall k :: 0 <= k <= |rel| ==> r[k] == codebaseDir + rel[..k] + [BuildGradle]
  {
    if rel == [] then [codebaseDir + [BuildGradle]]
    else
      var up := rel[..|rel| - 1];
      assert forall k :: 0 <= k <= |up| ==> up[..k] == rel[..k];
      assert rel[..|rel|] == rel;
      BuildFilesDown(codebaseDir, up) + [codebaseDir + rel + [BuildGradle]]
  }

  /** The chain for the build file `codebaseDir + rel + ["build.gradle"]`. */
  function ChainOf(codebaseDir: Path, rel: seq<string>): seq<Path> {
    [codebaseDir + [SettingsGradle]] + BuildFilesDown(codebaseDir, rel)
  }

  lemma {:induction false} WalkUpBelowCodebase(codebaseDir: Path, rel: seq<string>)
    requires codebaseDir != [] && codebaseDir[|codebaseDir| - 1] != BuildGradle
    ensures WalkUp(codebaseDir, codebaseDir + rel + [BuildGradle]) == Ok(BuildFilesDown(codebaseDir, rel))
    decreases |rel|
  {
    var current := codebaseDir + rel + [BuildGradle];
    assert Parent(current) == codebaseDir + rel;
    if rel == [] {
      var next := Parent(Parent(current)) + [BuildGradle];
      assert next[|next| - 1] == BuildGradle;
      assert |next| == |codebaseDir|;
      assert !StartsWith(next, codebaseDir);
      assert current == codebaseDir + [BuildGradle];
    } else {
      var up := rel[..|rel| - 1];
      assert Parent(codebaseDir + rel) == codebaseDir + up;
      assert StartsWith(codebaseDir + up + [BuildGradle], codebaseDir);
      WalkUpBelowCodebase(codebaseDir, up);
    }
  }

  /** For a build file below a codebase directory (one not itself named `build.gradle`), the walk
      stops exactly at the codebase directory's own `build.gradle`. */
  lemma BuildFileChainBelowCodebase(codebaseDir: Path, rel: seq<string>)
    requires codebaseDir != [] && codebaseDir[|codebaseDir| - 1] != BuildGradle
    ensures BuildFileChain(codebaseDir, codebaseDir + rel + [BuildGradle]) == Ok(ChainOf(codebaseDir, rel))
  {
    WalkUpBelowCodebase(codebaseDir, rel);
  }

  /** The chain starts with the codebase's `settings.gradle`, ends with the build file, every entry
      lies under the codebase directory, and every build file before the last is `build.gradle` in the
      parent directory of the next entry's directory. */
  lemma ChainShape(codebaseDir: Path, rel: seq<string>)
    ensures var chain := ChainOf(codebaseDir, rel);
      && |chain| == |rel| + 2
      && chain[0] == codebaseDir + [SettingsGradle]
      && chain[|chain| - 1] == codebaseDir + rel + [BuildGradle]
      && (forall k :: 0 <= k < |chain| ==> StartsWith(chain[k], codebaseDir) && |chain[k]| > |codebaseDir|)
      && (forall k :: 1 <= k < |chain| - 1 ==> chain[k] == Parent(Parent(chain[k + 1])) + [BuildGradle])
  {
    var chain := ChainOf(codebaseDir, rel);
    assert rel[..|rel|] == rel;
    forall k | 1 <= k < |chain| - 1 ensures chain[k] == Parent(Parent(chain[k + 1])) + [BuildGradle] {
      assert chain[k + 1] == codebaseDir + rel[..k] + [BuildGradle];
      assert Parent(chain[k + 1]) == codebaseDir + rel[..k];
      assert rel[..k][..k - 1] == rel[..k - 1];
      assert Parent(codebaseDir + rel[..k]) == codebaseDir + rel[..k - 1];
    }
    forall k | 0 <= k < |chain| ensures StartsWith(chain[k], codebaseDir) {
      if k > 0 {
        assert (codebaseDir + rel[..k - 1] + [BuildGradle])[..|codebaseDir|] == codebaseDir;
      }
    }
  }

  // ---------------------------------------------------------------------------------------------
  // Project modes and processing phases

  datatype ProjectMode = Settings | ThisProject | Subproject

  datatype ProcessPhase =
    | Initialize | Properties | Plugins | BuildscriptRepositories | BuildscriptDependencies
    | ApplyPlugins | Repositories | DependencyManagement | Dependencies | Finalize

  /** PROCESS_PHASES, in the order the phases run. */
  const ProcessPhases: seq<ProcessPhase> := [Initialize, Properties, Plugins, BuildscriptRepositories,
    BuildscriptDependencies, ApplyPlugins, Repositories, DependencyManagement, Dependencies, Finalize]

  /** Path.getFileName() of a path other than the root. */
  function FileName(p: Path): string
    requires p != []
  {
    p[|p| - 1]
  }

  /** getProjectMode */
  function ProjectModeOf(chain: seq<Path>, index: nat): ProjectMode
    requires index < |chain| && chain[0] != []
  {
    if index == 0 && FileName(chain[index]) == SettingsGradle then Settings
    else if index == |chain| - 1 then ThisProject
    else Subproject
  }

  /** Along a chain of build files, the first file is processed in SETTINGS mode, the last (the build
      file the chain was made for) in THIS_PROJECT mode, and every one in between in SUBPROJECT mode. */
  lemma ModesAlongChain(codebaseDir: Path, rel: seq<string>, index: nat)
    requires codebaseDir != [] && codebaseDir[|codebaseDir| - 1] != BuildGradle
    requires index < |rel| + 2
    ensures var chain := ChainOf(codebaseDir, rel);
      && (index == 0 <==> ProjectModeOf(chain, index) == Settings)
      && (index == |chain| - 1 <==> ProjectModeOf(chain, index) == ThisProject)
      && (0 < index < |chain| - 1 <==> ProjectModeOf(chain, index) == Subproject)
  {
    var chain := ChainOf(codebaseDir, rel);
    assert FileName(chain[0]) == SettingsGradle;
  }

  /** getInheritingItem: in INITIALIZE a new item is appended, the root item at index 0 and otherwise
      a child of the item before it; in any other phase the item at `index` is returned and the list
      is left as it was. */
  function InheritingItem<T>(list: seq<T>, index: nat, phase: ProcessPhase, root: T, child: T -> T): (r: (T, seq<T>))
    requires phase == Initialize && index > 0 ==> index <= |list|
    requires phase != Initialize ==> index < |list|
  {
    if phase == Initialize then
      var item := if index == 0 then root else child(list[index - 1]);
      (item, list + [item])
    else (list[index], list)
  }

  /** Running INITIALIZE over indices `0..n` from an empty list gives one item per index: the root
      first and then each item a child of the one before; every later phase reads those items back. */
  lemma {:induction false} InitializeBuildsChainOfItems<T>(root: T, child: T -> T, n: nat)
    ensures var list := InitializedItems(root, child, n);
      && |list| == n
      && (n > 0 ==> list[0] == root)
      && (forall k :: 0 < k < n ==> list[k] == child(list[k - 1]))
      && (forall k, phase :: 0 <= k < n && phase != Initialize ==> InheritingItem(list, k, phase, root, child) == (list[k], list))
  {
    if n > 0 {
      InitializeBuildsChainOfItems(root, child, n - 1);
    }
  }

  /** The list after INITIALIZE has visited indices `0..n`. */
  function InitializedItems<T>(root: T, child: T -> T, n: nat): (r: seq<T>)
    ensures |r| == n
  {
    if n == 0 then []
    else
      var list := InitializedItems(root, child, n - 1);
      InheritingItem(list, n - 1, Initialize, root, child).1
  }

  // ---------------------------------------------------------------------------------------------
  // The Gradle wrapper version

  predicate IsDigit(c: char) {
    '0' <= c <= '9'
  }

  predicate DigitRun(s: string) {
    |s| > 0 && forall i :: 0 <= i < |s| ==> IsDigit(s[i])
  }

  /** The group `[0-9]+\.[0-9]+(\.[0-9]+)?`: two or three digit runs joined by dots. */
  ghost predicate VersionShape(v: string) {
    TwoRuns(v) || ThreeRuns(v)
  }

  ghost predicate TwoRuns(v: string) {
    exists a, b :: DigitRun(a) && DigitRun(b) && v == a + "." + b
  }

  ghost predicate ThreeRuns(v: string) {
    exists a, b, c :: DigitRun(a) && DigitRun(b) && DigitRun(c) && v == a + "." + b + "." + c
  }

  const WrapperPrefix := "/gradle-"

  /** The pattern `/gradle-([0-9]+\.[0-9]+(\.[0-9]+)?)-` matches at `p` with group 1 equal to `v`. */
  ghost predicate VersionAt(url: string, p: nat, v: string) {
    && p + |WrapperPrefix| + |v| < |url|
    && url[p..p + |WrapperPrefix|] == WrapperPrefix
    && url[p + |WrapperPrefix|..p + |WrapperPrefix| + |v|] == v
    && url[p + |WrapperPrefix| + |v|] == '-'
    && VersionShape(v)
  }

  /** The end of the run of digits starting at `i`. */
  function SkipDigits(s: string, i: nat): (r: nat)
    requires i <= |s|
    ensures i <= r <= |s|
    ensures forall k :: i <= k < r ==> IsDigit(s[k])
    ensures r == |s| || !IsDigit(s[r])
    decreases |s| - i
  {
    if i < |s| && IsDigit(s[i]) then SkipDigits(s, i + 1) else i
  }

  lemma {:induction false} SkipDigitsStopsAt(s: string, i: nat, j: nat)
    requires i <= j <= |s|
    requires forall k :: i <= k < j ==> IsDigit(s[k])
    requires j == |s| || !IsDigit(s[j])
    ensures SkipDigits(s, i) == j
    decreases j - i
  {
    if i < j {
      SkipDigitsStopsAt(s, i + 1, j);
    }
  }

  /** The regular expression tried at position `p`: digits are taken greedily, and because a digit run
      can only be followed by `.` or `-`, giving characters back never helps. */
  function MatchAt(url: string, p: nat): Option<string> {
    var start := p + |WrapperPrefix|;
    if start > |url| || url[p..start] != WrapperPrefix then None
    else
      var i1 := SkipDigits(url, start);
      if i1 == start || i1 >= |url| || url[i1] != '.' then None
      else
        var i2 := SkipDigits(url, i1 + 1);
        if i2 == i1 + 1 || i2 >= |url| then None
        else if url[i2] == '-' then Some(url[start..i2])
        else if url[i2] != '.' then None
        else ThirdPart(url, start, i2)
  }

  /** The optional group `(\.[0-9]+)?` after the second digit run, ending at `dot`, and the final `-`. */
  function ThirdPart(url: string, start: nat, dot: nat): Option<string>
    requires start <= dot < |url|
  {
    var i3 := SkipDigits(url, dot + 1);
    if i3 == dot + 1 || i3 >= |url| || url[i3] != '-' then None
    else Some(url[start..i3])
  }

  /** A slice made only of digits is a digit run. */
  lemma DigitSlice(s: string, i: nat, j: nat)
    requires i < j <= |s|
    requires forall k :: i <= k < j ==> IsDigit(s[k])
    ensures DigitRun(s[i..j])
  {
    forall k | 0 <= k < j - i ensures IsDigit(s[i..j][k]) {
      assert s[i..j][k] == s[i + k];
    }
  }

  lemma DigitRunNoDot(s: string, i: nat)
    requires DigitRun(s) && i < |s|
    ensures s[i] != '.' && s[i] != '-'
  {
    assert IsDigit(s[i]);
  }

  /** What the matcher finds at `p` is a match of the pattern. */
  lemma MatchAtSound(url: string, p: nat, v: string)
    requires MatchAt(url, p) == Some(v)
    ensures VersionAt(url, p, v)
  {
    var start := p + |WrapperPrefix|;
    assert start <= |url| && url[p..start] == WrapperPrefix;
    var i1 := SkipDigits(url, start);
    assert i1 != start && i1 < |url| && url[i1] == '.';
    var i2 := SkipDigits(url, i1 + 1);
    assert i2 != i1 + 1 && i2 < |url|;
    if url[i2] == '-' {
      assert v == url[start..i2];
      SoundTwoParts(url, p, i1, i2);
    } else {
      assert url[i2] == '.' && ThirdPart(url, start, i2) == Some(v);
      var i3 := SkipDigits(url, i2 + 1);
      assert i3 != i2 + 1 && i3 < |url| && url[i3] == '-' && v == url[start..i3];
      SoundThreeParts(url, p, i1, i2, i3);
    }
  }

  /** A slice split around the character at `j`. */
  lemma SliceAround(s: string, i: nat, j: nat, k: nat)
    requires i <= j < k <= |s|
    ensures s[i..k] == s[i..j] + [s[j]] + s[j + 1..k]
  {
  }

  /** Digits from the end of the prefix to `i1`, a `.`, digits up to `i2` and a `-` there. */
  lemma SoundTwoParts(url: string, p: nat, i1: nat, i2: nat)
    requires p + |WrapperPrefix| < i1 && i1 + 1 < i2 < |url|
    requires url[p..p + |WrapperPrefix|] == WrapperPrefix
    requires forall k :: p + |WrapperPrefix| <= k < i1 ==> IsDigit(url[k])
    requires url[i1] == '.' && url[i2] == '-'
    requires forall k :: i1 + 1 <= k < i2 ==> IsDigit(url[k])
    ensures VersionAt(url, p, url[p + |WrapperPrefix|..i2])
  {
    var start := p + |WrapperPrefix|;
    var a := url[start..i1];
    var b := url[i1 + 1..i2];
    DigitSlice(url, start, i1);
    DigitSlice(url, i1 + 1, i2);
    SliceAround(url, start, i1, i2);
  }

  /** As SoundTwoParts, with a further `.` at `i2` and digits up to a `-` at `i3`. */
  lemma SoundThreeParts(url: string, p: nat, i1: nat, i2: nat, i3: nat)
    requires p + |WrapperPrefix| < i1 && i1 + 1 < i2 && i2 + 1 < i3 < |url|
    requires url[p..p + |WrapperPrefix|] == WrapperPrefix
    requires forall k :: p + |WrapperPrefix| <= k < i1 ==> IsDigit(url[k])
    requires url[i1] == '.' && url[i2] == '.' && url[i3] == '-'
    requires forall k :: i1 + 1 <= k < i2 ==> IsDigit(url[k])
    requires forall k :: i2 + 1 <= k < i3 ==> IsDigit(url[k])
    ensures VersionAt(url, p, url[p + |WrapperPrefix|..i3])
  {
    var start := p + |WrapperPrefix|;
    var a := url[start..i1];
    var b := url[i1 + 1..i2];
    var c := url[i2 + 1..i3];
    DigitSlice(url, start, i1);
    DigitSlice(url, i1 + 1, i2);
    DigitSlice(url, i2 + 1, i3);
    ThreeSlices(url, start, i1, i2, i3);
    JoinedRuns(a, b, c);
    var v := url[start..i3];
    assert start + |v| == i3 && VersionShape(v);
  }

  lemma JoinedRuns(a: string, b: string, c: string)
    requires DigitRun(a) && DigitRun(b) && DigitRun(c)
    ensures TwoRuns(a + "." + b) && ThreeRuns(a + "." + b + "." + c)
  {
  }

  /** A slice cut at two `.` characters is its three pieces joined by dots. */
  lemma ThreeSlices(s: string, i: nat, j1: nat, j2: nat, k: nat)
    requires i <= j1 < j2 < k <= |s| && s[j1] == '.' && s[j2] == '.'
    ensures s[i..k] == s[i..j1] + "." + s[j1 + 1..j2] + "." + s[j2 + 1..k]
  {
    SliceAround(s, i, j1, k);
    SliceAround(s, j1 + 1, j2, k);
    assert s[j1 + 1..k] == s[j1 + 1..j2] + "." + s[j2 + 1..k];
  }

  /** A digit run `d` at `i` of `s`, followed by `sep`. */
  lemma DigitRunAt(s: string, i: nat, d: string)
    requires i + |d| < |s| && s[i..i + |d|] == d && DigitRun(d)
    requires s[i + |d|] == '.' || s[i + |d|] == '-'
    ensures SkipDigits(s, i) == i + |d|
  {
    forall k | i <= k < i + |d| ensures IsDigit(s[k]) {
      assert s[k] == d[k - i];
    }
    SkipDigitsStopsAt(s, i, i + |d|);
  }

  /** Reading `x + [sep] + y` back out of `s` at `i`. */
  lemma SliceParts(s: string, i: nat, x: string, sep: char, y: string)
    requires i + |x| + 1 + |y| <= |s| && s[i..i + |x| + 1 + |y|] == x + [sep] + y
    ensures s[i..i + |x|] == x && s[i + |x|] == sep && s[i + |x| + 1..i + |x| + 1 + |y|] == y
  {
    var v := x + [sep] + y;
    assert s[i..i + |x|] == v[..|x|];
    assert s[i + |x|] == v[|x|];
    assert s[i + |x| + 1..i + |x| + 1 + |y|] == v[|x| + 1..];
  }

  lemma MatchAtCompleteTwoParts(url: string, p: nat, a: string, b: string)
    requires DigitRun(a) && DigitRun(b)
    requires VersionAt(url, p, a + "." + b)
    ensures MatchAt(url, p) == Some(a + "." + b)
  {
    var start := p + |WrapperPrefix|;
    var i1 := start + |a|;
    var i2 := i1 + 1 + |b|;
    assert |a + "." + b| == i2 - start;
    SliceParts(url, start, a, '.', b);
    DigitRunAt(url, start, a);
    DigitRunAt(url, i1 + 1, b);
    assert MatchAt(url, p) == Some(url[start..i2]);
  }

  lemma ThirdPartAt(url: string, start: nat, dot: nat, c: string)
    requires start <= dot && dot + 1 + |c| < |url| && DigitRun(c)
    requires url[dot + 1..dot + 1 + |c|] == c && url[dot + 1 + |c|] == '-'
    ensures ThirdPart(url, start, dot) == Some(url[start..dot + 1 + |c|])
  {
    DigitRunAt(url, dot + 1, c);
  }

  /** The matcher's path through three digit runs ending at `i3`. */
  lemma MatchAtThreeRuns(url: string, p: nat, i1: nat, i2: nat, i3: nat)
    requires p + |WrapperPrefix| < i1 && i1 + 1 < i2 && i2 + 1 < i3 < |url|
    requires url[p..p + |WrapperPrefix|] == WrapperPrefix
    requires SkipDigits(url, p + |WrapperPrefix|) == i1 && url[i1] == '.'
    requires SkipDigits(url, i1 + 1) == i2 && url[i2] == '.'
    requires SkipDigits(url, i2 + 1) == i3 && url[i3] == '-'
    ensures MatchAt(url, p) == Some(url[p + |WrapperPrefix|..i3])
  {
    assert ThirdPart(url, p + |WrapperPrefix|, i2) == Some(url[p + |WrapperPrefix|..i3]);
  }

  /** Reading `a.b.c` back out of `url` at `start`, run by run. */
  lemma ThreeRunSlices(url: string, start: nat, a: string, b: string, c: string)
    requires start + |a + "." + b + "." + c| <= |url|
    requires url[start..start + |a + "." + b + "." + c|] == a + "." + b + "." + c
    ensures var i1 := start + |a|; var i2 := i1 + 1 + |b|; var i3 := i2 + 1 + |c|;
      && url[start..i1] == a && url[i1] == '.'
      && url[i1 + 1..i2] == b && url[i2] == '.' && url[i2 + 1..i3] == c
  {
    var i1 := start + |a|;
    assert a + "." + b + "." + c == a + ['.'] + (b + ['.'] + c);
    SliceParts(url, start, a, '.', b + ['.'] + c);
    SliceParts(url, i1 + 1, b, '.', c);
  }

  lemma MatchAtCompleteThreeParts(url: string, p: nat, a: string, b: string, c: string)
    requires DigitRun(a) && DigitRun(b) && DigitRun(c)
    requires var v := a + "." + b + "." + c;
      && p + |WrapperPrefix| + |v| < |url|
      && url[p..p + |WrapperPrefix|] == WrapperPrefix
      && url[p + |WrapperPrefix|..p + |WrapperPrefix| + |v|] == v
      && url[p + |WrapperPrefix| + |v|] == '-'
    ensures MatchAt(url, p) == Some(a + "." + b + "." + c)
  {
    var v := a + "." + b + "." + c;
    var start := p + |WrapperPrefix|;
    var i1 := start + |a|;
    var i2 := i1 + 1 + |b|;
    var i3 := i2 + 1 + |c|;
    assert i3 == start + |v|;
    ThreeRunSlices(url, start, a, b, c);
    DigitRunAt(url, start, a);
    DigitRunAt(url, i1 + 1, b);
    DigitRunAt(url, i2 + 1, c);
    MatchAtThreeRuns(url, p, i1, i2, i3);
  }

  /** The matcher finds exactly the matches of the pattern at `p`. */
  lemma MatchAtIsPattern(url: string, p: nat, v: string)
    ensures MatchAt(url, p) == Some(v) <==> VersionAt(url, p, v)
  {
    if MatchAt(url, p) == Some(v) {
      MatchAtSound(url, p, v);
    }
    if VersionAt(url, p, v) {
      MatchAtComplete(url, p, v);
    }
  }

  /** Every match of the pattern at `p` is found by the matcher. */
  lemma MatchAtComplete(url: string, p: nat, v: string)
    requires VersionAt(url, p, v)
    ensures MatchAt(url, p) == Some(v)
  {
    if TwoRuns(v) {
      var a, b :| DigitRun(a) && DigitRun(b) && v == a + "." + b;
      MatchAtCompleteTwoParts(url, p, a, b);
    } else {
      var a, b, c :| DigitRun(a) && DigitRun(b) && DigitRun(c) && v == a + "." + b + "." + c;
      MatchAtCompleteThreeParts(url, p, a, b, c);
    }
  }

  datatype Failure =
    /** An exception the environment raised, by its message. */
    | Thrown(message: string)
    /** "Could not extract Gradle Wrapper version from distribution URL ..." */
    | WrapperVersionNotFound(distributionUrl: string)
    /** "distributionUrl in gradle-wrapper.properties file does not contain ..." */
    | DistributionUrlMissing
    /** "Failed to process build file ... for ... project mode and ... process phase" */
    | ProcessBuildFileFailed(buildFile: Path, mode: ProjectMode, phase: ProcessPhase, cause: string)

  /** Matcher.find() from position `p` on. */
  function FindVersionFrom(url: string, p: nat): Option<string>
    decreases |url| + 1 - p
  {
    if p > |url| then None
    else match MatchAt(url, p)
      case Some(v) => Some(v)
      case None => FindVersionFrom(url, p + 1)
  }

  /** extractGradleWrapperVersionFromDistributionUrl */
  function ExtractWrapperVersion(distributionUrl: string): Result<string, Failure> {
    match FindVersionFrom(distributionUrl, 0)
    case Some(v) => Ok(v)
    case None => Err(WrapperVersionNotFound(distributionUrl))
  }

  /** The search from `p` stops at the first position `q` where the matcher finds something. */
  lemma {:induction false} FirstMatchFrom(url: string, p: nat) returns (q: nat)
    ensures FindVersionFrom(url, p).Some? ==>
      p <= q <= |url| && MatchAt(url, q) == FindVersionFrom(url, p)
      && forall q' :: p <= q' < q ==> MatchAt(url, q').None?
    ensures FindVersionFrom(url, p).None? ==> forall q' :: p <= q' <= |url| ==> MatchAt(url, q').None?
    decreases |url| + 1 - p
  {
    if p > |url| || MatchAt(url, p).Some? {
      q := p;
    } else {
      var m := MatchAt(url, p);
      assert m.None?;
      q := FirstMatchFrom(url, p + 1);
      assert FindVersionFrom(url, p) == FindVersionFrom(url, p + 1);
      if FindVersionFrom(url, p + 1).Some? {
        forall q' | p <= q' < q ensures MatchAt(url, q').None? {
          if q' == p { assert MatchAt(url, q') == m; }
        }
      } else {
        forall q' | p <= q' <= |url| ensures MatchAt(url, q').None? {
          if q' == p { assert MatchAt(url, q') == m; }
        }
      }
    }
  }

  lemma FindVersionFromIsLeftmost(url: string, p: nat)
    ensures FindVersionFrom(url, p).Some? ==>
      exists q: nat :: p <= q && VersionAt(url, q, FindVersionFrom(url, p).value)
                  && forall q', v' :: p <= q' < q ==> !VersionAt(url, q', v')
    ensures FindVersionFrom(url, p).None? ==> forall q, v :: p <= q ==> !VersionAt(url, q, v)
  {
    var q := FirstMatchFrom(url, p);
    if FindVersionFrom(url, p).Some? {
      MatchAtIsPattern(url, q, FindVersionFrom(url, p).value);
      forall q', v' | p <= q' < q ensures !VersionAt(url, q', v') {
        NoVersionAt(url, q');
      }
    } else {
      forall q', v' | p <= q' ensures !VersionAt(url, q', v') {
        if q' <= |url| {
          NoVersionAt(url, q');
        }
      }
    }
  }

  /** Where the matcher finds nothing, the pattern has no match. */
  lemma NoVersionAt(url: string, p: nat)
    requires MatchAt(url, p).None?
    ensures forall v :: !VersionAt(url, p, v)
  {
    forall v ensures !VersionAt(url, p, v) {
      MatchAtIsPattern(url, p, v);
    }
  }

  /** The wrapper version is the group of the leftmost match of the pattern; without a match the
      extraction fails, naming the URL. */
  lemma WrapperVersionIsLeftmostMatch(distributionUrl: string)
    ensures ExtractWrapperVersion(distributionUrl).Ok? ==>
      exists p: nat :: VersionAt(distributionUrl, p, ExtractWrapperVersion(distributionUrl).value)
                  && forall p', v' :: 0 <= p' < p ==> !VersionAt(distributionUrl, p', v')
    ensures ExtractWrapperVersion(distributionUrl).Err? <==> forall p, v :: !VersionAt(distributionUrl, p, v)
    ensures ExtractWrapperVersion(distributionUrl).Err? ==>
      ExtractWrapperVersion(distributionUrl).error == WrapperVersionNotFound(distributionUrl)
  {
    FindVersionFromIsLeftmost(distributionUrl, 0);
  }

  // ---------------------------------------------------------------------------------------------
  // Project properties

  /** Path.toString() of an absolute path. */
  function PathText(p: Path): string {
    if p == [] then "/" else SlashJoined(p)
  }

  function SlashJoined(p: Path): string {
    if p == [] then "" else SlashJoined(p[..|p| - 1]) + "/" + p[|p| - 1]
  }

  const ProjectNameKey := "project.name"

  /** The property name recording the `k`-th ancestor of the project directory:
      `projectDir`, `projectDir.parent`, `projectDir.parent.parent`, ... */
  function ParentKey(k: nat): (r: string)
    ensures |r| == 10 + 7 * k
  {
    if k == 0 then "projectDir" else ParentKey(k - 1) + ".parent"
  }

  lemma ParentKeyInjective(j: nat, k: nat)
    ensures ParentKey(j) == ParentKey(k) <==> j == k
  {
    if ParentKey(j) == ParentKey(k) {
      assert |ParentKey(j)| == |ParentKey(k)|;
    }
  }

  /** The `while (projectDir.startsWith(codebaseDir))` loop of INITIALIZE, from the ancestor `k` on;
      `text` writes a path out (the model always passes PathText, Path.toString). */
  function ProjectDirProperties(properties: map<string, string>, codebaseDir: Path, dir: Path, k: nat, text: Path -> string): map<string, string>
    requires codebaseDir != []
    decreases |dir|
  {
    if StartsWith(dir, codebaseDir) then ProjectDirProperties(properties[ParentKey(k) := text(dir)], codebaseDir, Parent(dir), k + 1, text)
    else properties
  }

  /** The loop leaves every key other than the ancestors' keys `ParentKey(k)`, `ParentKey(k + 1)`, ...
      as it was. */
  lemma {:induction false} ProjectDirOtherKeys(properties: map<string, string>, codebaseDir: Path, dir: Path, k: nat, text: Path -> string, key: string)
    requires codebaseDir != []
    requires forall j :: k <= j <= k + |dir| ==> key != ParentKey(j)
    ensures var r := ProjectDirProperties(properties, codebaseDir, dir, k, text);
      (key in r <==> key in properties) && (key in r ==> r[key] == properties[key])
    decreases |dir|
  {
    if StartsWith(dir, codebaseDir) {
      assert key != ParentKey(k);
      ProjectDirOtherKeys(properties[ParentKey(k) := text(dir)], codebaseDir, Parent(dir), k + 1, text, key);
    }
  }

  /** The directory the loop starts from is recorded under `ParentKey(k)`. */
  lemma ProjectDirRecordsItself(properties: map<string, string>, codebaseDir: Path, dir: Path, k: nat, text: Path -> string)
    requires codebaseDir != [] && StartsWith(dir, codebaseDir)
    ensures var r := ProjectDirProperties(properties, codebaseDir, dir, k, text);
      ParentKey(k) in r && r[ParentKey(k)] == text(dir)
  {
    var next := properties[ParentKey(k) := text(dir)];
    var up := Parent(dir);
    assert ProjectDirProperties(properties, codebaseDir, dir, k, text) == ProjectDirProperties(next, codebaseDir, up, k + 1, text);
    forall j' | k + 1 <= j' <= k + 1 + |up| ensures ParentKey(k) != ParentKey(j') {
      ParentKeyInjective(k, j');
    }
    ProjectDirOtherKeys(next, codebaseDir, up, k + 1, text, ParentKey(k));
  }

  /** `key` is present in `r` with `value`. */
  predicate Recorded(r: map<string, string>, key: string, value: string) {
    key in r && r[key] == value
  }

  /** The loop records the project directory and each ancestor that still lies under the codebase
      directory: the `(j - k)`-th ancestor under `ParentKey(j)`. */
  lemma {:induction false} ProjectDirRecorded(properties: map<string, string>, codebaseDir: Path, dir: Path, k: nat, text: Path -> string, j: nat)
    requires codebaseDir != [] && StartsWith(dir, codebaseDir)
    requires k <= j <= k + |dir| - |codebaseDir|
    ensures Recorded(ProjectDirProperties(properties, codebaseDir, dir, k, text), ParentKey(j), text(dir[..|dir| - (j - k)]))
    decreases |dir|
  {
    if j == k {
      ProjectDirRecordsItself(properties, codebaseDir, dir, k, text);
      assert dir[..|dir| - (j - k)] == dir;
    } else {
      var next := properties[ParentKey(k) := text(dir)];
      var up := Parent(dir);
      assert up == dir[..|dir| - 1];
      assert StartsWith(up, codebaseDir);
      assert ProjectDirProperties(properties, codebaseDir, dir, k, text) == ProjectDirProperties(next, codebaseDir, up, k + 1, text);
      ProjectDirRecorded(next, codebaseDir, up, k + 1, text, j);
      assert up[..|up| - (j - (k + 1))] == dir[..|dir| - (j - k)];
    }
  }

  /** No ancestor above the codebase directory is recorded by the loop. */
  lemma {:induction false} ProjectDirStopsAtCodebase(properties: map<string, string>, codebaseDir: Path, dir: Path, k: nat, text: Path -> string, j: nat)
    requires codebaseDir != [] && k + |dir| - |codebaseDir| < j
    requires ParentKey(j) !in properties
    ensures ParentKey(j) !in ProjectDirProperties(properties, codebaseDir, dir, k, text)
    decreases |dir|
  {
    if StartsWith(dir, codebaseDir) {
      ParentKeyInjective(k, j);
      ProjectDirStopsAtCodebase(properties[ParentKey(k) := text(dir)], codebaseDir, Parent(dir), k + 1, text, j);
    }
  }

  /** The INITIALIZE loop over ancestors of the project directory. */
  method PutProjectDirProperties(properties: map<string, string>, codebaseDir: Path, projectDir: Path)
    returns (r: map<string, string>)
    requires codebaseDir != []
    ensures r == ProjectDirProperties(properties, codebaseDir, projectDir, 0, PathText)
  {
    r := properties;
    var dir := projectDir;
    var k := 0;
    while StartsWith(dir, codebaseDir)
      invariant ProjectDirProperties(r, codebaseDir, dir, k, PathText) == ProjectDirProperties(properties, codebaseDir, projectDir, 0, PathText)
      decreases |dir|
    {
      r := r[ParentKey(k) := PathText(dir)];
      dir := Parent(dir);
      k := k + 1;
    }
  }

  // ---------------------------------------------------------------------------------------------
  // The phase loop over one build-file chain

  /** The own entries, at one chain index, of the five inheriting collections: properties,
      buildscript repositories, repositories, software and dependency versions. */
  datatype Layer = Layer(
    properties: map<string, string>,
    buildscriptRepositories: set<SoftwareRepository>,
    softwareRepositories: set<SoftwareRepository>,
    software: set<Software>,
    dependencyVersions: map<string, set<string>>)

  const EmptyLayer := Layer(map[], {}, {}, {}, map[])

  /** The root items: a copy of the root properties (cloneValues) and empty collections. */
  function RootLayer(rootProperties: map<string, string>): Layer {
    EmptyLayer.(properties := rootProperties)
  }

  /** A child item starts with no entries of its own; it sees its parent's through the chain. */
  function ChildLayer(parent: Layer): Layer {
    EmptyLayer
  }

  /** What the items at the last of `layers` hold, own entries and inherited ones. */
  function SeenBuildscriptRepositories(layers: seq<Layer>): set<SoftwareRepository> {
    if layers == [] then {} else SeenBuildscriptRepositories(layers[..|layers| - 1]) + layers[|layers| - 1].buildscriptRepositories
  }

  function SeenSoftwareRepositories(layers: seq<Layer>): set<SoftwareRepository> {
    if layers == [] then {} else SeenSoftwareRepositories(layers[..|layers| - 1]) + layers[|layers| - 1].softwareRepositories
  }

  function SeenSoftware(layers: seq<Layer>): set<Software> {
    if layers == [] then {} else SeenSoftware(layers[..|layers| - 1]) + layers[|layers| - 1].software
  }

  function SeenDependencyVersions(layers: seq<Layer>): map<string, set<string>> {
    if layers == [] then map[] else SeenDependencyVersions(layers[..|layers| - 1]) + layers[|layers| - 1].dependencyVersions
  }

  /** What the Groovy loader and the visitor do to the current items when a build file exists. */
  datatype VisitOutcome =
    | LoadFailed(message: string)
    | VisitFailed(message: string)
    | Visited(layer: Layer)

  datatype Environment = Environment(
    /** Properties of a properties file, `None` when the file does not exist */
    loadProperties: Path -> Option<map<string, string>>,
    /** The regular files named `build.gradle` under a directory, in the order the walk finds them */
    findBuildFiles: Path -> seq<Path>,
    fileExists: Path -> bool,
    /** Loading a build file and visiting it (settings or build visitor by mode) with the items seen
        from its chain index, the last of the given layers being its own */
    visit: (ProcessPhase, ProjectMode, Path, seq<Layer>) -> VisitOutcome,
    /** PluginProcessor.getSpringBootPlugin and getPluginCount over a software set */
    springBootPlugin: set<Software> -> Option<Software>,
    pluginCount: set<Software> -> nat,
    /** The coordinates of spring-boot-dependencies at a version */
    springBootBom: string -> string,
    fetcher: DependencyVersions.Environment,
    /** The repository record of the Gradle Plugin Portal, in BUILDSCRIPT scope */
    pluginPortal: SoftwareRepository,
    wrapperToolName: string,
    /** Comparators.SOFTWARE_REPOSITORIES and Comparators.SOFTWARE */
    repositoryLe: (SoftwareRepository, SoftwareRepository) -> bool,
    softwareLe: (Software, Software) -> bool,
    /** replaceScannerItemsInList for repositories and for software */
    replaceRepositories: (seq<SoftwareRepository>, seq<SoftwareRepository>) -> seq<SoftwareRepository>,
    replaceSoftware: (Option<seq<Software>>, seq<Software>) -> Option<seq<Software>>,
    /** ThrowableToScannerErrorMapper */
    describe: Failure -> string)

  /** The collections of one chain walk and the codebase-wide aggregates. */
  datatype ChainState = ChainState(layers: seq<Layer>, repositories: set<SoftwareRepository>, software: set<Software>)

  /** Every file of a chain lies in a directory other than the root. */
  predicate ChainOk(chain: seq<Path>) {
    |chain| >= 1 && forall k :: 0 <= k < |chain| ==> |chain[k]| >= 2
  }

  /** A codebase below the root and a chain of build files at least two levels deep. */
  predicate Walkable(codebaseDir: Path, chain: seq<Path>) {
    codebaseDir != [] && ChainOk(chain)
  }

  /** The properties INITIALIZE gives the item at `index`. */
  function InitialProperties(env: Environment, codebaseDir: Path, chain: seq<Path>, index: nat, inherited: map<string, string>): map<string, string>
    requires Walkable(codebaseDir, chain) && index < |chain|
  {
    var projectDir := Parent(chain[index]);
    var props :=
      if ProjectModeOf(chain, index) != Settings
      then ProjectDirProperties(inherited[ProjectNameKey := FileName(projectDir)], codebaseDir, projectDir, 0, PathText)
      else inherited;
    match env.loadProperties(projectDir + [GradleProperties])
    case None => props
    case Some(g) => props + g
  }

  /** The item INITIALIZE creates at `index`: the root item starts from the root properties, every
      other item from nothing of its own; then it gets the project's own properties. */
  function InitialLayer(env: Environment, codebaseDir: Path, rootProperties: map<string, string>, chain: seq<Path>, index: nat): Layer
    requires Walkable(codebaseDir, chain) && index < |chain|
  {
    var base := if index == 0 then RootLayer(rootProperties) else EmptyLayer;
    base.(properties := InitialProperties(env, codebaseDir, chain, index, base.properties))
  }

  /** INITIALIZE at `index`: a new item is appended and filled with the project's properties. The
      items above are left alone, and the new item depends only on its own index: a child item
      starts empty rather than as a copy of its parent. */
  function InitializeStep(env: Environment, codebaseDir: Path, rootProperties: map<string, string>, chain: seq<Path>,
                          index: nat, st: ChainState): (r: ChainState)
    requires Walkable(codebaseDir, chain) && index < |chain| && |st.layers| == index
    ensures |r.layers| == index + 1 && r.layers[..index] == st.layers
    ensures r.layers[index] == InitialLayer(env, codebaseDir, rootProperties, chain, index)
    ensures r.repositories == st.repositories && r.software == st.software
  {
    var (item, layers) := InheritingItem(st.layers, index, Initialize, RootLayer(rootProperties), ChildLayer);
    var props := InitialProperties(env, codebaseDir, chain, index, item.properties);
    st.(layers := layers[index := item.(properties := props)])
  }

  /** FINALIZE at `index`: only the last build file of the chain adds what its items hold to the
      aggregates. */
  function FinalizeStep(chain: seq<Path>, index: nat, st: ChainState): (r: ChainState)
    requires index < |chain| == |st.layers|
  {
    if index == |chain| - 1 then
      st.(repositories := st.repositories + SeenBuildscriptRepositories(st.layers) + SeenSoftwareRepositories(st.layers),
          software := st.software + SeenSoftware(st.layers))
    else st
  }

  /** DEPENDENCIES outside SETTINGS mode: a Spring Boot plugin brings in its BOM and the versions the
      BOM pins. The fetcher adds to the current software item; the version sets it extends are those
      the current item sees, recorded as its own. */
  function BomStep(env: Environment, phase: ProcessPhase, mode: ProjectMode, seen: seq<Layer>): Result<Layer, Failure>
    requires seen != []
  {
    var current := seen[|seen| - 1];
    if phase != Dependencies || mode == Settings then Ok(current)
    else match env.springBootPlugin(SeenSoftware(seen))
      case None => Ok(current)
      case Some(plugin) =>
        var fetched := DependencyVersions.FetchEffect(env.fetcher, ScannerId, env.springBootBom(plugin.version),
                         SeenSoftwareRepositories(seen), SeenDependencyVersions(seen), current.software);
        if fetched.failure.Some? then Err(Thrown(fetched.failure.value))
        else Ok(current.(software := fetched.software, dependencyVersions := fetched.versions))
  }

  /** The build file, when it exists, is loaded and visited; a visiting failure is wrapped with the
      file, the mode and the phase, a loading failure is not. */
  function VisitStep(env: Environment, phase: ProcessPhase, mode: ProjectMode, file: Path, seen: seq<Layer>): Result<Layer, Failure>
    requires seen != []
  {
    if !env.fileExists(file) then Ok(seen[|seen| - 1])
    else match env.visit(phase, mode, file, seen)
      case LoadFailed(m) => Err(Thrown(m))
      case VisitFailed(m) => Err(ProcessBuildFileFailed(file, mode, phase, m))
      case Visited(layer) => Ok(layer)
  }

  predicate AddsPluginPortal(env: Environment, phase: ProcessPhase, mode: ProjectMode, seen: seq<Layer>) {
    && phase == BuildscriptRepositories
    && mode != Settings
    && env.pluginCount(SeenSoftware(seen)) > 0
    && SeenBuildscriptRepositories(seen) == {}
  }

  /** The Gradle Plugin Portal becomes a buildscript repository of the current item only in
      BUILDSCRIPT_REPOSITORIES, outside SETTINGS mode, when plugins are seen and no buildscript
      repository is; nothing else changes. */
  function PortalStep(env: Environment, phase: ProcessPhase, mode: ProjectMode, seen: seq<Layer>): (r: Layer)
    requires seen != []
    ensures var current := seen[|seen| - 1];
      && r == current.(buildscriptRepositories := r.buildscriptRepositories)
      && r.buildscriptRepositories - current.buildscriptRepositories <= {env.pluginPortal}
      && (env.pluginPortal in r.buildscriptRepositories
          <==> env.pluginPortal in current.buildscriptRepositories || AddsPluginPortal(env, phase, mode, seen))
  {
    var current := seen[|seen| - 1];
    if AddsPluginPortal(env, phase, mode, seen)
    then current.(buildscriptRepositories := current.buildscriptRepositories + {env.pluginPortal})
    else current
  }

  /** Any phase between INITIALIZE and FINALIZE at `index`: the BOM, the visit, the plugin portal, in
      that order, all on the item at `index`. */
  function BuildStep(env: Environment, chain: seq<Path>, phase: ProcessPhase, index: nat, st: ChainState): (r: Result<ChainState, Failure>)
    requires ChainOk(chain) && index < |chain| == |st.layers|
    ensures r.Ok? ==> |r.value.layers| == |st.layers| && r.value.repositories == st.repositories && r.value.software == st.software
    ensures r.Ok? ==> forall k :: 0 <= k < |st.layers| && k != index ==> r.value.layers[k] == st.layers[k]
  {
    var mode := ProjectModeOf(chain, index);
    var above := st.layers[..index];
    match BomStep(env, phase, mode, above + [st.layers[index]])
    case Err(e) => Err(e)
    case Ok(withBom) =>
      match VisitStep(env, phase, mode, chain[index], above + [withBom])
      case Err(e) => Err(e)
      case Ok(visited) =>
        Ok(st.(layers := st.layers[index := PortalStep(env, phase, mode, above + [visited])]))
  }

  predicate Shaped(chain: seq<Path>, phase: ProcessPhase, index: nat, st: ChainState) {
    if phase == Initialize then |st.layers| == index else |st.layers| == |chain|
  }

  /** One pass of the inner loop: the build file at `index` in `phase`. */
  function Step(env: Environment, codebaseDir: Path, rootProperties: map<string, string>, chain: seq<Path>,
                phase: ProcessPhase, index: nat, st: ChainState): (r: Result<ChainState, Failure>)
    requires Walkable(codebaseDir, chain) && index < |chain| && Shaped(chain, phase, index, st)
    ensures r.Ok? ==> Shaped(chain, phase, index + 1, r.value) || (phase != Initialize && Shaped(chain, phase, index, r.value))
    ensures r.Ok? ==> |r.value.layers| == if phase == Initialize then index + 1 else |chain|
  {
    if phase == Initialize then Ok(InitializeStep(env, codebaseDir, rootProperties, chain, index, st))
    else if phase == Finalize then Ok(FinalizeStep(chain, index, st))
    else BuildStep(env, chain, phase, index, st)
  }

  /** The inner loop of one phase over the first `n` chain indices; a failure ends the walk. */
  function PhaseEffect(env: Environment, codebaseDir: Path, rootProperties: map<string, string>, chain: seq<Path>,
                       phase: ProcessPhase, n: nat, r: Result<ChainState, Failure>): (q: Result<ChainState, Failure>)
    requires Walkable(codebaseDir, chain) && n <= |chain| && (r.Ok? ==> Shaped(chain, phase, 0, r.value))
    ensures q.Ok? ==> |q.value.layers| == if phase == Initialize then n else |chain|
    ensures r.Err? ==> q == r
  {
    if n == 0 then r
    else match PhaseEffect(env, codebaseDir, rootProperties, chain, phase, n - 1, r)
      case Err(e) => Err(e)
      case Ok(st) => Step(env, codebaseDir, rootProperties, chain, phase, n - 1, st)
  }

  /** INITIALIZE comes first and only first, as in the list of processing phases. */
  predicate InitializeFirst(phases: seq<ProcessPhase>) {
    forall i :: 0 <= i < |phases| ==> (phases[i] == Initialize <==> i == 0)
  }

  lemma ProcessPhasesInitializeFirst()
    ensures InitializeFirst(ProcessPhases)
  {
    forall i | 0 <= i < |ProcessPhases| ensures ProcessPhases[i] == Initialize <==> i == 0 {
    }
  }

  /** The outer loop over `phases`; the collections start empty in INITIALIZE. */
  function PhasesEffect(env: Environment, codebaseDir: Path, rootProperties: map<string, string>, chain: seq<Path>,
                        phases: seq<ProcessPhase>, p: nat, r: Result<ChainState, Failure>): (q: Result<ChainState, Failure>)
    requires Walkable(codebaseDir, chain) && InitializeFirst(phases) && p <= |phases|
    requires r.Ok? ==> r.value.layers == []
    ensures q.Ok? ==> |q.value.layers| == if p == 0 then 0 else |chain|
    ensures r.Err? ==> q == r
  {
    if p == 0 then r
    else
      var before := PhasesEffect(env, codebaseDir, rootProperties, chain, phases, p - 1, r);
      assert p == 1 <==> phases[p - 1] == Initialize;
      PhaseEffect(env, codebaseDir, rootProperties, chain, phases[p - 1], |chain|, before)
  }

  /** INITIALIZE at `index`: the new item of the chain gets the project name, the project directory
      and its parents up to the codebase, and the project's gradle.properties. */
  method InitializeIndex(env: Environment, codebaseDir: Path, rootProperties: map<string, string>, chain: seq<Path>,
                         index: nat, st: ChainState) returns (r: ChainState)
    requires Walkable(codebaseDir, chain) && index < |chain| && |st.layers| == index
    ensures r == InitializeStep(env, codebaseDir, rootProperties, chain, index, st)
  {
    var (item, layers) := InheritingItem(st.layers, index, Initialize, RootLayer(rootProperties), ChildLayer);
    var projectDir := Parent(chain[index]);
    var props := item.properties;
    if ProjectModeOf(chain, index) != Settings {
      props := props[ProjectNameKey := FileName(projectDir)];
      props := PutProjectDirProperties(props, codebaseDir, projectDir);
    }
    var gradleProperties := env.loadProperties(projectDir + [GradleProperties]);
    if gradleProperties.Some? {
      props := props + gradleProperties.value;
    }
    return st.(layers := layers[index := item.(properties := props)]);
  }

  /** DEPENDENCIES outside SETTINGS mode: the Spring Boot BOM, fetched into the current item. */
  method ApplyBom(env: Environment, phase: ProcessPhase, mode: ProjectMode, seen: seq<Layer>) returns (r: Result<Layer, Failure>)
    requires seen != []
    ensures r == BomStep(env, phase, mode, seen)
  {
    var current := seen[|seen| - 1];
    if phase == Dependencies && mode != Settings {
      var plugin := env.springBootPlugin(SeenSoftware(seen));
      if plugin.Some? {
        var versions, software, failure := DependencyVersions.FindDependencyVersions(env.fetcher, ScannerId,
          env.springBootBom(plugin.value.version), SeenSoftwareRepositories(seen), SeenDependencyVersions(seen), current.software);
        if failure.Some? {
          return Err(Thrown(failure.value));
        }
        current := current.(software := software, dependencyVersions := versions);
      }
    }
    return Ok(current);
  }

  /** A phase between INITIALIZE and FINALIZE at `index`. */
  method BuildIndex(env: Environment, chain: seq<Path>, phase: ProcessPhase, index: nat, st: ChainState)
    returns (r: Result<ChainState, Failure>)
    requires ChainOk(chain) && index < |chain| == |st.layers| && phase != Initialize
    ensures r == BuildStep(env, chain, phase, index, st)
  {
    var mode := ProjectModeOf(chain, index);
    var (item, layers) := InheritingItem(st.layers, index, phase, RootLayer(map[]), ChildLayer);
    var above := layers[..index];
    var file := chain[index];
    var withBom := ApplyBom(env, phase, mode, above + [item]);
    if withBom.Err? {
      return Err(withBom.error);
    }
    var current := withBom.value;
    if env.fileExists(file) {
      match env.visit(phase, mode, file, above + [current]) {
        case LoadFailed(m) =>
          return Err(Thrown(m));
        case VisitFailed(m) =>
          return Err(ProcessBuildFileFailed(file, mode, phase, m));
        case Visited(layer) =>
          current := layer;
      }
    }
    if phase == BuildscriptRepositories && mode != Settings {
      if env.pluginCount(SeenSoftware(above + [current])) > 0 {
        if SeenBuildscriptRepositories(above + [current]) == {} {
          current := current.(buildscriptRepositories := current.buildscriptRepositories + {env.pluginPortal});
        }
      }
    }
    return Ok(st.(layers := layers[index := current]));
  }

  /** The body of the inner loop of scan: the build file at `index` of the chain in `phase`. */
  method ProcessIndex(env: Environment, codebaseDir: Path, rootProperties: map<string, string>, chain: seq<Path>,
                      phase: ProcessPhase, index: nat, st: ChainState) returns (r: Result<ChainState, Failure>)
    requires Walkable(codebaseDir, chain) && index < |chain| && Shaped(chain, phase, index, st)
    ensures r == Step(env, codebaseDir, rootProperties, chain, phase, index, st)
  {
    if phase == Initialize {
      var next := InitializeIndex(env, codebaseDir, rootProperties, chain, index, st);
      return Ok(next);
    } else if phase == Finalize {
      if index == |chain| - 1 {
        var seen := st.layers;
        return Ok(st.(repositories := st.repositories + SeenBuildscriptRepositories(seen) + SeenSoftwareRepositories(seen),
                      software := st.software + SeenSoftware(seen)));
      }
      return Ok(st);
    }
    r := BuildIndex(env, chain, phase, index, st);
  }

  /** A failure at any index ends the phase with that failure. */
  lemma {:induction false} PhaseFailureStays(env: Environment, codebaseDir: Path, rootProperties: map<string, string>, chain: seq<Path>,
                                             phase: ProcessPhase, n: nat, m: nat, r: Result<ChainState, Failure>)
    requires Walkable(codebaseDir, chain) && n <= m <= |chain| && (r.Ok? ==> Shaped(chain, phase, 0, r.value))
    requires PhaseEffect(env, codebaseDir, rootProperties, chain, phase, n, r).Err?
    ensures PhaseEffect(env, codebaseDir, rootProperties, chain, phase, m, r) == PhaseEffect(env, codebaseDir, rootProperties, chain, phase, n, r)
    decreases m
  {
    if m > n {
      PhaseFailureStays(env, codebaseDir, rootProperties, chain, phase, n, m - 1, r);
    }
  }

  /** A failure in any phase ends the walk of the chain with that failure. */
  lemma {:induction false} WalkFailureStays(env: Environment, codebaseDir: Path, rootProperties: map<string, string>, chain: seq<Path>, phases: seq<ProcessPhase>,
                                            p: nat, q: nat, r: Result<ChainState, Failure>)
    requires Walkable(codebaseDir, chain) && InitializeFirst(phases) && p <= q <= |phases| && (r.Ok? ==> r.value.layers == [])
    requires PhasesEffect(env, codebaseDir, rootProperties, chain, phases, p, r).Err?
    ensures PhasesEffect(env, codebaseDir, rootProperties, chain, phases, q, r)
         == PhasesEffect(env, codebaseDir, rootProperties, chain, phases, p, r)
    decreases q
  {
    if q > p {
      WalkFailureStays(env, codebaseDir, rootProperties, chain, phases, p, q - 1, r);
      var before := PhasesEffect(env, codebaseDir, rootProperties, chain, phases, q - 1, r);
      assert before.Err?;
      assert PhasesEffect(env, codebaseDir, rootProperties, chain, phases, q, r)
          == PhaseEffect(env, codebaseDir, rootProperties, chain, phases[q - 1], |chain|, before);
    }
  }

  /** The phase over `n + 1` indices continues the phase over `n` indices by one step. */
  lemma PhaseEffectNext(env: Environment, codebaseDir: Path, rootProperties: map<string, string>, chain: seq<Path>,
                        phase: ProcessPhase, n: nat, r: Result<ChainState, Failure>, st: ChainState)
    requires Walkable(codebaseDir, chain) && n < |chain| && (r.Ok? ==> Shaped(chain, phase, 0, r.value))
    requires PhaseEffect(env, codebaseDir, rootProperties, chain, phase, n, r) == Ok(st)
    ensures Shaped(chain, phase, n, st)
    ensures PhaseEffect(env, codebaseDir, rootProperties, chain, phase, n + 1, r)
         == Step(env, codebaseDir, rootProperties, chain, phase, n, st)
  {
  }

  /** A step that fails ends the phase with its failure. */
  lemma PhaseEnds(env: Environment, codebaseDir: Path, rootProperties: map<string, string>, chain: seq<Path>,
                  phase: ProcessPhase, n: nat, r: Result<ChainState, Failure>, st: ChainState, e: Failure)
    requires Walkable(codebaseDir, chain) && n < |chain| && (r.Ok? ==> Shaped(chain, phase, 0, r.value))
    requires PhaseEffect(env, codebaseDir, rootProperties, chain, phase, n, r) == Ok(st)
    requires Shaped(chain, phase, n, st) && Step(env, codebaseDir, rootProperties, chain, phase, n, st) == Err(e)
    ensures PhaseEffect(env, codebaseDir, rootProperties, chain, phase, |chain|, r) == Err(e)
  {
    PhaseEffectNext(env, codebaseDir, rootProperties, chain, phase, n, r, st);
    PhaseFailureStays(env, codebaseDir, rootProperties, chain, phase, n + 1, |chain|, r);
  }

  /** One pass of the outer loop of scan: `phase` over every index of the chain; the first failure
      ends it. */
  method RunPhase(env: Environment, codebaseDir: Path, rootProperties: map<string, string>, chain: seq<Path>,
                      phase: ProcessPhase, before: ChainState) returns (r: Result<ChainState, Failure>)
    requires Walkable(codebaseDir, chain) && Shaped(chain, phase, 0, before)
    ensures r == PhaseEffect(env, codebaseDir, rootProperties, chain, phase, |chain|, Ok(before))
  {
    var st := before;
    for index := 0 to |chain|
      invariant PhaseEffect(env, codebaseDir, rootProperties, chain, phase, index, Ok(before)) == Ok(st)
      invariant Shaped(chain, phase, index, st)
    {
      var next := ProcessIndex(env, codebaseDir, rootProperties, chain, phase, index, st);
      if next.Err? {
        PhaseEnds(env, codebaseDir, rootProperties, chain, phase, index, Ok(before), st, next.error);
        return next;
      }
      PhaseEffectNext(env, codebaseDir, rootProperties, chain, phase, index, Ok(before), st);
      st := next.value;
    }
    return Ok(st);
  }

  /** Before phase `p` the layers are empty exactly when `p` is INITIALIZE. */
  lemma WalkShaped(env: Environment, codebaseDir: Path, rootProperties: map<string, string>, chain: seq<Path>, phases: seq<ProcessPhase>,
                   p: nat, r: Result<ChainState, Failure>, st: ChainState)
    requires Walkable(codebaseDir, chain) && InitializeFirst(phases) && p < |phases| && (r.Ok? ==> r.value.layers == [])
    requires PhasesEffect(env, codebaseDir, rootProperties, chain, phases, p, r) == Ok(st)
    ensures Shaped(chain, phases[p], 0, st)
  {
    assert phases[p] == Initialize <==> p == 0;
  }

  /** The walk over `p + 1` phases continues the walk over `p` phases by the whole of phase `p`. */
  lemma WalkNext(env: Environment, codebaseDir: Path, rootProperties: map<string, string>, chain: seq<Path>, phases: seq<ProcessPhase>,
                 p: nat, r: Result<ChainState, Failure>, st: ChainState)
    requires Walkable(codebaseDir, chain) && InitializeFirst(phases) && p < |phases| && (r.Ok? ==> r.value.layers == [])
    requires PhasesEffect(env, codebaseDir, rootProperties, chain, phases, p, r) == Ok(st)
    ensures Shaped(chain, phases[p], 0, st)
    ensures PhasesEffect(env, codebaseDir, rootProperties, chain, phases, p + 1, r)
         == PhaseEffect(env, codebaseDir, rootProperties, chain, phases[p], |chain|, Ok(st))
  {
    WalkShaped(env, codebaseDir, rootProperties, chain, phases, p, r, st);
  }

  /** The walk of one build-file chain: every phase in order, and within each phase every chain index
      in order; the first failure ends it. */
  method ProcessBuildFile(env: Environment, codebaseDir: Path, rootProperties: map<string, string>, chain: seq<Path>,
                          repositories: set<SoftwareRepository>, software: set<Software>) returns (r: Result<ChainState, Failure>)
    requires Walkable(codebaseDir, chain)
    ensures r == PhasesEffect(env, codebaseDir, rootProperties, chain, ProcessPhases, |ProcessPhases|, Ok(ChainState([], repositories, software)))
  {
    var start: Result<ChainState, Failure> := Ok(ChainState([], repositories, software));
    var st := ChainState([], repositories, software);
    var phases := ProcessPhases;
    ProcessPhasesInitializeFirst();
    for p := 0 to |phases|
      invariant PhasesEffect(env, codebaseDir, rootProperties, chain, phases, p, start) == Ok(st)
    {
      WalkShaped(env, codebaseDir, rootProperties, chain, phases, p, start, st);
      var next := RunPhase(env, codebaseDir, rootProperties, chain, phases[p], st);
      WalkNext(env, codebaseDir, rootProperties, chain, phases, p, start, st);
      if next.Err? {
        WalkFailureStays(env, codebaseDir, rootProperties, chain, phases, p + 1, |phases|, start);
        return next;
      }
      st := next.value;
    }
    return Ok(st);
  }

  // ---------------------------------------------------------------------------------------------
  // What the phases do to a whole chain

  /** FINALIZE over the chain: only the last build file adds to the aggregates, and it adds every
      buildscript repository, repository and software item it sees. */
  lemma {:induction false} FinalizeAddsLastItem(env: Environment, codebaseDir: Path, rootProperties: map<string, string>,
                                                chain: seq<Path>, n: nat, st: ChainState)
    requires Walkable(codebaseDir, chain) && n <= |chain| && |st.layers| == |chain|
    ensures PhaseEffect(env, codebaseDir, rootProperties, chain, Finalize, n, Ok(st))
         == Ok(if n < |chain| then st
               else st.(repositories := st.repositories + SeenBuildscriptRepositories(st.layers) + SeenSoftwareRepositories(st.layers),
                        software := st.software + SeenSoftware(st.layers)))
    decreases n
  {
    if n > 0 {
      FinalizeAddsLastItem(env, codebaseDir, rootProperties, chain, n - 1, st);
    }
  }

  // ---------------------------------------------------------------------------------------------
  // The scan

  /** GradleFileNames.GRADLE_WRAPPER_PROPERTIES and GradleWrapperPropertyNames.DISTRIBUTION_URL */
  const WrapperPropertiesFile := ["gradle", "wrapper", "gradle-wrapper.properties"]
  const DistributionUrlKey := "distributionUrl"
  const ScanFailureMessage := "Failed to scan codebase"

  /** The Gradle wrapper as a software item, when the codebase has wrapper properties. */
  function WrapperSoftware(env: Environment, codebaseDir: Path): (r: Result<set<Software>, Failure>)
  {
    match env.loadProperties(codebaseDir + WrapperPropertiesFile)
    case None => Ok({})
    case Some(props) =>
      if DistributionUrlKey !in props then Err(DistributionUrlMissing)
      else match ExtractWrapperVersion(props[DistributionUrlKey])
        case Err(f) => Err(f)
        case Ok(v) => Ok({Software(ScannerId, Tool, Direct, env.wrapperToolName, v, None)})
  }

  /** Without wrapper properties there is no wrapper item; with them there is one, a TOOL named after
      the Gradle wrapper whose version is the leftmost match in its distribution URL, or the scan
      fails because the URL is missing or holds no version. */
  lemma WrapperSoftwareFound(env: Environment, codebaseDir: Path)
    ensures env.loadProperties(codebaseDir + WrapperPropertiesFile).None? ==> WrapperSoftware(env, codebaseDir) == Ok({})
    ensures env.loadProperties(codebaseDir + WrapperPropertiesFile).Some? ==>
      var props := env.loadProperties(codebaseDir + WrapperPropertiesFile).value;
      && (DistributionUrlKey !in props ==> WrapperSoftware(env, codebaseDir) == Err(DistributionUrlMissing))
      && (DistributionUrlKey in props && WrapperSoftware(env, codebaseDir).Err? ==>
            WrapperSoftware(env, codebaseDir) == Err(WrapperVersionNotFound(props[DistributionUrlKey]))
            && forall p, v :: !VersionAt(props[DistributionUrlKey], p, v))
      && (WrapperSoftware(env, codebaseDir).Ok? ==>
            exists v, p: nat ::
              && WrapperSoftware(env, codebaseDir) == Ok({Software(ScannerId, Tool, Direct, env.wrapperToolName, v, None)})
              && VersionAt(props[DistributionUrlKey], p, v)
              && forall p', v' :: 0 <= p' < p ==> !VersionAt(props[DistributionUrlKey], p', v'))
  {
    var props := env.loadProperties(codebaseDir + WrapperPropertiesFile);
    if props.Some? && DistributionUrlKey in props.value {
      WrapperVersionIsLeftmostMatch(props.value[DistributionUrlKey]);
    }
  }

  /** The properties every chain's root item starts from. */
  function RootProperties(codebaseDir: Path): (r: map<string, string>)
    requires codebaseDir != []
    ensures r.Keys == {"rootDir", "rootProject.projectDir", "rootProject.name"}
    ensures r["rootDir"] == r["rootProject.projectDir"] == PathText(codebaseDir)
    ensures r["rootProject.name"] == FileName(codebaseDir)
  {
    map["rootDir" := PathText(codebaseDir), "rootProject.projectDir" := PathText(codebaseDir),
        "rootProject.name" := FileName(codebaseDir)]
  }

  /** Every build file getBuildFileChain returns is at least two levels deep. */
  lemma {:induction false} WalkUpDeep(codebaseDir: Path, current: Path)
    ensures WalkUp(codebaseDir, current).Ok? ==>
      forall k :: 0 <= k < |WalkUp(codebaseDir, current).value| ==> |WalkUp(codebaseDir, current).value[k]| >= 2
    decreases |current|
  {
    if |current| >= 2 {
      var next := Parent(Parent(current)) + [BuildGradle];
      if StartsWith(next, codebaseDir) {
        WalkUpDeep(codebaseDir, next);
      }
    }
  }

  lemma BuildFileChainOk(codebaseDir: Path, buildFile: Path)
    requires codebaseDir != []
    ensures BuildFileChain(codebaseDir, buildFile).Ok? ==> ChainOk(BuildFileChain(codebaseDir, buildFile).value)
  {
    WalkUpDeep(codebaseDir, buildFile);
  }

  /** What scan has gathered so far. */
  datatype Totals = Totals(repositories: set<SoftwareRepository>, software: set<Software>)

  /** The chain of one build file walked through every phase, adding to `totals`. */
  function ChainEffect(env: Environment, codebaseDir: Path, rootProperties: map<string, string>, buildFile: Path,
                       totals: Totals): Result<Totals, Failure>
    requires codebaseDir != []
  {
    match BuildFileChain(codebaseDir, buildFile)
    case Err(e) => Err(Thrown(e))
    case Ok(chain) =>
      BuildFileChainOk(codebaseDir, buildFile);
      ProcessPhasesInitializeFirst();
      match PhasesEffect(env, codebaseDir, rootProperties, chain, ProcessPhases, |ProcessPhases|, Ok(ChainState([], totals.repositories, totals.software)))
      case Err(f) => Err(f)
      case Ok(st) => Ok(Totals(st.repositories, st.software))
  }

  /** ChainEffect for a given codebase, as a step of the walk over build files. */
  function ChainStep(env: Environment, codebaseDir: Path, rootProperties: map<string, string>): (Path, Totals) -> Result<Totals, Failure>
    requires codebaseDir != []
  {
    (buildFile: Path, totals: Totals) => ChainEffect(env, codebaseDir, rootProperties, buildFile, totals)
  }

  /** Every build file found, in the order found, each by `chainEffect`; the first failure ends the
      scan. */
  function FilesEffect(chainEffect: (Path, Totals) -> Result<Totals, Failure>, buildFiles: seq<Path>, totals: Totals): Result<Totals, Failure> {
    if buildFiles == [] then Ok(totals)
    else match FilesEffect(chainEffect, buildFiles[..|buildFiles| - 1], totals)
      case Err(f) => Err(f)
      case Ok(t) => chainEffect(buildFiles[|buildFiles| - 1], t)
  }

  /** What scan collects: whether build files were found, and the totals; or the failure that
      ended it. */
  function ScanEffect(env: Environment, codebaseDir: Path): Result<(Gradle, Totals), Failure> {
    match WrapperSoftware(env, codebaseDir)
    case Err(f) => Err(f)
    case Ok(wrapper) =>
      if codebaseDir == [] then Err(Thrown("NullPointerException"))
      else
        var buildFiles := env.findBuildFiles(codebaseDir);
        match FilesEffect(ChainStep(env, codebaseDir, RootProperties(codebaseDir)), buildFiles, Totals({}, wrapper))
        case Err(f) => Err(f)
        case Ok(t) => Ok((Gradle(|buildFiles| > 0), t))
  }

  /** The scan's component transformer: the Gradle facet, and the scanner's own repositories and
      software replacing those it reported before. */
  function Transformer(env: Environment, gradle: Gradle, repositories: seq<SoftwareRepository>, software: seq<Software>): Facets -> Facets {
    (f: Facets) => f.(gradle := Some(gradle),
                      softwareRepositories := env.replaceRepositories(f.softwareRepositories, repositories),
                      software := env.replaceSoftware(f.software, software))
  }

  /** The output of scan for a given effect: a scanner error naming the failure, or the transformer
      over the collected items, each listed once and sorted by its comparator. */
  ghost predicate IsScanOutput(env: Environment, effect: Result<(Gradle, Totals), Failure>, output: ScanEngine.Output) {
    match effect
    case Err(f) =>
      output == ScanEngine.Output([ScannerError(ScannerId, ScanFailureMessage, env.describe(f))], None, None)
    case Ok((gradle, totals)) =>
      exists repositories, software ::
        && multiset(repositories) == multiset(totals.repositories)
        && multiset(software) == multiset(totals.software)
        && (TotalPreorder(env.repositoryLe) ==> SortedBy(repositories, env.repositoryLe))
        && (TotalPreorder(env.softwareLe) ==> SortedBy(software, env.softwareLe))
        && output == ScanEngine.Output([], Some(ScanEngine.OnFacets(Transformer(env, gradle, repositories, software))), None)
  }

  /** One build file: its chain, walked through every phase. */
  method ScanBuildFile(env: Environment, codebaseDir: Path, rootProperties: map<string, string>, buildFile: Path,
                       totals: Totals) returns (r: Result<Totals, Failure>)
    requires codebaseDir != []
    ensures r == ChainEffect(env, codebaseDir, rootProperties, buildFile, totals)
  {
    var chain := GetBuildFileChain(codebaseDir, buildFile);
    if chain.Err? {
      return Err(Thrown(chain.error));
    }
    BuildFileChainOk(codebaseDir, buildFile);
    var walked := ProcessBuildFile(env, codebaseDir, rootProperties, chain.value, totals.repositories, totals.software);
    if walked.Err? {
      return Err(walked.error);
    }
    return Ok(Totals(walked.value.repositories, walked.value.software));
  }

  /** The stream of build files: each one's chain in turn, sharing the totals. */
  method ScanBuildFiles(env: Environment, codebaseDir: Path, rootProperties: map<string, string>, buildFiles: seq<Path>,
                        start: Totals) returns (r: Result<Totals, Failure>)
    requires codebaseDir != []
    ensures r == FilesEffect(ChainStep(env, codebaseDir, rootProperties), buildFiles, start)
  {
    var totals := start;
    for i := 0 to |buildFiles|
      invariant FilesEffect(ChainStep(env, codebaseDir, rootProperties), buildFiles[..i], start) == Ok(totals)
    {
      assert buildFiles[..i + 1][..i] == buildFiles[..i];
      var next := ScanBuildFile(env, codebaseDir, rootProperties, buildFiles[i], totals);
      if next.Err? {
        FilesFailureStays(ChainStep(env, codebaseDir, rootProperties), buildFiles, i + 1, |buildFiles|, start);
        assert buildFiles[..|buildFiles|] == buildFiles;
        return next;
      }
      totals := next.value;
    }
    assert buildFiles[..|buildFiles|] == buildFiles;
    return Ok(totals);
  }

  /** scan */
  method Scan(env: Environment, codebase: Codebase) returns (output: ScanEngine.Output)
    ensures IsScanOutput(env, ScanEffect(env, codebase.dir), output)
    ensures output.transformer.Some? ==> ScanEngine.KeepsIdAndErrors(output.transformer.value)
  {
    var codebaseDir := codebase.dir;
    var wrapper := WrapperSoftware(env, codebaseDir);
    if wrapper.Err? {
      return ScanEngine.Output([ScannerError(ScannerId, ScanFailureMessage, env.describe(wrapper.error))], None, None);
    }
    if codebaseDir == [] {
      return ScanEngine.Output([ScannerError(ScannerId, ScanFailureMessage, env.describe(Thrown("NullPointerException")))], None, None);
    }
    var buildFiles := env.findBuildFiles(codebaseDir);
    var collected := ScanBuildFiles(env, codebaseDir, RootProperties(codebaseDir), buildFiles, Totals({}, wrapper.value));
    if collected.Err? {
      return ScanEngine.Output([ScannerError(ScannerId, ScanFailureMessage, env.describe(collected.error))], None, None);
    }
    var gradle := Gradle(|buildFiles| > 0);
    var repositories := SortedElements(collected.value.repositories, env.repositoryLe);
    var software := SortedElements(collected.value.software, env.softwareLe);
    output := ScanEngine.Output([], Some(ScanEngine.OnFacets(Transformer(env, gradle, repositories, software))), None);
  }

  /** Once a prefix of the build files fails, the scan fails with the same failure. */
  lemma {:induction false} FilesFailureStays(chainEffect: (Path, Totals) -> Result<Totals, Failure>, buildFiles: seq<Path>,
                                             n: nat, m: nat, totals: Totals)
    requires n <= m <= |buildFiles|
    requires FilesEffect(chainEffect, buildFiles[..n], totals).Err?
    ensures FilesEffect(chainEffect, buildFiles[..m], totals) == FilesEffect(chainEffect, buildFiles[..n], totals)
    decreases m
  {
    if m > n {
      FilesFailureStays(chainEffect, buildFiles, n, m - 1, totals);
      assert buildFiles[..m][..m - 1] == buildFiles[..m - 1];
    }
  }
}
