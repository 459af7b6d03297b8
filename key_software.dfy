/** KeySoftwareScanner: a late component scanner that looks through the software other scanners
    found on a component for configured "key software". Each rule names a regular expression; the
    versions of the software whose name the expression is found in become one KeySoftware entry,
    highest version first and without repeats. Compiled expressions are cached by their source. */
module KeySoftwareScanning {
  import opened Common
  import opened Catalog
  import ScanEngine

  const ScannerId := "key-software"

  datatype KeySoftwareRule = KeySoftwareRule(softwareNamePattern: string, name: string)

  /** A compiled regular expression; compiling keeps its source. */
  datatype Pattern = Pattern(source: string)

  /** What this model needs of java.util.regex and of Gradle's versions: whether a source compiles,
      whether a compiled pattern is found in a name (Matcher.find), and the order of versions
      (DefaultVersionComparator applied to the parsed versions). */
  datatype Environment = Environment(
    compiles: string -> bool,
    find: (Pattern, string) -> bool,
    versionLe: (string, string) -> bool)

  function CompileError(source: string): string {
    "PatternSyntaxException: " + source
  }

  function VersionOf(s: Software): string { s.version }

  function NameMatches(env: Environment, p: Pattern): Software -> bool {
    (s: Software) => env.find(p, s.name)
  }

  /** The versions of the software whose name the pattern is found in, in software order. */
  function MatchingVersions(env: Environment, p: Pattern, software: seq<Software>): (r: seq<string>)
    ensures |r| == |Filter(software, NameMatches(env, p))|
    ensures forall j :: 0 <= j < |r| ==> r[j] == Filter(software, NameMatches(env, p))[j].version
  {
    var matching := Filter(software, NameMatches(env, p));
    seq(|matching|, j requires 0 <= j < |matching| => matching[j].version)
  }

  lemma MatchingVersionsMembers(env: Environment, p: Pattern, software: seq<Software>)
    ensures forall v :: v in MatchingVersions(env, p, software) <==>
      exists i :: 0 <= i < |software| && env.find(p, software[i].name) && software[i].version == v
  {
    var matching := Filter(software, NameMatches(env, p));
    var r := MatchingVersions(env, p, software);
    forall v | v in r ensures exists i :: 0 <= i < |software| && env.find(p, software[i].name) && software[i].version == v {
      var j :| 0 <= j < |r| && r[j] == v;
      assert matching[j] in software && NameMatches(env, p)(matching[j]);
      var i :| 0 <= i < |software| && software[i] == matching[j];
    }
    forall i | 0 <= i < |software| && env.find(p, software[i].name) ensures software[i].version in r {
      assert NameMatches(env, p)(software[i]);
      var j :| 0 <= j < |matching| && matching[j] == software[i];
      assert r[j] == software[i].version;
    }
  }

  /** applyRule(component, rule): matching versions sorted highest first (a stable sort), then
      repeats dropped, keeping the first. */
  function RuleVersions(env: Environment, p: Pattern, software: seq<Software>): seq<string> {
    Distinct(SortBy(MatchingVersions(env, p, software), Reversed(env.versionLe)))
  }

  /** The KeySoftware a rule yields: none when no software matches. */
  function ApplyRule(env: Environment, rule: KeySoftwareRule, software: seq<Software>): Option<KeySoftware> {
    var versions := RuleVersions(env, Pattern(rule.softwareNamePattern), software);
    if versions == [] then None else Some(KeySoftware(rule.name, versions))
  }

  /** A rule yields nothing exactly when no software name matches its pattern, and otherwise an
      entry under the rule's name listing the matching versions. */
  lemma ApplyRuleMatches(env: Environment, rule: KeySoftwareRule, software: seq<Software>)
    ensures ApplyRule(env, rule, software).None? <==>
      forall i :: 0 <= i < |software| ==> !env.find(Pattern(rule.softwareNamePattern), software[i].name)
    ensures ApplyRule(env, rule, software).Some? ==>
      ApplyRule(env, rule, software).value == KeySoftware(rule.name, RuleVersions(env, Pattern(rule.softwareNamePattern), software))
  {
    var p := Pattern(rule.softwareNamePattern);
    RuleVersionsMembers(env, p, software);
    if RuleVersions(env, p, software) != [] {
      assert RuleVersions(env, p, software)[0] in RuleVersions(env, p, software);
    }
  }

  /** One rule applied after the ones before it: an earlier failure stands, an uncompilable
      pattern throws, otherwise the rule's KeySoftware, if any, is added. */
  function Step(env: Environment, prev: Result<seq<KeySoftware>, string>, rule: KeySoftwareRule, software: seq<Software>): Result<seq<KeySoftware>, string> {
    if prev.Err? then prev
    else if !env.compiles(rule.softwareNamePattern) then Err(CompileError(rule.softwareNamePattern))
    else
      match ApplyRule(env, rule, software)
      case None => prev
      case Some(ks) => Ok(prev.value + [ks])
  }

  /** getKeySoftware: the rules applied in order, rules without a match left out; the first rule
      whose pattern does not compile throws. */
  function KeySoftwareOf(env: Environment, rules: seq<KeySoftwareRule>, software: seq<Software>): Result<seq<KeySoftware>, string>
    decreases |rules|
  {
    if rules == [] then Ok([])
    else Step(env, KeySoftwareOf(env, rules[..|rules| - 1], software), rules[|rules| - 1], software)
  }

  /** The versions a rule lists are exactly those of the matching software. */
  lemma RuleVersionsMembers(env: Environment, p: Pattern, software: seq<Software>)
    ensures forall v :: v in RuleVersions(env, p, software) <==>
      exists i :: 0 <= i < |software| && env.find(p, software[i].name) && software[i].version == v
  {
    var matching := MatchingVersions(env, p, software);
    var sorted := SortBy(matching, Reversed(env.versionLe));
    MatchingVersionsMembers(env, p, software);
    forall v ensures v in Distinct(sorted) <==> v in matching {
      SortByMembers(matching, Reversed(env.versionLe), v);
      DistinctMembers(sorted, v);
    }
  }

  /** The versions are listed highest first and none is listed twice. */
  lemma RuleVersionsDescendingDistinct(env: Environment, p: Pattern, software: seq<Software>)
    requires TotalPreorder(env.versionLe)
    ensures SortedBy(RuleVersions(env, p, software), Reversed(env.versionLe))
    ensures NoDuplicates(RuleVersions(env, p, software))
  {
    var sorted := SortBy(MatchingVersions(env, p, software), Reversed(env.versionLe));
    ReversedIsTotalPreorder(env.versionLe);
    SortBySorted(MatchingVersions(env, p, software), Reversed(env.versionLe));
    DistinctKeepsSorted(sorted, Reversed(env.versionLe));
  }

  /** Rules are applied one after another: the key software of two lists of rules is the key
      software of the first followed by that of the second. */
  lemma {:induction false} KeySoftwareOfConcat(env: Environment, rules: seq<KeySoftwareRule>, more: seq<KeySoftwareRule>, software: seq<Software>)
    requires KeySoftwareOf(env, rules, software).Ok? && KeySoftwareOf(env, more, software).Ok?
    ensures KeySoftwareOf(env, rules + more, software) ==
      Ok(KeySoftwareOf(env, rules, software).value + KeySoftwareOf(env, more, software).value)
    decreases |more|
  {
    if more == [] {
      assert rules + more == rules;
      assert KeySoftwareOf(env, rules, software).value + [] == KeySoftwareOf(env, rules, software).value;
    } else {
      var init := more[..|more| - 1];
      var last := more[|more| - 1];
      assert (rules + more)[..|rules + more| - 1] == rules + init;
      assert (rules + more)[|rules + more| - 1] == last;
      assert KeySoftwareOf(env, init, software).Ok?;
      KeySoftwareOfConcat(env, rules, init, software);
      StepAfterPrefix(env, KeySoftwareOf(env, rules, software).value, KeySoftwareOf(env, init, software).value, last, software);
    }
  }

  /** A step only appends: the entries before it are kept as they are. */
  lemma StepAfterPrefix(env: Environment, a: seq<KeySoftware>, b: seq<KeySoftware>, rule: KeySoftwareRule, software: seq<Software>)
    requires Step(env, Ok(b), rule, software).Ok?
    ensures Step(env, Ok(a + b), rule, software) == Ok(a + Step(env, Ok(b), rule, software).value)
  {
    match ApplyRule(env, rule, software)
    case None =>
    case Some(ks) =>
      assert a + (b + [ks]) == (a + b) + [ks];
  }

  /** One rule on its own: its KeySoftware when something matches, nothing otherwise, and an
      error when its pattern does not compile. */
  lemma SingleRule(env: Environment, rule: KeySoftwareRule, software: seq<Software>)
    ensures !env.compiles(rule.softwareNamePattern) ==> KeySoftwareOf(env, [rule], software) == Err(CompileError(rule.softwareNamePattern))
    ensures env.compiles(rule.softwareNamePattern) ==>
      KeySoftwareOf(env, [rule], software) == Ok(match ApplyRule(env, rule, software) case None => [] case Some(ks) => [ks])
  {
    assert [rule][..0] == [];
    match ApplyRule(env, rule, software)
    case None =>
    case Some(ks) => assert [] + [ks] == [ks];
  }

  /** With every pattern compiling, each entry comes from a rule, at most one per rule. */
  lemma {:induction false} KeySoftwareFromRules(env: Environment, rules: seq<KeySoftwareRule>, software: seq<Software>)
    requires forall i :: 0 <= i < |rules| ==> env.compiles(rules[i].softwareNamePattern)
    ensures KeySoftwareOf(env, rules, software).Ok?
    ensures |KeySoftwareOf(env, rules, software).value| <= |rules|
    ensures forall k :: 0 <= k < |KeySoftwareOf(env, rules, software).value| ==>
      exists i :: 0 <= i < |rules| && ApplyRule(env, rules[i], software) == Some(KeySoftwareOf(env, rules, software).value[k])
    decreases |rules|
  {
    if rules != [] {
      var init := rules[..|rules| - 1];
      var last := rules[|rules| - 1];
      KeySoftwareFromRules(env, init, software);
      var prev := KeySoftwareOf(env, init, software).value;
      assert forall i :: 0 <= i < |init| ==> rules[i] == init[i];
      assert KeySoftwareOf(env, rules, software) == Step(env, Ok(prev), last, software);
      match ApplyRule(env, last, software)
      case None =>
        assert KeySoftwareOf(env, rules, software).value == prev;
      case Some(ks) =>
        var r := prev + [ks];
        assert KeySoftwareOf(env, rules, software).value == r;
        forall k | 0 <= k < |r|
          ensures exists i :: 0 <= i < |rules| && ApplyRule(env, rules[i], software) == Some(r[k])
        {
          if k < |prev| {
            assert r[k] == prev[k];
          } else {
            assert ApplyRule(env, rules[|rules| - 1], software) == Some(r[k]);
          }
        }
    }
  }

  /** The scanner, with its cache of compiled patterns. */
  class KeySoftwareScanner {
    const rules: seq<KeySoftwareRule>
    const env: Environment
    var patternCache: map<string, Pattern>
    /** The sources compiled so far, in order. */
    ghost var compiled: seq<string>

    /** Every cached pattern is the compiled form of its key, and each source was compiled once,
        when it entered the cache. */
    ghost predicate Valid()
      reads this
    {
      && (forall k :: k in patternCache ==> patternCache[k] == Pattern(k) && env.compiles(k))
      && (forall k :: k in patternCache <==> k in compiled)
      && NoDuplicates(compiled)
    }

    constructor (rules: seq<KeySoftwareRule>, env: Environment)
      ensures Valid()
      ensures this.rules == rules && this.env == env && patternCache == map[] && compiled == []
    {
      this.rules := rules;
      this.env := env;
      patternCache := map[];
      compiled := [];
    }

    /** getCachedPattern: the cached pattern, or the pattern compiled and cached; a source that
        does not compile throws and leaves the cache as it was. */
    method GetCachedPattern(source: string) returns (r: Result<Pattern, string>)
      requires Valid()
      modifies this
      ensures Valid()
      ensures env.compiles(source) ==> r == Ok(Pattern(source))
      ensures !env.compiles(source) ==> r == Err(CompileError(source))
      ensures r.Ok? ==> patternCache == old(patternCache)[source := Pattern(source)]
      ensures r.Err? ==> patternCache == old(patternCache)
      ensures compiled == old(compiled) + (if r.Ok? && source !in old(patternCache) then [source] else [])
    {
      if source in patternCache {
        return Ok(patternCache[source]);
      }
      if !env.compiles(source) {
        return Err(CompileError(source));
      }
      var p := Pattern(source);
      patternCache := patternCache[source := p];
      compiled := compiled + [source];
      assert forall i :: 0 <= i < |old(compiled)| ==> compiled[i] == old(compiled)[i] && compiled[i] != source;
      r := Ok(p);
    }

    /** applyRule(component) for one rule, through the pattern cache: the key software so far
        with the rule's entry added, or the compile error. */
    method ApplyRuleCached(keySoftware: seq<KeySoftware>, rule: KeySoftwareRule, software: seq<Software>)
      returns (next: Result<seq<KeySoftware>, string>)
      requires Valid()
      modifies this
      ensures Valid()
      ensures old(patternCache.Keys) <= patternCache.Keys
      ensures forall k :: k in old(patternCache) ==> patternCache[k] == old(patternCache)[k]
      ensures next == Step(env, Ok(keySoftware), rule, software)
    {
      var pattern := GetCachedPattern(rule.softwareNamePattern);
      if pattern.Err? {
        return Err(pattern.error);
      }
      var versions := RuleVersions(env, pattern.value, software);
      if versions == [] {
        next := Ok(keySoftware);
      } else {
        next := Ok(keySoftware + [KeySoftware(rule.name, versions)]);
      }
    }

    /** scan: a component without software gets the identity transformer; otherwise the rules are
        applied in order and the transformer sets the key software. An uncompilable pattern
        makes scan throw. */
    method Scan(c: Component) returns (outcome: ScanEngine.ScanOutcome)
      requires Valid()
      modifies this
      ensures Valid()
      ensures old(patternCache.Keys) <= patternCache.Keys
      ensures forall k :: k in old(patternCache) ==> patternCache[k] == old(patternCache)[k]
      ensures ScanEngine.OutcomeKeeps(outcome)
      ensures c.facets.software.None? ==> outcome.Returned? && outcome.output.errors == [] && outcome.output.output.None?
                                          && outcome.output.transformer.Some?
                                          && forall x :: outcome.output.transformer.value(x) == x
      ensures c.facets.software.Some? ==>
        match KeySoftwareOf(env, rules, c.facets.software.value)
        case Err(e) => outcome == ScanEngine.Threw(e)
        case Ok(ks) => outcome.Returned? && outcome.output.errors == [] && outcome.output.output.None?
                       && outcome.output.transformer.Some?
                       && forall x :: outcome.output.transformer.value(x)
                                        == x.(facets := x.facets.(keySoftware := Some(ks)))
    {
      if c.facets.software.None? {
        return ScanEngine.Returned(ScanEngine.Output([], Some(ScanEngine.OnFacets((f: Facets) => f)), None));
      }
      var software := c.facets.software.value;
      var keySoftware: seq<KeySoftware> := [];
      for i := 0 to |rules|
        invariant Valid()
        invariant old(patternCache.Keys) <= patternCache.Keys
        invariant forall k :: k in old(patternCache) ==> patternCache[k] == old(patternCache)[k]
        invariant KeySoftwareOf(env, rules[..i], software) == Ok(keySoftware)
      {
        assert rules[..i + 1][..i] == rules[..i];
        var next := ApplyRuleCached(keySoftware, rules[i], software);
        if next.Err? {
          KeySoftwareErrStays(env, rules, i + 1, software);
          return ScanEngine.Threw(next.error);
        }
        keySoftware := next.value;
      }
      assert rules[..|rules|] == rules;
      var ks := keySoftware;
      return ScanEngine.Returned(ScanEngine.Output([], Some(ScanEngine.OnFacets((f: Facets) => f.(keySoftware := Some(ks)))), None));
    }
  }

  /** Once a prefix of the rules fails, the whole list fails with the same error. */
  lemma {:induction false} KeySoftwareErrStays(env: Environment, rules: seq<KeySoftwareRule>, n: nat, software: seq<Software>)
    requires n <= |rules|
    requires KeySoftwareOf(env, rules[..n], software).Err?
    ensures KeySoftwareOf(env, rules, software) == KeySoftwareOf(env, rules[..n], software)
    decreases |rules| - n
  {
    if n < |rules| {
      assert rules[..n + 1][..n] == rules[..n];
      KeySoftwareErrStays(env, rules, n + 1, software);
    } else {
      assert rules[..n] == rules;
    }
  }
}
