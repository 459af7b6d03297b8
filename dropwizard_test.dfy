/*
 * The Dropwizard version component test, as its tests state it: components whose key software
 * includes Dropwizard pass when their lowest Dropwizard version is at least 2.0.0 and fail otherwise;
 * every other component is not applicable. The version order is a parameter.
 */
module DropwizardTesting {
  import opened Common
  import opened Catalog

  const DropwizardTestId := "dropwizard-version"
  const DropwizardPriority := High
  const DropwizardName := "dropwizard"
  const MinimumVersion := "2.0.0"

  function SupportedMessage(version: string): string {
    "Component is using supported version `" + version + "` of the Dropwizard framework which is equal to or greater than the minimum "
      + "supported version of `" + MinimumVersion + "`.  "
  }

  function UnsupportedMessage(version: string): string {
    "Component is using very old and unsupported version `" + version + "` of the Dropwizard framework.  Should be using at least version "
      + "`" + MinimumVersion + "`.  "
  }

  function NamedDropwizard(): KeySoftware -> bool {
    (k: KeySoftware) => k.name == DropwizardName
  }

  /** The versions of the first key software named `dropwizard`, if there is one. */
  function DropwizardVersions(keySoftware: Option<seq<KeySoftware>>): (r: Option<seq<string>>)
    ensures r.None? <==> keySoftware.None? || forall i :: 0 <= i < |keySoftware.value| ==> keySoftware.value[i].name != DropwizardName
    ensures r.Some? ==> exists i :: 0 <= i < |keySoftware.value| && keySoftware.value[i].name == DropwizardName && keySoftware.value[i].versions == r.value
  {
    match keySoftware
    case None => None
    case Some(entries) =>
      match FindFirst(entries, NamedDropwizard())
      case None => None
      case Some(i) => Some(entries[i].versions)
  }

  /** The lowest of a non-empty list of versions under the version order `le`. */
  function Lowest(versions: seq<string>, le: (string, string) -> bool): (r: string)
    requires versions != [] && TotalPreorder(le)
    ensures r in versions && forall i :: 0 <= i < |versions| ==> le(r, versions[i])
  {
    if |versions| == 1 then versions[0]
    else
      var init := versions[..|versions| - 1];
      var last := versions[|versions| - 1];
      var low := Lowest(init, le);
      assert versions == init + [last];
      if le(low, last) then low else last
  }

  /** DropwizardVersionTest.test over the component's key software, with `le` Gradle's version order. */
  function DropwizardTest(keySoftware: Option<seq<KeySoftware>>, le: (string, string) -> bool): (r: TestResult)
    requires TotalPreorder(le)
    ensures r.testId == DropwizardTestId && r.priority == DropwizardPriority
    ensures r.outcome == NotApplicable <==> DropwizardVersions(keySoftware).None? || DropwizardVersions(keySoftware).value == []
    ensures r.outcome == NotApplicable ==> r.message.None?
    ensures r.outcome != NotApplicable ==>
      var versions := DropwizardVersions(keySoftware).value;
      var low := Lowest(versions, le);
      && (r.outcome == Fail <==> !le(MinimumVersion, low))
      && r.message == Some(if r.outcome == Fail then UnsupportedMessage(low) else SupportedMessage(low))
  {
    match DropwizardVersions(keySoftware)
    case None => TestResult(DropwizardTestId, NotApplicable, DropwizardPriority, None)
    case Some(versions) =>
      if versions == [] then TestResult(DropwizardTestId, NotApplicable, DropwizardPriority, None)
      else
        var low := Lowest(versions, le);
        if le(MinimumVersion, low) then TestResult(DropwizardTestId, Pass, DropwizardPriority, Some(SupportedMessage(low)))
        else TestResult(DropwizardTestId, Fail, DropwizardPriority, Some(UnsupportedMessage(low)))
  }

  /** Some version in the list is below the minimum. */
  ghost predicate SomeBelowMinimum(versions: seq<string>, le: (string, string) -> bool) {
    exists i :: 0 <= i < |versions| && !le(MinimumVersion, versions[i])
  }

  /** A component using Dropwizard fails exactly when one of its Dropwizard versions is below the
      minimum, and the version its result names is one of them, at or below every other. */
  lemma FailsIffSomeVersionBelowMinimum(keySoftware: Option<seq<KeySoftware>>, le: (string, string) -> bool)
    requires TotalPreorder(le)
    requires DropwizardVersions(keySoftware).Some? && DropwizardVersions(keySoftware).value != []
    ensures var versions := DropwizardVersions(keySoftware).value;
      && (DropwizardTest(keySoftware, le).outcome == Fail <==> SomeBelowMinimum(versions, le))
      && Lowest(versions, le) in versions
      && forall i :: 0 <= i < |versions| ==> le(Lowest(versions, le), versions[i])
  {
    var versions := DropwizardVersions(keySoftware).value;
    var low := Lowest(versions, le);
    if SomeBelowMinimum(versions, le) {
      var i :| 0 <= i < |versions| && !le(MinimumVersion, versions[i]);
      assert le(low, versions[i]);
    }
  }

  lemma SomeBelowMinimumConcat(versions: seq<string>, more: seq<string>, le: (string, string) -> bool)
    requires forall i :: 0 <= i < |more| ==> le(MinimumVersion, more[i])
    ensures SomeBelowMinimum(versions + more, le) <==> SomeBelowMinimum(versions, le)
  {
    var all := versions + more;
    if SomeBelowMinimum(versions, le) {
      var i :| 0 <= i < |versions| && !le(MinimumVersion, versions[i]);
      assert all[i] == versions[i];
    }
    if SomeBelowMinimum(all, le) {
      var i :| 0 <= i < |all| && !le(MinimumVersion, all[i]);
      assert i < |versions| by {
        forall j | |versions| <= j < |all| ensures le(MinimumVersion, all[j]) {
          assert all[j] == more[j - |versions|];
        }
      }
      assert versions[i] == all[i];
    }
  }

  /** Adding versions at or above the minimum never turns a failing component into a passing one,
      nor the reverse: only the versions below the minimum decide. */
  lemma SupportedVersionsDoNotDecide(versions: seq<string>, more: seq<string>, le: (string, string) -> bool)
    requires TotalPreorder(le) && versions != []
    requires forall i :: 0 <= i < |more| ==> le(MinimumVersion, more[i])
    ensures DropwizardTest(Some([KeySoftware(DropwizardName, versions)]), le).outcome
      == DropwizardTest(Some([KeySoftware(DropwizardName, versions + more)]), le).outcome
  {
    var entries := Some([KeySoftware(DropwizardName, versions)]);
    var extended := Some([KeySoftware(DropwizardName, versions + more)]);
    assert DropwizardVersions(entries) == Some(versions) by {
      assert NamedDropwizard()(entries.value[0]);
    }
    assert DropwizardVersions(extended) == Some(versions + more) by {
      assert NamedDropwizard()(extended.value[0]);
    }
    FailsIffSomeVersionBelowMinimum(entries, le);
    FailsIffSomeVersionBelowMinimum(extended, le);
    SomeBelowMinimumConcat(versions, more, le);
  }
}
