/*
 * The build.gradle visitor: which top-level blocks it processes in which phase and project mode,
 * and what applying a plugin does to the software found so far.
 */
module BuildGradleVisiting {
  import opened Common
  import opened Catalog
  import opened GroovyVisitors
  import opened GradleScanning

  /** The nested visitors a block is handed to. */
  datatype SubVisitor = BuildscriptVisitor | ExtOuterVisitor | DependencyManagementVisitor | DependenciesVisitor

  /** What is handed to the nested visitor: the call's arguments, or the `ext` call itself. */
  datatype VisitTarget = CallArguments | WholeCall

  datatype Decision =
    | Decided(outcome: ExpressionVisitOutcome, visits: Option<(SubVisitor, VisitTarget)>)
    /** The method is none of the blocks this visitor knows; the base build-file visitor decides. */
    | DelegatedToBase

  /** The phases in which each block is processed: an independent statement of the table. */
  const ProcessedIn: map<string, set<ProcessPhase>> := map[
    "buildscript" := {Properties, BuildscriptRepositories, BuildscriptDependencies},
    "ext" := {Properties},
    "dependencyManagement" := {DependencyManagement},
    "dependencies" := {Dependencies}]

  predicate Known(methodName: string) {
    methodName == "allprojects" || methodName == "subprojects" || methodName in ProcessedIn
  }

  /** processMethodCallExpression */
  function MethodCallDecision(methodName: string, phase: ProcessPhase, mode: ProjectMode): (d: Decision)
    ensures d.DelegatedToBase? <==> !Known(methodName)
    ensures d.Decided? ==> (d.visits.Some? <==> d.outcome == Processed)
    ensures d.Decided? && d.outcome == Processed <==> methodName in ProcessedIn && phase in ProcessedIn[methodName]
    ensures d.Decided? && d.outcome == IgnoredNoWarning <==> methodName in ProcessedIn && phase !in ProcessedIn[methodName]
    ensures d.Decided? && d.outcome == Continue <==> methodName == "allprojects" || (methodName == "subprojects" && mode == Subproject)
    ensures d.Decided? && d.outcome == Ignored <==> methodName == "subprojects" && mode != Subproject
  {
    if methodName == "allprojects" then
      Decided(Continue, None)
    else if methodName == "subprojects" then
      Decided(if mode == Subproject then Continue else Ignored, None)
    else if methodName == "buildscript" then
      if phase == Properties || phase == BuildscriptRepositories || phase == BuildscriptDependencies then
        Decided(Processed, Some((BuildscriptVisitor, CallArguments)))
      else
        Decided(IgnoredNoWarning, None)
    else if methodName == "ext" then
      if phase == Properties then Decided(Processed, Some((ExtOuterVisitor, WholeCall)))
      else Decided(IgnoredNoWarning, None)
    else if methodName == "dependencyManagement" then
      if phase == DependencyManagement then Decided(Processed, Some((DependencyManagementVisitor, CallArguments)))
      else Decided(IgnoredNoWarning, None)
    else if methodName == "dependencies" then
      if phase == Dependencies then Decided(Processed, Some((DependenciesVisitor, CallArguments)))
      else Decided(IgnoredNoWarning, None)
    else
      DelegatedToBase
  }

  /** Only `subprojects` looks at the project mode. */
  lemma ModeMattersOnlyForSubprojects(methodName: string, phase: ProcessPhase, mode1: ProjectMode, mode2: ProjectMode)
    requires methodName != "subprojects"
    ensures MethodCallDecision(methodName, phase, mode1) == MethodCallDecision(methodName, phase, mode2)
  {
  }

  /** Only the four phase-bound blocks look at the phase. */
  lemma PhaseMattersOnlyForBlocks(methodName: string, phase1: ProcessPhase, phase2: ProcessPhase, mode: ProjectMode)
    requires methodName !in ProcessedIn
    ensures MethodCallDecision(methodName, phase1, mode) == MethodCallDecision(methodName, phase2, mode)
  {
  }

  /** In every phase of a build-file walk, each processed block goes to its own nested visitor, and in
      the phases that read no block (plugins, applied plugins, repositories) nothing is processed. */
  lemma ProcessedBlocksPerPhase(methodName: string, phase: ProcessPhase, mode: ProjectMode)
    ensures var d := MethodCallDecision(methodName, phase, mode);
      && (phase in {Initialize, Plugins, ApplyPlugins, Repositories, Finalize} ==> !(d.Decided? && d.outcome == Processed))
      && (d.Decided? && d.outcome == Processed ==>
            d.visits.value.0 == (match methodName
              case "buildscript" => BuildscriptVisitor
              case "ext" => ExtOuterVisitor
              case "dependencyManagement" => DependencyManagementVisitor
              case _ => DependenciesVisitor))
  {
  }

  // ---------------------------------------------------------------------------------------------
  // Applying a plugin

  const SpringBootPluginId := "org.springframework.boot"

  /** processApplyPlugin on the software set of the visitor state. */
  function ApplyPluginEffect(pp: PluginProcessor, scannerId: string, values: map<string, Option<string>>,
                             software: set<Software>): (r: Result<set<Software>, VisitFailure>)
    ensures r.Err? <==>
      Lookup(values, "plugin") == Some(SpringBootPluginId)
      && pp.springBootPlugin(software).None? && pp.springBootPluginDependency(software).None?
    ensures r.Err? ==> r.error == SpringBootPluginDependencyMissing
    ensures Lookup(values, "plugin") == Some(SpringBootPluginId) && pp.springBootPlugin(software).Some? ==> r == Ok(software)
  {
    var name := Lookup(values, "plugin");
    if name == Some(SpringBootPluginId) then
      if pp.springBootPlugin(software).Some? then
        Ok(software)
      else
        match pp.springBootPluginDependency(software)
        case None => Err(SpringBootPluginDependencyMissing)
        case Some(dependency) => Ok(pp.processPlugin(scannerId, name, Some(dependency.version), software))
    else
      Ok(pp.processPlugin(scannerId, name, None, software))
  }

  /** A plugin other than Spring Boot is processed without a version, whatever the software found. */
  lemma OtherPluginHasNoVersion(pp: PluginProcessor, scannerId: string, values: map<string, Option<string>>,
                                software: set<Software>)
    requires Lookup(values, "plugin") != Some(SpringBootPluginId)
    ensures ApplyPluginEffect(pp, scannerId, values, software)
      == Ok(pp.processPlugin(scannerId, Lookup(values, "plugin"), None, software))
  {
  }

  /** The Spring Boot plugin is processed at the version of the plugin dependency in the buildscript. */
  lemma SpringBootAtDependencyVersion(pp: PluginProcessor, scannerId: string, values: map<string, Option<string>>,
                                      software: set<Software>)
    requires Lookup(values, "plugin") == Some(SpringBootPluginId)
    requires pp.springBootPlugin(software).None? && pp.springBootPluginDependency(software).Some?
    ensures ApplyPluginEffect(pp, scannerId, values, software)
      == Ok(pp.processPlugin(scannerId, Some(SpringBootPluginId), Some(pp.springBootPluginDependency(software).value.version), software))
  {
  }

  /** The plugin processor records the Spring Boot plugin when asked to process it. */
  ghost predicate RecordsSpringBoot(pp: PluginProcessor, scannerId: string) {
    forall version, software :: pp.springBootPlugin(pp.processPlugin(scannerId, Some(SpringBootPluginId), version, software)).Some?
  }

  /** Applying the Spring Boot plugin a second time adds nothing, when the processor records it. */
  lemma ApplySpringBootIdempotent(pp: PluginProcessor, scannerId: string, values: map<string, Option<string>>,
                                  software: set<Software>)
    requires Lookup(values, "plugin") == Some(SpringBootPluginId)
    requires RecordsSpringBoot(pp, scannerId)
    ensures var once := ApplyPluginEffect(pp, scannerId, values, software);
      once.Ok? ==> ApplyPluginEffect(pp, scannerId, values, once.value) == once
  {
    var once := ApplyPluginEffect(pp, scannerId, values, software);
    if once.Ok? && pp.springBootPlugin(software).None? {
      var version := Some(pp.springBootPluginDependency(software).value.version);
      assert once.value == pp.processPlugin(scannerId, Some(SpringBootPluginId), version, software);
      assert pp.springBootPlugin(once.value).Some?;
    }
  }

  /** processApplyPlugin: the software set changes as ApplyPluginEffect says, and stays as it was when
      the Spring Boot plugin dependency is missing. */
  method ProcessApplyPlugin(state: VisitorState, pp: PluginProcessor, values: map<string, Option<string>>)
    returns (failure: Option<VisitFailure>)
    modifies state
    ensures var e := ApplyPluginEffect(pp, state.scannerId, values, old(state.software));
      && (e.Err? ==> failure == Some(e.error) && state.software == old(state.software))
      && (e.Ok? ==> failure == None && state.software == e.value)
  {
    var name := Lookup(values, "plugin");
    failure := None;
    if name == Some(SpringBootPluginId) {
      var plugin := pp.springBootPlugin(state.software);
      if plugin.None? {
        var dependency := pp.springBootPluginDependency(state.software);
        if dependency.None? {
          return Some(SpringBootPluginDependencyMissing);
        }
        state.software := pp.processPlugin(state.scannerId, name, Some(dependency.value.version), state.software);
      }
    } else {
      state.software := pp.processPlugin(state.scannerId, name, None, state.software);
    }
  }
}
