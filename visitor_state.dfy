/*
 * What the Groovy build-file visitors share: the outcome a visitor reports for a method call, the
 * per-file visitor state whose software set they extend, and the plugin processor they hand plugins
 * to. The processor's own rules live outside this model and are parameters.
 */
module GroovyVisitors {
  import opened Common
  import opened Catalog
  import GradleScanning

  /** ExpressionVisitOutcome */
  datatype ExpressionVisitOutcome = Continue | Ignored | IgnoredNoWarning | Processed

  /** A failure raised while visiting a build file. */
  datatype VisitFailure =
    /** "Could not find dependency for Spring Boot Plugin" */
    | SpringBootPluginDependencyMissing
    /** "Method has %d arguments but only 1 argument is supported" */
    | UnsupportedArgumentCount(count: nat)

  /** Map.get on a map of string values, `None` standing for null whether the key is absent or
      mapped to null. */
  function Lookup(values: map<string, Option<string>>, key: string): Option<string> {
    if key in values then values[key] else None
  }

  /** The methods of PluginProcessor that the visitors call. */
  datatype PluginProcessor = PluginProcessor(
    springBootPlugin: set<Software> -> Option<Software>,
    springBootPluginDependency: set<Software> -> Option<Software>,
    /** processPlugin(scannerId, name, version, software): the software set it leaves behind */
    processPlugin: (string, Option<string>, Option<string>, set<Software>) -> set<Software>)

  /** The part of a visitor's state that the modelled visitors read and change. */
  class VisitorState {
    const scannerId: string
    const processPhase: GradleScanning.ProcessPhase
    const projectMode: GradleScanning.ProjectMode
    var software: set<Software>

    constructor (scannerId: string, processPhase: GradleScanning.ProcessPhase, projectMode: GradleScanning.ProjectMode,
                 software: set<Software>)
      ensures this.scannerId == scannerId && this.processPhase == processPhase && this.projectMode == projectMode
      ensures this.software == software
    {
      this.scannerId := scannerId;
      this.processPhase := processPhase;
      this.projectMode := projectMode;
      this.software := software;
    }
  }
}
