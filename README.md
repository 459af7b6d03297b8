# Component catalog refresh pipeline, modelled in Dafny

This project models the core of the component catalog service. The service loads component metadata
(areas, teams, component types and components) and runs a fixed sequence of scanners over the
components. It then tests the components and publishes the result.

The model covers:

- **Scan engine.** It runs the scanners in five stages over the shared id → component map.
  Components are grouped into units: one per component, one per repo, or one per codebase. Units
  are scanned in ascending order of reference. Refresh and scan failures are recorded as scanner
  errors on the affected components. Component transformers are re-validated, and the summary
  transformers are folded into the published summary.
- **Metadata loader.** Invalid items are skipped, the first valid item with an id wins, and
  cross-references are only reported.
- **Component repository.** Its refresh state machine publishes at once on the first refresh, and
  only after scanning on later ones. It also has the read-side queries.
- **Scanner rules and helpers:**
  - key-software extraction;
  - the Gradle scanner's build-file chain, project modes, phase walk and wrapper version;
  - the build.gradle and plugins visitors;
  - BOM dependency versions and dynamic version resolution;
  - the Zipkin call-graph collator and span-tag filter;
  - the git cloner.
- **Component tests:** Zipkin, Dropwizard version and README.
- **Value rules:** the component-type id grammar, the summary dependency constraints, and Java
  import finding.

Code that computes values is modelled as datatypes, functions and lemmas. Code that updates state
in place is modelled as classes:

- the shared component map;
- the summary channel of a scan;
- the component repository;
- the key-software scanner with its pattern cache;
- the Groovy visitor state;
- the git cloner.

Each method is proved equal to a specification function, and the properties are proved about those
functions. Calls into code outside the core become function parameters:

- bean validation, Gradle's version parser, comparator and selector;
- Java regular expressions, the POM fetcher and the plugin processor;
- the Groovy expression evaluator, jgit's fetch and ls-remote, the URL encoder and the URI host
  parser.

`null` is `None`, file-system paths are sequences of path components, and strings are sequences of
characters.

Files: `common.dfy` (shared sequences, sorting and string order), `catalog.dfy` (the value types),
and one file per modelled source file.

## Model

| member | source | states |
|---|---|---|
| Catalog.AddErrors | service/src/main/java/com/moneysupermarket/componentcatalog/service/services/ScanEngine.java:162-166 | adding errors keeps the id and facets, keeps the old errors in front and appends the new ones after them in order |
| ScanEngine.RunOrder | service/src/main/java/com/moneysupermarket/componentcatalog/service/services/ScanEngine.java:52-81 | every scanner runs once per scan, in stage order: component, repo, codebase, component-and-codebase, then late component scanners |
| ScanEngine.Updated | service/src/main/java/com/moneysupermarket/componentcatalog/service/services/ScanEngine.java:173-183 | updateComponent stores the transformer's result, with at most the validation failure appended after its errors; when the update keeps the id and the old errors, so does updateComponent |
| ScanEngine.OnFacets | service/src/main/java/com/moneysupermarket/componentcatalog/service/scanners/keysoftware/KeySoftwareScanner.java:57 | a transformer that rewrites only the facets, as the scanners' component.withX(...) transformers do, keeps the component's id and its errors |
| ScanEngine.AppendedErrorsThenValidation | service/src/main/java/com/moneysupermarket/componentcatalog/service/services/ScanEngine.java:157-183 | appending errors gives the old errors, then the new ones, then exactly one "Validation failure for transformed component" error if the result fails validation; id and facets are unchanged |
| ScanEngine.TransformedKeptWhenInvalid | service/src/main/java/com/moneysupermarket/componentcatalog/service/services/ScanEngine.java:173-183 | a transformed component is stored even when it fails validation: a valid one exactly as transformed, an invalid one with one validation error appended |
| ScanEngine.UpdateAllGrows | service/src/main/java/com/moneysupermarket/componentcatalog/service/services/ScanEngine.java:168-171 | with an update that keeps ids and errors, updateComponents keeps keys and ids and only appends errors |
| ScanEngine.UpdateAllOnce | service/src/main/java/com/moneysupermarket/componentcatalog/service/services/ScanEngine.java:168-171 | with distinct ids, each listed component is updated exactly once |
| ScanEngine.UnitEffect | service/src/main/java/com/moneysupermarket/componentcatalog/service/services/ScanEngine.java:185-208 | scanning one unit changes only that unit's components, and its output entry carries the unit's component ids |
| ScanEngine.UnitEffectGrows | service/src/main/java/com/moneysupermarket/componentcatalog/service/services/ScanEngine.java:185-208 | scanning a unit with a scanner whose transformers keep ids and errors only appends errors and keeps every id |
| ScanEngine.ScanExceptionRecorded | service/src/main/java/com/moneysupermarket/componentcatalog/service/services/ScanEngine.java:188-200 | a unit whose scan throws yields no output, and each of its components gets exactly one "Failed to scan" error; the other components are unchanged |
| ScanEngine.UnitsScannedInReferenceOrder | service/src/main/java/com/moneysupermarket/componentcatalog/service/services/ScanEngine.java:140-155 | units are scanned in ascending order of reference, and the sorted units are a permutation of the input |
| ScanEngine.SortedUnitsSameIds | service/src/main/java/com/moneysupermarket/componentcatalog/service/services/ScanEngine.java:140-146 | sorting the units keeps the same component ids |
| ScanEngine.StageEffect | service/src/main/java/com/moneysupermarket/componentcatalog/service/services/ScanEngine.java:127-151 | executing one scanner keeps the map's key set (every component is put back under its old key), and its outputs name only known components |
| ScanEngine.UpdateUnitsOnce | service/src/main/java/com/moneysupermarket/componentcatalog/service/services/ScanEngine.java:136 | on a refresh failure, with no id in two units, each unit's components are updated exactly once |
| ScanEngine.RefreshFailureRecorded | service/src/main/java/com/moneysupermarket/componentcatalog/service/services/ScanEngine.java:130-138 | when refresh throws, every component of every unit gets exactly one "Failed to refresh scanner" error; there are no outputs, no summary transform, and the other components are unchanged |
| ScanEngine.ComponentUnits | service/src/main/java/com/moneysupermarket/componentcatalog/service/services/ScanEngine.java:92-95 | there is one unit per component, keyed by the component and holding its id |
| ScanEngine.ComponentUnitsIds | service/src/main/java/com/moneysupermarket/componentcatalog/service/services/ScanEngine.java:92-95 | the component units list exactly the map's ids, in enumeration order |
| ScanEngine.AddToGroupMembers | service/src/main/java/com/moneysupermarket/componentcatalog/service/services/ScanEngine.java:97-100 | groupingBy adds an id to its repo's group, or opens a new group at the end for an unseen repo |
| ScanEngine.RepoGroupsGroupByRepo | service/src/main/java/com/moneysupermarket/componentcatalog/service/services/ScanEngine.java:97-100 | components that share a repo form one unit |
| ScanEngine.RepoGroupsDistinct | service/src/main/java/com/moneysupermarket/componentcatalog/service/services/ScanEngine.java:97-100 | no two repo units have the same repo |
| ScanEngine.RepoGroupsMembers | service/src/main/java/com/moneysupermarket/componentcatalog/service/services/ScanEngine.java:97-100 | every id in a repo unit belongs to a component of that repo |
| ScanEngine.RepoGroupsCover | service/src/main/java/com/moneysupermarket/componentcatalog/service/services/ScanEngine.java:97-100 | every component id is in some repo unit |
| ScanEngine.RepoStageUnits | service/src/main/java/com/moneysupermarket/componentcatalog/service/services/ScanEngine.java:58-63 | the repo scanner's units name only components of the map |
| ScanEngine.CodebaseUnits | service/src/main/java/com/moneysupermarket/componentcatalog/service/services/ScanEngine.java:64-69 | the codebase scanners get the repo scanner's outputs with their component ids as they are |
| ScanEngine.PairUnits | service/src/main/java/com/moneysupermarket/componentcatalog/service/services/ScanEngine.java:111-125 | there is one component-and-codebase unit per component id of each codebase, with the same ids in the same order |
| ScanEngine.EngineEffect | service/src/main/java/com/moneysupermarket/componentcatalog/service/services/ScanEngine.java:44-82 | when every scanner's transformers keep ids and errors, a whole scan keeps the key set and every component's id |
| ScanEngine.ScanOnlyAppendsErrors | service/src/main/java/com/moneysupermarket/componentcatalog/service/services/ScanEngine.java:44-82 | over a whole scan whose transformers keep ids and errors, components only gain errors: old errors stay in front |
| ScanEngine.ScanDeliversSummariesInStageOrder | service/src/main/java/com/moneysupermarket/componentcatalog/service/services/ScanEngine.java:44-50 | the consumer receives one summary per scanner whose refresh succeeded, folded from the empty summary in run order, and the last one is current |
| ScanEngine.FailedRepoScannerStarvesCodebaseStages | service/src/main/java/com/moneysupermarket/componentcatalog/service/services/ScanEngine.java:58-75 | a repo scanner whose refresh throws returns an empty map, so the codebase and component-and-codebase stages get no units |
| ScanEngine.SummaryChannel.Accept | service/src/main/java/com/moneysupermarket/componentcatalog/service/services/ScanEngine.java:46-50 | the summary transformer is applied to the current summary, the result is handed to the consumer and becomes current |
| ScanEngine.UpdateComponent | service/src/main/java/com/moneysupermarket/componentcatalog/service/services/ScanEngine.java:173-183 | the map entry is replaced by the updated component |
| ScanEngine.UpdateComponents | service/src/main/java/com/moneysupermarket/componentcatalog/service/services/ScanEngine.java:168-171 | the in-place loop equals the updateComponents specification |
| ScanEngine.ExecuteUnit | service/src/main/java/com/moneysupermarket/componentcatalog/service/services/ScanEngine.java:185-208 | the in-place per-unit scan equals UnitEffect |
| ScanEngine.AddErrorsToUnits | service/src/main/java/com/moneysupermarket/componentcatalog/service/services/ScanEngine.java:157-160 | the in-place error appending over all units equals its specification |
| ScanEngine.ScanUnits | service/src/main/java/com/moneysupermarket/componentcatalog/service/services/ScanEngine.java:140-146 | the in-place scan of the sorted units equals UnitsEffect |
| ScanEngine.ExecuteScanner | service/src/main/java/com/moneysupermarket/componentcatalog/service/services/ScanEngine.java:127-151 | the in-place executeScanner equals StageEffect on the map and the summary channel |
| ScanEngine.ExecuteStage | service/src/main/java/com/moneysupermarket/componentcatalog/service/services/ScanEngine.java:52-81 | one stage's scanners, in place, equal RunStages |
| ScanEngine.Scan | service/src/main/java/com/moneysupermarket/componentcatalog/service/services/ScanEngine.java:44-82 | scan() updates the shared map as EngineEffect says, and returns what the consumer received |
| MetadataLoader.LoadItemsFirstValidWins | service/src/main/java/com/moneysupermarket/componentcatalog/service/services/ComponentMetadataLoader.java:49-74 | an id is loaded exactly when some item with it passes validation, and it maps to the first such item; each loaded item is keyed by its own id |
| MetadataLoader.LoadMapItemsInto | service/src/main/java/com/moneysupermarket/componentcatalog/service/services/ComponentMetadataLoader.java:49-58 | the loop over the items, filling a fresh map in place, gives the first valid item per id, and a null list gives an empty map |
| MetadataLoader.ValidateComponentType | service/src/main/java/com/moneysupermarket/componentcatalog/service/services/ComponentMetadataLoader.java:38-39 | a component type is rejected exactly when its id breaks the component-type id rule or its description is null or blank (only characters at or below U+0020, as String.trim() sees them); there are no warnings |
| MetadataLoader.ValidateTeam | service/src/main/java/com/moneysupermarket/componentcatalog/service/services/ComponentMetadataLoader.java:80-87 | a team is rejected exactly when bean validation rejects it; a valid team is only warned about, when it names an area that was not loaded |
| MetadataLoader.MissingTeams | service/src/main/java/com/moneysupermarket/componentcatalog/service/services/ComponentMetadataLoader.java:97-101 | a component's team references produce no report exactly when every team is loaded |
| MetadataLoader.MissingTargets | service/src/main/java/com/moneysupermarket/componentcatalog/service/services/ComponentMetadataLoader.java:105-109 | a component's dependencies produce no report exactly when every target is a declared component id |
| MetadataLoader.ValidateComponent | service/src/main/java/com/moneysupermarket/componentcatalog/service/services/ComponentMetadataLoader.java:89-111 | a component is rejected exactly when bean validation rejects it |
| MetadataLoader.CrossReferencesOnlyWarn | service/src/main/java/com/moneysupermarket/componentcatalog/service/services/ComponentMetadataLoader.java:89-111 | a bean-valid component is always loaded, and has no warnings exactly when its type, teams, platform and dependency targets are all known |
| MetadataLoader.LoadedKeyedByIds | service/src/main/java/com/moneysupermarket/componentcatalog/service/services/ComponentMetadataLoader.java:37-47 | the loaded areas, teams and components are each keyed by their own ids |
| MetadataLoader.LoadComponentMetadataAsWritten | service/src/main/java/com/moneysupermarket/componentcatalog/service/services/ComponentMetadataLoader.java:37-47 | as written, loading fails exactly when the component list is null, because getComponentIds streams it before any item is loaded |
| MetadataLoader.NullComponentListThrows | service/src/main/java/com/moneysupermarket/componentcatalog/service/services/ComponentMetadataLoader.java:89-116 | with a null component list the as-written loader fails, where loadMapItems alone would give an empty map; the corrected loader returns the areas and teams with no components |
| MetadataLoader.LoadComponentMetadata | service/src/main/java/com/moneysupermarket/componentcatalog/service/services/ComponentMetadataLoader.java:37-47 | agrees with the as-written loader whenever the component list is present, returns no components for a null list, and keys every map by id |
| MetadataLoader.LoadItemsIgnoresWarnings | service/src/main/java/com/moneysupermarket/componentcatalog/service/services/ComponentMetadataLoader.java:60-74 | what is loaded depends only on the validation verdicts: the cross-reference warnings never change the maps |
| MetadataLoader.LoadedComponentsAreFirstValid | service/src/main/java/com/moneysupermarket/componentcatalog/service/services/ComponentMetadataLoader.java:44-45 | the loaded components are the first bean-valid component for each id |
| MetadataLoader.TeamWithUnknownAreaStillLoaded | service/src/main/java/com/moneysupermarket/componentcatalog/service/services/ComponentMetadataLoader.java:80-87 | a bean-valid team that is the first valid one with its id is loaded, whatever its area |
| MetadataLoader.SkippedTargetNotReported | service/src/main/java/com/moneysupermarket/componentcatalog/service/services/ComponentMetadataLoader.java:105-116 | a dependency on a component that fails validation is not reported, since the target set holds every declared id |
| ComponentRepositories.NodesOf | service/src/main/java/com/moneysupermarket/componentcatalog/service/repositories/ComponentRepository.java:122-126 | the nodes returned are exactly the summary's nodes whose component id equals the one asked for (null matching null) |
| ComponentRepositories.NodesOfExact | service/src/main/java/com/moneysupermarket/componentcatalog/service/repositories/ComponentRepository.java:122-126 | each node keeps its multiplicity when it belongs to the component and is absent otherwise, and filtering distributes over concatenation, so the order is kept |
| ComponentRepositories.CallGraphsOf | service/src/main/java/com/moneysupermarket/componentcatalog/service/repositories/ComponentRepository.java:128-132 | the call graphs returned are exactly those with at least one node of the component |
| ComponentRepositories.CallGraphsOfExact | service/src/main/java/com/moneysupermarket/componentcatalog/service/repositories/ComponentRepository.java:174-180 | a call graph appears with its multiplicity exactly when one of its nodes belongs to the component |
| ComponentRepositories.MapScanner | service/src/main/java/com/moneysupermarket/componentcatalog/service/repositories/ComponentRepository.java:162-172 | a null scanner maps to null; otherwise the view carries the scanner's id, description and notes |
| ComponentRepositories.MapTest | service/src/main/java/com/moneysupermarket/componentcatalog/service/repositories/ComponentRepository.java:182-184 | a test view carries the test's id, description, notes and priority |
| ComponentRepositories.ScannerViews | service/src/main/java/com/moneysupermarket/componentcatalog/service/repositories/ComponentRepository.java:138-142 | each scanner is mapped to its view, one for one |
| ComponentRepositories.TestViews | service/src/main/java/com/moneysupermarket/componentcatalog/service/repositories/ComponentRepository.java:149-153 | each test is mapped to its view, one for one |
| ComponentRepositories.ScannersSortedById | service/src/main/java/com/moneysupermarket/componentcatalog/service/repositories/ComponentRepository.java:138-143 | getScanners returns the mapped views sorted by id, as a permutation: each scanner's view exactly as often as the scanner is listed |
| ComponentRepositories.TestsSortedById | service/src/main/java/com/moneysupermarket/componentcatalog/service/repositories/ComponentRepository.java:149-154 | getTests returns the mapped views sorted by id, as a permutation: each test's view exactly as often as the test is listed |
| ComponentRepositories.GetTest | service/src/main/java/com/moneysupermarket/componentcatalog/service/repositories/ComponentRepository.java:156-160 | an unknown test id gives null; a known one gives the test's view |
| ComponentRepositories.LaterRefreshSummaryAsWritten | service/src/main/java/com/moneysupermarket/componentcatalog/service/repositories/ComponentRepository.java:74-89 | as written, a later refresh publishes the last summary the scan delivered, and null when the scan delivered none |
| ComponentRepositories.FailingScannersDeliverNothing | service/src/main/java/com/moneysupermarket/componentcatalog/service/repositories/ComponentRepository.java:83 | when every scanner's refresh throws, the scan delivers no summary |
| ComponentRepositories.AllRefreshesFailPublishesNull | service/src/main/java/com/moneysupermarket/componentcatalog/service/repositories/ComponentRepository.java:74-89 | on a later refresh in which every scanner's refresh throws, the as-written repository publishes a null summary; the corrected one keeps the summary it had |
| ComponentRepositories.LaterRefreshSummary | service/src/main/java/com/moneysupermarket/componentcatalog/service/repositories/ComponentRepository.java:86-89 | the corrected later-refresh summary agrees with the as-written one whenever a summary was delivered, and keeps the published summary otherwise |
| ComponentRepositories.ComponentRepository.constructor | service/src/main/java/com/moneysupermarket/componentcatalog/service/repositories/ComponentRepository.java:49-52 | the repository starts with empty areas, teams and components and the empty summary |
| ComponentRepositories.ComponentRepository.GetComponent | service/src/main/java/com/moneysupermarket/componentcatalog/service/repositories/ComponentRepository.java:118-120 | a known id gives its component, and while the published map is keyed by ids (which scans keep when the registry's transformers keep ids) that component's id is the id; an unknown id gives null |
| ComponentRepositories.ComponentRepository.ComponentNodes | service/src/main/java/com/moneysupermarket/componentcatalog/service/repositories/ComponentRepository.java:122-126 | the nodes of the current summary that belong to the component |
| ComponentRepositories.ComponentRepository.ComponentCallGraphs | service/src/main/java/com/moneysupermarket/componentcatalog/service/repositories/ComponentRepository.java:128-132 | the call graphs of the current summary that include the component |
| ComponentRepositories.ComponentRepository.UpdateState | service/src/main/java/com/moneysupermarket/componentcatalog/service/repositories/ComponentRepository.java:92-96 | areas, teams and components are replaced by the loader's output and the summary is untouched |
| ComponentRepositories.ComponentRepository.DoRefresh | service/src/main/java/com/moneysupermarket/componentcatalog/service/repositories/ComponentRepository.java:69-90 | a failed metadata fetch changes nothing; otherwise the loaded areas and teams and the scanned components become current; a first refresh publishes the unscanned components at once and every summary as it is delivered, a later one publishes the scanned components and one summary at the end (corrected loader and corrected later-refresh summary, see Findings) |
| ComponentRepositories.ComponentRepository.ScanAndPublish | service/src/main/java/com/moneysupermarket/componentcatalog/service/repositories/ComponentRepository.java:72-89 | the state after loading, scanning and publishing, for a first and for a later refresh, with a registry whose transformers keep ids and errors (corrected loader and corrected later-refresh summary, see Findings) |
| ComponentRepositories.ComponentRepository.Publish | service/src/main/java/com/moneysupermarket/componentcatalog/service/repositories/ComponentRepository.java:76-89 | a first refresh publishes every delivered summary in turn; a later one publishes the scanned maps and then the last delivered summary, keeping the old one when none was delivered (corrected later-refresh summary, see Findings) |
| KeySoftwareScanning.MatchingVersions | service/src/main/java/com/moneysupermarket/componentcatalog/service/scanners/keysoftware/KeySoftwareScanner.java:81-83 | the versions, in order, of exactly the software whose name the rule's pattern finds |
| KeySoftwareScanning.MatchingVersionsMembers | service/src/main/java/com/moneysupermarket/componentcatalog/service/scanners/keysoftware/KeySoftwareScanner.java:81-83 | a version is listed exactly when some software whose name the pattern finds has it |
| KeySoftwareScanning.RuleVersionsMembers | service/src/main/java/com/moneysupermarket/componentcatalog/service/scanners/keysoftware/KeySoftwareScanner.java:79-89 | sorting and removing duplicates keeps exactly the versions of the matching software |
| KeySoftwareScanning.RuleVersionsDescendingDistinct | service/src/main/java/com/moneysupermarket/componentcatalog/service/scanners/keysoftware/KeySoftwareScanner.java:84-88 | a rule's versions are in descending version order with no duplicates |
| KeySoftwareScanning.ApplyRuleMatches | service/src/main/java/com/moneysupermarket/componentcatalog/service/scanners/keysoftware/KeySoftwareScanner.java:67-77 | a rule yields nothing exactly when its pattern finds no software name; otherwise key software named after the rule with its versions |
| KeySoftwareScanning.SingleRule | service/src/main/java/com/moneysupermarket/componentcatalog/service/scanners/keysoftware/KeySoftwareScanner.java:60-77 | one rule whose pattern does not compile fails the scan; one that compiles yields its key software, or nothing |
| KeySoftwareScanning.KeySoftwareOfConcat | service/src/main/java/com/moneysupermarket/componentcatalog/service/scanners/keysoftware/KeySoftwareScanner.java:60-65 | rules contribute independently: the key software of two rule lists is the concatenation of each list's |
| KeySoftwareScanning.KeySoftwareFromRules | service/src/main/java/com/moneysupermarket/componentcatalog/service/scanners/keysoftware/KeySoftwareScanner.java:60-65 | when every pattern compiles, there is at most one key software per rule, each produced by some rule |
| KeySoftwareScanning.KeySoftwareErrStays | service/src/main/java/com/moneysupermarket/componentcatalog/service/scanners/keysoftware/KeySoftwareScanner.java:60-65 | the first rule whose pattern does not compile decides the scan: later rules cannot change the failure |
| KeySoftwareScanning.KeySoftwareScanner.constructor | service/src/main/java/com/moneysupermarket/componentcatalog/service/scanners/keysoftware/KeySoftwareScanner.java:34-37 | the scanner starts with its rules and an empty pattern cache |
| KeySoftwareScanning.KeySoftwareScanner.GetCachedPattern | service/src/main/java/com/moneysupermarket/componentcatalog/service/scanners/keysoftware/KeySoftwareScanner.java:91-100 | a source that compiles is returned and cached, compiled at most once; a source that does not compile fails and leaves the cache as it was |
| KeySoftwareScanning.KeySoftwareScanner.ApplyRuleCached | service/src/main/java/com/moneysupermarket/componentcatalog/service/scanners/keysoftware/KeySoftwareScanner.java:67-89 | applying a rule through the cache gives the same result as the rule's specification, and the cache only grows |
| KeySoftwareScanning.KeySoftwareScanner.Scan | service/src/main/java/com/moneysupermarket/componentcatalog/service/scanners/keysoftware/KeySoftwareScanner.java:50-58 | a component without software gets the identity transformer; otherwise the scan throws on the first bad pattern or sets the key software to the rules' result; the transformer rewrites only the facets, so it keeps ids and errors |
| GradleScanning.GetBuildFileChain | service/src/main/java/com/moneysupermarket/componentcatalog/service/scanners/gradle/GradleScanner.java:298-311 | the in-place loop that prepends build files equals the BuildFileChain specification |
| GradleScanning.BuildFilesDown | service/src/main/java/com/moneysupermarket/componentcatalog/service/scanners/gradle/GradleScanner.java:302-305 | the k-th build file walking down from the codebase is the build.gradle of the codebase's first k directories below it |
| GradleScanning.BuildFileChainBelowCodebase | service/src/main/java/com/moneysupermarket/componentcatalog/service/scanners/gradle/GradleScanner.java:298-311 | for a build file below the codebase, the chain is settings.gradle followed by the build.gradle of every directory from the codebase down to the file's own |
| GradleScanning.ChainShape | service/src/main/java/com/moneysupermarket/componentcatalog/service/scanners/gradle/GradleScanner.java:298-311 | the chain starts with the codebase's settings.gradle and ends with the build file; every file is inside the codebase; each middle file is the build.gradle two levels above the next |
| GradleScanning.ModesAlongChain | service/src/main/java/com/moneysupermarket/componentcatalog/service/scanners/gradle/GradleScanner.java:257-268 | along a chain, the first file is in settings mode, the last in this-project mode and every other one in subproject mode |
| GradleScanning.InitializeBuildsChainOfItems | service/src/main/java/com/moneysupermarket/componentcatalog/service/scanners/gradle/GradleScanner.java:274-286 | in the initialize phase each inheriting item is the root item or a child of the previous one; in any later phase the item at an index is read back unchanged |
| GradleScanning.MatchAtIsPattern | service/src/main/java/com/moneysupermarket/componentcatalog/service/scanners/gradle/GradleScanner.java:68 | the matcher at a position gives a version exactly when the text there is "/gradle-", two or three dot-separated digit runs, and "-" |
| GradleScanning.MatchAtComplete | service/src/main/java/com/moneysupermarket/componentcatalog/service/scanners/gradle/GradleScanner.java:68 | every occurrence of the pattern at a position is found there |
| GradleScanning.FindVersionFromIsLeftmost | service/src/main/java/com/moneysupermarket/componentcatalog/service/scanners/gradle/GradleScanner.java:317-325 | searching from a position returns the version of the leftmost match at or after it, and nothing only when there is no match |
| GradleScanning.WrapperVersionIsLeftmostMatch | service/src/main/java/com/moneysupermarket/componentcatalog/service/scanners/gradle/GradleScanner.java:317-325 | the wrapper version is group 1 of the leftmost match of the pattern; without a match the extraction fails with an error naming the URL |
| GradleScanning.WrapperSoftwareFound | service/src/main/java/com/moneysupermarket/componentcatalog/service/scanners/gradle/GradleScanner.java:119-132 | no wrapper properties file adds nothing; a file without distributionUrl fails; otherwise the scan adds one Gradle wrapper tool at the leftmost matching version, or fails |
| GradleScanning.RootProperties | service/src/main/java/com/moneysupermarket/componentcatalog/service/scanners/gradle/GradleScanner.java:134-137 | the root properties are exactly rootDir and rootProject.projectDir, both the codebase path, and rootProject.name, its last path component |
| GradleScanning.ParentKeyInjective | service/src/main/java/com/moneysupermarket/componentcatalog/service/scanners/gradle/GradleScanner.java:172-178 | the property names projectDir, projectDir.parent, projectDir.parent.parent and so on are all distinct |
| GradleScanning.ProjectDirRecordsItself | service/src/main/java/com/moneysupermarket/componentcatalog/service/scanners/gradle/GradleScanner.java:174-176 | the project directory is recorded under projectDir |
| GradleScanning.ProjectDirRecorded | service/src/main/java/com/moneysupermarket/componentcatalog/service/scanners/gradle/GradleScanner.java:174-179 | the j-th ancestor of the project directory is recorded under projectDir with j ".parent" suffixes, for every ancestor inside the codebase |
| GradleScanning.ProjectDirStopsAtCodebase | service/src/main/java/com/moneysupermarket/componentcatalog/service/scanners/gradle/GradleScanner.java:174 | no ancestor above the codebase is recorded |
| GradleScanning.ProjectDirOtherKeys | service/src/main/java/com/moneysupermarket/componentcatalog/service/scanners/gradle/GradleScanner.java:174-179 | every other property is left as it was |
| GradleScanning.PutProjectDirProperties | service/src/main/java/com/moneysupermarket/componentcatalog/service/scanners/gradle/GradleScanner.java:172-179 | the in-place loop equals the ProjectDirProperties specification with paths written out by Path.toString (PathText) |
| GradleScanning.PortalStep | service/src/main/java/com/moneysupermarket/componentcatalog/service/scanners/gradle/GradleScanner.java:227-234 | after a phase, only the Gradle plugin portal can be added to the buildscript repositories, and it is added exactly in the buildscript-repositories phase, outside settings mode, when plugins were seen and no buildscript repository was |
| GradleScanning.BuildStep | service/src/main/java/com/moneysupermarket/componentcatalog/service/scanners/gradle/GradleScanner.java:193-235 | processing one build file in a middle phase changes only that file's layer, and not the scan's totals; versions added to a set inherited from an ancestor are recorded in this layer |
| GradleScanning.PhaseEffect | service/src/main/java/com/moneysupermarket/componentcatalog/service/scanners/gradle/GradleScanner.java:151-236 | a phase over the chain ends with one layer per file, and a failure passes through unchanged |
| GradleScanning.PhaseFailureStays | service/src/main/java/com/moneysupermarket/componentcatalog/service/scanners/gradle/GradleScanner.java:221-224 | once a build file fails in a phase, the later files of that phase do not change the failure |
| GradleScanning.ProcessPhasesInitializeFirst | service/src/main/java/com/moneysupermarket/componentcatalog/service/scanners/gradle/GradleScanner.java:69-79 | the phase list starts with initialize and has no other initialize phase |
| GradleScanning.PhasesEffect | service/src/main/java/com/moneysupermarket/componentcatalog/service/scanners/gradle/GradleScanner.java:149-237 | after the phases every file of the chain has its layer, and a failure passes through |
| GradleScanning.WalkFailureStays | service/src/main/java/com/moneysupermarket/componentcatalog/service/scanners/gradle/GradleScanner.java:149-237 | once a phase fails, the later phases do not change the failure |
| GradleScanning.FinalizeAddsLastItem | service/src/main/java/com/moneysupermarket/componentcatalog/service/scanners/gradle/GradleScanner.java:187-192 | the finalize phase adds the last file's buildscript repositories, repositories and software to the scan's totals, and nothing else |
| GradleScanning.InitializeIndex | service/src/main/java/com/moneysupermarket/componentcatalog/service/scanners/gradle/GradleScanner.java:168-186 | the in-place initialize step for one file equals its specification |
| GradleScanning.ApplyBom | service/src/main/java/com/moneysupermarket/componentcatalog/service/scanners/gradle/GradleScanner.java:194-206 | the in-place Spring Boot BOM step equals its specification |
| GradleScanning.BuildIndex | service/src/main/java/com/moneysupermarket/componentcatalog/service/scanners/gradle/GradleScanner.java:193-235 | the in-place step for one file in a middle phase equals BuildStep |
| GradleScanning.ProcessIndex | service/src/main/java/com/moneysupermarket/componentcatalog/service/scanners/gradle/GradleScanner.java:152-235 | the in-place step for one file in any phase equals its specification |
| GradleScanning.RunPhase | service/src/main/java/com/moneysupermarket/componentcatalog/service/scanners/gradle/GradleScanner.java:151-236 | the loop over the chain in one phase equals PhaseEffect |
| GradleScanning.ProcessBuildFile | service/src/main/java/com/moneysupermarket/componentcatalog/service/scanners/gradle/GradleScanner.java:142-237 | the loop over the phases equals PhasesEffect over the ten phases |
| GradleScanning.FilesFailureStays | service/src/main/java/com/moneysupermarket/componentcatalog/service/scanners/gradle/GradleScanner.java:139-244 | once a build file fails, the later build files do not change the failure |
| GradleScanning.ScanBuildFile | service/src/main/java/com/moneysupermarket/componentcatalog/service/scanners/gradle/GradleScanner.java:140-238 | scanning one build file in place equals its chain's specification |
| GradleScanning.ScanBuildFiles | service/src/main/java/com/moneysupermarket/componentcatalog/service/scanners/gradle/GradleScanner.java:139-239 | the loop over the found build files equals FilesEffect |
| GradleScanning.Scan | service/src/main/java/com/moneysupermarket/componentcatalog/service/scanners/gradle/GradleScanner.java:110-255 | a failure gives one "Failed to scan codebase" error and nothing else; otherwise a transformer that sets the Gradle facet and this scanner's repositories and software, each a sorted permutation of what was collected; the transformer rewrites only the facets, so it keeps ids and errors |
| GroovyVisitors.VisitorState.constructor | service/src/main/java/com/moneysupermarket/componentcatalog/service/scanners/gradle/GradleScanner.java:214-216 | a visitor state holds the scanner id, phase, project mode and the build file's current software set |
| BuildGradleVisiting.MethodCallDecision | service/src/main/java/com/moneysupermarket/componentcatalog/service/scanners/gradle/internal/groovyscriptvisitors/BuildGradleVisitor.java:54-104 | unknown calls go to the base visitor; allprojects continues; subprojects continues only in subproject mode and is ignored otherwise; buildscript, ext, dependencyManagement and dependencies are processed, with their visitor, exactly in their own phases and ignored without warning in the others |
| BuildGradleVisiting.ModeMattersOnlyForSubprojects | service/src/main/java/com/moneysupermarket/componentcatalog/service/scanners/gradle/internal/groovyscriptvisitors/BuildGradleVisitor.java:54-104 | the project mode decides nothing except for subprojects |
| BuildGradleVisiting.PhaseMattersOnlyForBlocks | service/src/main/java/com/moneysupermarket/componentcatalog/service/scanners/gradle/internal/groovyscriptvisitors/BuildGradleVisitor.java:54-104 | the phase decides nothing for calls other than the four phase-bound blocks |
| BuildGradleVisiting.ProcessedBlocksPerPhase | service/src/main/java/com/moneysupermarket/componentcatalog/service/scanners/gradle/internal/groovyscriptvisitors/BuildGradleVisitor.java:63-101 | nothing is processed in the initialize, plugins, apply-plugins, repositories and finalize phases, and each processed block is visited by its own visitor |
| BuildGradleVisiting.ApplyPluginEffect | service/src/main/java/com/moneysupermarket/componentcatalog/service/scanners/gradle/internal/groovyscriptvisitors/BuildGradleVisitor.java:107-129 | applying the Spring Boot plugin fails exactly when neither the plugin nor its buildscript dependency is known, and does nothing when the plugin is already known |
| BuildGradleVisiting.OtherPluginHasNoVersion | service/src/main/java/com/moneysupermarket/componentcatalog/service/scanners/gradle/internal/groovyscriptvisitors/BuildGradleVisitor.java:124-126 | any other plugin is handed to the plugin processor with no version |
| BuildGradleVisiting.SpringBootAtDependencyVersion | service/src/main/java/com/moneysupermarket/componentcatalog/service/scanners/gradle/internal/groovyscriptvisitors/BuildGradleVisitor.java:113-123 | a Spring Boot plugin not yet known is recorded at the version of its buildscript dependency |
| BuildGradleVisiting.ApplySpringBootIdempotent | service/src/main/java/com/moneysupermarket/componentcatalog/service/scanners/gradle/internal/groovyscriptvisitors/BuildGradleVisitor.java:112-123 | when the processor records the Spring Boot plugin it is given, applying the plugin a second time changes nothing |
| BuildGradleVisiting.ProcessApplyPlugin | service/src/main/java/com/moneysupermarket/componentcatalog/service/scanners/gradle/internal/groovyscriptvisitors/BuildGradleVisitor.java:107-129 | the visitor state's software is updated as ApplyPluginEffect says, and left alone when the plugin cannot be resolved |
| PluginsVisiting.CallChain | service/src/main/java/com/moneysupermarket/componentcatalog/service/scanners/gradle/internal/groovyscriptvisitors/buildgradlevisitor/PluginsVisitor.java:62-71 | the chain lists the method calls from the outermost one inwards through their object expressions |
| PluginsVisiting.ArgumentValue | service/src/main/java/com/moneysupermarket/componentcatalog/service/scanners/gradle/internal/groovyscriptvisitors/buildgradlevisitor/PluginsVisitor.java:78-85 | a call with exactly one argument gives that argument's value; any other count fails with an error naming the count |
| PluginsVisiting.ValuesKeys | service/src/main/java/com/moneysupermarket/componentcatalog/service/scanners/gradle/internal/groovyscriptvisitors/buildgradlevisitor/PluginsVisitor.java:62-76 | when every call has one argument, the values hold exactly the method names of the chain, on top of what was there |
| PluginsVisiting.ValuesAreInnermost | service/src/main/java/com/moneysupermarket/componentcatalog/service/scanners/gradle/internal/groovyscriptvisitors/buildgradlevisitor/PluginsVisitor.java:62-76 | a name used more than once in the chain keeps the value of its innermost call, since that is put last |
| PluginsVisiting.ValuesFailure | service/src/main/java/com/moneysupermarket/componentcatalog/service/scanners/gradle/internal/groovyscriptvisitors/buildgradlevisitor/PluginsVisitor.java:62-85 | collecting values fails exactly when some call in the chain does not have one argument, with the count of the outermost such call |
| PluginsVisiting.GetValues | service/src/main/java/com/moneysupermarket/componentcatalog/service/scanners/gradle/internal/groovyscriptvisitors/buildgradlevisitor/PluginsVisitor.java:62-71 | the loop that walks the chain in place equals the ValuesFrom specification |
| PluginsVisiting.PluginFromLine | service/src/main/java/com/moneysupermarket/componentcatalog/service/scanners/gradle/internal/groovyscriptvisitors/buildgradlevisitor/PluginsVisitor.java:54-60 | the plugin processor is given the innermost id and version values of the chain, or null for a name that is missing |
| PluginsVisiting.IdAndVersion | service/src/main/java/com/moneysupermarket/componentcatalog/service/scanners/gradle/internal/groovyscriptvisitors/buildgradlevisitor/PluginsVisitor.java:54-60 | for id(x).version(y) the processor is given x's and y's values |
| PluginsVisiting.PluginsCallEffect | service/src/main/java/com/moneysupermarket/componentcatalog/service/scanners/gradle/internal/groovyscriptvisitors/buildgradlevisitor/PluginsVisitor.java:38-52 | id, version and apply calls are processed and every other call is ignored with the software unchanged; processing fails exactly when a call of the chain does not have one argument |
| PluginsVisiting.ProcessPlugin | service/src/main/java/com/moneysupermarket/componentcatalog/service/scanners/gradle/internal/groovyscriptvisitors/buildgradlevisitor/PluginsVisitor.java:54-60 | the visitor state's software is updated as PluginEffect says, and left alone on failure |
| PluginsVisiting.ProcessMethodCallExpression | service/src/main/java/com/moneysupermarket/componentcatalog/service/scanners/gradle/internal/groovyscriptvisitors/buildgradlevisitor/PluginsVisitor.java:38-52 | returns the outcome and updates the visitor state's software as PluginsCallEffect says |
| DependencyVersions.PomSoftware | service/src/main/java/com/moneysupermarket/componentcatalog/service/scanners/gradle/internal/services/DependencyVersionFetcher.java:50-54 | the software added for a POM is a JVM BOM with the scanner id, the dependency type given and the name and version of its coordinates |
| DependencyVersions.TransitiveSoftwareMembers | service/src/main/java/com/moneysupermarket/componentcatalog/service/scanners/gradle/internal/services/DependencyVersionFetcher.java:34 | the transitive software added is exactly one transitive BOM entry per transitive coordinate of the POM |
| DependencyVersions.AddVersionsMembers | service/src/main/java/com/moneysupermarket/componentcatalog/service/scanners/gradle/internal/services/DependencyVersionFetcher.java:35-46 | after the dependency-management items are added, a name has a version exactly when it had it before or an item pairs them |
| DependencyVersions.AddVersionsGrows | service/src/main/java/com/moneysupermarket/componentcatalog/service/scanners/gradle/internal/services/DependencyVersionFetcher.java:35-46 | the names are the old names plus the items' names, and no name loses a version |
| DependencyVersions.FindDependencyVersions | service/src/main/java/com/moneysupermarket/componentcatalog/service/scanners/gradle/internal/services/DependencyVersionFetcher.java:28-48 | the POM itself is always added as direct software; a fetch failure is reported after that; a jar-only outcome adds nothing more; a found POM adds its transitive software and, when it has a dependency-management list, its versions |
| ArtifactVersions.ResolveArtifactVersion | service/src/main/java/com/moneysupermarket/componentcatalog/service/scanners/gradle/internal/services/ArtifactVersionResolver.java:39-58 | a version that is not dynamic is returned as it is; a resolved dynamic version is one of the fetched versions and accepted by the selector |
| ArtifactVersions.ResolvedIsHighestAccepted | service/src/main/java/com/moneysupermarket/componentcatalog/service/scanners/gradle/internal/services/ArtifactVersionResolver.java:46-57 | the resolved version is at or above every fetched version the selector accepts |
| ArtifactVersions.NoAcceptedVersionFails | service/src/main/java/com/moneysupermarket/componentcatalog/service/scanners/gradle/internal/services/ArtifactVersionResolver.java:52-55 | resolution fails exactly when the selector accepts none of the fetched versions, with an error naming the artifact |
| CallGraphCollation.MergeDuplicateDependencies | service/src/main/java/com/moneysupermarket/componentcatalog/service/scanners/zipkin/services/CallGraphCollator.java:44-51 | duplicate dependencies merge into one with the first one's source and target and a sample size equal to their number |
| CallGraphCollation.TraceCallGraph | service/src/main/java/com/moneysupermarket/componentcatalog/service/scanners/zipkin/services/CallGraphCollator.java:85-88 | a trace's call graph has the trace's nodes, a trace count of 1 and one dependency per duplicate group, whose sample size is the group's size |
| CallGraphCollation.TraceSampleSize | service/src/main/java/com/moneysupermarket/componentcatalog/service/scanners/zipkin/services/CallGraphCollator.java:44-51 | each dependency of a trace's call graph has as sample size the number of duplicates merged into it |
| CallGraphCollation.Pairs | service/src/main/java/com/moneysupermarket/componentcatalog/service/scanners/zipkin/services/CallGraphCollator.java:90-93 | the simple call graph lists each dependency's source and target index, in order |
| CallGraphCollation.GroupsAreGrouping | service/src/main/java/com/moneysupermarket/componentcatalog/service/scanners/zipkin/services/CallGraphCollator.java:37 | groupingBy gives one group per distinct simple call graph, with distinct keys, every call graph's key among them, and each group exactly the call graphs with its key, in order |
| CallGraphCollation.MergeDependencyAt | service/src/main/java/com/moneysupermarket/componentcatalog/service/scanners/zipkin/services/CallGraphCollator.java:66-77 | the merged dependency at an index keeps the first graph's source and target, is not manual, and has as sample size the sum of the group's sample sizes at that index |
| CallGraphCollation.MergeDuplicateCallGraphs | service/src/main/java/com/moneysupermarket/componentcatalog/service/scanners/zipkin/services/CallGraphCollator.java:53-64 | a group merges into a summary call graph with the first graph's nodes, the group's size as trace count and one dependency per dependency of the first graph; its key is the group's |
| CallGraphCollation.TraceGraphs | service/src/main/java/com/moneysupermarket/componentcatalog/service/scanners/zipkin/services/CallGraphCollator.java:33-36 | each trace becomes its own call graph, one for one |
| CallGraphCollation.MergeGroups | service/src/main/java/com/moneysupermarket/componentcatalog/service/scanners/zipkin/services/CallGraphCollator.java:38-40 | each group is merged, one for one |
| CallGraphCollation.CollatedGroups | service/src/main/java/com/moneysupermarket/componentcatalog/service/scanners/zipkin/services/CallGraphCollator.java:32-42 | the result has one summary call graph per group of same-shaped trace call graphs, each the merge of its group |
| CallGraphCollation.CollatedKeysDistinct | service/src/main/java/com/moneysupermarket/componentcatalog/service/scanners/zipkin/services/CallGraphCollator.java:32-42 | no two collated call graphs have the same nodes and dependency pairs |
| CallGraphCollation.CollatedCoverTraces | service/src/main/java/com/moneysupermarket/componentcatalog/service/scanners/zipkin/services/CallGraphCollator.java:32-42 | every trace's call graph is represented by a collated call graph of the same shape |
| CallGraphCollation.CollatedMergesByKey | service/src/main/java/com/moneysupermarket/componentcatalog/service/scanners/zipkin/services/CallGraphCollator.java:32-42 | each collated call graph is the merge of exactly the trace call graphs of its shape |
| CallGraphCollation.CollatedCounts | service/src/main/java/com/moneysupermarket/componentcatalog/service/scanners/zipkin/services/CallGraphCollator.java:53-83 | a collated call graph's trace count is the number of traces of its shape, and each dependency's sample size is the sum over those traces |
| TagFiltering.Keys | service/src/main/java/com/moneysupermarket/componentcatalog/service/scanners/zipkin/services/SubComponentDependencyTagFilter.java:21-26 | the keys of the entries, in order |
| TagFiltering.EntriesOf | service/src/main/java/com/moneysupermarket/componentcatalog/service/scanners/zipkin/services/SubComponentDependencyTagFilter.java:22 | the span's tag entries in the map's enumeration order |
| TagFiltering.FilterAndSortTagsMembers | service/src/main/java/com/moneysupermarket/componentcatalog/service/scanners/zipkin/services/SubComponentDependencyTagFilter.java:21-26 | an entry is kept exactly when its key is one of the identity tag keys and it is one of the span's tags |
| TagFiltering.FilterAndSortTagsAscending | service/src/main/java/com/moneysupermarket/componentcatalog/service/scanners/zipkin/services/SubComponentDependencyTagFilter.java:24 | the kept entries are in strictly ascending key order |
| TagFiltering.FilterAndSortTagsKeeps | service/src/main/java/com/moneysupermarket/componentcatalog/service/scanners/zipkin/services/SubComponentDependencyTagFilter.java:21-26 | every kept entry is an identity tag of the span with its value, every identity tag of the span is kept, and the keys ascend |
| TagFiltering.FilterAndSortTagsKeys | service/src/main/java/com/moneysupermarket/componentcatalog/service/scanners/zipkin/services/SubComponentDependencyTagFilter.java:14-23 | a key is in the result exactly when the span has it and it is an identity tag key |
| TagFiltering.AscendingEntriesUnique | service/src/main/java/com/moneysupermarket/componentcatalog/service/scanners/zipkin/services/SubComponentDependencyTagFilter.java:24-25 | two key-ascending entry lists drawn from the same tags with the same keys are equal |
| TagFiltering.FilterAndSortTagsOrderFree | service/src/main/java/com/moneysupermarket/componentcatalog/service/scanners/zipkin/services/SubComponentDependencyTagFilter.java:21-26 | the result does not depend on the order in which the span's tag map is enumerated |
| TagFiltering.AsMap | service/src/main/java/com/moneysupermarket/componentcatalog/service/scanners/zipkin/services/SubComponentDependencyTagFilter.java:25 | collecting ascending entries into a map keeps exactly their keys and values |
| TagFiltering.FilterAndSortTagsIdempotent | service/src/main/java/com/moneysupermarket/componentcatalog/service/scanners/zipkin/services/SubComponentDependencyTagFilter.java:21-26 | filtering and sorting the result again gives the same result |
| ComponentTypes.MatchesTailIffShape | sdk/src/main/java/com/moneysupermarket/componentcatalog/sdk/models/ComponentType.java:18 | the tail of the pattern matches exactly the strings of lower-case letters, digits and hyphens that do not end in a hyphen and have no two hyphens in a row |
| ComponentTypes.IdPatternIffWellFormed | sdk/src/main/java/com/moneysupermarket/componentcatalog/sdk/models/ComponentType.java:18 | an id matches the pattern exactly when it is non-empty, starts with a lower-case letter, has only lower-case letters, digits and hyphens, does not end in a hyphen and has no two hyphens in a row |
| ComponentTypes.ValidIdHyphens | sdk/src/main/java/com/moneysupermarket/componentcatalog/sdk/models/ComponentType.java:18 | a valid id neither starts nor ends with a hyphen and never has two hyphens in a row |
| ComponentTypes.ValidIdIsNotBlank | sdk/src/main/java/com/moneysupermarket/componentcatalog/sdk/models/ComponentType.java:17-19 | a component type that passes validation has an id that @NotBlank accepts: for a non-null id the not-blank rule adds nothing to the pattern |
| SummaryDependencies.Create | sdk/src/main/java/com/moneysupermarket/componentcatalog/sdk/models/SummaryComponentDependency.java:22-32 | a summary dependency passes validation exactly when its source index is null or non-negative, its target index is present and non-negative, its related indexes are present, each present and non-negative, and its manual flag is present; the fields are kept as given |
| SummaryDependencies.CreateFromIndexesIsValid | sdk/src/main/java/com/moneysupermarket/componentcatalog/sdk/models/SummaryComponentDependency.java:22-31 | a dependency built from natural-number indexes and a manual flag is always valid |
| GitCloning.RepoDirAsWritten | service/src/main/java/com/moneysupermarket/componentcatalog/service/services/GitCloner.java:61-71 | as written, an encoded URL that is empty, `.` or `..` resolves to the repos directory or an ancestor of it; any other encoded URL gives the child of the repos directory it names |
| GitCloning.NoChildNameDeletesAllClones | service/src/main/java/com/moneysupermarket/componentcatalog/service/services/GitCloner.java:90-109 | as written, such a URL finds an existing directory without a clone, so it is deleted and cloned again, and every clone under the repos directory is deleted with it |
| GitCloning.RepoDir | service/src/main/java/com/moneysupermarket/componentcatalog/service/services/GitCloner.java:61-71 | corrected: a URL whose encoding names no child of the repos directory is refused; otherwise the directory is the one the source resolves, the child named by the encoded URL |
| GitCloning.RepoDirsApart | service/src/main/java/com/moneysupermarket/componentcatalog/service/services/GitCloner.java:61-71 | two repos share a directory exactly when their URLs encode alike, and otherwise neither directory lies inside the other, so deleting one never reaches the other |
| GitCloning.CredentialsFor | service/src/main/java/com/moneysupermarket/componentcatalog/service/services/GitCloner.java:80-88 | without configured hosts there are no credentials; otherwise there are none exactly when no host equals the URL's host |
| GitCloning.CredentialsOfFirstMatchingHost | service/src/main/java/com/moneysupermarket/componentcatalog/service/services/GitCloner.java:85-87 | the credentials are the username and password of the first host that equals the URL's host |
| GitCloning.SelectRef | service/src/main/java/com/moneysupermarket/componentcatalog/service/services/GitCloner.java:131-139 | no ref is found exactly when none is selected; a found ref is a remote ref that is selected |
| GitCloning.SelectRefIsFirst | service/src/main/java/com/moneysupermarket/componentcatalog/service/services/GitCloner.java:158-168 | the ref found is the first selected one |
| GitCloning.NamedRefIsNeverHead | service/src/main/java/com/moneysupermarket/componentcatalog/service/services/GitCloner.java:164-173 | a named ref never selects HEAD |
| GitCloning.BranchSelectedOnlyByItsName | service/src/main/java/com/moneysupermarket/componentcatalog/service/services/GitCloner.java:170-173 | a branch is selected only by its own simple name |
| GitCloning.TagSelectedOnlyByItsName | service/src/main/java/com/moneysupermarket/componentcatalog/service/services/GitCloner.java:170-173 | a tag is selected only by its own simple name |
| GitCloning.Ancestry | service/src/main/java/com/moneysupermarket/componentcatalog/service/services/GitCloner.java:47-50 | createDirectories creates the directory and only ancestors of it |
| GitCloning.DeleteTree | service/src/main/java/com/moneysupermarket/componentcatalog/service/services/GitCloner.java:105 | deleting a directory removes exactly it and everything below it, and leaves every other clone as it was |
| GitCloning.CloneInto | service/src/main/java/com/moneysupermarket/componentcatalog/service/services/GitCloner.java:115-122 | cloning creates the directory and its ancestors and puts a fresh clone of the URL there |
| GitCloning.CloneOrFetchOutcome | service/src/main/java/com/moneysupermarket/componentcatalog/service/services/GitCloner.java:90-109 | an existing clone whose fetch succeeds is reused; a directory that does not exist is cloned into; otherwise it is deleted and cloned again |
| GitCloning.CloneOrFetchLeavesClone | service/src/main/java/com/moneysupermarket/componentcatalog/service/services/GitCloner.java:90-109 | afterwards the directory holds a clone: the old one when reused, a fresh one of the URL otherwise; clones outside the directory are untouched |
| GitCloning.CheckedOut | service/src/main/java/com/moneysupermarket/componentcatalog/service/services/GitCloner.java:146-148 | checking out a ref sets only that clone's checked-out object to the ref's object id |
| GitCloning.PullOutcome | service/src/main/java/com/moneysupermarket/componentcatalog/service/services/GitCloner.java:73-78 | pulling fails exactly when no remote ref is selected, with an error naming the ref; otherwise the repo's directory is returned with the selected ref's object checked out |
| GitCloning.PullIsRepeatable | service/src/main/java/com/moneysupermarket/componentcatalog/service/services/GitCloner.java:73-78 | pulling again after a successful pull, with the fetch succeeding, changes nothing and gives the same result |
| GitCloning.GitCloner.constructor | service/src/main/java/com/moneysupermarket/componentcatalog/service/services/GitCloner.java:43-44 | the cloner starts with its configured repos directory and no resolved one |
| GitCloning.GitCloner.Initialize | service/src/main/java/com/moneysupermarket/componentcatalog/service/services/GitCloner.java:46-50 | the repos directory is set and it and its ancestors exist |
| GitCloning.GitCloner.DeleteRecursively | service/src/main/java/com/moneysupermarket/componentcatalog/service/services/GitCloner.java:105 | the disk becomes DeleteTree of the old disk |
| GitCloning.GitCloner.Clone | service/src/main/java/com/moneysupermarket/componentcatalog/service/services/GitCloner.java:115-122 | the disk becomes CloneInto of the old disk |
| GitCloning.GitCloner.CloneOrFetchGit | service/src/main/java/com/moneysupermarket/componentcatalog/service/services/GitCloner.java:90-109 | the outcome and the new disk are those of CloneOrFetchOutcome and AfterCloneOrFetch |
| GitCloning.GitCloner.CheckoutRef | service/src/main/java/com/moneysupermarket/componentcatalog/service/services/GitCloner.java:131-149 | no selected ref gives an error and leaves the disk alone; otherwise the selected ref is checked out |
| GitCloning.GitCloner.CloneOrPullRepo | service/src/main/java/com/moneysupermarket/componentcatalog/service/services/GitCloner.java:52-78 | a URL that names no repo directory is refused with the disk untouched (the corrected getRepoDir); otherwise the new disk and the result are those of PullEffect in the repo's directory, with the credentials of the first matching host |
| ZipkinTesting.ZipkinTest | service/src/main/java/com/moneysupermarket/componentcatalog/service/tests/zipkin/ZipkinTest.java:35-51 | a component of a type not expected to use Zipkin is not applicable; an expected one passes exactly when its Zipkin facet says it is used and fails otherwise; the priority is high |
| ZipkinTesting.TypeCheckedFirst | service/src/main/java/com/moneysupermarket/componentcatalog/service/tests/zipkin/ZipkinTest.java:35-51 | for a type not expected to use Zipkin the Zipkin facet plays no part and the message names the type |
| ZipkinTesting.OnlyTrueFlagPasses | service/src/main/java/com/moneysupermarket/componentcatalog/service/tests/zipkin/ZipkinTest.java:53-55 | a missing facet, a missing flag and a false flag all give the same failure |
| ReadmeTesting.ReadmeTest | service/src/test/java/com/moneysupermarket/componentcatalog/service/tests/readme/ReadmeTestTest.java:34-94 | the test is never not-applicable, has id readme and high priority, and passes exactly when the component has a README with non-empty content |
| ReadmeTesting.MessageTellsCase | service/src/test/java/com/moneysupermarket/componentcatalog/service/tests/readme/ReadmeTestTest.java:34-94 | the message tells apart a missing README, an empty one and a passing one |
| ReadmeTesting.OnlyReadmeMatters | service/src/test/java/com/moneysupermarket/componentcatalog/service/tests/readme/ReadmeTestTest.java:34-94 | the result depends on the README facet alone |
| DropwizardTesting.DropwizardVersions | service/src/test/java/com/moneysupermarket/componentcatalog/service/tests/dropwizard/DropwizardVersionTestTest.java:40-76 | there are Dropwizard versions exactly when some key software is named dropwizard, and they are that key software's versions |
| DropwizardTesting.Lowest | service/src/test/java/com/moneysupermarket/componentcatalog/service/tests/dropwizard/DropwizardVersionTestTest.java:153-176 | the lowest version is one of the versions and at or below every one of them |
| DropwizardTesting.DropwizardTest | service/src/test/java/com/moneysupermarket/componentcatalog/service/tests/dropwizard/DropwizardVersionTestTest.java:40-201 | not applicable with no message exactly when there are no Dropwizard versions; otherwise fails exactly when the lowest version is below 2.0.0, with a message naming that version |
| DropwizardTesting.FailsIffSomeVersionBelowMinimum | service/src/test/java/com/moneysupermarket/componentcatalog/service/tests/dropwizard/DropwizardVersionTestTest.java:128-201 | a component using Dropwizard fails exactly when one of its Dropwizard versions is below 2.0.0 |
| DropwizardTesting.SomeBelowMinimumConcat | service/src/test/java/com/moneysupermarket/componentcatalog/service/tests/dropwizard/DropwizardVersionTestTest.java:178-201 | adding versions at or above 2.0.0 does not change whether some version is below it |
| DropwizardTesting.SupportedVersionsDoNotDecide | service/src/test/java/com/moneysupermarket/componentcatalog/service/tests/dropwizard/DropwizardVersionTestTest.java:178-201 | adding supported versions never changes the outcome |
| JavaImports.TrimStart | service/src/test/java/com/moneysupermarket/componentcatalog/service/scanners/javaimports/internals/services/JavaImportFinderTest.java:41-63 | trimming removes exactly a leading run of whitespace |
| JavaImports.TrimEnd | service/src/test/java/com/moneysupermarket/componentcatalog/service/scanners/javaimports/internals/services/JavaImportFinderTest.java:41-63 | trimming removes exactly a trailing run of whitespace |
| JavaImports.TrimStartBlank | service/src/test/java/com/moneysupermarket/componentcatalog/service/scanners/javaimports/internals/services/JavaImportFinderTest.java:41-63 | trimming blank space in front of text that does not start with whitespace gives the text |
| JavaImports.TrimEndBlank | service/src/test/java/com/moneysupermarket/componentcatalog/service/scanners/javaimports/internals/services/JavaImportFinderTest.java:41-63 | trimming blank space after text that does not end with whitespace gives the text |
| JavaImports.ParseStatement | service/src/test/java/com/moneysupermarket/componentcatalog/service/scanners/javaimports/internals/services/JavaImportFinderTest.java:17-63 | a parsed statement yields a name made of letters, digits, underscores and dots |
| JavaImports.Statements | service/src/test/java/com/moneysupermarket/componentcatalog/service/scanners/javaimports/internals/services/JavaImportFinderTest.java:17-63 | the statements split at semicolons contain no semicolon |
| JavaImports.StatementsSplit | service/src/test/java/com/moneysupermarket/componentcatalog/service/scanners/javaimports/internals/services/JavaImportFinderTest.java:17-63 | the text up to the first semicolon is the first statement |
| JavaImports.ImportsOf | service/src/test/java/com/moneysupermarket/componentcatalog/service/scanners/javaimports/internals/services/JavaImportFinderTest.java:17-27 | there is at most one import per statement, each a Java import with the scanner's id and a well-formed name |
| JavaImports.ImportsOfFirst | service/src/test/java/com/moneysupermarket/componentcatalog/service/scanners/javaimports/internals/services/JavaImportFinderTest.java:17-27 | a statement that parses contributes its import ahead of those of the rest |
| JavaImports.FindImports | service/src/test/java/com/moneysupermarket/componentcatalog/service/scanners/javaimports/internals/services/JavaImportFinderTest.java:17-27 | every import found is a Java import with the scanner's id and a well-formed name |
| JavaImports.NamesImported | service/src/test/java/com/moneysupermarket/componentcatalog/service/scanners/javaimports/internals/services/JavaImportFinderTest.java:17-27 | the imports that the given statements name, one per statement, in order |
| JavaImports.ParseWellFormed | service/src/test/java/com/moneysupermarket/componentcatalog/service/scanners/javaimports/internals/services/JavaImportFinderTest.java:41-63 | an import statement with whitespace around its name parses to that name |
| JavaImports.FindRendered | service/src/test/java/com/moneysupermarket/componentcatalog/service/scanners/javaimports/internals/services/JavaImportFinderTest.java:17-63 | the imports found in a text made of well-formed import statements are exactly their names, in order |
| JavaImports.FindSingle | service/src/test/java/com/moneysupermarket/componentcatalog/service/scanners/javaimports/internals/services/JavaImportFinderTest.java:17-63 | a single well-formed import statement gives exactly its import |
| JavaImports.FindsImport | service/src/test/java/com/moneysupermarket/componentcatalog/service/scanners/javaimports/internals/services/JavaImportFinderTest.java:17-27 | "import test.Example;" gives one Java import of test.Example |
| JavaImports.FindsImportWithUnderscore | service/src/test/java/com/moneysupermarket/componentcatalog/service/scanners/javaimports/internals/services/JavaImportFinderTest.java:29-39 | an underscore is part of the imported name |
| JavaImports.FindsImportBetweenNewlines | service/src/test/java/com/moneysupermarket/componentcatalog/service/scanners/javaimports/internals/services/JavaImportFinderTest.java:41-51 | newlines around the statement are ignored |
| JavaImports.FindsImportAmidWhitespace | service/src/test/java/com/moneysupermarket/componentcatalog/service/scanners/javaimports/internals/services/JavaImportFinderTest.java:53-63 | spaces before, inside and after the statement are ignored |

## Left out

- Concurrency: the volatile fields, the ConcurrentHashMap and the scheduled refresh are modelled as one sequential run; interleavings with readers are not modelled.
- Network, file-system and process I/O: metadata fetching, POM and artifact-version fetching, reading properties files, finding build files, jgit's fetch, clone, checkout and ls-remote are parameters or disk states, not real effects.
- Bean validation, Gradle's version parser, comparator and selector, Java regular expressions, the Groovy AST loader, the expression evaluator, the plugin processor, the generic dependency collator and the URL encoder are parameters; their own rules are not part of this model. The exceptions are the constraints of ComponentType and SummaryComponentDependency, which ComponentTypes.Valid and SummaryDependencies.Valid state outright.
- Logging is left out: it changes no state.
- HashMap and groupingBy iteration orders are parameters (an enumeration of the keys); grouped outputs are in first-occurrence order, which the source does not promise.
- CallGraphCollation.MergeDependencyAt: sample sizes are unbounded integers; the Java int sum can overflow, which is not modelled.
- The merging of related indexes, timestamps and durations in the call-graph collator is left to parameters; only indexes, manual flags, sample sizes, nodes and trace counts are modelled.
- PluginsVisiting.ArgumentValue: the ClassCastException for arguments that are not an argument list is not modelled; argument counts are taken from the call.
- PluginsVisiting.ValuesFailure: the error carries the argument count, not the formatted message text.
- GitCloning.RepoDirAsWritten: for `.` and `..` the source's deleteRecursively empties the directory but then fails to remove the `.` or `..` entry and throws, and cloning into the repos directory for an empty URL throws; the model records only the deletion of every clone below the repos directory.
- ComponentTypes.ValidIdIsNotBlank: the id is a plain string, so the null id that @Pattern accepts and only @NotBlank rejects is not represented.
- TagFiltering.FilterAndSortTags: MapCollectors is not part of this model; the map it collects into is taken to keep the sorted order, and TagFiltering.AsMap states the order-free content that holds either way.
- SummaryDependencies.Create: ListUtils.createUnmodifiableList is not part of this model; it is taken to keep the list's elements and to leave a null list null, so a null relatedIndexes stays invalid; a helper that turned null into an empty list would make it valid.
- Common.StrLe: strings are compared by Unicode scalar values, where String.compareTo compares UTF-16 code units; the two orders differ only for strings that mix supplementary characters with U+E000 to U+FFFF, and every id and tag key sorted by this core is ASCII.
- GitCloning.CredentialsFor: a URL that does not parse as a URI (URISyntaxException) is not modelled; the URL's host is a parameter.
- GitCloning.CloneOrFetchOutcome: a fetch is modelled as success or failure only; what it downloads into the clone is not modelled, and a failing clone or ls-remote is not modelled.
- GitCloning.Ancestry: Files.createDirectories is modelled as creating the directory and its ancestors; its failure is not modelled.
- ZipkinTesting.ZipkinTest: the test id (ComponentTest.id) is a parameter.
- ReadmeTest.java is not part of this model; the README rule is taken from its tests, which do not cover content made only of whitespace, so such content counts as non-empty.
- DropwizardVersionTest.java is not part of this model; the rule is taken from its tests. An empty list of Dropwizard versions is modelled as not applicable, which the tests do not cover, and the version order is a parameter.
- JavaImportFinder.java is not part of this model; import finding is taken from its tests, which cover single-type imports only. Static and wildcard imports are not modelled, and name characters are letters, digits, underscores and dots.
- ScanEngine.EngineEffect: a scan is modelled only for registries whose transformers keep each component's id and its old errors (RegistryKeeps), as the facet-only transformers of the system do; a transformer that renamed a component would make the engine look up an id that is no longer a key, which in the source hands null to the next update, and that failure is not modelled.
- GradleScanning.BuildStep: InheritingHashMap.get hands back an ancestor's own mutable version set, so a version that the BOM step (BomStep) or a visitor (VisitStep) adds to an inherited set lands in the ancestor's set and is seen by the ancestor in later phases; the model records the addition in the current item's layer only, and that write-through to ancestor layers is not modelled.
- ScanEngine.ScanUnits: outputs are kept as a list of pairs; what toMap does when two units deliver equal outputs (a duplicate key) is not modelled.
- The frontend application, the metadata assembler, the test engine and the other scanners are outside the modelled core.

## Findings

| source | as written | input that shows it | evidently intended | confidence | as-written member | corrected member |
|---|---|---|---|---|---|---|
| service/src/main/java/com/moneysupermarket/componentcatalog/service/services/ComponentMetadataLoader.java:113-116 | the component ids for the cross-reference check are collected by streaming the component list before any item is loaded | metadata with a null component list | a null component list gives an empty component map, as loadMapItems does for every other list | not executed | MetadataLoader.NullComponentListThrows | MetadataLoader.LoadComponentMetadata |
| service/src/main/java/com/moneysupermarket/componentcatalog/service/repositories/ComponentRepository.java:86-89 | a later refresh publishes the last summary the scan delivered, which stays null when no scanner delivered one | a later refresh in which every scanner's refresh throws | the previously published summary is kept | not executed | ComponentRepositories.AllRefreshesFailPublishesNull | ComponentRepositories.LaterRefreshSummary |
| service/src/main/java/com/moneysupermarket/componentcatalog/service/services/GitCloner.java:61-109 | the repo directory is the repos directory resolved with the URL-encoded repo URL, and an existing directory that holds no usable clone is deleted recursively before cloning | a repo URL of "", "." or "..", which URLEncoder leaves unchanged, while other repos are cloned | each repo URL gets its own directory below the repos directory, and only that directory is ever deleted | not executed | GitCloning.NoChildNameDeletesAllClones | GitCloning.RepoDir |
