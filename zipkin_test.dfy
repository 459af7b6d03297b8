/*
 * The Zipkin component test: components of the types expected to use Zipkin pass when their Zipkin
 * facet says it is used and fail otherwise; components of other types are not applicable.
 */
module ZipkinTesting {
  import opened Common
  import opened Catalog

  const NotRelevantPrefix := "Zipkin is not relevant for component type "
  const UsedMessage := "Component is already using Zipkin for distributed tracing"
  const NotUsedMessage := "We cannot visualise the dependencies and interactions between this component and other components "
    + "because the component is not using [Zipkin](https://zipkin.io/) for\n"
    + "[distributed tracing](https://microservices.io/patterns/observability/distributed-tracing.html)"

  /** priority */
  const ZipkinPriority := High

  /** componentTypeIdNotExpectedToUseZipkin: no list of expected component types is configured, or
      the type is not on it. */
  predicate NotExpectedToUseZipkin(expectedTypeIds: Option<seq<string>>, typeId: string) {
    expectedTypeIds.None? || typeId !in expectedTypeIds.value
  }

  /** isZipkinUsed: a missing facet or a missing flag counts as not used. */
  predicate ZipkinUsed(c: Component) {
    c.facets.zipkin.Some? && c.facets.zipkin.value.used == Some(true)
  }

  /** test; the test's id (ComponentTest.id) is a parameter. */
  function ZipkinTest(testId: string, expectedTypeIds: Option<seq<string>>, c: Component): (r: TestResult)
    ensures r.testId == testId && r.priority == ZipkinPriority && r.message.Some?
    ensures r.outcome == NotApplicable <==> NotExpectedToUseZipkin(expectedTypeIds, c.facets.typeId)
    ensures r.outcome == Pass <==> !NotExpectedToUseZipkin(expectedTypeIds, c.facets.typeId) && ZipkinUsed(c)
    ensures r.outcome == Fail <==> !NotExpectedToUseZipkin(expectedTypeIds, c.facets.typeId) && !ZipkinUsed(c)
  {
    if NotExpectedToUseZipkin(expectedTypeIds, c.facets.typeId) then
      TestResult(testId, NotApplicable, ZipkinPriority, Some(NotRelevantPrefix + c.facets.typeId))
    else if ZipkinUsed(c) then
      TestResult(testId, Pass, ZipkinPriority, Some(UsedMessage))
    else
      TestResult(testId, Fail, ZipkinPriority, Some(NotUsedMessage))
  }

  /** The type is checked first: for a component of a type not expected to use Zipkin the Zipkin
      facet plays no part, and the message names the type. */
  lemma TypeCheckedFirst(testId: string, expectedTypeIds: Option<seq<string>>, c1: Component, c2: Component)
    requires c1.facets.typeId == c2.facets.typeId
    requires NotExpectedToUseZipkin(expectedTypeIds, c1.facets.typeId)
    ensures ZipkinTest(testId, expectedTypeIds, c1) == ZipkinTest(testId, expectedTypeIds, c2)
    ensures ZipkinTest(testId, expectedTypeIds, c1).message == Some(NotRelevantPrefix + c1.facets.typeId)
  {
  }

  /** Only a Zipkin facet whose flag is true makes an expected component pass: no facet, no flag or a
      false flag all fail, with the same result. */
  lemma OnlyTrueFlagPasses(testId: string, expectedTypeIds: Option<seq<string>>, c: Component, used: Option<bool>)
    requires !NotExpectedToUseZipkin(expectedTypeIds, c.facets.typeId)
    requires used != Some(true)
    ensures var withoutFacet := c.(facets := c.facets.(zipkin := None));
      var withFlag := c.(facets := c.facets.(zipkin := Some(Zipkin(used))));
      && ZipkinTest(testId, expectedTypeIds, withoutFacet) == ZipkinTest(testId, expectedTypeIds, withFlag)
      && ZipkinTest(testId, expectedTypeIds, withFlag) == TestResult(testId, Fail, High, Some(NotUsedMessage))
  {
  }
}
