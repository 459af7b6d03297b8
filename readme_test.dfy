/*
 * The README component test, as its tests state it: a component fails without a README or with an
 * empty one and passes with a non-empty one; the test's id is `readme` and its priority HIGH.
 */
module ReadmeTesting {
  import opened Common
  import opened Catalog

  const ReadmeTestId := "readme"
  const ReadmePriority := High
  const NoReadmeMessage := "Component has no README file"
  const EmptyReadmeMessage := "Component has an empty README file"
  const ReadmeMessage := "Component has a README file"

  /** ReadmeTest.test */
  function ReadmeTest(c: Component): (r: TestResult)
    ensures r.testId == ReadmeTestId && r.priority == ReadmePriority && r.outcome != NotApplicable
    ensures r.outcome == Pass <==> c.facets.readme.Some? && c.facets.readme.value.content != ""
  {
    match c.facets.readme
    case None => TestResult(ReadmeTestId, Fail, ReadmePriority, Some(NoReadmeMessage))
    case Some(readme) =>
      if readme.content == "" then TestResult(ReadmeTestId, Fail, ReadmePriority, Some(EmptyReadmeMessage))
      else TestResult(ReadmeTestId, Pass, ReadmePriority, Some(ReadmeMessage))
  }

  /** Each of the three cases carries its own message, so the message tells the cases apart. */
  lemma MessageTellsCase(c: Component)
    ensures var r := ReadmeTest(c);
      && (r.message == Some(NoReadmeMessage) <==> c.facets.readme.None?)
      && (r.message == Some(EmptyReadmeMessage) <==> c.facets.readme == Some(Readme("")))
      && (r.message == Some(ReadmeMessage) <==> r.outcome == Pass)
  {
    assert NoReadmeMessage[14] != EmptyReadmeMessage[14] && NoReadmeMessage[14] != ReadmeMessage[14];
    assert EmptyReadmeMessage[15] != ReadmeMessage[15];
  }

  /** The result depends on the README alone. */
  lemma OnlyReadmeMatters(c1: Component, c2: Component)
    requires c1.facets.readme == c2.facets.readme
    ensures ReadmeTest(c1) == ReadmeTest(c2)
  {
  }
}
