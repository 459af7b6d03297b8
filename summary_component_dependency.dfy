/** SummaryComponentDependency: one edge of a summary dependency graph, pointing at nodes by index.
    Java's nullable Integer/Boolean/List fields are Options here. */
module SummaryDependencies {
  import opened Common

  datatype SummaryComponentDependency = SummaryComponentDependency(
    sourceIndex: Option<int>,
    targetIndex: Option<int>,
    relatedIndexes: Option<seq<Option<int>>>,
    manual: Option<bool>,
    sampleSize: Option<int>)

  /** @Min(0) on a nullable Integer: null passes, otherwise at least zero. */
  predicate NullOrNonNegative(i: Option<int>) {
    i.None? || i.value >= 0
  }

  /** @NotNull @Min(0) on an Integer. */
  predicate NonNullNonNegative(i: Option<int>) {
    i.Some? && i.value >= 0
  }

  /** The bean constraints of SummaryComponentDependency. */
  predicate Valid(d: SummaryComponentDependency) {
    && NullOrNonNegative(d.sourceIndex)
    && NonNullNonNegative(d.targetIndex)
    && d.relatedIndexes.Some?
    && (forall k :: 0 <= k < |d.relatedIndexes.value| ==> NonNullNonNegative(d.relatedIndexes.value[k]))
    && d.manual.Some?
  }

  /** The all-arguments constructor: every argument is stored as given; relatedIndexes is wrapped as
      an unmodifiable list, taken to keep its elements and to leave a null list null. The result is
      valid exactly when the arguments meet the field constraints. */
  function Create(sourceIndex: Option<int>, targetIndex: Option<int>, relatedIndexes: Option<seq<Option<int>>>,
                  manual: Option<bool>, sampleSize: Option<int>): (d: SummaryComponentDependency)
    ensures Valid(d) <==>
      && (sourceIndex.None? || sourceIndex.value >= 0)
      && targetIndex.Some? && targetIndex.value >= 0
      && relatedIndexes.Some?
      && (forall k :: 0 <= k < |relatedIndexes.value| ==> relatedIndexes.value[k].Some? && relatedIndexes.value[k].value >= 0)
      && manual.Some?
    ensures d.sourceIndex == sourceIndex && d.targetIndex == targetIndex && d.manual == manual && d.sampleSize == sampleSize
    ensures d.relatedIndexes.Some? <==> relatedIndexes.Some?
    ensures relatedIndexes.Some? ==> d.relatedIndexes.value == relatedIndexes.value
  {
    SummaryComponentDependency(sourceIndex, targetIndex, relatedIndexes, manual, sampleSize)
  }

  /** A dependency built from non-negative indexes is valid; a null source index is allowed. */
  lemma CreateFromIndexesIsValid(sourceIndex: Option<nat>, targetIndex: nat, relatedIndexes: seq<nat>, manual: bool, sampleSize: Option<int>)
    ensures Valid(Create(if sourceIndex.Some? then Some(sourceIndex.value as int) else None, Some(targetIndex),
                         Some(seq(|relatedIndexes|, k requires 0 <= k < |relatedIndexes| => Some(relatedIndexes[k] as int))),
                         Some(manual), sampleSize))
  {
  }
}
