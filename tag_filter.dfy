/*
 * The sub-component dependency tag filter of the Zipkin scanner: of a span's tags it keeps those
 * whose key is one of the identity tag keys, sorted by key.
 */
module TagFiltering {
  import opened Common

  /** One tag: key and value. */
  type Entry = (string, string)

  function EntryKey(e: Entry): string {
    e.0
  }

  function IsIdentityTag(identityKeys: seq<string>): Entry -> bool {
    (e: Entry) => e.0 in identityKeys
  }

  function Keys(r: seq<Entry>): (keys: seq<string>)
    ensures |keys| == |r| && forall i :: 0 <= i < |r| ==> keys[i] == r[i].0
  {
    seq(|r|, i requires 0 <= i < |r| => r[i].0)
  }

  /** `order` is the iteration order of the tag map: each key once. */
  ghost predicate Enumerates(order: seq<string>, tags: map<string, string>) {
    NoDuplicates(order) && forall k :: k in order <==> k in tags
  }

  /** The entry stream of the tag map. */
  function EntriesOf(tags: map<string, string>, order: seq<string>): (r: seq<Entry>)
    requires Enumerates(order, tags)
    ensures |r| == |order| && forall i :: 0 <= i < |r| ==> r[i] == (order[i], tags[order[i]])
  {
    seq(|order|, i requires 0 <= i < |order| => (order[i], tags[order[i]]))
  }

  /** The entries in strictly ascending order of key, each key once. */
  predicate StrictlyAscending(r: seq<Entry>) {
    forall i, j :: 0 <= i < j < |r| ==> StrLt(r[i].0, r[j].0)
  }

  /** filterAndSortTags over the span's tags, enumerated in `order`; the identity tag keys (TagKeys)
      are a parameter. The collected map is taken to keep the sorted order; AsMap states the content
      that holds whatever order it keeps. */
  function FilterAndSortTags(identityKeys: seq<string>, tags: map<string, string>, order: seq<string>): seq<Entry>
    requires Enumerates(order, tags)
  {
    SortBy(Filter(EntriesOf(tags, order), IsIdentityTag(identityKeys)), ByKey(EntryKey))
  }

  /** A tag is kept exactly when its key is an identity key. */
  lemma FilterAndSortTagsMembers(identityKeys: seq<string>, tags: map<string, string>, order: seq<string>, e: Entry)
    requires Enumerates(order, tags)
    ensures e in FilterAndSortTags(identityKeys, tags, order) <==> e.0 in tags && e.0 in identityKeys && e.1 == tags[e.0]
  {
    var entries := EntriesOf(tags, order);
    var kept := Filter(entries, IsIdentityTag(identityKeys));
    SortByMembers(kept, ByKey(EntryKey), e);
    if e.0 in tags && e.0 in identityKeys && e.1 == tags[e.0] {
      var i :| 0 <= i < |order| && order[i] == e.0;
      assert entries[i] == e;
    }
    if e in kept {
      var i :| 0 <= i < |entries| && entries[i] == e;
    }
  }

  /** The result lists the tags in ascending key order, each key once. */
  lemma FilterAndSortTagsAscending(identityKeys: seq<string>, tags: map<string, string>, order: seq<string>)
    requires Enumerates(order, tags)
    ensures StrictlyAscending(FilterAndSortTags(identityKeys, tags, order))
  {
    var entries := EntriesOf(tags, order);
    var kept := Filter(entries, IsIdentityTag(identityKeys));
    var r := SortBy(kept, ByKey(EntryKey));
    assert NoDuplicates(entries) by {
      forall i, j | 0 <= i < j < |entries| ensures entries[i] != entries[j] {
        assert order[i] != order[j];
      }
    }
    NoDuplicatesFilterSort(entries, IsIdentityTag(identityKeys), ByKey(EntryKey));
    ByKeyIsTotalPreorder(EntryKey);
    SortBySorted(kept, ByKey(EntryKey));
    assert SortedBy(r, ByKey(EntryKey));
    forall i, j | 0 <= i < j < |r| ensures StrLt(r[i].0, r[j].0) {
      assert ByKey(EntryKey)(r[i], r[j]);
      assert StrLe(EntryKey(r[i]), EntryKey(r[j]));
      FilterAndSortTagsMembers(identityKeys, tags, order, r[i]);
      FilterAndSortTagsMembers(identityKeys, tags, order, r[j]);
    }
  }

  /** What the filter keeps: exactly the tags with an identity key, each with its value, listed in
      strictly ascending key order. */
  lemma FilterAndSortTagsKeeps(identityKeys: seq<string>, tags: map<string, string>, order: seq<string>)
    requires Enumerates(order, tags)
    ensures var r := FilterAndSortTags(identityKeys, tags, order);
      && (forall i :: 0 <= i < |r| ==> r[i].0 in identityKeys && r[i].0 in tags && r[i].1 == tags[r[i].0])
      && (forall k :: k in tags && k in identityKeys ==> (k, tags[k]) in r)
      && StrictlyAscending(r)
  {
    var r := FilterAndSortTags(identityKeys, tags, order);
    forall i | 0 <= i < |r| ensures r[i].0 in identityKeys && r[i].0 in tags && r[i].1 == tags[r[i].0] {
      FilterAndSortTagsMembers(identityKeys, tags, order, r[i]);
    }
    forall k | k in tags && k in identityKeys ensures (k, tags[k]) in r {
      FilterAndSortTagsMembers(identityKeys, tags, order, (k, tags[k]));
    }
    FilterAndSortTagsAscending(identityKeys, tags, order);
  }

  /** The keys of the result are the identity keys among the tags. */
  lemma FilterAndSortTagsKeys(identityKeys: seq<string>, tags: map<string, string>, order: seq<string>, k: string)
    requires Enumerates(order, tags)
    ensures k in Keys(FilterAndSortTags(identityKeys, tags, order)) <==> k in tags && k in identityKeys
  {
    var r := FilterAndSortTags(identityKeys, tags, order);
    if k in Keys(r) {
      var i :| 0 <= i < |r| && Keys(r)[i] == k;
      FilterAndSortTagsMembers(identityKeys, tags, order, r[i]);
    }
    if k in tags && k in identityKeys {
      FilterAndSortTagsMembers(identityKeys, tags, order, (k, tags[k]));
      var i :| 0 <= i < |r| && r[i] == (k, tags[k]);
      assert Keys(r)[i] == k;
    }
  }

  /** Two entry lists with strictly ascending keys, the same keys and the values of one map are the
      same list. */
  lemma AscendingEntriesUnique(a: seq<Entry>, b: seq<Entry>, tags: map<string, string>)
    requires StrictlyAscending(a) && StrictlyAscending(b)
    requires forall k :: k in Keys(a) <==> k in Keys(b)
    requires forall i :: 0 <= i < |a| ==> a[i].0 in tags && a[i].1 == tags[a[i].0]
    requires forall i :: 0 <= i < |b| ==> b[i].0 in tags && b[i].1 == tags[b[i].0]
    ensures a == b
  {
    StrictlySortedUnique(Keys(a), Keys(b));
    assert |a| == |b|;
    forall i | 0 <= i < |a| ensures a[i] == b[i] {
      assert Keys(a)[i] == Keys(b)[i];
    }
  }

  /** The result does not depend on the iteration order of the span's tag map. */
  lemma FilterAndSortTagsOrderFree(identityKeys: seq<string>, tags: map<string, string>, order1: seq<string>, order2: seq<string>)
    requires Enumerates(order1, tags) && Enumerates(order2, tags)
    ensures FilterAndSortTags(identityKeys, tags, order1) == FilterAndSortTags(identityKeys, tags, order2)
  {
    var a := FilterAndSortTags(identityKeys, tags, order1);
    var b := FilterAndSortTags(identityKeys, tags, order2);
    FilterAndSortTagsKeeps(identityKeys, tags, order1);
    FilterAndSortTagsKeeps(identityKeys, tags, order2);
    forall k ensures k in Keys(a) <==> k in Keys(b) {
      FilterAndSortTagsKeys(identityKeys, tags, order1, k);
      FilterAndSortTagsKeys(identityKeys, tags, order2, k);
    }
    AscendingEntriesUnique(a, b, tags);
  }

  /** The collected map of a filtered tag list. */
  function AsMap(r: seq<Entry>): (m: map<string, string>)
    requires StrictlyAscending(r)
    ensures forall k :: k in m <==> k in Keys(r)
    ensures forall i :: 0 <= i < |r| ==> m[r[i].0] == r[i].1
  {
    assert forall i, j :: 0 <= i < |r| && 0 <= j < |r| && r[i].0 == r[j].0 ==> i == j by {
      forall i, j | 0 <= i < |r| && 0 <= j < |r| && r[i].0 == r[j].0 ensures i == j {
        if i < j || j < i { StrLtIrreflexive(r[i].0); }
      }
    }
    map i | 0 <= i < |r| :: r[i].0 := r[i].1
  }

  /** Filtering is idempotent: filtering the collected map of a filtered span again, in its own order,
      gives the same tags in the same order. */
  lemma FilterAndSortTagsIdempotent(identityKeys: seq<string>, tags: map<string, string>, order: seq<string>)
    requires Enumerates(order, tags)
    ensures var r := FilterAndSortTags(identityKeys, tags, order);
      StrictlyAscending(r) && Enumerates(Keys(r), AsMap(r))
      && FilterAndSortTags(identityKeys, AsMap(r), Keys(r)) == r
  {
    var r := FilterAndSortTags(identityKeys, tags, order);
    FilterAndSortTagsKeeps(identityKeys, tags, order);
    var m := AsMap(r);
    var keys := Keys(r);
    assert NoDuplicates(keys) by {
      forall i, j | 0 <= i < j < |keys| ensures keys[i] != keys[j] {
        StrLtIrreflexive(keys[i]);
      }
    }
    var again := FilterAndSortTags(identityKeys, m, keys);
    FilterAndSortTagsKeeps(identityKeys, m, keys);
    forall k ensures k in Keys(again) <==> k in keys {
      FilterAndSortTagsKeys(identityKeys, m, keys, k);
      if k in keys {
        var i :| 0 <= i < |r| && keys[i] == k;
      }
    }
    AscendingEntriesUnique(again, r, m);
  }
}
