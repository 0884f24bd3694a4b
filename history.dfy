/** Reading-progress records as the history page holds them. */
module History {

  /** One record. Progress percentage and the last-read timestamp are only displayed, so they are not modelled. */
  datatype HistoryItem =
    | Local(title: string, currentChapter: string)
    | Network(title: string, currentChapter: string, bookSource: string)

  /** A `(key, item)` pair; the key is the novel's path or its network cache key. */
  type Entry = (string, HistoryItem)

  /** The store's invariant: no key occurs twice. */
  ghost predicate UniqueKeys(h: seq<Entry>) {
    forall i, j :: 0 <= i < j < |h| ==> h[i].0 != h[j].0
  }

  /** `History::remove_index`: drops exactly the entry at index `i`, keeping the order of the others. */
  function RemoveIndex(h: seq<Entry>, i: nat): (r: seq<Entry>)
    requires i < |h|
    ensures |r| == |h| - 1
    ensures forall k :: 0 <= k < i ==> r[k] == h[k]
    ensures forall k :: i <= k < |r| ==> r[k] == h[k + 1]
  {
    h[..i] + h[i + 1..]
  }

  /** Removing an entry loses that entry and nothing else. */
  lemma RemoveIndexMultiset(h: seq<Entry>, i: nat)
    requires i < |h|
    ensures multiset(h) == multiset(RemoveIndex(h, i)) + multiset{h[i]}
  {
    assert h == h[..i] + [h[i]] + h[i + 1..];
  }

  /** Removal keeps the keys unique, and the removed key is gone afterwards. */
  lemma RemoveIndexKeepsKeysUnique(h: seq<Entry>, i: nat)
    requires i < |h| && UniqueKeys(h)
    ensures UniqueKeys(RemoveIndex(h, i))
    ensures forall k :: 0 <= k < |RemoveIndex(h, i)| ==> RemoveIndex(h, i)[k].0 != h[i].0
  {
    var r := RemoveIndex(h, i);
    forall a, b | 0 <= a < b < |r| ensures r[a].0 != r[b].0 {
      var a' := if a < i then a else a + 1;
      var b' := if b < i then b else b + 1;
      assert r[a] == h[a'] && r[b] == h[b'] && a' < b';
    }
    forall k | 0 <= k < |r| ensures r[k].0 != h[i].0 {
      var k' := if k < i then k else k + 1;
      assert r[k] == h[k'] && k' != i;
    }
  }
}
