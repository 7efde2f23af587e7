/**
 * The comparison of evidence pages with the independent order of all calls in
 * scripts/qualify_ck08r3_evidence_scale.py (`_call_order_oracle`, `_assert_monotonic`
 * and the page checks of `_run_scale_profile`).
 */
module PageOrder {
  import opened TextOrder
  import opened Wrappers

  /** What the oracle reads of one call; a call without an event time is undated. */
  datatype Fact = Fact(
    callId: string, eventAt: Option<int>, sourceRank: int, sourceOrder: int, eventKindOrder: int, transitionRank: int)

  /** The seven parts of an order key. */
  datatype Key = Key(
    undated: int, eventAt: int, sourceRank: int, sourceOrder: int, eventKindOrder: int, callId: string, transitionRank: int)

  function KeyOf(f: Fact): Key {
    Key(if f.eventAt.None? then 1 else 0, if f.eventAt.None? then 0 else f.eventAt.value,
        f.sourceRank, f.sourceOrder, f.eventKindOrder, f.callId, f.transitionRank)
  }

  /** The order of Python's tuples. */
  predicate Less(a: Key, b: Key) {
    if a.undated != b.undated then a.undated < b.undated
    else if a.eventAt != b.eventAt then a.eventAt < b.eventAt
    else if a.sourceRank != b.sourceRank then a.sourceRank < b.sourceRank
    else if a.sourceOrder != b.sourceOrder then a.sourceOrder < b.sourceOrder
    else if a.eventKindOrder != b.eventKindOrder then a.eventKindOrder < b.eventKindOrder
    else if a.callId != b.callId then TextLess(a.callId, b.callId)
    else a.transitionRank < b.transitionRank
  }

  lemma LessIsStrictTotal(a: Key, b: Key, c: Key)
    ensures !Less(a, a)
    ensures Less(a, b) ==> !Less(b, a)
    ensures a == b || Less(a, b) || Less(b, a)
    ensures Less(a, b) && Less(b, c) ==> Less(a, c)
  {
    TextLessTotal(a.callId, b.callId);
    if TextLess(a.callId, b.callId) {
      TextLessAsymmetric(a.callId, b.callId);
      if TextLess(b.callId, c.callId) {
        TextLessTransitive(a.callId, b.callId, c.callId);
        TextLessAsymmetric(a.callId, c.callId);
      }
    }
    if TextLess(b.callId, a.callId) {
      TextLessAsymmetric(b.callId, a.callId);
    }
  }

  predicate SamePart(a: Key, b: Key, n: nat) {
    match n
    case 0 => a.undated == b.undated
    case 1 => a.eventAt == b.eventAt
    case 2 => a.sourceRank == b.sourceRank
    case 3 => a.sourceOrder == b.sourceOrder
    case 4 => a.eventKindOrder == b.eventKindOrder
    case 5 => a.callId == b.callId
    case _ => a.transitionRank == b.transitionRank
  }

  predicate PartLess(a: Key, b: Key, n: nat) {
    match n
    case 0 => a.undated < b.undated
    case 1 => a.eventAt < b.eventAt
    case 2 => a.sourceRank < b.sourceRank
    case 3 => a.sourceOrder < b.sourceOrder
    case 4 => a.eventKindOrder < b.eventKindOrder
    case 5 => TextLess(a.callId, b.callId)
    case _ => a.transitionRank < b.transitionRank
  }

  /** The first of the seven parts that differ decides, in every part the smaller one comes first. */
  lemma FirstDifferenceDecides(a: Key, b: Key, n: nat)
    requires n < 7 && !SamePart(a, b, n) && forall m :: 0 <= m < n ==> SamePart(a, b, m)
    ensures Less(a, b) <==> PartLess(a, b, n)
  {
    assert n > 0 ==> SamePart(a, b, 0);
    assert n > 1 ==> SamePart(a, b, 1);
    assert n > 2 ==> SamePart(a, b, 2);
    assert n > 3 ==> SamePart(a, b, 3);
    assert n > 4 ==> SamePart(a, b, 4);
    assert n > 5 ==> SamePart(a, b, 5);
  }

  /** The order of one direction: `backward` reverses it. */
  predicate Before(forward: bool, a: Key, b: Key) {
    if forward then Less(a, b) else Less(b, a)
  }

  predicate Ordered(forward: bool, keys: seq<Key>) {
    forall i, j :: 0 <= i < j < |keys| ==> !Before(forward, keys[j], keys[i])
  }

  predicate Strict(forward: bool, keys: seq<Key>) {
    forall i, j :: 0 <= i < j < |keys| ==> Before(forward, keys[i], keys[j])
  }

  function KeySet(keys: seq<Key>): set<Key> {
    set k | k in keys
  }

  /** `_assert_monotonic`: no key twice, and the keys equal their sorted list. */
  predicate Monotonic(forward: bool, keys: seq<Key>) {
    |keys| == |KeySet(keys)| && Ordered(forward, keys)
  }

  predicate Distinct(keys: seq<Key>) {
    forall i, j :: 0 <= i < j < |keys| ==> keys[i] != keys[j]
  }

  lemma DistinctStep(most: seq<Key>, last: Key)
    ensures Distinct(most + [last]) <==> Distinct(most) && last !in most
  {
    var keys := most + [last];
    if Distinct(keys) {
      forall i | 0 <= i < |most| ensures most[i] != last {
        assert keys[i] != keys[|most|];
      }
      forall i, j | 0 <= i < j < |most| ensures most[i] != most[j] {
        assert keys[i] != keys[j];
      }
    }
  }

  /** The size of the set tells whether a key is repeated. */
  lemma {:induction false} DistinctExactly(keys: seq<Key>)
    ensures |KeySet(keys)| <= |keys|
    ensures |keys| == |KeySet(keys)| <==> Distinct(keys)
  {
    if keys == [] {
      assert KeySet(keys) == {};
    } else {
      var most, last := keys[..|keys| - 1], keys[|keys| - 1];
      DistinctExactly(most);
      DistinctStep(most, last);
      KeySetStep(most, last);
      assert keys == most + [last];
      hide Distinct, KeySet;
    }
  }

  lemma KeySetStep(most: seq<Key>, last: Key)
    ensures KeySet(most + [last]) == KeySet(most) + {last}
    ensures |KeySet(most + [last])| == |KeySet(most)| + if last in most then 0 else 1
  {
    assert KeySet(most + [last]) == KeySet(most) + {last};
    assert last in KeySet(most) <==> last in most;
    assert last in most ==> KeySet(most) + {last} == KeySet(most);
  }

  /** The two tests of `_assert_monotonic` together are a strict order. */
  lemma MonotonicIsStrict(forward: bool, keys: seq<Key>)
    ensures Monotonic(forward, keys) <==> Strict(forward, keys)
  {
    hide Less, KeySet;
    DistinctExactly(keys);
    forall i, j | 0 <= i < j < |keys|
      ensures Before(forward, keys[i], keys[j]) <==> keys[i] != keys[j] && !Before(forward, keys[j], keys[i])
    {
      LessIsStrictTotal(keys[i], keys[j], keys[i]);
      LessIsStrictTotal(keys[j], keys[i], keys[j]);
    }
  }

  /** `heapq.nsmallest` or `heapq.nlargest`: the first `n` of all facts once they are sorted. */
  predicate IsOracle(forward: bool, facts: seq<Key>, sorted: seq<Key>, n: nat, expected: seq<Key>) {
    && multiset(sorted) == multiset(facts) && Ordered(forward, sorted)
    && expected == sorted[..if n < |sorted| then n else |sorted|]
  }

  /** Python's slices stop at the end. */
  function Slice(s: seq<Key>, from: nat, to: nat): (slice: seq<Key>)
    requires from <= to
    ensures |slice| == if |s| <= from then 0 else if |s| <= to then |s| - from else to - from
    ensures forall i :: 0 <= i < |slice| ==> slice[i] == s[from + i]
  {
    var end := if to < |s| then to else |s|;
    if from >= end then [] else s[from..end]
  }

  /** The three tests on a pair of pages. */
  predicate PagesMatch(first: seq<Key>, deep: seq<Key>, expected: seq<Key>) {
    && first == Slice(expected, 0, |first|)
    && deep == Slice(expected, |first|, |first| + |deep|)
    && |KeySet(first + deep)| == |first + deep|
  }

  /**
   * Pages that match the oracle are, together, a strictly ordered list without duplicates
   * or gaps: they hold exactly the calls that no other call precedes in between.
   */
  lemma MatchingPagesArePrefix(
    forward: bool, facts: seq<Key>, sorted: seq<Key>, n: nat, expected: seq<Key>, first: seq<Key>, deep: seq<Key>)
    requires IsOracle(forward, facts, sorted, n, expected) && PagesMatch(first, deep, expected)
    ensures first + deep <= expected && Strict(forward, first + deep)
    ensures forall i, k :: 0 <= i < |first + deep| && k in facts && Before(forward, k, (first + deep)[i]) ==>
              k in (first + deep)[..i]
  {
    hide Before, KeySet, Ordered, Slice;
    var pages := first + deep;
    PagesAreSlices(first, deep, expected);
    assert pages == sorted[..|pages|];
    PrefixOrdered(forward, sorted, |pages|);
    MonotonicIsStrict(forward, pages);
    forall i, k | 0 <= i < |pages| && k in facts && Before(forward, k, pages[i]) ensures k in pages[..i] {
      assert k in multiset(facts);
      assert k in multiset(sorted);
      EarlierIsBefore(forward, sorted, i, k);
      assert pages[..i] == sorted[..i];
    }
  }

  /** The three tests accept exactly pages that together start the expected list and repeat no call. */
  lemma PagesMatchExactly(first: seq<Key>, deep: seq<Key>, expected: seq<Key>)
    ensures PagesMatch(first, deep, expected) <==> first + deep <= expected && Distinct(first + deep)
  {
    DistinctExactly(first + deep);
    hide KeySet, Distinct;
    if first + deep <= expected {
      assert first == (first + deep)[..|first|] == expected[..|first|];
      assert deep == (first + deep)[|first|..] == expected[|first|..|first| + |deep|];
    }
    if PagesMatch(first, deep, expected) {
      PagesAreSlices(first, deep, expected);
    }
  }

  /** No dated call comes after an undated one, and dated calls are in the order of their event times. */
  predicate InTime(forward: bool, earlier: Fact, later: Fact) {
    if forward then
      (later.eventAt.Some? ==> earlier.eventAt.Some? && earlier.eventAt.value <= later.eventAt.value)
    else (earlier.eventAt.Some? ==> later.eventAt.Some? && later.eventAt.value <= earlier.eventAt.value)
  }

  /**
   * In matching forward pages event times never decrease and undated calls come last; in
   * backward pages event times never increase and undated calls come first.
   */
  lemma MatchingPagesByTime(
    forward: bool, facts: seq<Key>, sorted: seq<Key>, n: nat, expected: seq<Key>, first: seq<Key>, deep: seq<Key>,
    calls: seq<Fact>)
    requires IsOracle(forward, facts, sorted, n, expected) && PagesMatch(first, deep, expected)
    requires |calls| == |first + deep| && forall i :: 0 <= i < |calls| ==> (first + deep)[i] == KeyOf(calls[i])
    ensures forall i, j :: 0 <= i < j < |calls| ==> InTime(forward, calls[i], calls[j])
  {
    MatchingPagesArePrefix(forward, facts, sorted, n, expected, first, deep);
    hide IsOracle, PagesMatch;
    forall i, j | 0 <= i < j < |calls| ensures InTime(forward, calls[i], calls[j]) {
      assert Before(forward, (first + deep)[i], (first + deep)[j]);
    }
  }

  lemma PrefixOrdered(forward: bool, sorted: seq<Key>, n: nat)
    requires Ordered(forward, sorted) && n <= |sorted|
    ensures Ordered(forward, sorted[..n])
  {
    hide Before;
  }

  /** In an ordered list whatever precedes an entry stands before it. */
  lemma EarlierIsBefore(forward: bool, sorted: seq<Key>, i: nat, k: Key)
    requires Ordered(forward, sorted) && i < |sorted| && k in sorted && Before(forward, k, sorted[i])
    ensures k in sorted[..i]
  {
    hide Less;
    var j :| 0 <= j < |sorted| && sorted[j] == k;
    LessIsStrictTotal(sorted[i], sorted[j], sorted[i]);
    assert j < i;
    assert sorted[..i][j] == k;
  }

  lemma PagesAreSlices(first: seq<Key>, deep: seq<Key>, expected: seq<Key>)
    requires first == Slice(expected, 0, |first|) && deep == Slice(expected, |first|, |first| + |deep|)
    ensures first + deep <= expected
  {
    assert first == expected[..|first|];
    if deep != [] {
      assert deep == expected[|first|..|first| + |deep|];
      assert first + deep == expected[..|first| + |deep|];
    } else {
      assert first + deep == first;
    }
  }
}
