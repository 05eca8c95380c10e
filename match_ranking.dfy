/**
 * Ranking of feature matches, shared by template alignment and the similarity score
 * (ImageUtil.alignToReferenceWithValidation and ImageUtil.calculateImageSimilarity).
 */
module MatchRanking {
  import opened Results

  /** Distance below which a match counts as good when scoring similarity. */
  const GOOD_MATCH_DISTANCE: nat := 50

  /** Fewest correspondences a homography can be estimated from. */
  const MIN_HOMOGRAPHY_MATCHES: nat := 4

  /**
   * One correspondence reported by the brute-force Hamming matcher: keypoint `queryIdx` of the
   * first image, keypoint `trainIdx` of the second, and the Hamming distance of their descriptors.
   */
  datatype Match = Match(queryIdx: nat, trainIdx: nat, distance: nat)

  predicate SortedByDistance(ms: seq<Match>) {
    forall i, j :: 0 <= i < j < |ms| ==> ms[i].distance <= ms[j].distance
  }

  /** The matches of `ms` at distance `d`, in their order in `ms`. */
  function AtDistance(ms: seq<Match>, d: nat): seq<Match> {
    if ms == [] then []
    else AtDistance(ms[..|ms| - 1], d) + (if ms[|ms| - 1].distance == d then [ms[|ms| - 1]] else [])
  }

  /** Inserts `m` into the sorted `s` after every match at a distance no greater than its own. */
  function Insert(m: Match, s: seq<Match>): (r: seq<Match>)
    requires SortedByDistance(s)
    ensures |r| == |s| + 1
    ensures forall i :: 0 <= i < |r| ==> r[i] == m || r[i] in s
    ensures SortedByDistance(r)
    ensures multiset(r) == multiset(s) + multiset{m}
    decreases |s|
  {
    if s == [] then [m]
    else if m.distance < s[0].distance then
      InsertInFront(m, s);
      [m] + s
    else
      var rest := Insert(m, s[1..]);
      InsertBehind(m, s, rest);
      [s[0]] + rest
  }

  /** A match closer than the first of a sorted sequence can go in front of it. */
  lemma InsertInFront(m: Match, s: seq<Match>)
    requires SortedByDistance(s) && s != [] && m.distance < s[0].distance
    ensures forall i :: 0 <= i < |[m] + s| ==> ([m] + s)[i] == m || ([m] + s)[i] in s
    ensures SortedByDistance([m] + s)
    ensures multiset([m] + s) == multiset(s) + multiset{m}
  {
  }

  /** The first of a sorted sequence stays in front of the insertion into the rest. */
  lemma InsertBehind(m: Match, s: seq<Match>, rest: seq<Match>)
    requires SortedByDistance(s) && s != [] && s[0].distance <= m.distance
    requires |rest| == |s|
    requires forall i :: 0 <= i < |rest| ==> rest[i] == m || rest[i] in s[1..]
    requires SortedByDistance(rest)
    requires multiset(rest) == multiset(s[1..]) + multiset{m}
    ensures forall i :: 0 <= i < |[s[0]] + rest| ==> ([s[0]] + rest)[i] == m || ([s[0]] + rest)[i] in s
    ensures SortedByDistance([s[0]] + rest)
    ensures multiset([s[0]] + rest) == multiset(s) + multiset{m}
  {
    assert s == [s[0]] + s[1..];
    assert forall i :: 0 <= i < |rest| ==> s[0].distance <= rest[i].distance;
  }

  /**
   * `matchList.sort((a, b) -> Float.compare(a.distance, b.distance))`: List.sort is a stable sort,
   * modelled here by insertion sort, which is stable too.
   */
  function SortByDistance(ms: seq<Match>): (r: seq<Match>)
    ensures |r| == |ms|
    ensures SortedByDistance(r)
    ensures multiset(r) == multiset(ms)
  {
    if ms == [] then []
    else
      assert ms == ms[..|ms| - 1] + [ms[|ms| - 1]];
      Insert(ms[|ms| - 1], SortByDistance(ms[..|ms| - 1]))
  }

  lemma {:induction false} InsertAtDistance(m: Match, s: seq<Match>, d: nat)
    requires SortedByDistance(s)
    ensures AtDistance(Insert(m, s), d) == AtDistance(s, d) + AtDistance([m], d)
    decreases |s|
  {
    if s == [] {
      assert Insert(m, s) == [m];
      assert AtDistance(s, d) == [];
    } else if m.distance < s[0].distance {
      InsertInFrontAtDistance(m, s, d);
    } else {
      var rest := Insert(m, s[1..]);
      InsertAtDistance(m, s[1..], d);
      InsertBehindAtDistance(m, s, rest, d);
    }
  }

  lemma InsertInFrontAtDistance(m: Match, s: seq<Match>, d: nat)
    requires SortedByDistance(s) && s != [] && m.distance < s[0].distance
    ensures AtDistance(Insert(m, s), d) == AtDistance(s, d) + AtDistance([m], d)
  {
    assert Insert(m, s) == [m] + s;
    AtDistanceConcat([m], s, d);
    if m.distance == d {
      AtDistanceOfSortedAbove(s, d);
    }
  }

  lemma InsertBehindAtDistance(m: Match, s: seq<Match>, rest: seq<Match>, d: nat)
    requires SortedByDistance(s) && s != [] && s[0].distance <= m.distance
    requires rest == Insert(m, s[1..])
    requires AtDistance(rest, d) == AtDistance(s[1..], d) + AtDistance([m], d)
    ensures AtDistance(Insert(m, s), d) == AtDistance(s, d) + AtDistance([m], d)
  {
    InsertUnfoldsBehind(m, s);
    PrependAtDistance(rest, s, AtDistance([m], d), d);
  }

  /** Putting the first match of `s` in front of `t` relates them as `t` relates to the rest of `s`. */
  lemma PrependAtDistance(t: seq<Match>, s: seq<Match>, extra: seq<Match>, d: nat)
    requires s != [] && AtDistance(t, d) == AtDistance(s[1..], d) + extra
    ensures AtDistance([s[0]] + t, d) == AtDistance(s, d) + extra
  {
    assert s == [s[0]] + s[1..];
    AtDistanceConcat([s[0]], t, d);
    AtDistanceConcat([s[0]], s[1..], d);
  }

  /** Inserting behind the first match of a sorted sequence keeps that match first. */
  lemma InsertUnfoldsBehind(m: Match, s: seq<Match>)
    requires SortedByDistance(s) && s != [] && s[0].distance <= m.distance
    ensures Insert(m, s) == [s[0]] + Insert(m, s[1..])
  {
  }

  lemma AtDistanceSingle(m: Match, d: nat)
    ensures AtDistance([m], d) == if m.distance == d then [m] else []
  {
    assert [m][..0] == [];
  }

  /** No match of a sorted `s` lies at a distance below its first one. */
  lemma {:induction false} AtDistanceOfSortedAbove(s: seq<Match>, d: nat)
    requires SortedByDistance(s) && s != [] && d < s[0].distance
    ensures AtDistance(s, d) == []
    decreases |s|
  {
    if |s| > 1 {
      AtDistanceOfSortedAbove(s[..|s| - 1], d);
    }
  }

  lemma {:induction false} AtDistanceConcat(a: seq<Match>, b: seq<Match>, d: nat)
    ensures AtDistance(a + b, d) == AtDistance(a, d) + AtDistance(b, d)
    decreases |b|
  {
    if b == [] {
      assert a + b == a;
    } else {
      assert (a + b)[..|a + b| - 1] == a + b[..|b| - 1];
      AtDistanceConcat(a, b[..|b| - 1], d);
    }
  }

  /**
   * The sort is stable: for every distance, the matches at that distance keep their relative order.
   */
  lemma {:induction false} SortByDistanceIsStable(ms: seq<Match>, d: nat)
    ensures AtDistance(SortByDistance(ms), d) == AtDistance(ms, d)
    decreases |ms|
  {
    if ms != [] {
      var init, last := ms[..|ms| - 1], ms[|ms| - 1];
      assert ms == init + [last];
      SortByDistanceIsStable(init, d);
      InsertAtDistance(last, SortByDistance(init), d);
      AtDistanceConcat(init, [last], d);
    }
  }

  /**
   * How many of `n` sorted matches alignment keeps: `(int) (n * 0.1)`, raised to at least 4,
   * then capped at `n` by `subList(0, Math.min(numGoodMatches, n))`.
   */
  function KeepCount(n: nat): (k: nat)
    ensures k <= n
    ensures k >= MIN_HOMOGRAPHY_MATCHES <==> n >= MIN_HOMOGRAPHY_MATCHES
    ensures n < MIN_HOMOGRAPHY_MATCHES ==> k == n
    ensures n >= 10 * MIN_HOMOGRAPHY_MATCHES ==> k == n / 10
    ensures n >= MIN_HOMOGRAPHY_MATCHES ==> k >= n / 10
  {
    var numGoodMatches := n / 10;
    var raised := Max(numGoodMatches, MIN_HOMOGRAPHY_MATCHES);
    Min(raised, n)
  }

  /** The matches alignment estimates the homography from: the best `KeepCount(|ms|)` by distance. */
  function GoodMatches(ms: seq<Match>): seq<Match> {
    SortByDistance(ms)[..KeepCount(|ms|)]
  }

  /**
   * The kept matches are exactly `KeepCount` of the input's matches, in ascending distance order,
   * and no dropped match is closer than any kept one.
   */
  lemma GoodMatchesAreTheClosest(ms: seq<Match>)
    ensures |GoodMatches(ms)| == KeepCount(|ms|)
    ensures SortedByDistance(GoodMatches(ms))
    ensures multiset(GoodMatches(ms)) <= multiset(ms)
    ensures forall m, k :: m in multiset(ms) - multiset(GoodMatches(ms)) && k in GoodMatches(ms) ==>
      k.distance <= m.distance
  {
    var s := SortByDistance(ms);
    var n := KeepCount(|ms|);
    SortedSplit(s, n);
  }

  /** Splitting a sorted sequence: the prefix is sorted and no later match is closer than it. */
  lemma SortedSplit(s: seq<Match>, n: nat)
    requires SortedByDistance(s) && n <= |s|
    ensures SortedByDistance(s[..n])
    ensures multiset(s[..n]) <= multiset(s)
    ensures multiset(s) - multiset(s[..n]) == multiset(s[n..])
    ensures forall m, k :: m in multiset(s) - multiset(s[..n]) && k in s[..n] ==> k.distance <= m.distance
  {
    assert s == s[..n] + s[n..];
    assert multiset(s) == multiset(s[..n]) + multiset(s[n..]);
    PrefixNoFartherThanSuffix(s, n);
  }

  /** In a sorted sequence, no match of the prefix lies farther than a match of the suffix. */
  lemma PrefixNoFartherThanSuffix(s: seq<Match>, n: nat)
    requires SortedByDistance(s) && n <= |s|
    ensures forall m, k :: m in s[n..] && k in s[..n] ==> k.distance <= m.distance
  {
    forall m: Match, k: Match | m in s[n..] && k in s[..n]
      ensures k.distance <= m.distance
    {
      var j :| n <= j < |s| && s[j] == m;
      var i :| 0 <= i < n && s[i] == k;
    }
  }

  /** Number of matches with a distance strictly below GOOD_MATCH_DISTANCE. */
  function CountGood(ms: seq<Match>): (c: nat)
    ensures c <= |ms|
  {
    if ms == [] then 0
    else CountGood(ms[..|ms| - 1]) + (if ms[|ms| - 1].distance < GOOD_MATCH_DISTANCE then 1 else 0)
  }

  lemma {:induction false} CountGoodConcat(a: seq<Match>, b: seq<Match>)
    ensures CountGood(a + b) == CountGood(a) + CountGood(b)
    decreases |b|
  {
    if b == [] {
      assert a + b == a;
    } else {
      assert (a + b)[..|a + b| - 1] == a + b[..|b| - 1];
      CountGoodConcat(a, b[..|b| - 1]);
    }
  }

  /** The good-match count depends only on which matches there are, not on their order. */
  lemma {:induction false} CountGoodIsOrderFree(a: seq<Match>, b: seq<Match>)
    requires multiset(a) == multiset(b)
    ensures CountGood(a) == CountGood(b)
    decreases |a|
  {
    if a == [] {
      assert |b| == |multiset(b)| == 0;
    } else {
      var x := a[|a| - 1];
      var ra := a[..|a| - 1] + a[|a|..];
      CountGoodWithout(a, |a| - 1);
      assert x in multiset(b);
      var i :| 0 <= i < |b| && b[i] == x;
      var rb := b[..i] + b[i + 1..];
      CountGoodWithout(b, i);
      CountGoodIsOrderFree(ra, rb);
      assert CountGood(a) == CountGood(ra) + CountGood([x]);
      assert CountGood(b) == CountGood(rb) + CountGood([x]);
    }
  }

  /** Taking match `i` out of `b` removes it from the multiset and its share from the count. */
  lemma CountGoodWithout(b: seq<Match>, i: nat)
    requires i < |b|
    ensures multiset(b[..i] + b[i + 1..]) == multiset(b) - multiset{b[i]}
    ensures CountGood(b) == CountGood(b[..i] + b[i + 1..]) + CountGood([b[i]])
  {
    var before, x, after := b[..i], b[i], b[i + 1..];
    SplitAt(b, i);
    MultisetWithout(before, x, after);
    CountGoodWithoutSplit(before, x, after);
  }

  lemma MultisetWithout(before: seq<Match>, x: Match, after: seq<Match>)
    ensures multiset(before + after) == multiset((before + [x]) + after) - multiset{x}
  {
    assert multiset((before + [x]) + after) == multiset(before) + multiset{x} + multiset(after);
  }

  lemma CountGoodWithoutSplit(before: seq<Match>, x: Match, after: seq<Match>)
    ensures CountGood((before + [x]) + after) == CountGood(before + after) + CountGood([x])
  {
    CountGoodConcat(before + [x], after);
    CountGoodConcat(before, [x]);
    CountGoodConcat(before, after);
  }
}
