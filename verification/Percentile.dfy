/** The percentile of a tier's tenant costs (`collect_finance_telemetry_snapshot.py`) and the snapshot
    built from it (`finance_telemetry_snapshot_queries.py`). */
module Percentile {
  import opened Rounding

  predicate Ordered(s: seq<real>) {
    forall i, j | 0 <= i < j < |s| :: s[i] <= s[j]
  }

  function Insert(s: seq<real>, x: real): seq<real> {
    if s == [] || x < s[0] then [x] + s else [s[0]] + Insert(s[1..], x)
  }

  /** `sorted(values)` */
  function Sort(values: seq<real>): seq<real> {
    if values == [] then [] else Insert(Sort(values[..|values| - 1]), values[|values| - 1])
  }

  function Least(values: seq<real>): real
    requires values != []
  {
    if |values| == 1 then values[0] else Rounding.Min(Least(values[..|values| - 1]), values[|values| - 1])
  }

  function Greatest(values: seq<real>): real
    requires values != []
  {
    if |values| == 1 then values[0] else Rounding.Max(Greatest(values[..|values| - 1]), values[|values| - 1])
  }

  function Ceiling(x: real): int {
    if x.Floor as real == x then x.Floor else x.Floor + 1
  }

  function Mix(low: real, high: real, weight: real): real {
    low + (high - low) * weight
  }

  /** The element at a fractional rank: the two neighbours in proportion. */
  function At(ordered: seq<real>, rank: real): real
    requires 0.0 <= rank <= |ordered| as real - 1.0
  {
    var lower, upper := rank.Floor, Ceiling(rank);
    if lower == upper then ordered[lower]
    else Mix(ordered[lower], ordered[upper], rank - lower as real)
  }

  function Rank(percentile: real, n: nat): real {
    percentile / 100.0 * (n as real - 1.0)
  }

  lemma RankInRange(percentile: real, n: nat)
    requires 0.0 <= percentile <= 100.0 && n > 0
    ensures 0.0 <= Rank(percentile, n) <= n as real - 1.0
  {
    var part, length := percentile / 100.0, n as real - 1.0;
    Scales(0.0, part, length);
    Scales(part, 1.0, length);
    assert Rank(percentile, n) == part * length;
  }

  lemma RankMonotone(p: real, q: real, n: nat)
    requires p <= q && n > 0
    ensures Rank(p, n) <= Rank(q, n)
  {
    var a, b, length := p / 100.0, q / 100.0, n as real - 1.0;
    Scales(a, b, length);
    assert Rank(p, n) == a * length && Rank(q, n) == b * length;
  }

  lemma Scales(a: real, b: real, s: real)
    requires a <= b && 0.0 <= s
    ensures a * s <= b * s
  {
    var more := b - a;
    NonNegative(more, s);
    assert more * s == b * s - a * s;
  }

  lemma NonNegative(x: real, y: real)
    requires 0.0 <= x && 0.0 <= y
    ensures 0.0 <= x * y
  {
  }

  /** `_percentile` */
  function Percentile(values: seq<real>, percentile: real): real {
    if values == [] then 0.0
    else if percentile <= 0.0 then Least(values)
    else if percentile >= 100.0 then Greatest(values)
    else
      SortFacts(values);
      RankInRange(percentile, |values|);
      At(Sort(values), Rank(percentile, |values|))
  }

  // ----------------------------------------------------------------- sorting

  lemma {:induction false} InsertMembers(s: seq<real>, x: real)
    ensures multiset(Insert(s, x)) == multiset(s) + multiset{x} && |Insert(s, x)| == |s| + 1
  {
    if s != [] {
      assert s == [s[0]] + s[1..];
      InsertMembers(s[1..], x);
    }
  }

  lemma {:induction false} InsertAtLeast(s: seq<real>, x: real, low: real)
    requires low <= x && forall i | 0 <= i < |s| :: low <= s[i]
    ensures forall i | 0 <= i < |Insert(s, x)| :: low <= Insert(s, x)[i]
  {
    if s != [] {
      InsertAtLeast(s[1..], x, low);
    }
  }

  lemma {:induction false} InsertOrdered(s: seq<real>, x: real)
    requires Ordered(s)
    ensures Ordered(Insert(s, x))
  {
    if s != [] && s[0] <= x {
      InsertOrdered(s[1..], x);
      InsertAtLeast(s[1..], x, s[0]);
    } else if s != [] {
      assert forall i | 0 <= i < |s| :: x <= s[i];
    }
  }

  lemma {:induction false} SortFacts(values: seq<real>)
    ensures Ordered(Sort(values)) && multiset(Sort(values)) == multiset(values) && |Sort(values)| == |values|
  {
    if values != [] {
      var front, last := values[..|values| - 1], values[|values| - 1];
      SortFacts(front);
      InsertMembers(Sort(front), last);
      InsertOrdered(Sort(front), last);
      assert values == front + [last];
    }
  }

  lemma HeadAtMost(a: seq<real>, b: seq<real>)
    requires Ordered(a) && multiset(a) == multiset(b) && b != []
    ensures a != [] && a[0] <= b[0]
  {
    assert b[0] in multiset(a);
    assert b[0] in a;
  }

  lemma TailMultiset(s: seq<real>)
    requires s != []
    ensures multiset(s[1..]) == multiset(s) - multiset{s[0]}
  {
    assert s == [s[0]] + s[1..];
  }

  /** There is only one way to sort a collection. */
  lemma {:induction false} SortedUnique(a: seq<real>, b: seq<real>)
    requires Ordered(a) && Ordered(b) && multiset(a) == multiset(b)
    ensures a == b
  {
    assert |multiset(a)| == |a| && |multiset(b)| == |b|;
    if a != [] {
      HeadAtMost(a, b);
      HeadAtMost(b, a);
      TailMultiset(a);
      TailMultiset(b);
      SortedUnique(a[1..], b[1..]);
      assert a == [a[0]] + a[1..] && b == [b[0]] + b[1..];
    }
  }

  lemma {:induction false} ExtremesAreEnds(values: seq<real>)
    requires values != []
    ensures |Sort(values)| == |values| && Least(values) == Sort(values)[0]
            && Greatest(values) == Sort(values)[|values| - 1]
  {
    SortFacts(values);
    if |values| == 1 {
      assert values[..0] == [];
    } else {
      var front, last := values[..|values| - 1], values[|values| - 1];
      ExtremesAreEnds(front);
      SortFacts(front);
      InsertEnds(Sort(front), last);
    }
  }

  lemma {:induction false} InsertEnds(s: seq<real>, x: real)
    requires Ordered(s) && s != []
    ensures |Insert(s, x)| == |s| + 1
    ensures Insert(s, x)[0] == Rounding.Min(s[0], x)
    ensures Insert(s, x)[|s|] == Rounding.Max(s[|s| - 1], x)
  {
    var last := |s| - 1;
    assert s[0] <= s[last];
    if s[0] <= x {
      var rest := s[1..];
      if rest == [] {
        assert Insert(s, x) == [s[0], x];
      } else {
        InsertEnds(rest, x);
        assert rest[|rest| - 1] == s[last];
        assert Insert(s, x)[|s|] == Insert(rest, x)[|rest|];
      }
    } else {
      assert ([x] + s)[|s|] == s[last];
    }
  }

  // ------------------------------------------------------------- interpolation

  /** A rank is at or between two indices of the sequence. */
  lemma RankIndices(rank: real, n: nat)
    requires 0.0 <= rank <= n as real - 1.0
    ensures 0 <= rank.Floor <= Ceiling(rank) < n && rank.Floor as real <= rank <= Ceiling(rank) as real
    ensures rank.Floor == Ceiling(rank) || rank.Floor + 1 == Ceiling(rank)
  {
  }

  lemma MixMonotone(low: real, high: real, v: real, w: real)
    requires low <= high && v <= w
    ensures Mix(low, high, v) <= Mix(low, high, w)
  {
    var gap, step := high - low, w - v;
    NonNegative(gap, step);
    assert gap * step == gap * w - gap * v;
    assert Mix(low, high, v) == low + gap * v && Mix(low, high, w) == low + gap * w;
  }

  lemma MixBetween(low: real, high: real, weight: real)
    requires low <= high && 0.0 <= weight <= 1.0
    ensures low <= Mix(low, high, weight) <= high
  {
    MixMonotone(low, high, 0.0, weight);
    MixMonotone(low, high, weight, 1.0);
    assert Mix(low, high, 0.0) == low && Mix(low, high, 1.0) == high;
  }

  lemma BetweenNeighbours(ordered: seq<real>, rank: real)
    requires Ordered(ordered) && 0.0 <= rank <= |ordered| as real - 1.0
    ensures 0 <= rank.Floor <= Ceiling(rank) < |ordered|
    ensures ordered[rank.Floor] <= At(ordered, rank) <= ordered[Ceiling(rank)]
  {
    RankIndices(rank, |ordered|);
    if rank.Floor != Ceiling(rank) {
      MixBetween(ordered[rank.Floor], ordered[Ceiling(rank)], rank - rank.Floor as real);
    }
  }

  lemma AtMonotone(ordered: seq<real>, r: real, s: real)
    requires Ordered(ordered) && 0.0 <= r <= s <= |ordered| as real - 1.0
    ensures At(ordered, r) <= At(ordered, s)
  {
    BetweenNeighbours(ordered, r);
    BetweenNeighbours(ordered, s);
    RankIndices(r, |ordered|);
    RankIndices(s, |ordered|);
    if r.Floor < s.Floor {
      assert ordered[Ceiling(r)] <= ordered[s.Floor];
    } else if r.Floor != Ceiling(r) {
      SameNeighbours(ordered, r, s);
    }
  }

  lemma SameNeighbours(ordered: seq<real>, r: real, s: real)
    requires Ordered(ordered) && 0.0 <= r <= s <= |ordered| as real - 1.0
    requires r.Floor == s.Floor && r.Floor != Ceiling(r)
    ensures At(ordered, r) <= At(ordered, s)
  {
    var lower := r.Floor;
    assert Ceiling(r) == lower + 1 == Ceiling(s);
    MixMonotone(ordered[lower], ordered[lower + 1], r - lower as real, s - lower as real);
  }

  /** Any percentile lies between the least and the greatest value, and the special cases for 0 and
      100 agree with the general formula. */
  lemma PercentileBounded(values: seq<real>, percentile: real)
    requires values != []
    ensures Least(values) <= Percentile(values, percentile) <= Greatest(values)
    ensures |Sort(values)| == |values| && Percentile(values, 0.0) == At(Sort(values), Rank(0.0, |values|))
    ensures Percentile(values, 100.0) == At(Sort(values), |values| as real - 1.0)
  {
    SortFacts(values);
    ExtremesAreEnds(values);
    var ordered, last := Sort(values), |values| as real - 1.0;
    assert Rank(0.0, |values|) == 0.0 && At(ordered, 0.0) == ordered[0];
    assert At(ordered, last) == ordered[|values| - 1];
    var clamped := Clamp(percentile, 0.0, 100.0);
    RankInRange(clamped, |values|);
    AtMonotone(ordered, 0.0, Rank(clamped, |values|));
    AtMonotone(ordered, Rank(clamped, |values|), last);
  }

  /** A higher percentile is never lower. */
  lemma PercentileMonotone(values: seq<real>, p: real, q: real)
    requires p <= q
    ensures Percentile(values, p) <= Percentile(values, q)
  {
    if values != [] {
      PercentileBounded(values, p);
      PercentileBounded(values, q);
      if 0.0 < p && q < 100.0 {
        SortFacts(values);
        RankInRange(p, |values|);
        RankInRange(q, |values|);
        RankMonotone(p, q, |values|);
        AtMonotone(Sort(values), Rank(p, |values|), Rank(q, |values|));
      }
    }
  }

  /** The order in which the costs arrive does not matter. */
  lemma PercentileOfPermutation(a: seq<real>, b: seq<real>, percentile: real)
    requires multiset(a) == multiset(b)
    ensures Percentile(a, percentile) == Percentile(b, percentile)
  {
    SortFacts(a);
    SortFacts(b);
    SortedUnique(Sort(a), Sort(b));
    if a != [] {
      ExtremesAreEnds(a);
      ExtremesAreEnds(b);
    }
  }

  // -------------------------------------------------------- monotone in the costs

  predicate AtMost(a: seq<real>, b: seq<real>) {
    |a| == |b| && forall i | 0 <= i < |a| :: a[i] <= b[i]
  }

  lemma AtMostCons(x: real, a: seq<real>, y: real, b: seq<real>)
    requires x <= y && AtMost(a, b)
    ensures AtMost([x] + a, [y] + b)
  {
  }

  lemma {:induction false} InsertLeast(x: real, s: seq<real>)
    requires Ordered([x] + s)
    ensures Insert(s, x) == [x] + s
  {
    if s != [] {
      assert ([x] + s)[0] == x && ([x] + s)[1] == s[0];
      assert forall i | 0 <= i < |s| :: ([x] + s)[i + 1] == s[i];
      if s[0] == x {
        assert [s[0]] + s[1..] == s;
        InsertLeast(x, s[1..]);
      }
    }
  }

  lemma {:induction false} InsertMonotone(a: seq<real>, x: real, b: seq<real>, y: real)
    requires Ordered(a) && Ordered(b) && AtMost(a, b) && x <= y
    ensures AtMost(Insert(a, x), Insert(b, y))
  {
    if a != [] {
      var a', b' := a[1..], b[1..];
      assert a == [a[0]] + a' && b == [b[0]] + b';
      if a[0] <= x && b[0] <= y {
        InsertMonotone(a', x, b', y);
        AtMostCons(a[0], Insert(a', x), b[0], Insert(b', y));
      } else if b[0] <= y {
        InsertLeast(a[0], a');
        InsertMonotone(a', a[0], b', y);
        AtMostCons(x, a, b[0], Insert(b', y));
      } else if a[0] <= x {
        InsertLeast(b[0], b');
        InsertMonotone(a', x, b', b[0]);
        AtMostCons(a[0], Insert(a', x), y, b);
      } else {
        AtMostCons(x, a, y, b);
      }
    }
  }

  lemma {:induction false} SortMonotone(a: seq<real>, b: seq<real>)
    requires AtMost(a, b)
    ensures AtMost(Sort(a), Sort(b))
  {
    if a != [] {
      var n := |a| - 1;
      SortMonotone(a[..n], b[..n]);
      SortFacts(a[..n]);
      SortFacts(b[..n]);
      InsertMonotone(Sort(a[..n]), a[n], Sort(b[..n]), b[n]);
    }
  }

  lemma MixIsConvex(low: real, high: real, weight: real, rest: real)
    requires rest == 1.0 - weight
    ensures Mix(low, high, weight) == low * rest + high * weight
  {
  }

  lemma MixRaised(low: real, high: real, low': real, high': real, weight: real)
    requires low <= low' && high <= high' && 0.0 <= weight <= 1.0
    ensures Mix(low, high, weight) <= Mix(low', high', weight)
  {
    var rest := 1.0 - weight;
    MixIsConvex(low, high, weight, rest);
    MixIsConvex(low', high', weight, rest);
    Scales(low, low', rest);
    Scales(high, high', weight);
    SumsOrdered(low * rest, high * weight, low' * rest, high' * weight);
  }

  lemma SumsOrdered(a: real, b: real, c: real, d: real)
    requires a <= c && b <= d
    ensures a + b <= c + d
  {
  }

  lemma AtRaised(a: seq<real>, b: seq<real>, rank: real)
    requires AtMost(a, b) && 0.0 <= rank <= |a| as real - 1.0
    ensures At(a, rank) <= At(b, rank)
  {
    RankIndices(rank, |a|);
    if rank.Floor != Ceiling(rank) {
      MixRaised(a[rank.Floor], a[Ceiling(rank)], b[rank.Floor], b[Ceiling(rank)], rank - rank.Floor as real);
    }
  }

  /** When costs rise, no percentile falls. */
  lemma PercentileMonotoneInCosts(a: seq<real>, b: seq<real>, percentile: real)
    requires AtMost(a, b)
    ensures Percentile(a, percentile) <= Percentile(b, percentile)
  {
    if a != [] {
      SortMonotone(a, b);
      SortFacts(a);
      SortFacts(b);
      ExtremesAreEnds(a);
      ExtremesAreEnds(b);
      if 0.0 < percentile < 100.0 {
        RankInRange(percentile, |a|);
        AtRaised(Sort(a), Sort(b), Rank(percentile, |a|));
      }
    }
  }

  // ---------------------------------------------------------------- the snapshot

  datatype Snapshot = Snapshot(total: real, p50: real, p95: real, p99: real)

  function Sum(values: seq<real>): real {
    if values == [] then 0.0 else Sum(values[..|values| - 1]) + values[|values| - 1]
  }

  function TierSnapshot(values: seq<real>): Snapshot {
    Snapshot(Round(Sum(values), Six), Round(Percentile(values, 50.0), Six),
             Round(Percentile(values, 95.0), Six), Round(Percentile(values, 99.0), Six))
  }

  /** The published percentiles are in order, do not depend on the order of the tenants, and do not
      fall when a cost rises. */
  lemma SnapshotConsistent(a: seq<real>, b: seq<real>)
    ensures var s := TierSnapshot(a); s.p50 <= s.p95 <= s.p99
    ensures multiset(a) == multiset(b) ==>
              TierSnapshot(a).p50 == TierSnapshot(b).p50 && TierSnapshot(a).p95 == TierSnapshot(b).p95
              && TierSnapshot(a).p99 == TierSnapshot(b).p99
    ensures AtMost(a, b) ==>
              TierSnapshot(a).p50 <= TierSnapshot(b).p50 && TierSnapshot(a).p95 <= TierSnapshot(b).p95
              && TierSnapshot(a).p99 <= TierSnapshot(b).p99
  {
    PercentileMonotone(a, 50.0, 95.0);
    PercentileMonotone(a, 95.0, 99.0);
    RoundMonotone(Percentile(a, 50.0), Percentile(a, 95.0), Six);
    RoundMonotone(Percentile(a, 95.0), Percentile(a, 99.0), Six);
    if multiset(a) == multiset(b) {
      PercentileOfPermutation(a, b, 50.0);
      PercentileOfPermutation(a, b, 95.0);
      PercentileOfPermutation(a, b, 99.0);
    }
    if AtMost(a, b) {
      CostsRaise(a, b, 50.0);
      CostsRaise(a, b, 95.0);
      CostsRaise(a, b, 99.0);
    }
  }

  lemma CostsRaise(a: seq<real>, b: seq<real>, percentile: real)
    requires AtMost(a, b)
    ensures Round(Percentile(a, percentile), Six) <= Round(Percentile(b, percentile), Six)
  {
    PercentileMonotoneInCosts(a, b, percentile);
    RoundMonotone(Percentile(a, percentile), Percentile(b, percentile), Six);
  }

  // ------------------------------------------------- what the numbers are

  /** The value at rank `k + w` of the sorted costs, a fraction `w` of the way from one to the next, where
      the first has rank 0 and the last rank 100 of 100. */
  predicate LiesAt(sorted: seq<real>, p: real, x: real, k: nat, w: real)
    requires k < |sorted|
  {
    var next := if k + 1 < |sorted| then k + 1 else k;
    && 0.0 <= w <= 1.0
    && p * (|sorted| as real - 1.0) == 100.0 * (k as real + w)
    && x == sorted[k] * (1.0 - w) + sorted[next] * w
  }

  ghost predicate IsPercentile(sorted: seq<real>, p: real, x: real) {
    if sorted == [] then x == 0.0
    else exists k: nat, w: real | k < |sorted| :: LiesAt(sorted, p, x, k, w)
  }

  lemma AtLies(sorted: seq<real>, p: real)
    requires sorted != [] && 0.0 <= p <= 100.0
    ensures 0.0 <= Rank(p, |sorted|) <= |sorted| as real - 1.0
    ensures IsPercentile(sorted, p, At(sorted, Rank(p, |sorted|)))
  {
    var rank := Rank(p, |sorted|);
    RankInRange(p, |sorted|);
    RankIndices(rank, |sorted|);
    var k, w := rank.Floor, rank - rank.Floor as real;
    assert p * (|sorted| as real - 1.0) == 100.0 * rank;
    if rank.Floor != Ceiling(rank) {
      MixIsConvex(sorted[k], sorted[k + 1], w, 1.0 - w);
    }
    assert LiesAt(sorted, p, At(sorted, rank), k, w);
  }

  /** A percentile is read off the sorted values, between the two neighbours of its rank. */
  lemma PercentileIs(values: seq<real>, sorted: seq<real>, p: real)
    requires Ordered(sorted) && multiset(sorted) == multiset(values) && 0.0 <= p <= 100.0
    ensures IsPercentile(sorted, p, Percentile(values, p))
  {
    SortFacts(values);
    SortedUnique(sorted, Sort(values));
    if values != [] {
      PercentileBounded(values, p);
      AtLies(sorted, p);
      if p == 100.0 {
        assert Rank(p, |values|) == |values| as real - 1.0;
      }
    }
  }

  function SumFromFirst(values: seq<real>): real {
    if values == [] then 0.0 else values[0] + SumFromFirst(values[1..])
  }

  lemma {:induction false} SumsAgree(values: seq<real>)
    ensures Sum(values) == SumFromFirst(values)
  {
    if |values| > 1 {
      var last := |values| - 1;
      SumsAgree(values[..last]);
      SumsAgree(values[1..]);
      SumsAgree(values[1..last]);
      assert values[..last][1..] == values[1..last] && values[1..][..last - 1] == values[1..last];
    }
  }

  /** The published snapshot of a tier: the sum of its tenants' costs and their 50th, 95th and 99th
      percentile. */
  lemma SnapshotIs(values: seq<real>, sorted: seq<real>) returns (p50: real, p95: real, p99: real)
    requires Ordered(sorted) && multiset(sorted) == multiset(values)
    ensures IsPercentile(sorted, 50.0, p50) && IsPercentile(sorted, 95.0, p95) && IsPercentile(sorted, 99.0, p99)
    ensures TierSnapshot(values) ==
            Snapshot(Round(SumFromFirst(values), Six), Round(p50, Six), Round(p95, Six), Round(p99, Six))
  {
    p50, p95, p99 := Percentile(values, 50.0), Percentile(values, 95.0), Percentile(values, 99.0);
    PercentileIs(values, sorted, 50.0);
    PercentileIs(values, sorted, 95.0);
    PercentileIs(values, sorted, 99.0);
    SumsAgree(values);
  }
}
