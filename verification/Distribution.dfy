/** backtest/distribution.py: interpolated percentiles and threshold ranks. */
module Distribution {
  import opened Json
  import opened Rounding
  import opened Trades
  import opened Report

  ghost predicate Sorted(xs: seq<real>) {
    forall i, j :: 0 <= i <= j < |xs| ==> xs[i] <= xs[j]
  }

  /** Python's `sorted`. */
  function Insert(x: real, xs: seq<real>): (ys: seq<real>)
    ensures |ys| == |xs| + 1
  {
    if xs == [] || x <= xs[0] then [x] + xs else [xs[0]] + Insert(x, xs[1..])
  }

  function Ordered(xs: seq<real>): (ys: seq<real>)
    ensures |ys| == |xs|
  {
    if xs == [] then [] else Insert(xs[0], Ordered(xs[1..]))
  }

  ghost predicate AtLeast(xs: seq<real>, low: real) {
    forall i :: 0 <= i < |xs| ==> low <= xs[i]
  }

  lemma {:induction false} InsertSorted(x: real, xs: seq<real>)
    requires Sorted(xs)
    ensures Sorted(Insert(x, xs))
    ensures forall low :: low <= x && AtLeast(xs, low) ==> AtLeast(Insert(x, xs), low)
  {
    if xs != [] && x > xs[0] {
      InsertSorted(x, xs[1..]);
      assert AtLeast(xs[1..], xs[0]);
      forall low | low <= x && AtLeast(xs, low) ensures AtLeast(Insert(x, xs), low) {
        assert low <= xs[0];
        assert AtLeast(xs[1..], low);
      }
    }
  }

  lemma {:induction false} InsertElements(x: real, xs: seq<real>)
    ensures multiset(Insert(x, xs)) == multiset(xs) + multiset{x}
  {
    if xs != [] && x > xs[0] {
      InsertElements(x, xs[1..]);
      assert xs == [xs[0]] + xs[1..];
    }
  }

  lemma {:induction false} OrderedSorts(xs: seq<real>)
    ensures Sorted(Ordered(xs)) && multiset(Ordered(xs)) == multiset(xs)
  {
    if xs != [] {
      OrderedSorts(xs[1..]);
      InsertSorted(xs[0], Ordered(xs[1..]));
      InsertElements(xs[0], Ordered(xs[1..]));
      assert xs == [xs[0]] + xs[1..];
    }
  }

  lemma HeadIsLeast(xs: seq<real>, y: real)
    requires Sorted(xs) && y in multiset(xs)
    ensures xs != [] && xs[0] <= y
  {
    assert y in xs;
  }

  lemma TailElements(xs: seq<real>)
    requires xs != [] && Sorted(xs)
    ensures multiset(xs[1..]) == multiset(xs) - multiset{xs[0]} && Sorted(xs[1..])
  {
    assert xs == [xs[0]] + xs[1..];
  }

  lemma SameHeadAndTail(xs: seq<real>, ys: seq<real>)
    requires xs != [] && ys != [] && xs[0] == ys[0] && xs[1..] == ys[1..]
    ensures xs == ys
  {
    assert xs == [xs[0]] + xs[1..];
  }

  /** A sorted sequence is determined by its elements. */
  lemma {:induction false} SortedUnique(xs: seq<real>, ys: seq<real>)
    requires Sorted(xs) && Sorted(ys) && multiset(xs) == multiset(ys)
    ensures xs == ys
  {
    if xs == [] {
      assert |multiset(ys)| == 0;
    } else {
      assert xs[0] in multiset(xs);
      HeadIsLeast(ys, xs[0]);
      assert ys[0] in multiset(ys);
      HeadIsLeast(xs, ys[0]);
      TailElements(xs);
      TailElements(ys);
      SortedUnique(xs[1..], ys[1..]);
      SameHeadAndTail(xs, ys);
    }
  }

  /** The point a fraction t of the way from a to b. */
  function Between(a: real, b: real, t: real): real {
    a + (b - a) * t
  }

  /** Python's indexing, which counts negative indices from the end. */
  function At(xs: seq<real>, i: int): real
    requires -|xs| <= i < |xs|
  {
    if i < 0 then xs[|xs| + i] else xs[i]
  }

  predicate IsIndex(i: int, n: int) {
    -n <= i < n
  }

  /** The interpolated value at a rank, before rounding. */
  function AtRank(ordered: seq<real>, rank: real): real
    requires IsIndex(Truncate(rank), |ordered|)
  {
    var lo := Truncate(rank);
    var hi := if lo + 1 < |ordered| - 1 then lo + 1 else |ordered| - 1;
    Between(At(ordered, lo), At(ordered, hi), rank - lo as real)
  }

  function Rank(p: real, n: nat): real {
    p / 100.0 * (n - 1) as real
  }

  lemma RankRange(p: real, n: nat)
    requires 0.0 <= p <= 100.0 && n > 0
    ensures 0.0 <= Rank(p, n) <= (n - 1) as real
    ensures Rank(0.0, n) == 0.0 && Rank(100.0, n) == (n - 1) as real
  {
    MultiplyMono(0.0, p / 100.0, (n - 1) as real);
    MultiplyMono(p / 100.0, 1.0, (n - 1) as real);
  }

  /** The rank of p is an index; otherwise the source raises an IndexError. */
  predicate Reaches(n: nat, p: real) {
    IsIndex(Truncate(Rank(p, n)), n)
  }

  /** Percentiles between 0 and 100 never raise; others do exactly when the rank is a whole step
      outside the sample, counted from either end. */
  lemma ReachesIff(n: nat, p: real)
    requires n > 0
    ensures Reaches(n, p) <==> -(n + 1) as real < Rank(p, n) < n as real
    ensures 0.0 <= p <= 100.0 ==> Reaches(n, p)
  {
    if 0.0 <= p <= 100.0 {
      RankRange(p, n);
    }
  }

  /** The unrounded percentile of a non-empty sample. */
  function Percentile(values: seq<real>, p: real): real
    requires values != [] && Reaches(|values|, p)
  {
    AtRank(Ordered(values), Rank(p, |values|))
  }

  function Reported(values: seq<real>, p: real): real
    requires values != [] && Reaches(|values|, p)
  {
    Round(Percentile(values, p), GRID6)
  }

  /** A single value is every percentile of itself. */
  lemma SingleValue(values: seq<real>, p: real)
    requires |values| == 1
    ensures Reaches(1, p) && Percentile(values, p) == Ordered(values)[0]
  {
    assert Rank(p, 1) == 0.0;
    AtWholeRank(Ordered(values), 0, Rank(p, 1));
  }

  /** `percentiles`: one entry per requested p (the string key of a p is not modelled); None where
      the source raises. */
  method Percentiles(values: seq<real>, ps: seq<real>) returns (result: Option<map<real, real>>)
    ensures result.None? <==> values != [] && exists p :: p in ps && !Reaches(|values|, p)
    ensures result.Some? ==> result.value.Keys == set p | p in ps
    ensures result.Some? && values == [] ==> forall p :: p in ps ==> result.value[p] == 0.0
    ensures result.Some? && values != [] ==>
      forall p :: p in ps ==> Reaches(|values|, p) && result.value[p] == Reported(values, p)
                              && -HALF_MICRO <= result.value[p] - Percentile(values, p) <= HALF_MICRO
  {
    if values == [] {
      return Some(map p | p in ps :: 0.0);
    }
    var ordered := Ordered(values);
    var n := |ordered|;
    var found := map[];
    for i := 0 to |ps|
      invariant found.Keys == set p | p in ps[..i]
      invariant forall p :: p in found ==> Reaches(n, p) && found[p] == Reported(values, p)
    {
      var p := ps[i];
      assert p in ps;
      if n == 1 {
        SingleValue(values, p);
        found := found[p := Round(ordered[0], GRID6)];
      } else if IsIndex(Truncate(Rank(p, n)), n) {
        found := found[p := Round(AtRank(ordered, Rank(p, n)), GRID6)];
      } else {
        return None;
      }
      assert ps[..i + 1] == ps[..i] + [p];
    }
    assert ps[..|ps|] == ps;
    forall p | p in ps ensures -HALF_MICRO <= found[p] - Percentile(values, p) <= HALF_MICRO {
      RoundNear(Percentile(values, p), GRID6);
    }
    result := Some(found);
  }

  lemma Interpolate(a: real, b: real, t: real)
    requires a <= b && 0.0 <= t <= 1.0
    ensures a <= Between(a, b, t) <= b
  {
    MultiplyMono(0.0, t, b - a);
    MultiplyMono(t, 1.0, b - a);
  }

  lemma InterpolateMono(a: real, b: real, s: real, t: real)
    requires a <= b && s <= t
    ensures Between(a, b, s) <= Between(a, b, t)
  {
    MultiplyMono(s, t, b - a);
  }

  lemma AtRankMono(ordered: seq<real>, r: real, s: real)
    requires Sorted(ordered) && 0.0 <= r <= s <= (|ordered| - 1) as real
    ensures ordered[0] <= AtRank(ordered, r) <= AtRank(ordered, s) <= ordered[|ordered| - 1]
  {
    AtRankBetween(ordered, r);
    AtRankBetween(ordered, s);
    var lo, lo' := r.Floor, s.Floor;
    if lo == lo' {
      var hi := if lo + 1 < |ordered| - 1 then lo + 1 else |ordered| - 1;
      InterpolateMono(ordered[lo], ordered[hi], r - lo as real, s - lo as real);
    } else {
      assert ordered[lo + 1] <= ordered[lo'];
    }
  }

  lemma AtRankBetween(ordered: seq<real>, r: real)
    requires Sorted(ordered) && 0.0 <= r <= (|ordered| - 1) as real
    ensures ordered[r.Floor] <= AtRank(ordered, r)
    ensures AtRank(ordered, r) <= ordered[if r.Floor + 1 < |ordered| then r.Floor + 1 else r.Floor]
  {
    var lo := r.Floor;
    var hi := if lo + 1 < |ordered| - 1 then lo + 1 else |ordered| - 1;
    Interpolate(ordered[lo], ordered[hi], r - lo as real);
  }

  lemma AtWholeRank(ordered: seq<real>, k: nat, rank: real)
    requires k < |ordered| && rank == k as real
    ensures AtRank(ordered, rank) == ordered[k]
  {
    assert rank.Floor == k;
  }

  lemma Ends(values: seq<real>)
    requires values != []
    ensures Reaches(|values|, 0.0) && Percentile(values, 0.0) == Ordered(values)[0]
    ensures Reaches(|values|, 100.0) && Percentile(values, 100.0) == Ordered(values)[|values| - 1]
  {
    RankRange(0.0, |values|);
    AtWholeRank(Ordered(values), 0, Rank(0.0, |values|));
    AtWholeRank(Ordered(values), |values| - 1, Rank(100.0, |values|));
  }

  /** The percentiles at 0 and 100 are the least and greatest of the sample. */
  lemma PercentileEnds(values: seq<real>)
    requires values != []
    ensures Reaches(|values|, 0.0) && Reaches(|values|, 100.0)
    ensures forall v :: v in values ==> Percentile(values, 0.0) <= v <= Percentile(values, 100.0)
    ensures Percentile(values, 0.0) in values && Percentile(values, 100.0) in values
  {
    Ends(values);
    OrderedSorts(values);
    var ordered := Ordered(values);
    forall v ensures v in values <==> v in ordered {
      assert v in values <==> v in multiset(values);
      assert v in ordered <==> v in multiset(ordered);
    }
  }

  /** Percentiles do not depend on the order the values came in ... */
  lemma PercentileIgnoresOrder(values: seq<real>, shuffled: seq<real>, p: real)
    requires values != [] && Reaches(|values|, p) && multiset(shuffled) == multiset(values)
    ensures |shuffled| == |values| && Percentile(shuffled, p) == Percentile(values, p)
  {
    assert |multiset(shuffled)| == |multiset(values)|;
    OrderedSorts(values);
    OrderedSorts(shuffled);
    SortedUnique(Ordered(shuffled), Ordered(values));
  }

  lemma RankMono(p: real, q: real, n: nat)
    requires 0.0 <= p <= q <= 100.0 && n > 0
    ensures 0.0 <= Rank(p, n) <= Rank(q, n) <= (n - 1) as real
  {
    RankRange(p, n);
    RankRange(q, n);
    MultiplyMono(p / 100.0, q / 100.0, (n - 1) as real);
  }

  /** ... rise with p, and stay between the least and the greatest value. */
  lemma PercentilesRise(values: seq<real>, p: real, q: real)
    requires values != [] && 0.0 <= p <= q <= 100.0
    ensures forall r :: r in [0.0, p, q, 100.0] ==> Reaches(|values|, r)
    ensures Percentile(values, 0.0) <= Percentile(values, p) <= Percentile(values, q) <= Percentile(values, 100.0)
  {
    OrderedSorts(values);
    RankMono(p, q, |values|);
    AtRankMono(Ordered(values), Rank(p, |values|), Rank(q, |values|));
    Ends(values);
  }

  /** s is the sample in ascending order. */
  ghost predicate Arranges(s: seq<real>, values: seq<real>) {
    Sorted(s) && multiset(s) == multiset(values) && |s| == |values|
  }

  lemma ArrangesOrdered(s: seq<real>, values: seq<real>)
    requires Arranges(s, values)
    ensures s == Ordered(values)
  {
    OrderedSorts(values);
    SortedUnique(s, Ordered(values));
  }

  lemma RankIs(p: real, n: nat, steps: real)
    requires n > 1 && p * (n - 1) as real == 100.0 * steps
    ensures Rank(p, n) == steps
  {
    var q := p / 100.0;
    assert q * 100.0 == p;
    assert q * (n - 1) as real * 100.0 == p * (n - 1) as real;
  }

  /** The definition by order statistics: the percentiles 100 k / (n - 1) are the values in ascending
      order, and between two of them the percentile moves in a straight line. */
  lemma PercentileInterpolates(values: seq<real>, s: seq<real>, p: real, k: nat, t: real)
    requires Arranges(s, values) && k + 1 < |values| && 0.0 <= t < 1.0
    requires p * (|values| - 1) as real == 100.0 * (k as real + t)
    ensures Reaches(|values|, p) && Percentile(values, p) == (1.0 - t) * s[k] + t * s[k + 1]
  {
    ArrangesOrdered(s, values);
    var rank := k as real + t;
    RankIs(p, |values|, rank);
    assert rank.Floor == k && Truncate(rank) == k;
    BetweenWeighs(s[k], s[k + 1], t);
  }

  lemma BetweenWeighs(a: real, b: real, t: real)
    ensures Between(a, b, t) == (1.0 - t) * a + t * b
  {
  }

  /** Above 100, as far as it is answered at all, it is the greatest value. */
  lemma PercentileAbove(values: seq<real>, s: seq<real>, p: real)
    requires Arranges(s, values) && values != [] && p >= 100.0 && Reaches(|values|, p)
    ensures Percentile(values, p) == s[|s| - 1]
  {
    ArrangesOrdered(s, values);
    var n := |values|;
    MultiplyMono(1.0, p / 100.0, (n - 1) as real);
    ReachesIff(n, p);
    assert Truncate(Rank(p, n)) == n - 1;
    assert Between(s[n - 1], s[n - 1], Rank(p, n) - (n - 1) as real) == s[n - 1];
  }

  /** Below 0 the indices wrap around: j + t steps below 0 lie on the line through the j-th value from
      the end and the one after it - the first after the last - but on its far side. */
  lemma PercentileBelow(values: seq<real>, s: seq<real>, p: real, j: nat, t: real)
    requires Arranges(s, values) && |values| > 1 && j <= |values| && 0.0 <= t < 1.0
    requires Rank(p, |values|) == -(j as real + t)
    ensures var n := |values|; var at, next := if j == 0 then 0 else n - j, if j <= 1 then 1 - j else n - j + 1;
      Reaches(n, p) && Percentile(values, p) == Between(s[at], s[next], -t)
  {
    ArrangesOrdered(s, values);
    AtRankBelow(s, j, t, -(j as real + t));
  }

  lemma AtRankBelow(s: seq<real>, j: nat, t: real, rank: real)
    requires |s| > 1 && j <= |s| && 0.0 <= t < 1.0 && rank == -(j as real + t)
    ensures var n := |s|; var at, next := if j == 0 then 0 else n - j, if j <= 1 then 1 - j else n - j + 1;
      IsIndex(Truncate(rank), n) && AtRank(s, rank) == Between(s[at], s[next], -t)
  {
    TruncateBelow(j, t, rank);
    var lo := 0 - j as int;
    assert AtRank(s, rank) == Between(At(s, lo), At(s, lo + 1), -t);
  }

  lemma TruncateBelow(j: nat, t: real, rank: real)
    requires 0.0 <= t < 1.0 && rank == -(j as real + t)
    ensures Truncate(rank) == 0 - j as int && rank - Truncate(rank) as real == -t
  {
    assert (-rank).Floor == j;
  }

  function CountBelow(values: seq<real>, threshold: real): nat {
    if values == [] then 0
    else CountBelow(values[..|values| - 1], threshold) + if values[|values| - 1] < threshold then 1 else 0
  }

  function CountHits(values: seq<real>, threshold: real): nat {
    if values == [] then 0
    else CountHits(values[..|values| - 1], threshold) + if values[|values| - 1] >= threshold then 1 else 0
  }

  /** `percentile_of_value` and the hit rate of `distribution_report`. */
  method ThresholdRow(moves: seq<real>, threshold: real) returns (percentile: real, hitRate: real)
    ensures moves == [] ==> percentile == 0.0 && hitRate == 0.0
    ensures moves != [] ==> percentile == Round(CountBelow(moves, threshold) as real / |moves| as real * 100.0, GRID4)
    ensures moves != [] ==> hitRate == Round(CountHits(moves, threshold) as real / |moves| as real, GRID6)
    ensures moves != [] ==>
      && Near4(percentile, |Below(moves, threshold)| as real / |moves| as real * 100.0)
      && -HALF_MICRO <= hitRate - (|moves| - |Below(moves, threshold)|) as real / |moves| as real <= HALF_MICRO
  {
    if moves == [] {
      return 0.0, 0.0;
    }
    BelowCounted(moves, threshold);
    CountsPartition(moves, threshold);
    NearGrid4(|Below(moves, threshold)| as real / |moves| as real * 100.0);
    RoundNear((|moves| - |Below(moves, threshold)|) as real / |moves| as real, GRID6);
    var below, hits := 0, 0;
    for i := 0 to |moves|
      invariant below == CountBelow(moves[..i], threshold) && hits == CountHits(moves[..i], threshold)
    {
      assert moves[..i + 1][..i] == moves[..i];
      if moves[i] < threshold {
        below := below + 1;
      }
      if moves[i] >= threshold {
        hits := hits + 1;
      }
    }
    assert moves[..|moves|] == moves;
    percentile := Round(below as real / |moves| as real * 100.0, GRID4);
    hitRate := Round(hits as real / |moves| as real, GRID6);
  }

  ghost function Below(values: seq<real>, threshold: real): set<nat> {
    set k: nat | k < |values| && values[k] < threshold
  }

  lemma {:induction false} BelowCounted(values: seq<real>, threshold: real)
    ensures CountBelow(values, threshold) == |Below(values, threshold)|
  {
    if values == [] {
      assert Below(values, threshold) == {};
    } else {
      var n := |values| - 1;
      BelowCounted(values[..n], threshold);
      assert Below(values, threshold) == Below(values[..n], threshold) + if values[n] < threshold then {n} else {};
    }
  }

  lemma {:induction false} CountsPartition(values: seq<real>, threshold: real)
    ensures CountBelow(values, threshold) + CountHits(values, threshold) == |values|
  {
    if values != [] {
      CountsPartition(values[..|values| - 1], threshold);
    }
  }

  /** Before rounding, percentile rank / 100 and hit rate add up to one. */
  lemma RankAndHitRate(moves: seq<real>, threshold: real)
    requires moves != []
    ensures CountBelow(moves, threshold) as real / |moves| as real +
      CountHits(moves, threshold) as real / |moves| as real == 1.0
  {
    CountsPartition(moves, threshold);
    var n := |moves| as real;
    var a, b := CountBelow(moves, threshold) as real, CountHits(moves, threshold) as real;
    AddQuotients(a, b, n);
    IsQuotient(n, n, 1.0);
  }
}
