/**
 * Rank metrics of an evaluation case (evaluation_scoring.py:43-59) over exact reals; the
 * discount 1 / log2(i + 2) is any positive, strictly decreasing weight.
 */
module RankMetrics {
  import opened Common

  ghost predicate Discount(w: nat -> real) {
    (forall i: nat :: w(i) > 0.0) && (forall i: nat, j: nat :: i < j ==> w(i) > w(j))
  }

  /** Which retrieved positions are relevant. */
  function Gains(expected: set<Id>, retrieved: seq<Id>): seq<bool> {
    seq(|retrieved|, i requires 0 <= i < |retrieved| => retrieved[i] in expected)
  }

  function Dcg(w: nat -> real, gains: seq<bool>): real {
    if gains == [] then 0.0
    else Dcg(w, gains[..|gains| - 1]) + (if gains[|gains| - 1] then w(|gains| - 1) else 0.0)
  }

  function Ideal(w: nat -> real, n: nat): real {
    if n == 0 then 0.0 else Ideal(w, n - 1) + w(n - 1)
  }

  function IdealHits(expected: set<Id>, retrieved: seq<Id>): nat {
    if |expected| < |retrieved| then |expected| else |retrieved|
  }

  function Ndcg(w: nat -> real, expected: set<Id>, retrieved: seq<Id>): real {
    var ideal := Ideal(w, IdealHits(expected, retrieved));
    if retrieved == [] || ideal == 0.0 then 0.0 else Dcg(w, Gains(expected, retrieved)) / ideal
  }

  function Hits(gains: seq<bool>): nat {
    if gains == [] then 0 else Hits(gains[..|gains| - 1]) + (if gains[|gains| - 1] then 1 else 0)
  }

  // ---- the bound ----

  lemma {:induction false} HitsWithin(gains: seq<bool>)
    ensures Hits(gains) <= |gains|
    ensures Hits(gains) == |gains| <==> forall i :: 0 <= i < |gains| ==> gains[i]
  {
    if gains != [] {
      HitsWithin(gains[..|gains| - 1]);
    }
  }

  /** All hits come first. */
  ghost predicate HitsFirst(gains: seq<bool>) {
    forall i :: 0 <= i < |gains| ==> (gains[i] <==> i < Hits(gains))
  }

  /** A list gains at most what its hits would gain in front, and exactly that when they are in front. */
  lemma {:induction false} DcgAtMostIdeal(w: nat -> real, gains: seq<bool>)
    requires Discount(w)
    ensures 0.0 <= Dcg(w, gains) <= Ideal(w, Hits(gains))
    ensures Dcg(w, gains) == Ideal(w, Hits(gains)) <==> HitsFirst(gains)
  {
    if gains != [] {
      var init, n := gains[..|gains| - 1], |gains| - 1;
      DcgAtMostIdeal(w, init);
      HitsWithin(init);
      HitsFirstStep(gains);
    }
  }

  lemma HitsFirstStep(gains: seq<bool>)
    requires gains != []
    ensures var init := gains[..|gains| - 1];
      HitsFirst(gains) <==> HitsFirst(init) && (gains[|gains| - 1] ==> Hits(init) == |init|)
  {
    var init := gains[..|gains| - 1];
    HitsWithin(init);
    if HitsFirst(gains) {
      assert forall i :: 0 <= i < |init| ==> init[i] == gains[i];
      if gains[|gains| - 1] {
        assert forall i :: 0 <= i < |init| ==> gains[i];
      }
    }
    if HitsFirst(init) && (gains[|gains| - 1] ==> Hits(init) == |init|) {
      assert forall i :: 0 <= i < |init| ==> (gains[i] <==> init[i]);
    }
  }

  lemma {:induction false} IdealGrows(w: nat -> real, m: nat, n: nat)
    requires Discount(w) && m <= n
    ensures Ideal(w, m) <= Ideal(w, n)
    ensures m < n ==> Ideal(w, m) < Ideal(w, n)
  {
    if m < n {
      IdealGrows(w, m, n - 1);
    }
  }

  function HitSet(expected: set<Id>, retrieved: seq<Id>): set<Id> {
    set x | x in retrieved && x in expected
  }

  lemma {:induction false} DistinctHits(expected: set<Id>, retrieved: seq<Id>)
    requires Distinct(retrieved)
    ensures |HitSet(expected, retrieved)| == Hits(Gains(expected, retrieved))
  {
    if retrieved != [] {
      var init, last := retrieved[..|retrieved| - 1], retrieved[|retrieved| - 1];
      DistinctHits(expected, init);
      assert retrieved == init + [last];
      HitSetStep(expected, init, last);
      HitsStep(expected, init, last);
    } else {
      assert HitSet(expected, retrieved) == {};
    }
  }

  lemma HitSetStep(expected: set<Id>, init: seq<Id>, last: Id)
    requires last !in init
    ensures |HitSet(expected, init + [last])| == |HitSet(expected, init)| + (if last in expected then 1 else 0)
  {
    assert HitSet(expected, init + [last]) == HitSet(expected, init) + (if last in expected then {last} else {});
  }

  lemma HitsStep(expected: set<Id>, init: seq<Id>, last: Id)
    ensures Hits(Gains(expected, init + [last])) == Hits(Gains(expected, init)) + (if last in expected then 1 else 0)
  {
    assert Gains(expected, init + [last])[..|init|] == Gains(expected, init);
  }

  /** A list without a hit scores nothing, whether or not there was anything to find. */
  lemma {:induction false} NdcgOfMisses(w: nat -> real, expected: set<Id>, retrieved: seq<Id>)
    requires Discount(w) && forall x :: x in retrieved ==> x !in expected
    ensures Ndcg(w, expected, retrieved) == 0.0
  {
    var gains := Gains(expected, retrieved);
    forall i | 0 <= i < |gains|
      ensures !gains[i]
    {
      assert retrieved[i] in retrieved;
    }
    DcgOfMisses(w, gains);
  }

  lemma {:induction false} DcgOfMisses(w: nat -> real, gains: seq<bool>)
    requires forall i :: 0 <= i < |gains| ==> !gains[i]
    ensures Dcg(w, gains) == 0.0
  {
    if gains != [] {
      DcgOfMisses(w, gains[..|gains| - 1]);
    }
  }

  lemma SubsetSize(a: set<Id>, b: set<Id>)
    requires a <= b
    ensures |a| <= |b|
  {
    assert b == a + (b - a);
  }

  /** A list without duplicates cannot hit more often than the ideal list. */
  lemma HitsAtMostIdeal(expected: set<Id>, retrieved: seq<Id>)
    requires Distinct(retrieved)
    ensures Hits(Gains(expected, retrieved)) <= IdealHits(expected, retrieved)
  {
    DistinctHits(expected, retrieved);
    SubsetSize(HitSet(expected, retrieved), expected);
    HitsWithin(Gains(expected, retrieved));
  }

  lemma Quotient(a: real, b: real)
    requires 0.0 <= a && b > 0.0
    ensures 0.0 <= a / b
    ensures a / b <= 1.0 <==> a <= b
    ensures a / b == 1.0 <==> a == b
  {
    assert a == (a / b) * b;
  }

  lemma IdealPositive(w: nat -> real, expected: set<Id>, retrieved: seq<Id>)
    requires Discount(w) && expected != {} && retrieved != []
    ensures Ideal(w, IdealHits(expected, retrieved)) > 0.0
  {
    IdealGrows(w, 0, IdealHits(expected, retrieved));
  }

  /** NDCG of a list that hits no more often than the ideal list lies between zero and one. */
  lemma NdcgInUnitInterval(w: nat -> real, expected: set<Id>, retrieved: seq<Id>)
    requires Discount(w) && Hits(Gains(expected, retrieved)) <= IdealHits(expected, retrieved)
    ensures 0.0 <= Ndcg(w, expected, retrieved) <= 1.0
  {
    var gains, k := Gains(expected, retrieved), IdealHits(expected, retrieved);
    if retrieved != [] && Ideal(w, k) != 0.0 {
      DcgAtMostIdeal(w, gains);
      IdealGrows(w, Hits(gains), k);
      IdealGrows(w, 0, k);
      Quotient(Dcg(w, gains), Ideal(w, k));
    }
  }

  /** A duplicate-free list scores in [0, 1], and scores 1 exactly when its first positions are all relevant. */
  lemma NdcgOfDistinctList(w: nat -> real, expected: set<Id>, retrieved: seq<Id>)
    requires Discount(w) && Distinct(retrieved) && expected != {} && retrieved != []
    ensures 0.0 <= Ndcg(w, expected, retrieved) <= 1.0
    ensures Ndcg(w, expected, retrieved) == 1.0 <==>
      forall i :: 0 <= i < IdealHits(expected, retrieved) ==> retrieved[i] in expected
  {
    var gains, k := Gains(expected, retrieved), IdealHits(expected, retrieved);
    HitsAtMostIdeal(expected, retrieved);
    NdcgInUnitInterval(w, expected, retrieved);
    IdealPositive(w, expected, retrieved);
    DcgAtMostIdeal(w, gains);
    IdealGrows(w, Hits(gains), k);
    Quotient(Dcg(w, gains), Ideal(w, k));
    assert Ndcg(w, expected, retrieved) == 1.0 <==> Hits(gains) == k && HitsFirst(gains);
    FrontFull(gains, k);
    assert forall i :: 0 <= i < |gains| ==> gains[i] == (retrieved[i] in expected);
  }

  lemma {:induction false} HitsOfPrefix(gains: seq<bool>, k: nat)
    requires k <= |gains|
    ensures Hits(gains[..k]) <= Hits(gains)
    ensures Hits(gains[..k]) == Hits(gains) ==> forall i :: k <= i < |gains| ==> !gains[i]
  {
    if k < |gains| {
      var init := gains[..|gains| - 1];
      HitsOfPrefix(init, k);
      assert init[..k] == gains[..k];
    } else {
      assert gains[..k] == gains;
    }
  }

  /** With at most `k` hits, the first `k` positions are all hits exactly when there are `k` and they come first. */
  lemma FrontFull(gains: seq<bool>, k: nat)
    requires k <= |gains| && Hits(gains) <= k
    ensures (forall i :: 0 <= i < k ==> gains[i]) <==> Hits(gains) == k && HitsFirst(gains)
  {
    if forall i :: 0 <= i < k ==> gains[i] {
      HitsWithin(gains[..k]);
      HitsOfPrefix(gains, k);
    }
  }

  // ---- reciprocal rank ----

  ghost predicate FirstHit(expected: set<Id>, retrieved: seq<Id>, rank: Option<nat>) {
    match rank
    case None => forall i :: 0 <= i < |retrieved| ==> retrieved[i] !in expected
    case Some(k) =>
      && 1 <= k <= |retrieved| && retrieved[k - 1] in expected
      && forall i :: 0 <= i < k - 1 ==> retrieved[i] !in expected
  }

  /** The one-based rank of the first relevant position. */
  function RankOfFirst(expected: set<Id>, retrieved: seq<Id>): (rank: Option<nat>)
    ensures FirstHit(expected, retrieved, rank)
  {
    if retrieved == [] then None
    else
      var earlier := RankOfFirst(expected, retrieved[..|retrieved| - 1]);
      if earlier.Some? then earlier
      else if retrieved[|retrieved| - 1] in expected then Some(|retrieved|)
      else None
  }

  lemma FirstHitUnique(expected: set<Id>, retrieved: seq<Id>, a: Option<nat>, b: Option<nat>)
    requires FirstHit(expected, retrieved, a) && FirstHit(expected, retrieved, b)
    ensures a == b
  {
  }

  function Reciprocal(rank: Option<nat>): real
    requires rank.Some? ==> rank.value >= 1
  {
    if rank.None? then 0.0 else 1.0 / (rank.value as real)
  }

  /** The reciprocal rank is at least one half exactly when one of the first two positions is relevant. */
  lemma HalfMeansFirstTwo(expected: set<Id>, retrieved: seq<Id>)
    ensures Reciprocal(RankOfFirst(expected, retrieved)) >= 0.5
       <==> exists i :: 0 <= i < |retrieved| && i < 2 && retrieved[i] in expected
  {
    var rank := RankOfFirst(expected, retrieved);
    if rank.Some? {
      assert retrieved[rank.value - 1] in expected;
      if rank.value > 2 {
        Quotient(1.0, rank.value as real);
        ThirdIsLess(rank.value);
      }
    }
  }

  lemma ThirdIsLess(k: nat)
    requires k > 2
    ensures 1.0 / (k as real) < 0.5
  {
    assert (1.0 / (k as real)) * (k as real) == 1.0;
  }

  /** The early-exit search: reciprocal and rank of the first relevant position. */
  method ReciprocalRank(expected: set<Id>, retrieved: seq<Id>) returns (value: real, rank: Option<nat>)
    ensures FirstHit(expected, retrieved, rank) && rank == RankOfFirst(expected, retrieved)
    ensures value == Reciprocal(rank)
    ensures 0.0 <= value <= 1.0
    ensures value == 1.0 <==> retrieved != [] && retrieved[0] in expected
  {
    for index := 0 to |retrieved|
      invariant forall i :: 0 <= i < index ==> retrieved[i] !in expected
    {
      if retrieved[index] in expected {
        Quotient(1.0, (index + 1) as real);
        FirstHitUnique(expected, retrieved, Some(index + 1), RankOfFirst(expected, retrieved));
        return 1.0 / ((index + 1) as real), Some(index + 1);
      }
    }
    FirstHitUnique(expected, retrieved, None, RankOfFirst(expected, retrieved));
    return 0.0, None;
  }

  /** A perfect NDCG forces reciprocal rank one: the first position is relevant. */
  lemma PerfectNdcgStartsWithAHit(w: nat -> real, expected: set<Id>, retrieved: seq<Id>)
    requires Discount(w) && Distinct(retrieved) && expected != {} && retrieved != []
    requires Ndcg(w, expected, retrieved) == 1.0
    ensures FirstHit(expected, retrieved, Some(1))
  {
    NdcgOfDistinctList(w, expected, retrieved);
    assert |expected| > 0;
  }

  // ---- better rankings score higher ----

  lemma {:induction false} DcgUpdate(w: nat -> real, gains: seq<bool>, i: nat, v: bool)
    requires i < |gains|
    ensures Dcg(w, gains[i := v]) == Dcg(w, gains) + (if v then w(i) else 0.0) - (if gains[i] then w(i) else 0.0)
  {
    var n := |gains| - 1;
    if i < n {
      DcgUpdate(w, gains[..n], i, v);
      assert gains[i := v][..n] == gains[..n][i := v];
    } else {
      assert gains[i := v][..n] == gains[..n];
    }
  }

  /** Moving a relevant chunk in front of an irrelevant one strictly raises NDCG. */
  lemma SwappingUpRaisesNdcg(w: nat -> real, expected: set<Id>, retrieved: seq<Id>, i: nat, j: nat)
    requires Discount(w) && expected != {} && i < j < |retrieved|
    requires retrieved[i] !in expected && retrieved[j] in expected
    ensures Ndcg(w, expected, retrieved[i := retrieved[j]][j := retrieved[i]]) > Ndcg(w, expected, retrieved)
  {
    var better := retrieved[i := retrieved[j]][j := retrieved[i]];
    var gains := Gains(expected, retrieved);
    assert Gains(expected, better) == gains[i := true][j := false];
    DcgUpdate(w, gains, i, true);
    DcgUpdate(w, gains[i := true], j, false);
    IdealPositive(w, expected, retrieved);
    Larger(Dcg(w, gains), Dcg(w, Gains(expected, better)), Ideal(w, IdealHits(expected, retrieved)));
  }

  lemma Larger(a: real, b: real, d: real)
    requires a < b && d > 0.0
    ensures a / d < b / d
  {
    assert a == (a / d) * d && b == (b / d) * d;
  }

  // ---- lists with duplicates ----

  /** A relevant chunk retrieved twice scores above one, whatever the discount. */
  lemma DuplicateScoresAboveOne(w: nat -> real, x: Id)
    requires Discount(w)
    ensures Ndcg(w, {x}, [x, x]) > 1.0
  {
    var gains := Gains({x}, [x, x]);
    assert gains == [true, true] && gains[..1] == [true] && [true][..0] == [];
    assert Dcg(w, [true]) == w(0);
    assert Dcg(w, gains) == w(0) + w(1);
    assert |{x}| == 1 && Ideal(w, 1) == Ideal(w, 0) + w(0) == w(0);
    Quotient(w(0) + w(1), w(0));
  }

  function Misses(n: nat): seq<bool> {
    seq(n, i => false)
  }

  lemma {:induction false} MissesGainNothing(w: nat -> real, n: nat)
    ensures Dcg(w, Misses(n)) == 0.0
  {
    if n > 0 {
      MissesGainNothing(w, n - 1);
      assert Misses(n)[..n - 1] == Misses(n - 1);
    }
  }

  /**
   * For one given discount: one expected chunk retrieved twice, at positions `i` and `j`, scores
   * at most one exactly when the two weights together do not exceed the first.
   */
  lemma TwoHitsExactly(w: nat -> real, x: Id, retrieved: seq<Id>, i: nat, j: nat)
    requires Discount(w) && i < j < |retrieved|
    requires forall k :: 0 <= k < |retrieved| ==> (retrieved[k] == x <==> k == i || k == j)
    ensures Ndcg(w, {x}, retrieved) <= 1.0 <==> w(i) + w(j) <= w(0)
  {
    var gains, none := Gains({x}, retrieved), Misses(|retrieved|);
    assert gains == none[i := true][j := true];
    MissesGainNothing(w, |retrieved|);
    DcgUpdate(w, none, i, true);
    DcgUpdate(w, none[i := true], j, true);
    assert |{x}| == 1 && IdealHits({x}, retrieved) == 1;
    assert Ideal(w, 1) == Ideal(w, 0) + w(0) == w(0);
    Quotient(w(i) + w(j), w(0));
  }

  function Half(n: nat): real {
    if n == 0 then 1.0 else Half(n - 1) / 2.0
  }

  /** A nearly flat discount: above one everywhere, its excess over one never adds up to one. */
  const FLAT: nat -> real := (i: nat) => 1.0 + Half(i + 1)

  lemma {:induction false} HalfShrinks(m: nat, n: nat)
    requires m <= n
    ensures Half(n) > 0.0
    ensures m < n ==> Half(m) > Half(n)
    decreases n
  {
    if n > 0 {
      HalfShrinks(if m < n then m else n - 1, n - 1);
    }
  }

  lemma FlatIsDiscount()
    ensures Discount(FLAT)
    ensures forall i: nat :: FLAT(i) > 1.0
  {
    forall i: nat, j: nat | i < j
      ensures FLAT(i) > FLAT(j)
    {
      HalfShrinks(i + 1, j + 1);
    }
    forall i: nat
      ensures FLAT(i) > 1.0
    {
      HalfShrinks(0, i + 1);
    }
  }

  lemma {:induction false} FlatIdeal(n: nat)
    ensures Ideal(FLAT, n) == n as real + 1.0 - Half(n)
  {
    if n > 0 {
      FlatIdeal(n - 1);
      assert FLAT(n - 1) == 1.0 + Half(n);
    }
  }

  lemma {:induction false} FlatDcg(gains: seq<bool>)
    ensures Dcg(FLAT, gains) >= Hits(gains) as real
  {
    if gains != [] {
      FlatDcg(gains[..|gains| - 1]);
      FlatIsDiscount();
      assert FLAT(|gains| - 1) > 1.0;
    }
  }

  /**
   * NDCG stays within one for every discount exactly when the list hits no more often than
   * the ideal list: a duplicated hit breaks the bound only once the hits outnumber it.
   */
  lemma NdcgBoundedExactly(expected: set<Id>, retrieved: seq<Id>)
    requires expected != {} && retrieved != []
    ensures (forall w: nat -> real :: Discount(w) ==> Ndcg(w, expected, retrieved) <= 1.0)
       <==> Hits(Gains(expected, retrieved)) <= IdealHits(expected, retrieved)
  {
    var gains, k := Gains(expected, retrieved), IdealHits(expected, retrieved);
    if Hits(gains) <= k {
      forall w: nat -> real | Discount(w)
        ensures Ndcg(w, expected, retrieved) <= 1.0
      {
        NdcgInUnitInterval(w, expected, retrieved);
      }
    } else {
      FlatIsDiscount();
      FlatDcg(gains);
      FlatIdeal(k);
      HalfShrinks(0, k);
      IdealPositive(FLAT, expected, retrieved);
      Quotient(Dcg(FLAT, gains), Ideal(FLAT, k));
      assert Ndcg(FLAT, expected, retrieved) > 1.0;
    }
  }
}
