/** The conformal score of a vote set (packages/ingest/conformal.py), in 28-digit decimal arithmetic. */
module Conformal {
  import opened Prelude
  import opened Lanes
  import opened Keys
  import opened Counting
  import opened Consensus

  /** One, in units of 10^-28. */
  const UNIT: int := 10_000_000_000_000_000_000_000_000_000

  lemma {:induction false} Regroup(den: nat, q: nat)
    ensures 2 * den * q == 2 * (den * q) && 2 * den * (q + 1) == 2 * (den * q) + 2 * den
  {
  }

  /** num/den to the nearest integer, ties to even: the default decimal context. */
  function HalfEven(num: nat, den: nat): (q: nat)
    requires den > 0
    ensures 2 * den * q <= 2 * num + den && 2 * num <= 2 * den * q + den
  {
    var q, r := num / den, num % den;
    assert num == den * q + r && r < den;
    assert 2 * den * q == 2 * (den * q) by { Regroup(den, q); }
    assert 2 * den * (q + 1) == 2 * (den * q) + 2 * den by { Regroup(den, q); }
    if 2 * r < den || (2 * r == den && q % 2 == 0) then q else q + 1
  }

  /** HalfEven is the only such rounding that also sends ties to even numbers. */
  lemma {:induction false} TiesToEven(num: nat, den: nat, q: nat)
    requires den > 0 && 2 * den * q <= 2 * num + den && 2 * num <= 2 * den * q + den
    requires 2 * num == 2 * den * q + den || 2 * num + den == 2 * den * q ==> q % 2 == 0
    ensures q == HalfEven(num, den)
  {
    var d, r := num / den, num % den;
    assert num == den * d + r;
    Neighbours(num, den, q, d, r);
    if q == d {
      LowTie(num, den, d, r);
    } else {
      HighTie(num, den, d, r);
    }
  }

  lemma {:induction false} Neighbours(num: nat, den: nat, q: nat, d: nat, r: nat)
    requires num == den * d + r && r < den
    requires 2 * den * q <= 2 * num + den && 2 * num <= 2 * den * q + den
    ensures q == d || q == d + 1
  {
    Regroup(den, q);
    if q < d {
      Monotone(den, q, d);
      assert false;
    } else if q > d + 1 {
      Next(den, d);
      Monotone(den, d + 1, q);
      assert false;
    }
  }

  lemma {:induction false} Next(den: nat, d: nat)
    ensures den * (d + 1) == den * d + den
  {
  }

  lemma {:induction false} LowTie(num: nat, den: nat, d: nat, r: nat)
    requires den > 0 && num == den * d + r && r < den && d == num / den && r == num % den
    requires 2 * num <= 2 * den * d + den && (2 * num == 2 * den * d + den ==> d % 2 == 0)
    ensures d == HalfEven(num, den)
  {
    Regroup(den, d);
  }

  lemma {:induction false} HighTie(num: nat, den: nat, d: nat, r: nat)
    requires den > 0 && num == den * d + r && r < den && d == num / den && r == num % den
    requires 2 * den * (d + 1) <= 2 * num + den && (2 * num + den == 2 * den * (d + 1) ==> (d + 1) % 2 == 0)
    ensures d + 1 == HalfEven(num, den)
  {
    Regroup(den, d);
  }

  /** Decimal(top) / Decimal(n).  With at most ten votes the quotient has no leading zero after the point. */
  function Quotient(top: nat, n: nat): nat
    requires 0 < n
  {
    HalfEven(top * UNIT, n)
  }

  /** A sum kept to 28 significant digits. */
  function Round28(x: nat): (y: nat)
    ensures x - 50 <= y <= x + 50
  {
    if x < UNIT then x
    else if x < 10 * UNIT then 10 * HalfEven(x, 10)
    else 100 * HalfEven(x, 100)
  }

  /** sum(totals, Decimal(0)), from left to right. */
  function Sum28(totals: seq<nat>): nat {
    if totals == [] then 0 else Round28(Sum28(totals[..|totals| - 1]) + totals[|totals| - 1])
  }

  function Sum(tops: seq<nat>): nat {
    if tops == [] then 0 else Sum(tops[..|tops| - 1]) + tops[|tops| - 1]
  }

  function Totals(tops: seq<nat>, n: nat): (totals: seq<nat>)
    requires 0 < n
    ensures |totals| == |tops| && forall i :: 0 <= i < |tops| ==> totals[i] == Quotient(tops[i], n)
  {
    seq(|tops|, i requires 0 <= i < |tops| => Quotient(tops[i], n))
  }

  /** total / 10 rounded half up to thousandths; dividing by ten is exact. */
  function Thousandths(total: nat): nat {
    (200 * total + UNIT) / (2 * UNIT)
  }

  /** The exact average S / (10 N), rounded half up to thousandths. */
  function ExactThousandths(s: nat, n: nat): nat
    requires 0 < n
  {
    (200 * s + n) / (2 * n)
  }

  /** `score` thousandths are less than half a thousandth away from the average s / (10 n). */
  predicate Nearest(score: nat, s: nat, n: nat) {
    2 * n * score < 200 * s + n && 200 * s < 2 * n * score + n
  }

  /** The exact score is the nearest one, and there is no other. */
  lemma {:induction false} ExactIsNearest(s: nat, n: nat)
    requires 1 <= n <= 5
    ensures Nearest(ExactThousandths(s, n), s, n)
    ensures forall score: nat :: Nearest(score, s, n) ==> score == ExactThousandths(s, n)
  {
    var q := ExactThousandths(s, n);
    assert 2 * n * q <= 200 * s + n < 2 * n * (q + 1) by {
      if n == 1 {} else if n == 2 {} else if n == 3 {} else if n == 4 {} else {}
    }
    NoTie(s, n, q);
    forall score: nat | Nearest(score, s, n) ensures score == q {
      if n == 1 {} else if n == 2 {} else if n == 3 {} else if n == 4 {} else {}
    }
  }

  /** Rounding errors stay far below the last digit that matters. */
  lemma {:induction false} SumError(tops: seq<nat>, n: nat)
    requires 1 <= n <= 5
    ensures -255 * |tops| <= n * Sum28(Totals(tops, n)) - UNIT * Sum(tops) <= 255 * |tops|
  {
    var totals := Totals(tops, n);
    forall i | 0 <= i < |tops| ensures Close(totals[i], tops[i], n) {
      QuotientError(tops[i], n);
    }
    SumErrorOf(tops, totals, n);
  }

  /** `q` is within three units of top / n. */
  predicate Close(q: nat, top: nat, n: nat) {
    -3 <= n * q - UNIT * top <= 3
  }

  lemma {:induction false} SumErrorOf(tops: seq<nat>, totals: seq<nat>, n: nat)
    requires 1 <= n <= 5 && |totals| == |tops| && forall i :: 0 <= i < |tops| ==> Close(totals[i], tops[i], n)
    ensures -255 * |tops| <= n * Sum28(totals) - UNIT * Sum(tops) <= 255 * |tops|
  {
    if tops != [] {
      var m := |tops| - 1;
      SumErrorOf(tops[..m], totals[..m], n);
      assert Close(totals[m], tops[m], n);
      AddError(Sum28(totals[..m]), Sum(tops[..m]), totals[m], tops[m], n, 255 * m);
    }
  }

  lemma {:induction false} AddError(a: nat, s: nat, q: nat, top: nat, n: nat, e: int)
    requires 1 <= n <= 5 && -e <= n * a - UNIT * s <= e && -3 <= n * q - UNIT * top <= 3
    ensures -e - 255 <= n * Round28(a + q) - UNIT * (s + top) <= e + 255
  {
    var d := Round28(a + q) - (a + q);
    assert n * Round28(a + q) == n * a + n * q + n * d;
    assert -250 <= n * d <= 250;
  }

  lemma {:induction false} QuotientError(top: nat, n: nat)
    requires 1 <= n <= 5
    ensures -3 <= n * Quotient(top, n) - UNIT * top <= 3
  {
    assert 2 * n * Quotient(top, n) == 2 * (n * Quotient(top, n));
  }

  /**
   The exact average is never within reach of a rounding boundary: 200 S + N is not a multiple of 2 N.
   */
  lemma {:induction false} NoTie(s: nat, n: nat, q: int)
    requires 1 <= n <= 5
    ensures 200 * s + n != 2 * n * q
  {
    if n == 2 {
      assert 2 * n * q == 4 * q;
    } else if n == 4 {
      assert 2 * n * q == 8 * q;
    } else if n == 1 {
      assert 2 * n * q == 2 * q;
    } else if n == 3 {
      assert 2 * n * q == 2 * (3 * q);
    } else {
      assert 2 * n * q == 2 * (5 * q);
    }
  }

  lemma {:induction false} Monotone(b: int, x: int, y: int)
    requires b > 0 && x < y
    ensures b * x + b <= b * y
  {
    var d := y - x - 1;
    assert b * y == b * x + b + b * d;
    assert b * d >= 0;
  }

  lemma {:induction false} FloorIs(a: int, b: int, q: int)
    requires b > 0 && b * q <= a < b * q + b
    ensures a / b == q
  {
    var d, r := a / b, a % b;
    assert a == b * d + r;
    if d < q {
      Monotone(b, d, q);
    } else if d > q {
      Monotone(b, q, d);
    }
  }

  /** A total within the accumulated error of the exact one rounds to the same thousandth. */
  lemma {:induction false} SameThousandth(total: nat, s: nat, n: nat)
    requires 1 <= n <= 5
    requires -2550 <= n * total - UNIT * s <= 2550
    ensures Thousandths(total) == ExactThousandths(s, n)
  {
    var q := ExactThousandths(s, n);
    NoTie(s, n, q);
    assert 2 * n * q < 200 * s + n < 2 * n * q + 2 * n by {
      var a, b := 200 * s + n, 2 * n;
      assert a == b * (a / b) + a % b;
    }
    Scale(total, s, n, q);
    FloorIs(200 * total + UNIT, 2 * UNIT, q);
  }

  lemma {:induction false} Scale(total: nat, s: nat, n: nat, q: int)
    requires 1 <= n <= 5
    requires -2550 <= n * total - UNIT * s <= 2550
    requires 2 * n * q < 200 * s + n < 2 * n * q + 2 * n
    ensures 2 * UNIT * q <= 200 * total + UNIT < 2 * UNIT * q + 2 * UNIT
  {
    if n == 1 {
    } else if n == 2 {
    } else if n == 3 {
    } else if n == 4 {
    } else {
    }
  }

  /**
   The whole decimal computation is exact to the thousandth: for up to five votes the running sum of
   rounded quotients gives the same score as the exact rational average.
   */
  lemma {:induction false} ScoreIsExact(tops: seq<nat>, n: nat)
    requires 1 <= n <= 5 && |tops| == |VOTED_FIELDS|
    ensures Thousandths(Sum28(Totals(tops, n))) == ExactThousandths(Sum(tops), n)
  {
    SumError(tops, n);
    SameThousandth(Sum28(Totals(tops, n)), Sum(tops), n);
  }

  /** The plain key of a field: `repr` of its value, lists in their own order. */
  function PlainTop(votes: seq<Vote>, f: Field): (n: nat)
    ensures n <= |votes| && (votes != [] ==> 1 <= n)
  {
    TopCount(KeysBy(votes, f, FieldValue))
  }

  function TopsBy<K(==)>(votes: seq<Vote>, key: KeyOf<K>, m: nat): (tops: seq<nat>)
    requires m <= |VOTED_FIELDS|
    ensures |tops| == m && forall i :: 0 <= i < m ==> tops[i] == TopCount(KeysBy(votes, VOTED_FIELDS[i], key))
  {
    if m == 0 then [] else TopsBy(votes, key, m - 1) + [TopCount(KeysBy(votes, VOTED_FIELDS[m - 1], key))]
  }

  /** S: the ten top counts added up. */
  function Agreement(votes: seq<Vote>): nat {
    Sum(TopsBy(votes, FieldValue, |VOTED_FIELDS|))
  }

  /** S is the sum of the plain top counts of the ten fields. */
  lemma {:induction false} AgreementIs(votes: seq<Vote>)
    ensures Agreement(votes) ==
              PlainTop(votes, OriginPort) + PlainTop(votes, DestinationPort) + PlainTop(votes, EquipmentType)
              + PlainTop(votes, CommodityCode) + PlainTop(votes, BaseRateUsd) + PlainTop(votes, TransitTimeDays)
              + PlainTop(votes, ValidityStart) + PlainTop(votes, ValidityEnd) + PlainTop(votes, Surcharges)
              + PlainTop(votes, SourceRowReference)
  {
    SumOfTops(votes, FieldValue);
  }

  function TopOf<K(==)>(votes: seq<Vote>, key: KeyOf<K>, f: Field): nat {
    TopCount(KeysBy(votes, f, key))
  }

  lemma {:induction false} SumOfTops<K>(votes: seq<Vote>, key: KeyOf<K>)
    ensures Sum(TopsBy(votes, key, |VOTED_FIELDS|)) ==
              TopOf(votes, key, OriginPort) + TopOf(votes, key, DestinationPort) + TopOf(votes, key, EquipmentType)
              + TopOf(votes, key, CommodityCode) + TopOf(votes, key, BaseRateUsd) + TopOf(votes, key, TransitTimeDays)
              + TopOf(votes, key, ValidityStart) + TopOf(votes, key, ValidityEnd) + TopOf(votes, key, Surcharges)
              + TopOf(votes, key, SourceRowReference)
  {
    var m := |VOTED_FIELDS|;
    var tops := TenTops(votes, key, m);
    SumOverFields(tops, f => TopOf(votes, key, f));
  }

  lemma {:induction false} SumOverFields(tops: seq<nat>, top: Field -> nat)
    requires |tops| == 10 && forall i :: 0 <= i < 10 ==> tops[i] == top(VOTED_FIELDS[i])
    ensures Sum(tops) ==
              top(OriginPort) + top(DestinationPort) + top(EquipmentType) + top(CommodityCode) + top(BaseRateUsd)
              + top(TransitTimeDays) + top(ValidityStart) + top(ValidityEnd) + top(Surcharges) + top(SourceRowReference)
  {
    SumOfTen(tops);
  }

  lemma {:induction false} TenTops<K>(votes: seq<Vote>, key: KeyOf<K>, m: nat) returns (tops: seq<nat>)
    requires m == |VOTED_FIELDS|
    ensures tops == TopsBy(votes, key, m) && |tops| == 10
    ensures forall i :: 0 <= i < 10 ==> tops[i] == TopOf(votes, key, VOTED_FIELDS[i])
  {
    tops := TopsBy(votes, key, m);
    forall i | 0 <= i < 10 ensures tops[i] == TopOf(votes, key, VOTED_FIELDS[i]) {
      TopAtBy(votes, key, m, i);
    }
  }

  lemma {:induction false} SumOfTen(tops: seq<nat>)
    requires |tops| == 10
    ensures Sum(tops) == tops[0] + tops[1] + tops[2] + tops[3] + tops[4] + tops[5] + tops[6] + tops[7] + tops[8] + tops[9]
  {
    SumOfFive(tops[..5]);
    SumSplit(tops[..5], tops[5..]);
    SumOfFive(tops[5..]);
    assert tops == tops[..5] + tops[5..];
  }

  lemma {:induction false} SumOfFive(five: seq<nat>)
    requires |five| == 5
    ensures Sum(five) == five[0] + five[1] + five[2] + five[3] + five[4]
  {
    SumSplit([five[0]], [five[1]]);
    SumSplit([five[0], five[1]], [five[2]]);
    SumSplit([five[0], five[1], five[2]], [five[3]]);
    SumSplit([five[0], five[1], five[2], five[3]], [five[4]]);
    assert [five[0]] + [five[1]] == [five[0], five[1]];
    assert [five[0], five[1]] + [five[2]] == [five[0], five[1], five[2]];
    assert [five[0], five[1], five[2]] + [five[3]] == [five[0], five[1], five[2], five[3]];
    assert [five[0], five[1], five[2], five[3]] + [five[4]] == five;
  }

  lemma {:induction false} SumSplit(a: seq<nat>, b: seq<nat>)
    ensures Sum(a + b) == Sum(a) + Sum(b)
  {
    if b == [] {
      assert a + b == a;
    } else {
      assert (a + b)[..|a + b| - 1] == a + b[..|b| - 1];
      SumSplit(a, b[..|b| - 1]);
    }
  }

  lemma {:induction false} TopsNext<K>(votes: seq<Vote>, key: KeyOf<K>, m: nat)
    requires m < |VOTED_FIELDS|
    ensures TopsBy(votes, key, m + 1) == TopsBy(votes, key, m) + [TopCount(KeysBy(votes, VOTED_FIELDS[m], key))]
  {
  }

  lemma {:induction false} TotalsAppend(tops: seq<nat>, top: nat, n: nat)
    requires 0 < n
    ensures Totals(tops + [top], n) == Totals(tops, n) + [Quotient(top, n)]
  {
  }

  /** The loop over the voted fields: each one's top count divided by the number of votes. */
  method FieldTotals<K(==,!new)>(votes: seq<Vote>, key: KeyOf<K>) returns (totals: seq<nat>)
    requires votes != []
    ensures totals == Totals(TopsBy(votes, key, |VOTED_FIELDS|), |votes|)
  {
    totals := [];
    for m := 0 to |VOTED_FIELDS|
      invariant totals == Totals(TopsBy(votes, key, m), |votes|)
    {
      var topKey, top, vote := MostCommon(KeysBy(votes, VOTED_FIELDS[m], key));
      TopsNext(votes, key, m);
      TotalsAppend(TopsBy(votes, key, m), top, |votes|);
      totals := totals + [Quotient(top, |votes|)];
    }
  }

  /** `_per_field_agreement`, in thousandths. */
  method PerFieldAgreement(votes: seq<Vote>) returns (raw: nat)
    ensures votes == [] ==> raw == 0
    ensures 1 <= |votes| <= 5 ==> raw == ExactThousandths(Agreement(votes), |votes|)
    ensures 1 <= |votes| <= 5 ==> Nearest(raw, Agreement(votes), |votes|)
  {
    if votes == [] {
      return 0;
    }
    var totals := FieldTotals(votes, FieldValue);
    raw := Thousandths(Sum28(totals));
    if |votes| <= 5 {
      ScoreIsExact(TopsBy(votes, FieldValue, |VOTED_FIELDS|), |votes|);
      ExactIsNearest(Agreement(votes), |votes|);
    }
  }

  /** `compute_conformal_score`: clamped into [0, 1]. */
  method ComputeScore(votes: seq<Vote>) returns (confidence: nat)
    ensures confidence <= 1000
    ensures 1 <= |votes| <= 5 ==> confidence == ExactThousandths(Agreement(votes), |votes|)
    ensures 1 <= |votes| <= 5 ==> Nearest(confidence, Agreement(votes), |votes|)
  {
    var raw := PerFieldAgreement(votes);
    confidence := if raw <= 1000 then raw else 1000;
    if 1 <= |votes| <= 5 {
      TopsBounds(votes);
      InUnitInterval(Agreement(votes), |votes|);
    }
  }

  lemma {:induction false} TopsBounds(votes: seq<Vote>)
    requires votes != []
    ensures 10 <= Agreement(votes) <= 10 * |votes|
  {
    SumBounds(TopsBy(votes, FieldValue, |VOTED_FIELDS|), 1, |votes|);
  }

  /** The locked 0.85 threshold, inclusive. */
  predicate Accepts(confidence: nat) {
    confidence >= 850
  }

  lemma {:induction false} SumBounds(tops: seq<nat>, lo: nat, hi: nat)
    requires forall i :: 0 <= i < |tops| ==> lo <= tops[i] <= hi
    ensures lo * |tops| <= Sum(tops) <= hi * |tops|
  {
    if tops != [] {
      SumBounds(tops[..|tops| - 1], lo, hi);
      assert lo * |tops| == lo * (|tops| - 1) + lo && hi * |tops| == hi * (|tops| - 1) + hi;
    }
  }

  /** The clamp never acts. */
  lemma {:induction false} InUnitInterval(s: nat, n: nat)
    requires 1 <= n <= 5 && s <= 10 * n
    ensures ExactThousandths(s, n) <= 1000
  {
    assert 200 * s + n <= 2000 * n + n;
  }

  /**
   The exact acceptance rule: with S the sum of the ten top counts over N votes, a lane is accepted if
   and only if 200 S >= 1699 N; for three votes, S >= 26.
   */
  lemma {:induction false} AcceptanceRule(s: nat, n: nat)
    requires 1 <= n <= 5
    ensures Accepts(ExactThousandths(s, n)) <==> 200 * s >= 1699 * n
    ensures n == 3 ==> (Accepts(ExactThousandths(s, n)) <==> s >= 26)
  {
    var a, b := 200 * s + n, 2 * n;
    var q := a / b;
    assert a == b * q + a % b;
    if q < 850 {
      Monotone(b, q, 850);
    } else if q > 850 {
      Monotone(b, 850, q);
    }
    assert b * 850 == 1700 * n;
  }

  lemma {:induction false} KeysAreRelabelled(votes: seq<Vote>, f: Field)
    ensures KeysBy(votes, f, FieldKey) == Map(KeysBy(votes, f, FieldValue), Canonical)
  {
  }

  /**
   The score counts with finer keys than the consensus: its top count for a field is never larger, and
   it is the same for every field but the surcharges.
   */
  lemma {:induction false} PlainRefinesCanonical(votes: seq<Vote>, f: Field)
    ensures PlainTop(votes, f) <= TopCount(KeysBy(votes, f, FieldKey))
    ensures f != Surcharges ==> PlainTop(votes, f) == TopCount(KeysBy(votes, f, FieldKey))
  {
    var vs := KeysBy(votes, f, FieldValue);
    KeysAreRelabelled(votes, f);
    if f != Surcharges {
      forall x, y | x in vs && y in vs && Canonical(x) == Canonical(y) ensures x == y {
        var i :| 0 <= i < |votes| && x == FieldValue(votes[i].lane, f);
        var j :| 0 <= j < |votes| && y == FieldValue(votes[j].lane, f);
        CanonicalIsExact(votes[i].lane, votes[j].lane, f);
      }
    }
    TopCoarser(vs, Canonical);
  }

  /** A field on which three votes reached a majority scores at least two, the surcharges at least one. */
  lemma {:induction false} CleanTops(id: string, votes: seq<Vote>, r: ConsensusResult, f: Field)
    requires |votes| == 3 && IsConsensus(id, votes, r) && r.lane.Some?
    ensures PlainTop(votes, f) >= if f == Surcharges then 1 else 2
  {
    PlainRefinesCanonical(votes, f);
    CleanMajority(id, votes, r, f, FieldKey);
  }

  lemma {:induction false} CleanMajority<K(!new)>(id: string, votes: seq<Vote>, r: ConsensusResult, f: Field,
                                                  key: KeyOf<K>)
    requires |votes| == 3 && IsConsensusBy(id, votes, r, key) && r.lane.Some?
    ensures TopCount(KeysBy(votes, f, key)) >= 2
  {
    TopDecides(KeysBy(votes, f, key));
  }

  /** A clean three-vote consensus always scores at least 0.633. */
  lemma {:induction false} CleanConsensusScore(id: string, votes: seq<Vote>, r: ConsensusResult)
    requires |votes| == 3 && IsConsensus(id, votes, r) && r.lane.Some?
    ensures Agreement(votes) >= 19
    ensures ExactThousandths(Agreement(votes), 3) >= 633
  {
    forall f ensures PlainTop(votes, f) >= if f == Surcharges then 1 else 2 {
      CleanTops(id, votes, r, f);
    }
    CleanAgreement(votes);
  }

  lemma {:induction false} CleanAgreement(votes: seq<Vote>)
    requires forall f :: PlainTop(votes, f) >= if f == Surcharges then 1 else 2
    ensures Agreement(votes) >= 19
  {
    var tops := TopsBy(votes, FieldValue, |VOTED_FIELDS|);
    forall i | 0 <= i < 10 ensures tops[i] >= if i == 8 then 1 else 2 {
      TopAt(votes, i);
      SurchargesEighth(i);
    }
    NineTwosAndAOne(tops);
  }

  lemma {:induction false} TopAt(votes: seq<Vote>, i: nat)
    requires i < |VOTED_FIELDS|
    ensures TopsBy(votes, FieldValue, |VOTED_FIELDS|)[i] == PlainTop(votes, VOTED_FIELDS[i])
  {
    TopAtBy(votes, FieldValue, |VOTED_FIELDS|, i);
  }

  lemma {:induction false} TopAtBy<K>(votes: seq<Vote>, key: KeyOf<K>, m: nat, i: nat)
    requires i < m <= |VOTED_FIELDS|
    ensures TopsBy(votes, key, m)[i] == TopCount(KeysBy(votes, VOTED_FIELDS[i], key))
  {
  }

  lemma {:induction false} SurchargesEighth(i: nat)
    requires i < |VOTED_FIELDS|
    ensures VOTED_FIELDS[i] == Surcharges <==> i == 8
  {
  }

  lemma {:induction false} NineTwosAndAOne(tops: seq<nat>)
    requires |tops| == 10 && forall i :: 0 <= i < 10 ==> tops[i] >= if i == 8 then 1 else 2
    ensures Sum(tops) >= 19
  {
    SumAtLeast(tops[..8], 2);
    assert tops[..9][..8] == tops[..8];
    assert Sum(tops[..9]) == Sum(tops[..8]) + tops[8];
  }

  lemma {:induction false} SumAtLeast(tops: seq<nat>, lo: nat)
    requires forall i :: 0 <= i < |tops| ==> lo <= tops[i]
    ensures lo * |tops| <= Sum(tops)
  {
    if tops != [] {
      SumAtLeast(tops[..|tops| - 1], lo);
      assert lo * |tops| == lo * (|tops| - 1) + lo;
    }
  }
}
