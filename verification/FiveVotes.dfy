/**
 Majorities of three old and two new votes on one field: which two new votes reach one, and when two
 different triples of old votes are decided alike by every pair of new ones.
 */
module FiveVotes {
  import opened Prelude
  import opened Counting

  predicate Unanimous<K(==)>(ks: seq<K>)
    requires |ks| == 3
  {
    ks[0] == ks[1] == ks[2]
  }

  predicate AllDifferent<K(==)>(ks: seq<K>)
    requires |ks| == 3
  {
    ks[0] != ks[1] && ks[0] != ks[2] && ks[1] != ks[2]
  }

  /** Both unanimous, on whatever value, or the same votes in some order. */
  predicate Interchangeable<K(==)>(ks: seq<K>, ks': seq<K>)
    requires |ks| == 3 && |ks'| == 3
  {
    (Unanimous(ks) && Unanimous(ks')) || multiset(ks) == multiset(ks')
  }

  /** What a majority of five needs from the two new votes, by the three old ones. */
  predicate Carries<K(==)>(ks: seq<K>, a: K, b: K)
    requires |ks| == 3
  {
    || Unanimous(ks)
    || (ks[0] == ks[1] && (a == ks[0] || b == ks[0]))
    || (ks[0] == ks[2] && (a == ks[0] || b == ks[0]))
    || (ks[1] == ks[2] && (a == ks[1] || b == ks[1]))
    || (a == b && a in ks)
  }

  function One(b: bool): nat {
    if b then 1 else 0
  }

  lemma {:induction false} CountFive<K>(ks: seq<K>, a: K, b: K, x: K)
    requires |ks| == 3
    ensures Count(ks + [a, b], x) == One(ks[0] == x) + One(ks[1] == x) + One(ks[2] == x) + One(a == x) + One(b == x)
  {
    CountAppend(ks, [a, b], x);
    assert ks == [ks[0]] + ([ks[1]] + ([ks[2]] + []));
    CountAppend([ks[0]], [ks[1]] + ([ks[2]] + []), x);
    CountAppend([ks[1]], [ks[2]] + [], x);
    assert [a, b] == [a] + [b];
    CountAppend([a], [b], x);
    assert Count([ks[0]], x) == One(ks[0] == x) && Count([ks[1]], x) == One(ks[1] == x) && Count([ks[2]], x) == One(ks[2] == x);
  }

  lemma {:induction false} MajorityOfFive<K(!new)>(ks: seq<K>, a: K, b: K)
    requires |ks| == 3
    ensures HasMajority(ks + [a, b]) <==> Carries(ks, a, b)
  {
    if Carries(ks, a, b) {
      var x := if ks[0] == ks[1] || ks[0] == ks[2] then (if Unanimous(ks) || a == ks[0] || b == ks[0] then ks[0] else a)
               else if ks[1] == ks[2] && (a == ks[1] || b == ks[1]) then ks[1] else a;
      CountFive(ks, a, b, x);
      assert Majority(ks + [a, b], x);
    }
    if x :| Majority(ks + [a, b], x) {
      CountFive(ks, a, b, x);
    }
  }

  /** Interchangeable triples are decided alike by any two new votes. */
  lemma {:induction false} DecidedAlike<K(!new)>(ks: seq<K>, ks': seq<K>, a: K, b: K)
    requires |ks| == 3 && |ks'| == 3 && Interchangeable(ks, ks')
    ensures HasMajority(ks + [a, b]) <==> HasMajority(ks' + [a, b])
  {
    if Unanimous(ks) && Unanimous(ks') {
      MajorityOfFive(ks, a, b);
      MajorityOfFive(ks', a, b);
    } else {
      assert multiset(ks + [a, b]) == multiset(ks) + multiset([a, b]) == multiset(ks' + [a, b]);
      TopPermuted(ks + [a, b], ks' + [a, b]);
    }
  }

  /** Two against one: the value held twice, and the other. */
  predicate Split<K(==)>(ks: seq<K>, x: K, y: K)
    requires |ks| == 3
  {
    x != y && ((ks[0] == x && ks[1] == x && ks[2] == y) || (ks[0] == x && ks[1] == y && ks[2] == x)
               || (ks[0] == y && ks[1] == x && ks[2] == x))
  }

  lemma {:induction false} SplitOf<K>(ks: seq<K>) returns (x: K, y: K)
    requires |ks| == 3 && !Unanimous(ks) && !AllDifferent(ks)
    ensures Split(ks, x, y)
  {
    if ks[0] == ks[1] {
      x, y := ks[0], ks[2];
    } else if ks[0] == ks[2] {
      x, y := ks[0], ks[1];
    } else {
      x, y := ks[1], ks[0];
    }
  }

  lemma {:induction false} SplitBag<K>(ks: seq<K>, x: K, y: K)
    requires |ks| == 3 && Split(ks, x, y)
    ensures multiset(ks) == multiset{x, x, y}
  {
    assert ks == [ks[0], ks[1], ks[2]];
  }

  /** A value outside a pair, among three different ones. */
  function Outside<K(==)>(us: seq<K>, x: K, y: K): (u: K)
    requires |us| == 3 && AllDifferent(us)
    ensures u in us && u != x && u != y
  {
    if us[0] != x && us[0] != y then us[0] else if us[1] != x && us[1] != y then us[1] else us[2]
  }

  lemma {:induction false} Bag<K>(ks: seq<K>)
    requires |ks| == 3
    ensures multiset(ks) == multiset{ks[0], ks[1], ks[2]}
  {
    assert ks == [ks[0], ks[1], ks[2]];
  }

  lemma {:induction false} SameThree<K>(ks: seq<K>, ks': seq<K>)
    requires |ks| == 3 && |ks'| == 3 && AllDifferent(ks) && ks[0] in ks' && ks[1] in ks' && ks[2] in ks'
    ensures multiset(ks) == multiset(ks')
  {
    var a :| 0 <= a < 3 && ks'[a] == ks[0];
    var b :| 0 <= b < 3 && ks'[b] == ks[1];
    var c :| 0 <= c < 3 && ks'[c] == ks[2];
    Bag(ks);
    Bag(ks');
    assert multiset{ks'[a], ks'[b], ks'[c]} == multiset{ks'[0], ks'[1], ks'[2]};
  }

  /** Of two triples of different values that are not permutations, one holds a value the other does not. */
  lemma {:induction false} Stranger<K>(ks: seq<K>, ks': seq<K>) returns (p: K)
    requires |ks| == 3 && |ks'| == 3 && AllDifferent(ks) && multiset(ks) != multiset(ks')
    ensures p in ks && p !in ks'
  {
    if ks[0] in ks' && ks[1] in ks' && ks[2] in ks' {
      SameThree(ks, ks');
    }
    p := if ks[0] !in ks' then ks[0] else if ks[1] !in ks' then ks[1] else ks[2];
  }

  /** Two splits that differ: a pair of new votes that carries exactly one of them. */
  lemma {:induction false} TellSplits<K>(ks: seq<K>, ks': seq<K>, us: seq<K>, x: K, y: K, x': K, y': K)
    returns (a: K, b: K)
    requires |ks| == 3 && |ks'| == 3 && |us| == 3 && AllDifferent(us)
    requires Split(ks, x, y) && Split(ks', x', y') && multiset(ks) != multiset(ks')
    ensures Carries(ks, a, b) != Carries(ks', a, b)
    ensures a in ks + ks' + us && b in ks + ks' + us
  {
    SplitBag(ks, x, y);
    SplitBag(ks', x', y');
    if x == x' {
      a, b := y, y;
    } else if x != y' {
      a, b := x, x;
    } else if x' != y {
      a, b := x', x';
    } else {
      a, b := x, Outside(us, x, y);
    }
  }

  /** Triples that are not interchangeable are told apart by two new votes, old values or a new one. */
  lemma {:induction false} TellingPair<K>(ks: seq<K>, ks': seq<K>, us: seq<K>) returns (a: K, b: K)
    requires |ks| == 3 && |ks'| == 3 && |us| == 3 && AllDifferent(us) && !Interchangeable(ks, ks')
    ensures Carries(ks, a, b) != Carries(ks', a, b)
    ensures a in ks + ks' + us && b in ks + ks' + us
  {
    if Unanimous(ks) || (!Unanimous(ks') && AllDifferent(ks)) {
      a, b := TellingOne(ks, ks', us);
    } else if Unanimous(ks') || AllDifferent(ks') {
      a, b := TellingOne(ks', ks, us);
    } else {
      var x, y := SplitOf(ks);
      var x', y' := SplitOf(ks');
      a, b := TellSplits(ks, ks', us, x, y, x', y');
    }
  }

  lemma {:induction false} TellingOne<K>(ks: seq<K>, ks': seq<K>, us: seq<K>) returns (a: K, b: K)
    requires |ks| == 3 && |ks'| == 3 && |us| == 3 && AllDifferent(us) && !Interchangeable(ks, ks')
    requires Unanimous(ks) || (!Unanimous(ks') && AllDifferent(ks))
    ensures Carries(ks, a, b) != Carries(ks', a, b)
    ensures a in ks + ks' + us && b in ks + ks' + us
  {
    if AllDifferent(ks') {
      if Unanimous(ks) {
        a, b := ks'[0], ks'[1];
      } else {
        a := Stranger(ks, ks');
        b := a;
      }
    } else {
      var x, y := SplitOf(ks');
      if Unanimous(ks) {
        a, b := y, Outside(us, x, y);
      } else {
        a, b := x, y;
      }
    }
  }
}
