/** Lexicographic order, and Python's `sorted` over it. */
module Ordering {
  import opened Prelude

  /** Lexicographic order on sequences of code points. */
  predicate Leq(a: seq<int>, b: seq<int>) {
    a == [] || (b != [] && (a[0] < b[0] || (a[0] == b[0] && Leq(a[1..], b[1..]))))
  }

  lemma {:induction false} Total(a: seq<int>, b: seq<int>)
    ensures Leq(a, b) || Leq(b, a)
    ensures Leq(a, a)
    decreases |a| + |b|
  {
    if a != [] && b != [] {
      Total(a[1..], b[1..]);
    }
    if a != [] {
      Total(a[1..], []);
    }
  }

  lemma {:induction false} Antisymmetric(a: seq<int>, b: seq<int>)
    requires Leq(a, b) && Leq(b, a)
    ensures a == b
  {
    if a != [] {
      Antisymmetric(a[1..], b[1..]);
    }
  }

  lemma {:induction false} Transitive(a: seq<int>, b: seq<int>, c: seq<int>)
    requires Leq(a, b) && Leq(b, c)
    ensures Leq(a, c)
  {
    if a != [] && a[0] == b[0] == c[0] {
      Transitive(a[1..], b[1..], c[1..]);
    }
  }

  ghost predicate SortedBy<T>(s: seq<T>, key: T -> seq<int>) {
    forall i, j :: 0 <= i < j < |s| ==> Leq(key(s[i]), key(s[j]))
  }

  function Insert<T>(x: T, s: seq<T>, key: T -> seq<int>): (r: seq<T>)
    requires SortedBy(s, key)
    ensures multiset(r) == multiset(s) + multiset{x}
    ensures SortedBy(r, key)
  {
    if s == [] then [x]
    else
      Total(key(x), key(s[0]));
      if Leq(key(x), key(s[0])) then
        InsertBefore(x, s, key);
        [x] + s
      else
        var rest := Insert(x, s[1..], key);
        InsertAfter(x, s, rest, key);
        [s[0]] + rest
  }

  lemma {:induction false} InsertBefore<T>(x: T, s: seq<T>, key: T -> seq<int>)
    requires SortedBy(s, key) && s != [] && Leq(key(x), key(s[0]))
    ensures SortedBy([x] + s, key)
  {
    forall j | 0 <= j < |s| ensures Leq(key(x), key(s[j])) {
      if j > 0 {
        Transitive(key(x), key(s[0]), key(s[j]));
      }
    }
  }

  lemma {:induction false} InsertAfter<T>(x: T, s: seq<T>, rest: seq<T>, key: T -> seq<int>)
    requires SortedBy(s, key) && s != [] && Leq(key(s[0]), key(x))
    requires multiset(rest) == multiset(s[1..]) + multiset{x} && SortedBy(rest, key)
    ensures SortedBy([s[0]] + rest, key)
    ensures multiset([s[0]] + rest) == multiset(s) + multiset{x}
  {
    assert s == [s[0]] + s[1..];
    forall j | 0 <= j < |rest| ensures Leq(key(s[0]), key(rest[j])) {
      assert rest[j] in multiset(rest);
      if rest[j] != x {
        assert rest[j] in multiset(s[1..]) && rest[j] in s[1..];
        var i :| 0 <= i < |s[1..]| && s[1..][i] == rest[j];
        assert s[i + 1] == rest[j];
      }
    }
  }

  /** Python's `sorted`, by the order of the keys. */
  function SortBy<T>(s: seq<T>, key: T -> seq<int>): (r: seq<T>)
    ensures multiset(r) == multiset(s)
    ensures SortedBy(r, key)
    ensures |r| == |s|
  {
    if s == [] then []
    else
      assert s == [s[0]] + s[1..];
      var r := Insert(s[0], SortBy(s[1..], key), key);
      assert |r| == |multiset(r)| && |s| == |multiset(s)|;
      r
  }

  ghost predicate Sorted(s: seq<seq<int>>) {
    forall i, j :: 0 <= i < j < |s| ==> Leq(s[i], s[j])
  }

  /** `sorted` on strings. */
  function Sort(s: seq<seq<int>>): (r: seq<seq<int>>)
    ensures multiset(r) == multiset(s)
    ensures Sorted(r)
  {
    SortBy(s, (k: seq<int>) => k)
  }

  /** The first element of a sorted list is a least one. */
  lemma {:induction false} HeadIsLeast(a: seq<seq<int>>, x: seq<int>)
    requires Sorted(a) && x in multiset(a)
    ensures a != [] && Leq(a[0], x)
  {
    var j :| 0 <= j < |a| && a[j] == x;
    Total(x, x);
  }

  lemma {:induction false} SameHead(a: seq<seq<int>>, b: seq<seq<int>>)
    requires Sorted(a) && Sorted(b) && multiset(a) == multiset(b) && a != []
    ensures b != [] && a[0] == b[0]
  {
    assert a[0] in multiset(a);
    HeadIsLeast(b, a[0]);
    assert b[0] in multiset(b);
    HeadIsLeast(a, b[0]);
    Antisymmetric(a[0], b[0]);
  }

  lemma {:induction false} SameTail<T>(a: seq<T>, b: seq<T>)
    requires a != [] && b != [] && a[0] == b[0] && multiset(a) == multiset(b)
    ensures multiset(a[1..]) == multiset(b[1..])
  {
    assert a == [a[0]] + a[1..] && b == [b[0]] + b[1..];
    assert multiset(a) == multiset{a[0]} + multiset(a[1..]);
    assert multiset(b) == multiset{b[0]} + multiset(b[1..]);
    assert multiset(a[1..]) == multiset(a) - multiset{a[0]};
  }

  /** A sorted list is determined by its elements. */
  lemma {:induction false} SortedUnique(a: seq<seq<int>>, b: seq<seq<int>>)
    requires Sorted(a) && Sorted(b) && multiset(a) == multiset(b)
    ensures a == b
  {
    if a == [] {
      assert |multiset(b)| == 0;
    } else {
      SameHead(a, b);
      SameTail(a, b);
      SortedUnique(a[1..], b[1..]);
      assert a == [a[0]] + a[1..] && b == [b[0]] + b[1..];
    }
  }

  /** Sorting forgets the order of its input, and nothing else. */
  lemma {:induction false} SortForgetsOrder(s: seq<seq<int>>, t: seq<seq<int>>)
    ensures Sort(s) == Sort(t) <==> multiset(s) == multiset(t)
  {
    if multiset(s) == multiset(t) {
      SortedUnique(Sort(s), Sort(t));
    }
  }

  /** A string as code points. */
  function Chars(s: string): (k: seq<int>)
    ensures |k| == |s| && forall i :: 0 <= i < |s| ==> k[i] == s[i] as int
  {
    seq(|s|, i requires 0 <= i < |s| => s[i] as int)
  }

  lemma {:induction false} CharsInjective(s: string, t: string)
    requires Chars(s) == Chars(t)
    ensures s == t
  {
    assert |s| == |t|;
    forall i | 0 <= i < |s| ensures s[i] == t[i] {
      assert Chars(s)[i] == Chars(t)[i];
    }
  }

  /** A (sheet, row) tuple as one key: the separator sorts before every character. */
  function RowKey(sheet: string, row: int): seq<int> {
    Chars(sheet) + [-1, row]
  }

  /** Python's order on (str, int) tuples. */
  predicate TupleLeq(s: string, r: int, t: string, q: int) {
    if s == t then r <= q else Leq(Chars(s), Chars(t))
  }

  lemma {:induction false} RowKeyOrder(s: string, r: int, t: string, q: int)
    ensures Leq(RowKey(s, r), RowKey(t, q)) <==> TupleLeq(s, r, t, q)
    ensures RowKey(s, r) == RowKey(t, q) ==> s == t && r == q
    decreases |s|
  {
    var a, b := RowKey(s, r), RowKey(t, q);
    if s == [] && t == [] {
      assert a == [-1, r] && b == [-1, q];
      assert a[1..] == [r] && b[1..] == [q];
      assert Leq([r], [q]) <==> r <= q by {
        assert [r][1..] == [] && [q][1..] == [];
        assert Leq([], []);
      }
    } else if s == [] {
      assert a[0] == -1 && b[0] == t[0] as int;
      assert Chars(s) == [];
    } else if t == [] {
      assert b[0] == -1 && a[0] == s[0] as int;
      assert |Chars(s)| > 0 && Chars(t) == [];
    } else {
      assert a[1..] == RowKey(s[1..], r) && b[1..] == RowKey(t[1..], q);
      assert Chars(s)[1..] == Chars(s[1..]) && Chars(t)[1..] == Chars(t[1..]);
      assert s == [s[0]] + s[1..] && t == [t[0]] + t[1..];
      RowKeyOrder(s[1..], r, t[1..], q);
    }
  }

  function RowKeyOf(row: (string, nat)): seq<int> {
    RowKey(row.0, row.1)
  }

  /** Distinct rows sorted as tuples are strictly increasing. */
  lemma {:induction false} SortedRows(rows: seq<(string, nat)>)
    requires NoDup(rows)
    ensures var sorted := SortBy(rows, RowKeyOf);
            && NoDup(sorted) && (forall x :: x in sorted <==> x in rows)
            && forall i, j :: 0 <= i < j < |sorted| ==>
                 TupleLeq(sorted[i].0, sorted[i].1, sorted[j].0, sorted[j].1) && sorted[i] != sorted[j]
  {
    var sorted := SortBy(rows, RowKeyOf);
    assert forall x :: x in sorted <==> x in multiset(sorted);
    assert forall x :: x in rows <==> x in multiset(rows);
    forall i, j | 0 <= i < j < |sorted|
      ensures TupleLeq(sorted[i].0, sorted[i].1, sorted[j].0, sorted[j].1) && sorted[i] != sorted[j]
    {
      RowKeyOrder(sorted[i].0, sorted[i].1, sorted[j].0, sorted[j].1);
      if sorted[i] == sorted[j] {
        TwiceIsTwo(sorted, i, j);
        OnceIsOne(rows, sorted[i]);
      }
    }
  }

  lemma {:induction false} TwiceIsTwo<T>(s: seq<T>, i: nat, j: nat)
    requires i < j < |s| && s[i] == s[j]
    ensures multiset(s)[s[i]] >= 2
  {
    assert s == s[..j] + [s[j]] + s[j + 1..];
    assert s[..j][i] == s[i] && s[i] in multiset(s[..j]);
  }

  lemma {:induction false} OnceIsOne<T>(s: seq<T>, x: T)
    requires NoDup(s)
    ensures multiset(s)[x] <= 1
  {
    if s != [] {
      OnceIsOne(s[1..], x);
      assert s == [s[0]] + s[1..];
      if s[0] == x {
        assert x !in s[1..];
      }
    }
  }
}
