/** Counting equal ballots: top counts, majorities, and what permuting or relabelling ballots does to them. */
module Counting {
  import opened Prelude

  ghost predicate Majority<T>(s: seq<T>, x: T) {
    2 * Count(s, x) > |s|
  }

  ghost predicate HasMajority<T(!new)>(s: seq<T>) {
    exists x :: Majority(s, x)
  }

  /** The largest count in `s` of an element of `t`. */
  function MaxCount<T(==)>(s: seq<T>, t: seq<T>): (n: nat)
    ensures n <= |s|
    ensures forall i :: 0 <= i < |t| ==> Count(s, t[i]) <= n
    ensures t != [] ==> exists i :: 0 <= i < |t| && Count(s, t[i]) == n
  {
    if t == [] then 0
    else
      var rest, first := MaxCount(s, t[1..]), Count(s, t[0]);
      assert forall i :: 0 <= i < |t[1..]| ==> t[1..][i] == t[i + 1];
      if first >= rest then first else rest
  }

  /** `Counter(s).most_common(1)[0][1]`. */
  function TopCount<T(==)>(s: seq<T>): (n: nat)
    ensures n <= |s|
    ensures forall x :: x in s ==> Count(s, x) <= n
    ensures s != [] ==> 1 <= n && exists x :: x in s && Count(s, x) == n
  {
    MaxCount(s, s)
  }

  /** At most one value can hold a majority. */
  lemma {:induction false} MajorityUnique<T>(s: seq<T>, x: T, y: T)
    requires Majority(s, x) && Majority(s, y)
    ensures x == y
  {
    if x != y {
      CountDisjoint(s, x, y);
    }
  }

  /** The top count decides whether there is a majority. */
  lemma {:induction false} TopDecides<T(!new)>(s: seq<T>)
    ensures HasMajority(s) <==> 2 * TopCount(s) > |s|
  {
    if x :| Majority(s, x) {
      assert x in s;
    }
    if 2 * TopCount(s) > |s| {
      var x :| x in s && Count(s, x) == TopCount(s);
      assert Majority(s, x);
    }
  }

  function Map<A, B>(s: seq<A>, g: A -> B): (r: seq<B>)
    ensures |r| == |s| && forall i :: 0 <= i < |s| ==> r[i] == g(s[i])
  {
    seq(|s|, i requires 0 <= i < |s| => g(s[i]))
  }

  /** Merging labels can only raise a count. */
  lemma {:induction false} CountCoarser<A(!new), B>(s: seq<A>, g: A -> B, x: A)
    ensures Count(s, x) <= Count(Map(s, g), g(x))
    ensures (forall y :: y in s && g(y) == g(x) ==> y == x) ==> Count(s, x) == Count(Map(s, g), g(x))
  {
    if s != [] {
      CountCoarser(s[1..], g, x);
      assert Map(s, g)[1..] == Map(s[1..], g);
    }
  }

  /** A finer key never has a larger top count, and an injective relabelling keeps it. */
  lemma {:induction false} TopCoarser<A(!new), B(!new)>(s: seq<A>, g: A -> B)
    ensures TopCount(s) <= TopCount(Map(s, g))
    ensures (forall x, y :: x in s && y in s && g(x) == g(y) ==> x == y) ==> TopCount(s) == TopCount(Map(s, g))
  {
    if s != [] {
      var x :| x in s && Count(s, x) == TopCount(s);
      CountCoarser(s, g, x);
      assert Count(Map(s, g), g(x)) > 0;
      var k :| k in Map(s, g) && Count(Map(s, g), k) == TopCount(Map(s, g));
      var i :| 0 <= i < |s| && Map(s, g)[i] == k;
      CountCoarser(s, g, s[i]);
    }
  }

  /** Counts do not depend on the order of the ballots. */
  lemma {:induction false} CountPermuted<T>(s: seq<T>, t: seq<T>, x: T)
    requires multiset(s) == multiset(t)
    ensures Count(s, x) == Count(t, x) && |s| == |t|
  {
    CountIsMultiplicity(s, x);
    CountIsMultiplicity(t, x);
    assert |s| == |multiset(s)| && |t| == |multiset(t)|;
  }

  lemma {:induction false} TopPermuted<T(!new)>(s: seq<T>, t: seq<T>)
    requires multiset(s) == multiset(t)
    ensures TopCount(s) == TopCount(t) && (HasMajority(s) <==> HasMajority(t))
  {
    forall x ensures Count(s, x) == Count(t, x) && |s| == |t| {
      CountPermuted(s, t, x);
    }
    if s != [] {
      var x :| x in s && Count(s, x) == TopCount(s);
      var y :| y in t && Count(t, y) == TopCount(t);
    }
    TopDecides(s);
    TopDecides(t);
  }

  /** Taking one ballot out of the list takes its image out of the multiset. */
  lemma {:induction false} Remove<A, B>(s: seq<A>, j: nat, g: A -> B)
    requires j < |s|
    ensures multiset(Map(s, g)) == multiset(Map(s[..j] + s[j + 1..], g)) + multiset{g(s[j])}
  {
    var m := Map(s, g);
    assert m == m[..j] + [m[j]] + m[j + 1..];
    assert Map(s[..j] + s[j + 1..], g) == m[..j] + m[j + 1..];
  }

  lemma {:induction false} RemoveFirst<A, B>(s: seq<A>, g: A -> B)
    requires s != []
    ensures multiset(Map(s, g)) == multiset(Map(s[1..], g)) + multiset{g(s[0])}
  {
    Remove(s, 0, g);
    assert s[..0] + s[1..] == s[1..];
  }

  lemma {:induction false} Cancel<T>(a: multiset<T>, b: multiset<T>, x: T)
    requires a + multiset{x} == b + multiset{x}
    ensures a == b
  {
    assert a == a + multiset{x} - multiset{x};
  }

  lemma {:induction false} SameSize<A, B>(s: seq<A>, t: seq<A>, h: A -> B)
    requires multiset(Map(s, h)) == multiset(Map(t, h))
    ensures |s| == |t|
  {
    assert |Map(s, h)| == |multiset(Map(s, h))| && |Map(t, h)| == |multiset(Map(t, h))|;
  }

  lemma {:induction false} Partner<A, B>(s: seq<A>, t: seq<A>, h: A -> B) returns (j: nat)
    requires s != [] && multiset(Map(s, h)) == multiset(Map(t, h))
    ensures j < |t| && h(t[j]) == h(s[0])
  {
    assert Map(s, h)[0] in multiset(Map(t, h));
    j :| 0 <= j < |t| && Map(t, h)[j] == h(s[0]);
  }

  /** If `h` determines `g` on the elements, equal multisets under `h` are equal multisets under `g`. */
  lemma {:induction false} MapPermuted<A(!new), B(!new), C(!new)>(s: seq<A>, t: seq<A>, h: A -> B, g: A -> C)
    requires multiset(Map(s, h)) == multiset(Map(t, h))
    requires forall x, y :: h(x) == h(y) ==> g(x) == g(y)
    ensures multiset(Map(s, g)) == multiset(Map(t, g))
    decreases |s|
  {
    SameSize(s, t, h);
    if s == [] {
      assert Map(s, g) == Map(t, g);
    } else {
      var j := Partner(s, t, h);
      var rest := t[..j] + t[j + 1..];
      RemoveFirst(s, h);
      Remove(t, j, h);
      Cancel(multiset(Map(s[1..], h)), multiset(Map(rest, h)), h(s[0]));
      MapPermuted(s[1..], rest, h, g);
      RemoveFirst(s, g);
      Remove(t, j, g);
    }
  }
}
