/** Listings of finite sets (HKEYS, Python's `list(set)`) and sums over finite maps. */
module Collections {

  predicate NoDup<T(==)>(s: seq<T>) {
    forall i, j | 0 <= i < j < |s| :: s[i] != s[j]
  }

  /** `s` enumerates `elems`, each element once, in some order. */
  predicate Lists<T(==)>(s: seq<T>, elems: set<T>) {
    NoDup(s) && (set x | x in s) == elems
  }

  /** Python's `list.remove`: drop the first occurrence, if any. */
  function Without<T(==)>(s: seq<T>, x: T): (r: seq<T>)
    ensures x in s ==> |r| == |s| - 1
    ensures x !in s ==> r == s
  {
    if s == [] then [] else if s[0] == x then s[1..] else [s[0]] + Without(s[1..], x)
  }

  lemma {:induction false} WithoutLists<T>(s: seq<T>, x: T)
    requires NoDup(s)
    ensures NoDup(Without(s, x))
    ensures forall y :: y in Without(s, x) <==> y in s && y != x
  {
    if s != [] {
      assert s == [s[0]] + s[1..];
      WithoutLists(s[1..], x);
      forall y | y in s[1..] ensures y != s[0] {
        var i :| 0 <= i < |s[1..]| && s[1..][i] == y;
        assert s[i + 1] == y;
      }
      assert s[0] !in Without(s[1..], x);
    }
  }

  /** What stays keeps its order. */
  lemma {:induction false} WithoutSplit<T>(p: seq<T>, x: T, q: seq<T>)
    requires x !in p
    ensures Without(p + [x] + q, x) == p + q
    decreases p
  {
    if p == [] {
      assert ([] + [x] + q)[1..] == q;
    } else {
      assert (p + [x] + q)[1..] == p[1..] + [x] + q;
      WithoutSplit(p[1..], x, q);
    }
  }

  lemma ListsElems<T>(s: seq<T>, elems: set<T>)
    requires Lists(s, elems)
    ensures NoDup(s) && forall x :: x in s <==> x in elems
  {
    assert forall x :: x in s <==> x in (set y | y in s);
  }

  lemma AppendLists<T>(s: seq<T>, elems: set<T>, x: T)
    requires Lists(s, elems) && x !in elems
    ensures Lists(s + [x], elems + {x})
  {
    ListsElems(s, elems);
    assert forall y :: y in s + [x] <==> y in elems + {x};
  }

  lemma {:induction false} ListsSize<T>(s: seq<T>, elems: set<T>)
    requires Lists(s, elems)
    ensures |s| == |elems|
  {
    if s != [] {
      var x := s[|s| - 1];
      var init := s[..|s| - 1];
      assert s == init + [x];
      assert (set y | y in init) == elems - {x};
      ListsSize(init, elems - {x});
    }
  }

  /** The first `i` elements of a listing. */
  function Firsts<T(==)>(s: seq<T>, i: nat): set<T>
    requires i <= |s|
  {
    set x | x in s[..i]
  }

  lemma FirstsMore<T>(s: seq<T>, i: nat)
    requires i < |s|
    ensures Firsts(s, i + 1) == Firsts(s, i) + {s[i]}
    ensures NoDup(s) ==> s[i] !in Firsts(s, i)
  {
    assert s[..i + 1] == s[..i] + [s[i]];
  }

  lemma FirstsAll<T>(s: seq<T>)
    ensures Firsts(s, 0) == {} && Firsts(s, |s|) == set x | x in s
  {
    assert s[..|s|] == s;
  }

  /** Any listing of a set, one arbitrary element after another. */
  method ListOf<T(==)>(elems: set<T>) returns (s: seq<T>)
    ensures Lists(s, elems)
  {
    s := [];
    var rest := elems;
    while rest != {}
      invariant NoDup(s)
      invariant rest <= elems
      invariant (set x | x in s) == elems - rest
    {
      var x :| x in rest;
      assert x !in s by { assert x !in elems - rest; }
      assert (set y | y in s + [x]) == (set y | y in s) + {x};
      s := s + [x];
      rest := rest - {x};
    }
  }

  /** The sum of the values of a map. */
  ghost function Sum<K>(m: map<K, nat>): nat
    decreases |m|
  {
    if m == map[] then 0 else
      var k :| k in m;
      m[k] + Sum(m - {k})
  }

  lemma {:induction false} SumSplit<K>(m: map<K, nat>, k: K)
    requires k in m
    ensures Sum(m) == m[k] + Sum(m - {k})
    decreases |m|
  {
    var j :| j in m && Sum(m) == m[j] + Sum(m - {j});
    if j != k {
      SumSplit(m - {j}, k);
      SumSplit(m - {k}, j);
      assert m - {j} - {k} == m - {k} - {j};
    }
  }

  lemma SumPut<K>(m: map<K, nat>, k: K, v: nat)
    ensures Sum(m[k := v]) == v + Sum(m - {k})
  {
    SumSplit(m[k := v], k);
    assert m[k := v] - {k} == m - {k};
  }

  lemma SumDrop<K>(m: map<K, nat>, k: K)
    ensures Sum(m) == (if k in m then m[k] else 0) + Sum(m - {k})
  {
    if k in m {
      SumSplit(m, k);
    } else {
      assert m - {k} == m;
    }
  }
}
