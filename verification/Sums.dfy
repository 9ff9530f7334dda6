// Sums over sequences, and sorting by an integer key.
module Sums {

  function Sum<T>(f: T -> int, s: seq<T>): int {
    if s == [] then 0 else Sum(f, s[..|s| - 1]) + f(s[|s| - 1])
  }

  lemma SumSnoc<T>(f: T -> int, s: seq<T>, x: T)
    ensures Sum(f, s + [x]) == Sum(f, s) + f(x)
  {
    assert (s + [x])[..|s|] == s;
  }

  lemma SumNext<T>(f: T -> int, s: seq<T>, i: nat)
    requires i < |s|
    ensures Sum(f, s[..i + 1]) == Sum(f, s[..i]) + f(s[i])
  {
    assert s[..i + 1][..i] == s[..i];
  }

  lemma {:induction false} SumConcat<T>(f: T -> int, s: seq<T>, t: seq<T>)
    ensures Sum(f, s + t) == Sum(f, s) + Sum(f, t)
  {
    if t == [] {
      assert s + t == s;
    } else {
      assert (s + t)[..|s + t| - 1] == s + t[..|t| - 1];
      SumConcat(f, s, t[..|t| - 1]);
    }
  }

  lemma SumHead<T>(f: T -> int, s: seq<T>)
    requires s != []
    ensures Sum(f, s) == f(s[0]) + Sum(f, s[1..])
  {
    assert s == [s[0]] + s[1..];
    assert [s[0]][..0] == [];
    SumConcat(f, [s[0]], s[1..]);
  }

  // Removing one element from the middle.
  lemma SumWithout<T>(f: T -> int, s: seq<T>, i: nat)
    requires i < |s|
    ensures Sum(f, s) == f(s[i]) + Sum(f, s[..i] + s[i + 1..])
    ensures multiset(s) == multiset(s[..i] + s[i + 1..]) + multiset{s[i]}
  {
    assert s == s[..i] + s[i..];
    SumConcat(f, s[..i], s[i..]);
    SumHead(f, s[i..]);
    assert s[i..][1..] == s[i + 1..];
    SumConcat(f, s[..i], s[i + 1..]);
    MultisetWithout(s, i);
  }

  lemma MultisetWithout<T>(s: seq<T>, i: nat)
    requires i < |s|
    ensures multiset(s) == multiset(s[..i] + s[i + 1..]) + multiset{s[i]}
  {
    var a, x, b := s[..i], [s[i]], s[i + 1..];
    assert s == a + x + b;
    assert multiset(a + x + b) == multiset(a) + multiset(x) + multiset(b);
  }

  // ---------- Sorting ----------

  ghost predicate Ascending<T>(key: T -> int, s: seq<T>) {
    forall i, j :: 0 <= i < j < |s| ==> key(s[i]) <= key(s[j])
  }

  function Insert<T>(key: T -> int, x: T, s: seq<T>): (r: seq<T>)
    requires Ascending(key, s)
    ensures Ascending(key, r) && multiset(r) == multiset(s) + multiset{x}
    ensures forall y :: y in r ==> y == x || y in s
  {
    if s == [] || key(x) <= key(s[0]) then [x] + s
    else
      var tail := Insert(key, x, s[1..]);
      InsertBehind(key, x, s, tail);
      [s[0]] + tail
  }

  lemma InsertBehind<T>(key: T -> int, x: T, s: seq<T>, tail: seq<T>)
    requires Ascending(key, s) && s != [] && key(s[0]) < key(x)
    requires Ascending(key, tail) && multiset(tail) == multiset(s[1..]) + multiset{x}
    requires forall y :: y in tail ==> y == x || y in s[1..]
    ensures Ascending(key, [s[0]] + tail) && multiset([s[0]] + tail) == multiset(s) + multiset{x}
  {
    assert s == [s[0]] + s[1..];
    forall i | 0 <= i < |tail| ensures key(s[0]) <= key(tail[i]) {
      assert tail[i] in tail;
    }
  }

  function Sorted<T>(key: T -> int, s: seq<T>): (r: seq<T>)
    ensures Ascending(key, r) && multiset(r) == multiset(s) && |r| == |s|
  {
    if s == [] then [] else
    assert s == s[..|s| - 1] + [s[|s| - 1]];
    var r := Insert(key, s[|s| - 1], Sorted(key, s[..|s| - 1]));
    assert |r| == |multiset(r)| == |multiset(s)|;
    r
  }

  // sort.Slice: the order of equal keys is not promised.
  method SortSlice<T>(a: array<T>, key: T -> int)
    modifies a
    ensures Ascending(key, a[..]) && multiset(a[..]) == multiset(old(a[..]))
  {
    var s := Sorted(key, a[..]);
    forall i | 0 <= i < a.Length {
      a[i] := s[i];
    }
    assert a[..] == s;
  }

  // ---------- The largest sums ----------

  lemma {:induction false} SumDominated<T>(f: T -> int, s: seq<T>, t: seq<T>)
    requires |s| == |t| && forall i :: 0 <= i < |s| ==> f(s[i]) <= f(t[i])
    ensures Sum(f, s) <= Sum(f, t)
  {
    if s != [] {
      SumDominated(f, s[..|s| - 1], t[..|t| - 1]);
    }
  }

  lemma SubsetSize<T>(s: seq<T>, d: seq<T>)
    requires multiset(s) <= multiset(d)
    ensures |s| <= |d|
  {
    assert multiset(d) == multiset(s) + (multiset(d) - multiset(s));
    assert |multiset(s)| == |s| && |multiset(d)| == |d|;
  }

  lemma CancelOne<T>(a: multiset<T>, b: multiset<T>, x: T)
    requires a + multiset{x} <= b + multiset{x}
    ensures a <= b
  {
    forall y ensures a[y] <= b[y] {
      assert (a + multiset{x})[y] <= (b + multiset{x})[y];
    }
  }

  // No k elements of a list in descending order add up to more than the first k.
  lemma {:induction false} FirstAreLargest<T>(f: T -> int, d: seq<T>, s: seq<T>)
    requires forall i, j :: 0 <= i < j < |d| ==> f(d[i]) >= f(d[j])
    requires multiset(s) <= multiset(d)
    ensures |s| <= |d| && Sum(f, s) <= Sum(f, d[..|s|])
    decreases |d|
  {
    SubsetSize(s, d);
    if s != [] {
      if d[0] in s {
        var s' := WithoutFirst(f, d, s);
        FirstAreLargest(f, d[1..], s');
        FirstThenRest(f, d, |s|);
      } else {
        FirstUnused(d, s);
        FirstAreLargest(f, d[1..], s);
        SumDominated(f, d[1..][..|s|], d[..|s|]);
      }
    }
  }

  lemma FirstUnused<T>(d: seq<T>, s: seq<T>)
    requires d != [] && d[0] !in s && multiset(s) <= multiset(d)
    ensures multiset(s) <= multiset(d[1..]) && |s| <= |d[1..]|
  {
    assert d == [d[0]] + d[1..];
    SubsetSize(s, d[1..]);
  }

  lemma WithoutFirst<T>(f: T -> int, d: seq<T>, s: seq<T>) returns (s': seq<T>)
    requires d != [] && d[0] in s && multiset(s) <= multiset(d)
    ensures multiset(s') <= multiset(d[1..]) && |s'| == |s| - 1 && Sum(f, s) == f(d[0]) + Sum(f, s')
  {
    var i :| 0 <= i < |s| && s[i] == d[0];
    s' := s[..i] + s[i + 1..];
    SumWithout(f, s, i);
    assert d == [d[0]] + d[1..];
    CancelOne(multiset(s'), multiset(d[1..]), d[0]);
  }

  lemma FirstThenRest<T>(f: T -> int, d: seq<T>, k: nat)
    requires 0 < k <= |d|
    ensures Sum(f, d[..k]) == f(d[0]) + Sum(f, d[1..][..k - 1])
  {
    SumHead(f, d[..k]);
    assert d[..k][1..] == d[1..][..k - 1];
  }

  // ---------- Lists without repetition ----------

  ghost predicate DistinctKeys<T(!new), K>(key: T -> K, s: seq<T>) {
    forall i, j :: 0 <= i < j < |s| ==> key(s[i]) != key(s[j])
  }

  lemma {:induction false} AtMostOnce<T(!new), K>(key: T -> K, pool: seq<T>, x: T)
    requires DistinctKeys(key, pool)
    ensures multiset(pool)[x] <= 1
  {
    if pool != [] {
      var rest := pool[..|pool| - 1];
      assert pool == rest + [pool[|pool| - 1]];
      AtMostOnce(key, rest, x);
      if pool[|pool| - 1] == x {
        assert x !in rest;
      }
    }
  }

  // A choice of rows from a list without repeated keys has no repeated keys.
  lemma ChoiceIsDistinct<T(!new), K>(key: T -> K, pool: seq<T>, sel: seq<T>)
    requires multiset(sel) <= multiset(pool) && DistinctKeys(key, pool)
    ensures DistinctKeys(key, sel) && forall x :: x in sel ==> x in pool
  {
    forall i, j | 0 <= i < j < |sel| ensures key(sel[i]) != key(sel[j]) {
      TwoOfChoice(key, pool, sel, i, j);
    }
    forall x | x in sel ensures x in pool {
      assert x in multiset(sel) && x in multiset(pool);
    }
  }

  lemma PairOccurs<T>(s: seq<T>, i: nat, j: nat)
    requires i < j < |s|
    ensures multiset{s[i], s[j]} <= multiset(s)
  {
    MultisetWithout(s, j);
    assert (s[..j] + s[j + 1..])[i] == s[i];
    MultisetWithout(s[..j] + s[j + 1..], i);
  }

  lemma TwoOfChoice<T(!new), K>(key: T -> K, pool: seq<T>, sel: seq<T>, i: nat, j: nat)
    requires i < j < |sel| && multiset(sel) <= multiset(pool) && DistinctKeys(key, pool)
    ensures key(sel[i]) != key(sel[j])
  {
    var x, y := sel[i], sel[j];
    PairOccurs(sel, i, j);
    assert x in multiset(pool) && y in multiset(pool);
    if x == y {
      assert multiset(pool)[x] >= 2;
      AtMostOnce(key, pool, x);
    } else {
      var a :| 0 <= a < |pool| && pool[a] == x;
      var b :| 0 <= b < |pool| && pool[b] == y;
    }
  }
}
