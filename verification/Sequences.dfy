/** Sequence vocabulary shared by the models: filters, first matches and exact sums. */
module Sequences {

  datatype Option<+T> = None | Some(value: T)

  /** The elements of `s` that satisfy `p`, in their order. */
  function Filter<T>(p: T -> bool, s: seq<T>): (r: seq<T>)
  {
    if s == [] then []
    else
      var n := |s| - 1;
      Filter(p, s[..n]) + (if p(s[n]) then [s[n]] else [])
  }

  /** The first element of `s` that satisfies `p`. */
  function First<T>(p: T -> bool, s: seq<T>): (r: Option<T>)
    ensures r.Some? ==> r.value in s && p(r.value)
    ensures r.None? ==> forall x :: x in s ==> !p(x)
  {
    if s == [] then None
    else if p(s[0]) then Some(s[0])
    else First(p, s[1..])
  }

  /** The sum of `f` over `s`. */
  function SumOf<T>(f: T -> real, s: seq<T>): real
  {
    if s == [] then 0.0
    else
      var n := |s| - 1;
      SumOf(f, s[..n]) + f(s[n])
  }

  function ToSet<T(==)>(s: seq<T>): set<T>
  {
    set x | x in s
  }

  ghost predicate Distinct<T>(s: seq<T>)
  {
    forall i, j :: 0 <= i < j < |s| ==> s[i] != s[j]
  }

  lemma {:induction false} FilterMembers<T>(p: T -> bool, s: seq<T>, x: T)
    ensures x in Filter(p, s) <==> x in s && p(x)
  {
    if s != [] {
      var n := |s| - 1;
      FilterMembers(p, s[..n], x);
      assert s == s[..n] + [s[n]];
    }
  }

  lemma {:induction false} FilterConcat<T>(p: T -> bool, a: seq<T>, b: seq<T>)
    ensures Filter(p, a + b) == Filter(p, a) + Filter(p, b)
  {
    if b == [] {
      assert a + b == a;
    } else {
      var n := |b| - 1;
      FilterConcat(p, a, b[..n]);
      assert (a + b)[..|a + b| - 1] == a + b[..n];
    }
  }

  lemma {:induction false} FilterCount<T>(p: T -> bool, s: seq<T>, x: T)
    ensures multiset(Filter(p, s))[x] == if p(x) then multiset(s)[x] else 0
  {
    if s != [] {
      var n := |s| - 1;
      FilterCount(p, s[..n], x);
      assert s == s[..n] + [s[n]];
    }
  }

  lemma FilterPermutes<T(!new)>(p: T -> bool, a: seq<T>, b: seq<T>)
    requires multiset(a) == multiset(b)
    ensures multiset(Filter(p, a)) == multiset(Filter(p, b))
  {
    var m, n := multiset(Filter(p, a)), multiset(Filter(p, b));
    forall x: T ensures m[x] == n[x] {
      FilterCount(p, a, x);
      FilterCount(p, b, x);
    }
  }

  /** Taking one occurrence out of a sequence takes it out of its contents. */
  lemma RemoveOne<T>(s: seq<T>, i: nat)
    requires i < |s|
    ensures multiset(s[..i] + s[i+1..]) == multiset(s) - multiset{s[i]}
  {
    assert s == s[..i] + ([s[i]] + s[i+1..]);
    assert multiset(s) == multiset(s[..i]) + multiset([s[i]] + s[i+1..]);
    assert multiset([s[i]] + s[i+1..]) == multiset{s[i]} + multiset(s[i+1..]);
  }

  /** A filter keeps a sequence free of repetitions. */
  lemma {:induction false} FilterDistinct<T>(p: T -> bool, s: seq<T>)
    requires Distinct(s)
    ensures Distinct(Filter(p, s))
  {
    if s != [] {
      var n := |s| - 1;
      FilterDistinct(p, s[..n]);
      FilterMembers(p, s[..n], s[n]);
      var r := Filter(p, s[..n]);
      forall i | 0 <= i < |r| ensures r[i] != s[n] {
        FilterMembers(p, s[..n], r[i]);
      }
    }
  }

  /** Exchanging a value that the filter drops for another one it drops changes nothing. */
  lemma {:induction false} FilterSkips<T>(p: T -> bool, s: seq<T>, i: nat, x: T)
    requires i < |s| && !p(s[i]) && !p(x)
    ensures Filter(p, s[i := x]) == Filter(p, s)
  {
    var n := |s| - 1;
    if i == n {
      assert s[i := x][..n] == s[..n];
    } else {
      FilterSkips(p, s[..n], i, x);
      assert s[i := x][..n] == s[..n][i := x];
    }
  }

  lemma {:induction false} SumConcat<T>(f: T -> real, a: seq<T>, b: seq<T>)
    ensures SumOf(f, a + b) == SumOf(f, a) + SumOf(f, b)
  {
    if b == [] {
      assert a + b == a;
    } else {
      var n := |b| - 1;
      SumConcat(f, a, b[..n]);
      assert (a + b)[..|a + b| - 1] == a + b[..n];
    }
  }

  lemma SumOne<T>(f: T -> real, x: T)
    ensures SumOf(f, [x]) == f(x)
  {
    assert [x][..0] == [];
  }

  lemma SumSplit<T>(f: T -> real, s: seq<T>, i: nat)
    requires i < |s|
    ensures SumOf(f, s) == SumOf(f, s[..i]) + f(s[i]) + SumOf(f, s[i+1..])
  {
    hide SumOf;
    assert s == s[..i] + s[i..];
    SumConcat(f, s[..i], s[i..]);
    assert s[i..] == [s[i]] + s[i+1..];
    SumConcat(f, [s[i]], s[i+1..]);
    SumOne(f, s[i]);
  }

  lemma SumUpdate<T>(f: T -> real, s: seq<T>, i: nat, x: T)
    requires i < |s|
    ensures SumOf(f, s[i := x]) == SumOf(f, s) - f(s[i]) + f(x)
  {
    SumSplit(f, s, i);
    SumSplit(f, s[i := x], i);
    assert s[i := x][..i] == s[..i] && s[i := x][i+1..] == s[i+1..];
  }

  /** Two arrangements of the same values stay so when one value is taken out of both. */
  lemma RemoveSame<T>(a: seq<T>, i: nat, b: seq<T>, j: nat)
    requires multiset(a) == multiset(b) && i < |a| && j < |b| && a[i] == b[j]
    ensures multiset(a[..i] + a[i+1..]) == multiset(b[..j] + b[j+1..])
  {
    RemoveOne(a, i);
    RemoveOne(b, j);
  }

  /** The converse: putting the same value into two such arrangements. */
  lemma RestoreSame<T>(a: seq<T>, i: nat, b: seq<T>, j: nat)
    requires i < |a| && j < |b| && a[i] == b[j]
    requires multiset(a[..i] + a[i+1..]) == multiset(b[..j] + b[j+1..])
    ensures multiset(a) == multiset(b)
  {
    RemoveOne(a, i);
    RemoveOne(b, j);
    assert a[i] in multiset(a) && b[j] in multiset(b);
    assert multiset(a) == multiset(a) - multiset{a[i]} + multiset{a[i]};
    assert multiset(b) == multiset(b) - multiset{b[j]} + multiset{b[j]};
  }

  lemma Occurs<T>(a: seq<T>, x: T, b: seq<T>) returns (j: nat)
    requires multiset(a) == multiset(b) && x in a
    ensures j < |b| && b[j] == x
  {
    assert x in multiset(b);
    j :| 0 <= j < |b| && b[j] == x;
  }

  lemma SameLength<T>(a: seq<T>, b: seq<T>)
    requires multiset(a) == multiset(b)
    ensures |a| == |b|
  {
    assert |multiset(a)| == |a| && |multiset(b)| == |b|;
  }

  lemma {:induction false} SumPermutation<T>(f: T -> real, a: seq<T>, b: seq<T>)
    requires multiset(a) == multiset(b)
    ensures SumOf(f, a) == SumOf(f, b)
  {
    SameLength(a, b);
    if a != [] {
      var j := Occurs(a, a[0], b);
      RemoveSame(a, 0, b, j);
      SumPermutation(f, a[..0] + a[1..], b[..j] + b[j+1..]);
      SumSplit(f, a, 0);
      SumSplit(f, b, j);
      SumConcat(f, a[..0], a[1..]);
      SumConcat(f, b[..j], b[j+1..]);
    }
  }

  /** Sums add up pointwise. */
  lemma {:induction false} SumLinear<T>(f: T -> real, g: T -> real, h: T -> real, s: seq<T>)
    requires forall x :: x in s ==> g(x) == f(x) + h(x)
    ensures SumOf(g, s) == SumOf(f, s) + SumOf(h, s)
  {
    if s != [] {
      var n := |s| - 1;
      assert forall x :: x in s[..n] ==> x in s;
      SumLinear(f, g, h, s[..n]);
      assert s[n] in s;
    }
  }

  lemma {:induction false} SumAgrees<T>(f: T -> real, g: T -> real, s: seq<T>)
    requires forall x :: x in s ==> f(x) == g(x)
    ensures SumOf(f, s) == SumOf(g, s)
  {
    if s != [] {
      var n := |s| - 1;
      assert forall x :: x in s[..n] ==> x in s;
      SumAgrees(f, g, s[..n]);
      assert s[n] in s;
    }
  }

  /** Where in `s` the test holds. */
  ghost function Places<T>(p: T -> bool, s: seq<T>): set<int>
  {
    set i | 0 <= i < |s| && p(s[i])
  }

  lemma {:induction false} FilterPlaces<T>(p: T -> bool, s: seq<T>)
    ensures |Filter(p, s)| == |Places(p, s)|
  {
    if s != [] {
      var n := |s| - 1;
      FilterPlaces(p, s[..n]);
      var before := Places(p, s[..n]);
      assert n !in before;
      if p(s[n]) {
        assert Places(p, s) == before + {n};
      } else {
        assert Places(p, s) == before;
      }
    }
  }
}
