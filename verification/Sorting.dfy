/** Sorting by a total order, as Python's `sorted` does, and why its result is canonical. */
module Sorting {
  import opened Sequences

  /** `le` orders the values of `s` totally: no two different ones are tied. */
  ghost predicate TotalOn<T(!new)>(le: (T, T) -> bool, s: seq<T>)
  {
    && (forall a :: a in s ==> le(a, a))
    && (forall a, b :: a in s && b in s ==> le(a, b) || le(b, a))
    && (forall a, b, c :: a in s && b in s && c in s && le(a, b) && le(b, c) ==> le(a, c))
    && (forall a, b :: a in s && b in s && le(a, b) && le(b, a) ==> a == b)
  }

  ghost predicate Sorted<T>(le: (T, T) -> bool, s: seq<T>)
  {
    forall i, j :: 0 <= i < j < |s| ==> le(s[i], s[j])
  }

  function Insert<T>(le: (T, T) -> bool, x: T, s: seq<T>): seq<T>
  {
    if s == [] then [x]
    else if le(s[|s|-1], x) then s + [x]
    else Insert(le, x, s[..|s|-1]) + [s[|s|-1]]
  }

  function Sort<T>(le: (T, T) -> bool, s: seq<T>): seq<T>
  {
    if s == [] then [] else Insert(le, s[|s|-1], Sort(le, s[..|s|-1]))
  }

  lemma {:induction false} InsertPermutes<T>(le: (T, T) -> bool, x: T, s: seq<T>)
    ensures multiset(Insert(le, x, s)) == multiset(s) + multiset{x}
  {
    if s != [] && !le(s[|s|-1], x) {
      InsertPermutes(le, x, s[..|s|-1]);
      assert s == s[..|s|-1] + [s[|s|-1]];
    }
  }

  lemma {:induction false} SortPermutes<T>(le: (T, T) -> bool, s: seq<T>)
    ensures multiset(Sort(le, s)) == multiset(s)
  {
    if s != [] {
      var n := |s| - 1;
      SortPermutes(le, s[..n]);
      InsertPermutes(le, s[n], Sort(le, s[..n]));
      RemoveOne(s, n);
      assert s[..n] + s[n+1..] == s[..n];
      assert s[n] in multiset(s);
    }
  }

  lemma PartTotal<T(!new)>(le: (T, T) -> bool, s: seq<T>, part: seq<T>)
    requires TotalOn(le, s) && forall x :: x in part ==> x in s
    ensures TotalOn(le, part)
  {
  }

  lemma SameMembers<T(!new)>(a: seq<T>, b: seq<T>)
    requires multiset(a) == multiset(b)
    ensures forall x :: x in a <==> x in b
  {
    forall x ensures x in a <==> x in b {
      assert x in multiset(a) <==> x in multiset(b);
    }
  }

  lemma {:induction false} InsertSorts<T(!new)>(le: (T, T) -> bool, x: T, s: seq<T>)
    requires TotalOn(le, s + [x]) && Sorted(le, s)
    ensures Sorted(le, Insert(le, x, s))
  {
    if s != [] {
      var n := |s| - 1;
      assert s[n] in s + [x] && x in s + [x];
      if le(s[n], x) {
        forall i | 0 <= i < n ensures le(s[i], x) {
          assert s[i] in s + [x] && le(s[i], s[n]);
        }
      } else {
        PartTotal(le, s + [x], s[..n] + [x]);
        InsertSorts(le, x, s[..n]);
        var front := Insert(le, x, s[..n]);
        forall i | 0 <= i < |front| ensures le(front[i], s[n]) {
          InsertPermutes(le, x, s[..n]);
          assert front[i] in multiset(front);
          if front[i] != x {
            assert front[i] in multiset(s[..n]);
          }
        }
      }
    }
  }

  lemma {:induction false} SortSorts<T(!new)>(le: (T, T) -> bool, s: seq<T>)
    requires TotalOn(le, s)
    ensures Sorted(le, Sort(le, s))
  {
    if s != [] {
      var n := |s| - 1;
      PartTotal(le, s, s[..n]);
      SortSorts(le, s[..n]);
      SortPermutes(le, s[..n]);
      SameMembers(Sort(le, s[..n]), s[..n]);
      PartTotal(le, s, Sort(le, s[..n]) + [s[n]]);
      InsertSorts(le, s[n], Sort(le, s[..n]));
    }
  }

  lemma SameLast<T(!new)>(le: (T, T) -> bool, a: seq<T>, b: seq<T>)
    requires TotalOn(le, a) && Sorted(le, a) && Sorted(le, b)
    requires multiset(a) == multiset(b) && |a| == |b| > 0
    ensures a[|a|-1] == b[|b|-1]
  {
    var n := |a| - 1;
    SameMembers(a, b);
    assert a[n] in b && b[n] in a;
    var i :| 0 <= i < |b| && b[i] == a[n];
    var j :| 0 <= j < |a| && a[j] == b[n];
    assert le(a[n], b[n]) && le(b[n], a[n]);
  }

  /** There is only one way to sort: any two sorted arrangements of the same values are equal. */
  lemma {:induction false} SortedUnique<T(!new)>(le: (T, T) -> bool, a: seq<T>, b: seq<T>)
    requires TotalOn(le, a) && Sorted(le, a) && Sorted(le, b)
    requires multiset(a) == multiset(b)
    ensures a == b
  {
    SameLength(a, b);
    if a != [] {
      var n := |a| - 1;
      SameLast(le, a, b);
      RemoveSame(a, n, b, n);
      assert a[..n] + a[n+1..] == a[..n] && b[..n] + b[n+1..] == b[..n];
      PartTotal(le, a, a[..n]);
      SortedUnique(le, a[..n], b[..n]);
    }
  }

  /** Sorting forgets the order its input came in. */
  lemma SortForgets<T(!new)>(le: (T, T) -> bool, a: seq<T>, b: seq<T>)
    requires TotalOn(le, a) && multiset(a) == multiset(b)
    ensures Sort(le, a) == Sort(le, b)
  {
    SameMembers(a, b);
    PartTotal(le, a, b);
    SortSorts(le, a);
    SortSorts(le, b);
    SortPermutes(le, a);
    SortPermutes(le, b);
    SameMembers(Sort(le, a), a);
    PartTotal(le, a, Sort(le, a));
    SortedUnique(le, Sort(le, a), Sort(le, b));
  }

  /** A part of a sorted sequence is sorted. */
  lemma {:induction false} FilterSorted<T(!new)>(le: (T, T) -> bool, p: T -> bool, s: seq<T>)
    requires Sorted(le, s)
    ensures Sorted(le, Filter(p, s))
  {
    if s != [] {
      var n := |s| - 1;
      FilterSorted(le, p, s[..n]);
      var r := Filter(p, s[..n]);
      forall i | 0 <= i < |r| ensures le(r[i], s[n]) {
        FilterMembers(p, s[..n], r[i]);
      }
    }
  }

  /** Sorting a part equals taking that part of the sorted whole. */
  lemma SortFilter<T(!new)>(le: (T, T) -> bool, p: T -> bool, s: seq<T>)
    requires TotalOn(le, s)
    ensures Sort(le, Filter(p, s)) == Filter(p, Sort(le, s))
  {
    SortSorts(le, s);
    SortPermutes(le, s);
    FilterSorted(le, p, Sort(le, s));
    FilterPermutes(p, s, Sort(le, s));
    FilterPart(le, p, s);
    SortSorts(le, Filter(p, s));
    SortPermutes(le, Filter(p, s));
    SameMembers(Sort(le, Filter(p, s)), Filter(p, s));
    PartTotal(le, Filter(p, s), Sort(le, Filter(p, s)));
    SortedUnique(le, Sort(le, Filter(p, s)), Filter(p, Sort(le, s)));
  }

  lemma FilterPart<T(!new)>(le: (T, T) -> bool, p: T -> bool, s: seq<T>)
    requires TotalOn(le, s)
    ensures TotalOn(le, Filter(p, s))
  {
    forall x | x in Filter(p, s) ensures x in s {
      FilterMembers(p, s, x);
    }
    PartTotal(le, s, Filter(p, s));
  }

  /** In sorted order, the values strictly below the one at place `k` are the `k` values before it. */
  lemma {:induction false} SortedBelow<T(!new)>(le: (T, T) -> bool, below: T -> bool, s: seq<T>, k: nat)
    requires TotalOn(le, s) && Sorted(le, s) && Distinct(s) && k < |s|
    requires forall x :: x in s ==> (below(x) <==> le(x, s[k]) && x != s[k])
    ensures Filter(below, s) == s[..k]
  {
    assert s == s[..k] + s[k..];
    FilterConcat(below, s[..k], s[k..]);
    FilterAll(below, s[..k]);
    forall x | x in s[k..] ensures !below(x) {
      var j :| 0 <= j < |s[k..]| && s[k..][j] == x;
      assert s[k + j] == x && s[k] in s;
      if j > 0 {
        assert le(s[k], s[k + j]);
      }
    }
    FilterEmpty(below, s[k..]);
  }

  lemma {:induction false} FilterAll<T>(p: T -> bool, s: seq<T>)
    requires forall x :: x in s ==> p(x)
    ensures Filter(p, s) == s
  {
    if s != [] {
      var n := |s| - 1;
      FilterAll(p, s[..n]);
      assert s == s[..n] + [s[n]];
    }
  }

  lemma {:induction false} FilterEmpty<T>(p: T -> bool, s: seq<T>)
    requires forall x :: x in s ==> !p(x)
    ensures Filter(p, s) == []
  {
    if s != [] {
      FilterEmpty(p, s[..|s| - 1]);
    }
  }
}
