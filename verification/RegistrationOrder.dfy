/** What is lost when the rows of a table do not carry the registration time. */
module RegistrationOrder {
  import opened Sequences
  import opened FantasyModel
  import opened Sorting
  import opened Ranking

  /** A row as the overall tables hand it to the ranking: without its creation time. */
  function Drop(r: Row): Row
  {
    r.(createdAt := None)
  }

  function DropAll(rows: seq<Row>): (r: seq<Row>)
    ensures |r| == |rows|
  {
    seq(|rows|, i requires 0 <= i < |rows| => Drop(rows[i]))
  }

  ghost predicate Dated(rows: seq<Row>)
  {
    forall r :: r in rows ==> r.createdAt.Some?
  }

  /** Whatever the ranking puts first with creation times comes first without them. */
  ghost predicate Agreeing(rules: seq<TieBreak>, rows: seq<Row>)
  {
    forall a, b :: a in rows && b in rows && RanksAbove(rules, a, b) ==> RanksAbove(rules, Drop(a), Drop(b))
  }

  lemma {:induction false} DropPermutes(a: seq<Row>, b: seq<Row>)
    requires multiset(a) == multiset(b)
    ensures multiset(DropAll(a)) == multiset(DropAll(b))
  {
    hide Drop;
    SameLength(a, b);
    if a != [] {
      var j := Occurs(a, a[0], b);
      RemoveSame(a, 0, b, j);
      DropWithout(a, 0);
      DropWithout(b, j);
      DropPermutes(a[..0] + a[1..], b[..j] + b[j + 1..]);
      RestoreSame(DropAll(a), 0, DropAll(b), j);
    }
  }

  lemma DropWithout(s: seq<Row>, i: nat)
    requires i < |s|
    ensures DropAll(s[..i] + s[i + 1..]) == DropAll(s)[..i] + DropAll(s)[i + 1..] && DropAll(s)[i] == Drop(s[i])
  {
    hide Drop;
  }

  lemma DropRankable(rows: seq<Row>)
    requires DistinctTeams(rows)
    ensures Rankable(DropAll(rows))
  {
  }

  lemma DatedRankable(rows: seq<Row>)
    requires DistinctTeams(rows) && Dated(rows)
    ensures Rankable(rows)
  {
  }

  /** Two rows do not rank above each other. */
  lemma {:induction false} NotBothAbove(rules: seq<TieBreak>, a: Row, b: Row)
    ensures !(RanksAbove(rules, a, b) && RanksAbove(rules, b, a))
  {
    if rules != [] {
      RanksAboveFirst(rules, a, b);
      RanksAboveFirst(rules, b, a);
      assert rules[..1][0] == rules[0];
      NotBothAbove(rules[1..], a, b);
    }
  }

  lemma RankedInOrder(configured: seq<TieBreak>, rows: seq<Row>, i: nat, j: nat)
    requires Rankable(rows) && i < |rows| && j < |rows| && |Order(configured, rows)| == |rows|
    requires RanksAbove(Effective(configured), Order(configured, rows)[i], Order(configured, rows)[j])
    ensures i < j
  {
    hide RanksAbove;
    var order := Order(configured, rows);
    RankCorrect(configured, rows);
    OrderMembers(configured, rows);
    assert RankRows(configured, rows)[j].row == order[j] && RankRows(configured, rows)[i].row == order[i];
    NotBothAbove(Effective(configured), order[i], order[j]);
  }

  /** If the order is the same, the comparisons agree. */
  lemma SameOrderAgrees(configured: seq<TieBreak>, rows: seq<Row>)
    requires DistinctTeams(rows) && Dated(rows)
    requires Order(configured, DropAll(rows)) == DropAll(Order(configured, rows))
    ensures Agreeing(Effective(configured), rows)
  {
    hide RanksAbove, Order;
    var order, rules := Order(configured, rows), Effective(configured);
    DatedRankable(rows);
    DropRankable(rows);
    OrderMembers(configured, rows);
    RankCorrect(configured, DropAll(rows));
    forall a, b | a in rows && b in rows && RanksAbove(rules, a, b) ensures RanksAbove(rules, Drop(a), Drop(b)) {
      assert a in order && b in order;
      var i :| 0 <= i < |order| && order[i] == a;
      var j :| 0 <= j < |order| && order[j] == b;
      RankedInOrder(configured, rows, i, j);
      assert RankRows(configured, DropAll(rows))[i].row == Drop(a);
      assert RankRows(configured, DropAll(rows))[j].row == Drop(b);
    }
  }

  /** If the comparisons agree, the order is the same. */
  lemma AgreeingSameOrder(configured: seq<TieBreak>, rows: seq<Row>)
    requires DistinctTeams(rows) && Dated(rows) && Agreeing(Effective(configured), rows)
    ensures Order(configured, DropAll(rows)) == DropAll(Order(configured, rows))
  {
    hide RanksAbove, Order, RowLe;
    var order, rules := Order(configured, rows), Effective(configured);
    DatedRankable(rows);
    DropRankable(rows);
    OrderMembers(configured, rows);
    RankCorrect(configured, rows);
    DropPermutes(order, rows);
    forall i, j | 0 <= i < j < |order| ensures RowLe(rules)(DropAll(order)[i], DropAll(order)[j]) {
      assert order[i] in rows && order[j] in rows;
      assert RankRows(configured, rows)[i].row == order[i] && RankRows(configured, rows)[j].row == order[j];
      AboveIsLe(rules, Drop(order[i]), Drop(order[j]));
    }
    SortedIsOrder(configured, DropAll(rows), DropAll(order));
  }

  lemma AboveIsLe(rules: seq<TieBreak>, a: Row, b: Row)
    requires RanksAbove(rules, a, b) && (a.createdAt.Some? <==> b.createdAt.Some?)
    ensures RowLe(rules)(a, b)
  {
    KeysMeanRanks(rules, a, b);
  }

  lemma SortedIsOrder(configured: seq<TieBreak>, rows: seq<Row>, sorted: seq<Row>)
    requires Rankable(rows) && multiset(sorted) == multiset(rows) && Sorted(RowLe(Effective(configured)), sorted)
    ensures Order(configured, rows) == sorted
  {
    var le := RowLe(Effective(configured));
    RowsOrdered(Effective(configured), rows);
    SortSorts(le, rows);
    SortPermutes(le, rows);
    SameMembers(Sort(le, rows), rows);
    PartTotal(le, rows, Sort(le, rows));
    SortedUnique(le, Sort(le, rows), sorted);
  }

  // The condition in terms of the rules.

  /** `k` is the first place of `earlier_registration` among the rules. */
  ghost predicate FirstRegistration(rules: seq<TieBreak>, k: nat)
  {
    k < |rules| && rules[k].EarlierRegistration? && forall i :: 0 <= i < k ==> !rules[i].EarlierRegistration?
  }

  /** Among rows level on the rules before `earlier_registration`, the later rules and the identifiers put the team
      that registered earlier first anyway. */
  ghost predicate RegistrationRedundant(rules: seq<TieBreak>, rows: seq<Row>, k: nat)
    requires k < |rules| && Dated(rows)
  {
    forall a, b :: a in rows && b in rows && Level(rules[..k], a, b) && a.createdAt.value < b.createdAt.value ==>
      RanksAbove(rules[k + 1..], Drop(a), Drop(b))
  }

  /** Comparisons that come out the same rule by rule come out the same. */
  lemma SameBetter(rules: seq<TieBreak>, a: Row, b: Row, c: Row, d: Row)
    requires a.team == c.team && b.team == d.team
    requires forall i :: 0 <= i < |rules| ==>
      Better(rules[i], a, b) == Better(rules[i], c, d) && Better(rules[i], b, a) == Better(rules[i], d, c)
    ensures Level(rules, a, b) <==> Level(rules, c, d)
    ensures RanksAbove(rules, a, b) <==> RanksAbove(rules, c, d)
  {
    hide Better;
    forall i | 0 <= i < |rules| ensures Level(rules[..i], a, b) <==> Level(rules[..i], c, d) {
      assert forall j :: 0 <= j < i ==> rules[..i][j] == rules[j];
    }
  }

  /** A comparison is decided by the first rules unless the rows are level on them. */
  lemma {:induction false} AboveSplits(rules: seq<TieBreak>, k: nat, a: Row, b: Row)
    requires k <= |rules|
    ensures RanksAbove(rules, a, b) <==>
      if Level(rules[..k], a, b) then RanksAbove(rules[k..], a, b) else RanksAbove(rules[..k], a, b)
  {
    hide RanksAbove, Better;
    if k == 0 {
      assert rules[k..] == rules;
    } else {
      RanksAboveFirst(rules, a, b);
      RanksAboveFirst(rules[..k], a, b);
      AboveSplits(rules[1..], k - 1, a, b);
      assert rules[1..][k - 1..] == rules[k..];
      assert rules[1..][..k - 1] == rules[..k][1..] == rules[1..k];
      assert rules[..k][..1] == rules[..1] && rules[..k][0] == rules[0];
      LevelSplit(rules, 1, k, a, b);
      if Better(rules[0], a, b) {
        assert rules[..1][0] == rules[0];
      }
    }
  }

  lemma PairAgrees(rules: seq<TieBreak>, k: nat, a: Row, b: Row)
    requires FirstRegistration(rules, k) && a.createdAt.Some? && b.createdAt.Some?
    ensures (RanksAbove(rules, a, b) ==> RanksAbove(rules, Drop(a), Drop(b))) <==>
      (Level(rules[..k], a, b) && a.createdAt.value < b.createdAt.value ==> RanksAbove(rules[k + 1..], Drop(a), Drop(b)))
  {
    hide RanksAbove;
    var c, d := Drop(a), Drop(b);
    SameBetter(rules[..k], a, b, c, d);
    AboveSplits(rules, k, a, b);
    AboveSplits(rules, k, c, d);
    RanksAboveFirst(rules[k..], a, b);
    RanksAboveFirst(rules[k..], c, d);
    assert rules[k..][0] == rules[k] && rules[k..][1..] == rules[k + 1..] && rules[k..][..1] == [rules[k]];
    assert [rules[k]][0] == rules[k];
    if a.createdAt == b.createdAt {
      SameBetter(rules[k + 1..], a, b, c, d);
    }
  }

  lemma AgreeingExactly(rules: seq<TieBreak>, rows: seq<Row>, k: nat)
    requires Dated(rows) && FirstRegistration(rules, k)
    ensures Agreeing(rules, rows) <==> RegistrationRedundant(rules, rows, k)
  {
    hide RanksAbove, Level, FirstRegistration;
    assert k < |rules| by {
      InRange(rules, k);
    }
    forall a, b | a in rows && b in rows
      ensures (RanksAbove(rules, a, b) ==> RanksAbove(rules, Drop(a), Drop(b))) <==>
        (Level(rules[..k], a, b) && a.createdAt.value < b.createdAt.value ==>
          RanksAbove(rules[k + 1..], Drop(a), Drop(b)))
    {
      PairAgrees(rules, k, a, b);
    }
  }

  lemma InRange(rules: seq<TieBreak>, k: nat)
    requires FirstRegistration(rules, k)
    ensures k < |rules|
  {
  }

  /** Leaving the creation time out of the rows leaves the table as it is if and only if registration was redundant:
      no two teams level on the rules before it are ordered otherwise by what comes after it. */
  lemma DroppingExactly(configured: seq<TieBreak>, rows: seq<Row>, k: nat)
    requires DistinctTeams(rows) && Dated(rows) && FirstRegistration(Effective(configured), k)
    ensures Order(configured, DropAll(rows)) == DropAll(Order(configured, rows)) <==>
      RegistrationRedundant(Effective(configured), rows, k)
  {
    hide Agreeing, RegistrationRedundant, Order;
    AgreeingExactly(Effective(configured), rows, k);
    if Order(configured, DropAll(rows)) == DropAll(Order(configured, rows)) {
      SameOrderAgrees(configured, rows);
    }
    if Agreeing(Effective(configured), rows) {
      AgreeingSameOrder(configured, rows);
    }
  }

  /** Where the rule is not configured nothing is lost. */
  lemma DroppingHarmless(configured: seq<TieBreak>, rows: seq<Row>)
    requires DistinctTeams(rows) && Dated(rows)
    requires forall i :: 0 <= i < |Effective(configured)| ==> !Effective(configured)[i].EarlierRegistration?
    ensures Order(configured, DropAll(rows)) == DropAll(Order(configured, rows))
  {
    hide RanksAbove, Order;
    var rules := Effective(configured);
    forall a, b | a in rows && b in rows && RanksAbove(rules, a, b) ensures RanksAbove(rules, Drop(a), Drop(b)) {
      SameBetter(rules, a, b, Drop(a), Drop(b));
    }
    AgreeingSameOrder(configured, rows);
  }
}
