/** Ranking rows by the configured tie breaks, and the leaderboards and league tables made with it. */
module Ranking {
  import opened Sequences
  import opened FantasyModel
  import opened Sorting

  /** A line of a table. `createdAt` is present only where the view provides it. Team identifiers are compared as
      the fixed-width text of a UUID, so as numbers. */
  datatype Row = Row(team: Id, points: real, penalties: real, createdAt: Option<int>)

  datatype Ranked = Ranked(rank: nat, row: Row)

  /** One component of a sort key. */
  datatype Part = Number(value: real) | Missing

  predicate Supported(rule: TieBreak) { !rule.Unsupported? }

  function Effective(configured: seq<TieBreak>): seq<TieBreak>
  {
    var rules := Filter(Supported, configured);
    if rules == [] then [TotalPoints, EarlierRegistration] else rules
  }

  function PartOf(rule: TieBreak, r: Row): Part
  {
    match rule
    case TotalPoints => Number(-r.points)
    case FewerTransferPenalties => Number(r.penalties)
    case EarlierRegistration => (match r.createdAt case None => Missing case Some(at) => Number(at as real))
    case Unsupported(_) => Missing
  }

  function Key(rules: seq<TieBreak>, r: Row): (k: seq<Part>)
    ensures |k| == |rules|
  {
    if rules == [] then [] else [PartOf(rules[0], r)] + Key(rules[1..], r)
  }

  /** Tuple comparison, component by component and finally by team. */
  predicate TupleLe(a: seq<Part>, x: Id, b: seq<Part>, y: Id)
    requires |a| == |b|
  {
    if a == [] then x <= y
    else if a[0] == b[0] then TupleLe(a[1..], x, b[1..], y)
    else a[0].Number? && b[0].Number? && a[0].value < b[0].value
  }

  function RowLe(rules: seq<TieBreak>): (Row, Row) -> bool
  {
    (a: Row, b: Row) => TupleLe(Key(rules, a), a.team, Key(rules, b), b.team)
  }

  function Order(configured: seq<TieBreak>, rows: seq<Row>): seq<Row>
  {
    Sort(RowLe(Effective(configured)), rows)
  }

  /** `rank_rows` */
  function RankRows(configured: seq<TieBreak>, rows: seq<Row>): (r: seq<Ranked>)
  {
    var ranked := Order(configured, rows);
    seq(|ranked|, i requires 0 <= i < |ranked| => Ranked(i + 1, ranked[i]))
  }

  // What the callers provide.

  ghost predicate DistinctTeams(rows: seq<Row>)
  {
    forall i, j :: 0 <= i < j < |rows| ==> rows[i].team != rows[j].team
  }

  /** Every row has a creation time, or none has: other keys cannot be compared. */
  ghost predicate Comparable(rows: seq<Row>)
  {
    forall a, b :: a in rows && b in rows ==> (a.createdAt.Some? <==> b.createdAt.Some?)
  }

  ghost predicate Rankable(rows: seq<Row>)
  {
    DistinctTeams(rows) && Comparable(rows)
  }

  // What the keys mean.

  predicate Better(rule: TieBreak, a: Row, b: Row)
  {
    match rule
    case TotalPoints => a.points > b.points
    case FewerTransferPenalties => a.penalties < b.penalties
    case EarlierRegistration => a.createdAt.Some? && b.createdAt.Some? && a.createdAt.value < b.createdAt.value
    case Unsupported(_) => false
  }

  /** The first rule that tells the two rows apart favours `a`; when none does, the smaller team identifier decides. */
  ghost predicate RanksAbove(rules: seq<TieBreak>, a: Row, b: Row)
  {
    || (exists i :: 0 <= i < |rules| && Better(rules[i], a, b) && Level(rules[..i], a, b))
    || (Level(rules, a, b) && a.team < b.team)
  }

  ghost predicate Level(rules: seq<TieBreak>, a: Row, b: Row)
  {
    forall i :: 0 <= i < |rules| ==> !Better(rules[i], a, b) && !Better(rules[i], b, a)
  }

  lemma PartMeans(rule: TieBreak, a: Row, b: Row)
    requires a.createdAt.Some? <==> b.createdAt.Some?
    ensures var x, y := PartOf(rule, a), PartOf(rule, b);
      && (x == y <==> !Better(rule, a, b) && !Better(rule, b, a))
      && (x.Number? && y.Number? && x.value < y.value <==> Better(rule, a, b))
  {
    if rule.EarlierRegistration? && a.createdAt.Some? {
      var x, y := a.createdAt.value, b.createdAt.value;
      assert x as real < y as real <==> x < y;
      assert x as real == y as real <==> x == y;
    }
  }

  lemma RanksAboveFirst(rules: seq<TieBreak>, a: Row, b: Row)
    requires rules != []
    ensures RanksAbove(rules, a, b) <==>
      Better(rules[0], a, b) || (Level(rules[..1], a, b) && RanksAbove(rules[1..], a, b))
  {
    if Better(rules[0], a, b) {
      assert Level(rules[..0], a, b);
    }
    if Level(rules[..1], a, b) && RanksAbove(rules[1..], a, b) {
      assert rules[..1][0] == rules[0];
      if Level(rules[1..], a, b) {
        LevelSplit(rules, 1, |rules|, a, b);
        assert rules[1..|rules|] == rules[1..] && rules[..|rules|] == rules;
      } else {
        var i :| 0 <= i < |rules[1..]| && Better(rules[1..][i], a, b) && Level(rules[1..][..i], a, b);
        LevelSplit(rules, 1, i + 1, a, b);
        assert rules[1..i + 1] == rules[1..][..i];
        assert Better(rules[i + 1], a, b);
      }
    }
    if RanksAbove(rules, a, b) && !Better(rules[0], a, b) {
      if Level(rules, a, b) {
        LevelSplit(rules, 1, |rules|, a, b);
        assert rules[1..|rules|] == rules[1..] && rules[..|rules|] == rules;
      } else {
        var i :| 0 <= i < |rules| && Better(rules[i], a, b) && Level(rules[..i], a, b);
        LevelSplit(rules, 1, i, a, b);
        assert rules[1..i] == rules[1..][..i - 1];
        assert Better(rules[1..][i - 1], a, b);
      }
    }
  }

  lemma LevelSplit(rules: seq<TieBreak>, m: nat, n: nat, a: Row, b: Row)
    requires m <= n <= |rules|
    ensures Level(rules[..n], a, b) <==> Level(rules[..m], a, b) && Level(rules[m..n], a, b)
  {
    if Level(rules[..n], a, b) {
      forall i | 0 <= i < n - m ensures !Better(rules[m..n][i], a, b) && !Better(rules[m..n][i], b, a) {
        assert rules[m..n][i] == rules[..n][m + i];
      }
      forall i | 0 <= i < m ensures !Better(rules[..m][i], a, b) && !Better(rules[..m][i], b, a) {
        assert rules[..m][i] == rules[..n][i];
      }
    }
    if Level(rules[..m], a, b) && Level(rules[m..n], a, b) {
      forall i | 0 <= i < n ensures !Better(rules[..n][i], a, b) && !Better(rules[..n][i], b, a) {
        assert if i < m then rules[..n][i] == rules[..m][i] else rules[..n][i] == rules[m..n][i - m];
      }
    }
  }

  /** Comparing keys is comparing rule by rule. */
  lemma {:induction false} KeysMeanRanks(rules: seq<TieBreak>, a: Row, b: Row)
    requires a.createdAt.Some? <==> b.createdAt.Some?
    ensures TupleLe(Key(rules, a), a.team, Key(rules, b), b.team) <==>
      RanksAbove(rules, a, b) || (Level(rules, a, b) && a.team == b.team)
  {
    if rules != [] {
      var r := rules[0];
      PartMeans(r, a, b);
      RanksAboveFirst(rules, a, b);
      KeysMeanRanks(rules[1..], a, b);
      assert Key(rules, a)[1..] == Key(rules[1..], a) && Key(rules, b)[1..] == Key(rules[1..], b);
      LevelSplit(rules, 1, |rules|, a, b);
      assert rules[1..|rules|] == rules[1..] && rules[..|rules|] == rules;
      assert rules[..1] == [r];
      assert Level([r], a, b) <==> !Better(r, a, b) && !Better(r, b, a) by {
        assert [r][0] == r;
      }
    }
  }

  lemma {:induction false} TupleTransitive(a: seq<Part>, x: Id, b: seq<Part>, y: Id, c: seq<Part>, z: Id)
    requires |a| == |b| == |c| && TupleLe(a, x, b, y) && TupleLe(b, y, c, z)
    ensures TupleLe(a, x, c, z)
  {
    if a != [] && a[0] == b[0] && b[0] == c[0] {
      TupleTransitive(a[1..], x, b[1..], y, c[1..], z);
    }
  }

  lemma {:induction false} TupleTotal(a: seq<Part>, x: Id, b: seq<Part>, y: Id)
    requires |a| == |b| && forall i :: 0 <= i < |a| ==> a[i].Number? == b[i].Number?
    ensures TupleLe(a, x, b, y) || TupleLe(b, y, a, x)
    ensures TupleLe(a, x, b, y) && TupleLe(b, y, a, x) ==> x == y
  {
    if a != [] && a[0] == b[0] {
      TupleTotal(a[1..], x, b[1..], y);
    }
  }

  lemma {:induction false} TupleReflexive(a: seq<Part>, x: Id)
    ensures TupleLe(a, x, a, x)
  {
    if a != [] {
      TupleReflexive(a[1..], x);
    }
  }

  lemma {:induction false} KeysAlike(rules: seq<TieBreak>, a: Row, b: Row)
    requires a.createdAt.Some? <==> b.createdAt.Some?
    ensures forall i :: 0 <= i < |rules| ==> Key(rules, a)[i].Number? == Key(rules, b)[i].Number?
  {
    if rules != [] {
      KeysAlike(rules[1..], a, b);
    }
  }

  lemma RowsOrdered(rules: seq<TieBreak>, rows: seq<Row>)
    requires Rankable(rows)
    ensures TotalOn(RowLe(rules), rows)
  {
    var le := RowLe(rules);
    forall a | a in rows ensures le(a, a) {
      TupleReflexive(Key(rules, a), a.team);
    }
    forall a, b | a in rows && b in rows ensures le(a, b) || le(b, a) {
      KeysAlike(rules, a, b);
      TupleTotal(Key(rules, a), a.team, Key(rules, b), b.team);
    }
    forall a, b, c | a in rows && b in rows && c in rows && le(a, b) && le(b, c) ensures le(a, c) {
      TupleTransitive(Key(rules, a), a.team, Key(rules, b), b.team, Key(rules, c), c.team);
    }
    forall a, b | a in rows && b in rows && le(a, b) && le(b, a) ensures a == b {
      KeysAlike(rules, a, b);
      TupleTotal(Key(rules, a), a.team, Key(rules, b), b.team);
      var i :| 0 <= i < |rows| && rows[i] == a;
      var j :| 0 <= j < |rows| && rows[j] == b;
    }
  }

  // The ranking.

  lemma OrderMembers(configured: seq<TieBreak>, rows: seq<Row>)
    ensures multiset(Order(configured, rows)) == multiset(rows) && |Order(configured, rows)| == |rows|
    ensures forall x :: x in Order(configured, rows) <==> x in rows
  {
    SortPermutes(RowLe(Effective(configured)), rows);
    SortingFacts(Order(configured, rows), rows);
  }

  lemma SortingFacts(a: seq<Row>, b: seq<Row>)
    requires multiset(a) == multiset(b)
    ensures |a| == |b| && forall x :: x in a <==> x in b
  {
    SameLength(a, b);
    SameMembers(a, b);
  }

  lemma DistinctPermutes(a: seq<Row>, b: seq<Row>)
    requires Rankable(a) && multiset(a) == multiset(b)
    ensures Rankable(b)
  {
    SameMembers(a, b);
    forall i, j | 0 <= i < j < |b| ensures b[i].team != b[j].team {
      if b[i].team == b[j].team {
        assert b[i] in a && b[j] in a;
        assert b[i] == b[j];
        TwoOccurrences(b, i, j);
        OneOccurrence(a, b[i]);
        assert false;
      }
    }
  }

  lemma TwoOccurrences<T>(s: seq<T>, i: nat, j: nat)
    requires i < j < |s| && s[i] == s[j]
    ensures multiset(s)[s[i]] >= 2
  {
    assert s == s[..j] + ([s[j]] + s[j + 1..]);
    assert s[i] in s[..j];
    assert multiset(s) == multiset(s[..j]) + multiset([s[j]] + s[j + 1..]);
    assert s[j] in [s[j]] + s[j + 1..];
  }

  lemma {:induction false} OneOccurrence(s: seq<Row>, x: Row)
    requires DistinctTeams(s)
    ensures multiset(s)[x] <= 1
  {
    if s != [] {
      var n := |s| - 1;
      OneOccurrence(s[..n], x);
      assert s == s[..n] + [s[n]];
      if x == s[n] {
        assert x !in s[..n];
      }
    }
  }

  /** The ranking lists every row once, numbers them 1, 2, 3, ..., and puts each row above all that it beats. */
  lemma RankCorrect(configured: seq<TieBreak>, rows: seq<Row>)
    requires Rankable(rows)
    ensures var r := RankRows(configured, rows);
      && |r| == |rows|
      && multiset(Order(configured, rows)) == multiset(rows)
      && (forall i :: 0 <= i < |r| ==> r[i].rank == i + 1)
      && (forall i, j :: 0 <= i < j < |r| ==> RanksAbove(Effective(configured), r[i].row, r[j].row))
  {
    var rules, order := Effective(configured), Order(configured, rows);
    RowsOrdered(rules, rows);
    SortSorts(RowLe(rules), rows);
    OrderMembers(configured, rows);
    DistinctPermutes(rows, order);
    forall i, j | 0 <= i < j < |order| ensures RanksAbove(rules, order[i], order[j]) {
      assert order[i] in rows && order[j] in rows;
      KeysMeanRanks(rules, order[i], order[j]);
    }
  }

  /** The ranking depends on the set of rows only, not on the order the database delivers them in. */
  lemma RankCanonical(configured: seq<TieBreak>, rows: seq<Row>, shuffled: seq<Row>)
    requires Rankable(rows) && multiset(rows) == multiset(shuffled)
    ensures RankRows(configured, rows) == RankRows(configured, shuffled)
  {
    RowsOrdered(Effective(configured), rows);
    SortForgets(RowLe(Effective(configured)), rows, shuffled);
  }

  /** Ranking some of the rows gives the full ranking with the others struck out. */
  lemma RankPart(configured: seq<TieBreak>, rows: seq<Row>, keep: Row -> bool)
    requires Rankable(rows)
    ensures Order(configured, Filter(keep, rows)) == Filter(keep, Order(configured, rows))
  {
    RowsOrdered(Effective(configured), rows);
    SortFilter(RowLe(Effective(configured)), keep, rows);
  }

  /** A row's rank is one more than the number of rows that beat it. */
  lemma RankCounts(configured: seq<TieBreak>, rows: seq<Row>, k: nat, beats: Row -> bool)
    requires Rankable(rows) && k < |rows| && |RankRows(configured, rows)| == |rows|
    requires forall x :: x in rows ==>
      (beats(x) <==> RanksAbove(Effective(configured), x, RankRows(configured, rows)[k].row))
    ensures RankRows(configured, rows)[k].rank == 1 + |Filter(beats, rows)|
  {
    var rules, order := Effective(configured), Order(configured, rows);
    var le := RowLe(rules);
    RowsOrdered(rules, rows);
    SortSorts(le, rows);
    OrderMembers(configured, rows);
    DistinctPermutes(rows, order);
    RowsOrdered(rules, order);
    forall x | x in order ensures beats(x) <==> le(x, order[k]) && x != order[k] {
      KeysMeanRanks(rules, x, order[k]);
      var i :| 0 <= i < |order| && order[i] == x;
    }
    SortedBelow(le, beats, order, k);
    FilterPermutes(beats, order, rows);
    SameLength(Filter(beats, order), Filter(beats, rows));
  }

  // Rows without a creation time.

  predicate NotRegistration(rule: TieBreak) { !rule.EarlierRegistration? }

  lemma {:induction false} RegistrationIgnored(rules: seq<TieBreak>, a: Row, b: Row)
    requires a.createdAt.None? && b.createdAt.None?
    ensures RanksAbove(rules, a, b) <==> RanksAbove(Filter(NotRegistration, rules), a, b)
    ensures Level(rules, a, b) <==> Level(Filter(NotRegistration, rules), a, b)
  {
    if rules != [] {
      var n := |rules| - 1;
      RegistrationIgnored(rules[..n], a, b);
      RanksAboveLast(rules, a, b);
      var f := Filter(NotRegistration, rules);
      if NotRegistration(rules[n]) {
        RanksAboveLast(f, a, b);
        assert f[..|f| - 1] == Filter(NotRegistration, rules[..n]);
      } else {
        assert f == Filter(NotRegistration, rules[..n]);
      }
    }
  }

  lemma RanksAboveLast(rules: seq<TieBreak>, a: Row, b: Row)
    requires rules != []
    ensures var n := |rules| - 1;
      && (Level(rules, a, b) <==>
           Level(rules[..n], a, b) && !Better(rules[n], a, b) && !Better(rules[n], b, a))
      && (RanksAbove(rules, a, b) <==>
           if Level(rules[..n], a, b) then
             Better(rules[n], a, b) || (!Better(rules[n], b, a) && a.team < b.team)
           else RanksAbove(rules[..n], a, b))
  {
    var n := |rules| - 1;
    assert rules == rules[..n] + [rules[n]];
    assert Level(rules, a, b) <==>
        Level(rules[..n], a, b) && !Better(rules[n], a, b) && !Better(rules[n], b, a) by {
      if Level(rules[..n], a, b) && !Better(rules[n], a, b) && !Better(rules[n], b, a) {
        forall i | 0 <= i <= n ensures !Better(rules[i], a, b) && !Better(rules[i], b, a) {
          assert i < n ==> rules[..n][i] == rules[i];
        }
      }
    }
    if Level(rules[..n], a, b) {
      if Better(rules[n], a, b) {
        assert Level(rules[..n], a, b);
      }
      forall i | 0 <= i < n ensures !Better(rules[i], a, b) {
        assert rules[..n][i] == rules[i];
      }
    } else {
      forall i | 0 <= i < n ensures rules[..n][..i] == rules[..i] {
      }
      if RanksAbove(rules[..n], a, b) {
        var i :| 0 <= i < n && Better(rules[..n][i], a, b) && Level(rules[..n][..i], a, b);
        assert Better(rules[i], a, b) && Level(rules[..i], a, b);
      }
      if RanksAbove(rules, a, b) {
        var i :| 0 <= i < |rules| && Better(rules[i], a, b) && Level(rules[..i], a, b);
        assert i < n;
        assert Better(rules[..n][i], a, b) && Level(rules[..n][..i], a, b);
      }
    }
  }

  /** Where the rows carry no creation time, `earlier_registration` decides nothing: rows level on the other rules are
      put in the order of their identifiers. */
  lemma RegistrationDecidesNothing(configured: seq<TieBreak>, rows: seq<Row>)
    requires DistinctTeams(rows) && forall r :: r in rows ==> r.createdAt.None?
    ensures var r := RankRows(configured, rows);
      forall i, j :: 0 <= i < j < |r| ==>
        RanksAbove(Filter(NotRegistration, Effective(configured)), r[i].row, r[j].row)
  {
    assert Rankable(rows);
    RankCorrect(configured, rows);
    OrderMembers(configured, rows);
    var r := RankRows(configured, rows);
    forall i, j | 0 <= i < j < |r|
      ensures RanksAbove(Filter(NotRegistration, Effective(configured)), r[i].row, r[j].row)
    {
      assert r[i].row in Order(configured, rows) && r[j].row in Order(configured, rows);
      RegistrationIgnored(Effective(configured), r[i].row, r[j].row);
    }
  }
}
