/** The tables the views publish: their rows come from the stored scores, their order from the ranking. */
module Leaderboards {
  import opened Sequences
  import opened FantasyModel
  import opened Ranking
  import opened RegistrationOrder

  /** `s` is one of the orders in which a query may deliver the set `all`. */
  ghost predicate Lists(s: seq<Id>, all: set<Id>)
  {
    Distinct(s) && ToSet(s) == all
  }

  function PointsIn(w: World, t: Id): Id -> real
  {
    (g: Id) => if t in At(w.scores, g) then At(w.scores, g)[t].totalPoints else 0.0
  }

  function PenaltyIn(w: World, t: Id): Id -> real
  {
    (g: Id) => if t in At(w.scores, g) then At(w.scores, g)[t].transferPenalty else 0.0
  }

  predicate Scored(w: World, t: Id)
  {
    exists g :: g in w.scores && t in w.scores[g]
  }

  /** All that the query knows of a team: sums over its gameweeks and the time it was created. `gs` is any listing of
      the gameweeks. */
  function FullRow(w: World, gs: seq<Id>, t: Id): Row
  {
    Row(t, SumOf(PointsIn(w, t), gs), SumOf(PenaltyIn(w, t), gs), if t in w.teams then Some(w.teams[t].createdAt) else None)
  }

  /** A team's line on an overall table. Its creation time stands under a name that the ranking does not read. */
  function TeamRow(w: World, gs: seq<Id>, t: Id): Row
  {
    Drop(FullRow(w, gs, t))
  }

  function FullRows(w: World, gs: seq<Id>, ts: seq<Id>): (r: seq<Row>)
    ensures |r| == |ts|
  {
    seq(|ts|, i requires 0 <= i < |ts| => FullRow(w, gs, ts[i]))
  }

  function Rows(w: World, gs: seq<Id>, ts: seq<Id>): (r: seq<Row>)
    ensures |r| == |ts|
  {
    seq(|ts|, i requires 0 <= i < |ts| => TeamRow(w, gs, ts[i]))
  }

  /** Every team of the competition with a score. */
  function Entered(w: World, competition: Id): set<Id>
  {
    set t | t in w.teams && w.teams[t].competition == competition && Scored(w, t)
  }

  /** A league's teams with a score. */
  function Playing(w: World, members: set<Id>): set<Id>
  {
    set t | t in members && Scored(w, t)
  }

  function MemberRow(members: set<Id>): Row -> bool
  {
    (r: Row) => r.team in members
  }

  lemma {:induction false} ListsPermute(a: seq<Id>, b: seq<Id>)
    requires Distinct(a) && Distinct(b) && ToSet(a) == ToSet(b)
    ensures multiset(a) == multiset(b)
  {
    forall x: Id ensures multiset(a)[x] == multiset(b)[x] {
      assert x in ToSet(a) <==> x in a;
      assert x in ToSet(b) <==> x in b;
      DistinctOnce(a, x);
      DistinctOnce(b, x);
    }
  }

  lemma {:induction false} DistinctOnce(s: seq<Id>, x: Id)
    requires Distinct(s)
    ensures multiset(s)[x] == if x in s then 1 else 0
  {
    if s != [] {
      var n := |s| - 1;
      DistinctOnce(s[..n], x);
      assert s == s[..n] + [s[n]];
    }
  }

  lemma RowsRankable(w: World, gs: seq<Id>, ts: seq<Id>)
    requires Distinct(ts)
    ensures Rankable(Rows(w, gs, ts))
  {
  }

  /** A team's sums do not depend on the order the gameweeks are listed in. */
  lemma SumsAgree(w: World, gs: seq<Id>, hs: seq<Id>, t: Id)
    requires multiset(gs) == multiset(hs)
    ensures TeamRow(w, gs, t) == TeamRow(w, hs, t)
  {
    SumPermutation(PointsIn(w, t), gs, hs);
    SumPermutation(PenaltyIn(w, t), gs, hs);
  }

  lemma RowsAgree(w: World, gs: seq<Id>, hs: seq<Id>, ts: seq<Id>)
    requires multiset(gs) == multiset(hs)
    ensures Rows(w, gs, ts) == Rows(w, hs, ts)
  {
    forall t ensures TeamRow(w, gs, t) == TeamRow(w, hs, t) {
      SumsAgree(w, gs, hs, t);
    }
  }

  lemma {:induction false} RowsPermute(w: World, gs: seq<Id>, a: seq<Id>, b: seq<Id>)
    requires multiset(a) == multiset(b)
    ensures multiset(Rows(w, gs, a)) == multiset(Rows(w, gs, b))
  {
    hide TeamRow;
    SameLength(a, b);
    if a != [] {
      var j := Occurs(a, a[0], b);
      RemoveSame(a, 0, b, j);
      var ra, rb := Rows(w, gs, a), Rows(w, gs, b);
      assert Rows(w, gs, a[..0] + a[1..]) == ra[..0] + ra[1..];
      assert Rows(w, gs, b[..j] + b[j + 1..]) == rb[..j] + rb[j + 1..];
      RowsPermute(w, gs, a[..0] + a[1..], b[..j] + b[j + 1..]);
      RestoreSame(ra, 0, rb, j);
    }
  }

  function InSet(all: set<Id>): Id -> bool
  {
    (t: Id) => t in all
  }

  lemma {:induction false} MemberRows(w: World, gs: seq<Id>, ts: seq<Id>, members: set<Id>)
    ensures Filter(MemberRow(members), Rows(w, gs, ts)) == Rows(w, gs, Filter(InSet(members), ts))
  {
    if ts != [] {
      var n := |ts| - 1;
      MemberRows(w, gs, ts[..n], members);
      assert Rows(w, gs, ts)[..n] == Rows(w, gs, ts[..n]);
    }
  }

  lemma {:induction false} FilterLists(ts: seq<Id>, all: set<Id>)
    requires Distinct(ts)
    ensures Distinct(Filter(InSet(all), ts)) && ToSet(Filter(InSet(all), ts)) == ToSet(ts) * all
  {
    FilterDistinct(InSet(all), ts);
    forall x ensures x in Filter(InSet(all), ts) <==> x in ts && x in all {
      FilterMembers(InSet(all), ts, x);
    }
  }

  /** A league's table is the competition's leaderboard with the other teams struck out, in whatever order the two
      queries deliver their gameweeks and teams. */
  lemma StandingsAgree(w: World, competition: Id, members: set<Id>, configured: seq<TieBreak>,
                       gs: seq<Id>, ts: seq<Id>, hs: seq<Id>, ms: seq<Id>)
    requires forall t :: t in members ==> t in w.teams && w.teams[t].competition == competition
    requires Lists(gs, w.scores.Keys) && Lists(hs, w.scores.Keys)
    requires Lists(ts, Entered(w, competition)) && Lists(ms, Playing(w, members))
    ensures Order(configured, Rows(w, hs, ms)) == Filter(MemberRow(members), Order(configured, Rows(w, gs, ts)))
  {
    var part := Filter(InSet(members), ts);
    ListsPermute(gs, hs);
    RowsAgree(w, gs, hs, ms);
    FilterLists(ts, members);
    assert ToSet(ts) * members == Playing(w, members);
    ListsPermute(part, ms);
    RowsPermute(w, gs, part, ms);
    RowsRankable(w, gs, part);
    RankCanonical(configured, Rows(w, gs, part), Rows(w, gs, ms));
    OrderFromRanks(configured, Rows(w, gs, part), Rows(w, gs, ms));
    MemberRows(w, gs, ts, members);
    RowsRankable(w, gs, ts);
    RankPart(configured, Rows(w, gs, ts), MemberRow(members));
  }

  lemma OrderFromRanks(configured: seq<TieBreak>, a: seq<Row>, b: seq<Row>)
    requires RankRows(configured, a) == RankRows(configured, b)
    ensures Order(configured, a) == Order(configured, b)
  {
    var x, y := Order(configured, a), Order(configured, b);
    assert |x| == |RankRows(configured, a)| && |y| == |RankRows(configured, b)|;
    forall i | 0 <= i < |x| ensures x[i] == y[i] {
      assert RankRows(configured, a)[i].row == x[i] && RankRows(configured, b)[i].row == y[i];
    }
  }

  /** On the overall tables teams that are level on everything else are not ordered by registration. */
  lemma OverallTableIgnoresRegistration(w: World, gs: seq<Id>, ts: seq<Id>, configured: seq<TieBreak>)
    requires Distinct(ts)
    ensures var r := RankRows(configured, Rows(w, gs, ts));
      forall i, j :: 0 <= i < j < |r| ==>
        RanksAbove(Filter(NotRegistration, Effective(configured)), r[i].row, r[j].row)
  {
    RowsRankable(w, gs, ts);
    RegistrationDecidesNothing(configured, Rows(w, gs, ts));
  }

  lemma FullRowsDated(w: World, gs: seq<Id>, ts: seq<Id>)
    requires Distinct(ts) && forall i :: 0 <= i < |ts| ==> ts[i] in w.teams
    ensures DistinctTeams(FullRows(w, gs, ts)) && Dated(FullRows(w, gs, ts))
    ensures DropAll(FullRows(w, gs, ts)) == Rows(w, gs, ts)
  {
  }

  /** The published table is the one that registration times would give if and only if they were redundant: no two teams
      level on the rules before `earlier_registration` are put otherwise by the later rules and the identifiers. */
  lemma OverallTableExactly(w: World, gs: seq<Id>, ts: seq<Id>, configured: seq<TieBreak>, k: nat)
    requires Distinct(ts) && (forall i :: 0 <= i < |ts| ==> ts[i] in w.teams)
    requires FirstRegistration(Effective(configured), k)
    ensures Dated(FullRows(w, gs, ts))
    ensures Order(configured, Rows(w, gs, ts)) == DropAll(Order(configured, FullRows(w, gs, ts))) <==>
      RegistrationRedundant(Effective(configured), FullRows(w, gs, ts), k)
  {
    FullRowsDated(w, gs, ts);
    DroppingExactly(configured, FullRows(w, gs, ts), k);
  }

  /** A team's stored totals added up. */
  ghost function StoredTotal(w: World, t: Id, gs: seq<Id>): real
  {
    SumOf((g: Id) => if g in w.scores && t in w.scores[g] then w.scores[g][t].totalPoints else 0.0, gs)
  }

  lemma PointsAreStored(w: World, t: Id, gs: seq<Id>)
    ensures SumOf(PointsIn(w, t), gs) == StoredTotal(w, t, gs)
  {
    SumAgrees(PointsIn(w, t),
      (g: Id) => if g in w.scores && t in w.scores[g] then w.scores[g][t].totalPoints else 0.0, gs);
  }

  /** The two teams have the same points, and `t` registered first. */
  ghost predicate LevelAndEarlier(w: World, gs: seq<Id>, t: Id, u: Id)
  {
    && t in w.teams && u in w.teams && StoredTotal(w, t, gs) == StoredTotal(w, u, gs)
    && w.teams[t].createdAt < w.teams[u].createdAt
  }

  /** With no further rule after it, as in the default rules, registration is redundant exactly when the identifiers of
      the teams that are level up to there were drawn in the order of registration. */
  lemma DefaultRulesExactly(w: World, gs: seq<Id>, ts: seq<Id>)
    requires Distinct(ts) && (forall i :: 0 <= i < |ts| ==> ts[i] in w.teams)
    ensures Order([], Rows(w, gs, ts)) == DropAll(Order([], FullRows(w, gs, ts))) <==>
      forall t, u :: t in ts && u in ts && LevelAndEarlier(w, gs, t, u) ==> t < u
  {
    hide Order, RanksAbove, Level, FullRow, LevelAndEarlier, StoredTotal;
    var rules, rows := Effective([]), FullRows(w, gs, ts);
    assert rules == [TotalPoints, EarlierRegistration];
    OverallTableExactly(w, gs, ts, [], 1);
    forall i, j | 0 <= i < |ts| && 0 <= j < |ts|
      ensures (Level(rules[..1], rows[i], rows[j]) && rows[i].createdAt.value < rows[j].createdAt.value)
        <==> LevelAndEarlier(w, gs, ts[i], ts[j])
      ensures RanksAbove(rules[2..], Drop(rows[i]), Drop(rows[j])) <==> ts[i] < ts[j]
    {
      DefaultPair(w, gs, ts[i], ts[j]);
    }
    if RegistrationRedundant(rules, rows, 1) {
      forall t, u | t in ts && u in ts && LevelAndEarlier(w, gs, t, u) ensures t < u {
        var i :| 0 <= i < |ts| && ts[i] == t;
        var j :| 0 <= j < |ts| && ts[j] == u;
        assert rows[i] in rows && rows[j] in rows;
      }
    }
    if forall t, u :: t in ts && u in ts && LevelAndEarlier(w, gs, t, u) ==> t < u {
      forall a, b | a in rows && b in rows && Level(rules[..1], a, b) && a.createdAt.value < b.createdAt.value
        ensures RanksAbove(rules[1 + 1..], Drop(a), Drop(b))
      {
        var i :| 0 <= i < |rows| && rows[i] == a;
        var j :| 0 <= j < |rows| && rows[j] == b;
        assert ts[i] in ts && ts[j] in ts;
      }
    }
  }

  lemma DefaultPair(w: World, gs: seq<Id>, t: Id, u: Id)
    requires t in w.teams && u in w.teams
    ensures var rules, a, b := [TotalPoints, EarlierRegistration], FullRow(w, gs, t), FullRow(w, gs, u);
      && a.createdAt.Some? && b.createdAt.Some?
      && ((Level(rules[..1], a, b) && a.createdAt.value < b.createdAt.value) <==> LevelAndEarlier(w, gs, t, u))
      && (RanksAbove(rules[2..], Drop(a), Drop(b)) <==> t < u)
  {
    PointsAreStored(w, t, gs);
    PointsAreStored(w, u, gs);
    assert [TotalPoints, EarlierRegistration][..1] == [TotalPoints] && [TotalPoints][0] == TotalPoints;
    assert [TotalPoints, EarlierRegistration][2..] == [];
  }
}
