/** A concrete table on which nothing but the captain's bonus decides. */
module BonusWitness {
  import opened Sequences
  import opened FantasyModel
  import opened Scoring
  import opened ScoreLaws
  import opened Season
  import opened SeasonFrames
  import opened SeasonRuns
  import opened CorrectionLaws
  import opened Witnesses
  import Leaderboards
  import Ranking
  import TableLaws

  /** Two teams with the same players: player 1 captains team 2 and player 2 captains team 1. */
  function Duel(): World
  {
    Created(Created(Start(4.0, 2.0), 2, Team(9, 1, 0, 0.0, BoughtBy(1, 2))), 1, Team(8, 1, 0, 0.0, BoughtBy(2, 1)))
  }

  function DuelActions(): seq<Action>
  {
    [CreateTeam(2, 9, 1, Lines(1, 2, 3)), CreateTeam(1, 8, 1, Lines(2, 1, 3)), Recalculate(1)]
  }

  /** Nothing has been played, and neither team has paid a penalty. */
  ghost predicate Duelling(w: World)
  {
    && NoStatistics(w) && w.appearances == {} && w.teams == Duel().teams
    && StateOf(w, 1, 1, Cup()).penalty == 0 && StateOf(w, 2, 1, Cup()).penalty == 0
  }

  lemma DuelReached()
    ensures Opening(Start(4.0, 2.0))
    ensures Run(Start(4.0, 2.0), DuelActions()) == ScoreSet(Duel(), {1})
  {
    hide Step, Opening, Pool, Cup, BoughtBy, Lines, Holdings, ScoreSet;
    StartOpens(4.0, 2.0);
    var w := Start(4.0, 2.0);
    RunThree(w, DuelActions()[0], DuelActions()[1], DuelActions()[2]);
    LinesBought(w, 2, 9, 2.0, 1, 2);
    var x := Created(w, 2, Team(9, 1, 0, 0.0, BoughtBy(1, 2)));
    LinesBought(x, 1, 8, 2.0, 2, 1);
    RecalculateIs(Duel(), 1);
  }

  lemma DuelOpens()
    ensures Duelling(Duel()) && Duel().corrections == [] && Duel().now == 0
  {
  }

  lemma DuelScored(w: World)
    requires Duelling(w)
    ensures var v := ScoreSet(w, {1}); Duelling(v) && v.corrections == w.corrections
  {
    hide ScoreSet, StateOf, Pool, BoughtBy, Holdings;
    ScoringFrame(w, {1});
    ScoringKeepsStates(w, {1});
    assert Enters(w, 1, 1) && Enters(w, 2, 1) && CompetitionOf(w, 1) == Cup();
  }

  lemma DuelTotal(records: map<Id, PointRecord>, c: Id, v: Id)
    requires (c == 1 && v == 2) || (c == 2 && v == 1)
    requires PointsOf(records, 1) == 6.0 && PointsOf(records, 2) == 0.0 && PointsOf(records, 3) == 0.0
    ensures SumOf(SelectionPoints(records), BoughtBy(c, v)) == 6.0
  {
    hide PointsOf;
    var s := BoughtBy(c, v);
    SumThree(SelectionPoints(records), s[0], s[1], s[2]);
  }

  lemma DuelStarters(w: World, t: Id, c: Id, v: Id)
    requires t in w.teams && w.teams[t].selections == BoughtBy(c, v)
    ensures Starters(w, t) == BoughtBy(c, v)
  {
    var s := BoughtBy(c, v);
    FilterThree(Starts, s[0], s[1], s[2]);
  }

  lemma DuelLeader(w: World, c: Id, v: Id)
    requires NoStatistics(w) && w.appearances == {}
    ensures EffectiveCaptain(w, 1, Cup(), BoughtBy(c, v)) == Choice(Some(c), false)
  {
    hide Plays, Cup;
    var s := BoughtBy(c, v);
    NobodyPlays(w, s[1]);
    assert First(Captains, s) == Some(s[0]);
    assert First(Vices, s) == First(Vices, s[1..]) == Some(s[1]);
  }

  lemma DuelTeam(w: World, t: Id, c: Id, v: Id)
    requires Duelling(w) && ((t == 2 && c == 1 && v == 2) || (t == 1 && c == 2 && v == 1))
    ensures Enters(w, t, 1) && CompetitionOf(w, 1) == Cup() && w.teams[t].selections == BoughtBy(c, v)
    ensures StateOf(w, t, 1, Cup()).penalty == 0 && NoStatistics(w) && w.appearances == {}
  {
    hide StateOf;
  }

  /** The three players earned six, nothing and nothing: a captain doubles what he earned himself. */
  lemma DuelScore(w: World, t: Id, c: Id, v: Id)
    requires Duelling(w) && ((t == 2 && c == 1 && v == 2) || (t == 1 && c == 2 && v == 1))
    requires var records := At(w.points, 1);
      PointsOf(records, 1) == 6.0 && PointsOf(records, 2) == 0.0 && PointsOf(records, 3) == 0.0
    ensures Enters(w, t, 1)
    ensures var s := TeamScoreOf(w, 1, t);
      s.playerPoints == 6.0 && s.captainBonus == (if c == 1 then 6.0 else 0.0) && s.transferPenalty == 0.0
      && s.totalPoints == (if c == 1 then 12.0 else 6.0)
  {
    hide Details, Pool, At, PointsOf, SumOf, Starters, EffectiveCaptain, StateOf, Duelling, NoStatistics, BoughtBy;
    DuelTeam(w, t, c, v);
    DuelStarters(w, t, c, v);
    DuelLeader(w, c, v);
    DuelTotal(At(w.points, 1), c, v);
    assert Cup().captainMultiplier == 2.0;
  }

  lemma NobodyPlays(w: World, s: Selection)
    requires NoStatistics(w) && w.appearances == {}
    ensures !Plays(w, 1, s)
  {
  }

  lemma DuelPoints(w: World)
    requires Duelling(w) && w.corrections == [Correction(0, 0, 1, 1, 0.0, 6.0)]
    ensures var records := At(ScoreSet(w, {1}).points, 1);
      PointsOf(records, 1) == 6.0 && PointsOf(records, 2) == 0.0 && PointsOf(records, 3) == 0.0
  {
    hide ScoreSet, At, Duel, Cup;
    ScoredTotal(w, 1);
    ScoredTotal(w, 2);
    ScoredTotal(w, 3);
    LatestAppend([], w.corrections[0], 1, 1);
    LatestAppend([], w.corrections[0], 1, 2);
    LatestAppend([], w.corrections[0], 1, 3);
  }

  lemma DecidedReached()
    ensures Opening(Start(4.0, 2.0))
    ensures 1 in At(ScoreSet(Duel(), {1}).points, 1)
    ensures Run(Start(4.0, 2.0), DuelActions() + [Correct(0, 1, 1, 6.0)])
      == ScoreSet(WithCorrection(ScoreSet(Duel(), {1}), 0, 1, 1, 6.0), {1})
    ensures var u := WithCorrection(ScoreSet(Duel(), {1}), 0, 1, 1, 6.0);
      Duelling(u) && u.corrections == [Correction(0, 0, 1, 1, 0.0, 6.0)]
  {
    hide Step, Opening, ScoreSet, Duel, DuelActions, Cup, At;
    DuelReached();
    DuelOpens();
    RunMore(Start(4.0, 2.0), DuelActions(), Correct(0, 1, 1, 6.0));
    ScoredTotal(Duel(), 1);
    DuelScored(Duel());
    ScoringFrame(Duel(), {1});
    CorrectIs(ScoreSet(Duel(), {1}), 0, 1, 1, 6.0);
  }

  /** Two teams earn the same with the same players, and the larger identifier comes first: its captain's bonus puts it
      ahead. */
  lemma BonusDecides()
    ensures Opening(Start(4.0, 2.0))
    ensures var v := Run(Start(4.0, 2.0), DuelActions() + [Correct(0, 1, 1, 6.0)]);
      && 1 in v.scores && 1 in v.scores[1] && 2 in v.scores[1]
      && v.scores[1][1].playerPoints == v.scores[1][2].playerPoints
      && v.scores[1][1].totalPoints == 6.0 && v.scores[1][2].totalPoints == 12.0
      && var r := Ranking.RankRows([], Leaderboards.Rows(v, [1], [1, 2]));
      |r| == 2 && r[0].row.team == 2 && r[0].row.points == 12.0 && r[1].row.team == 1 && r[1].row.points == 6.0
  {
    hide Step, Opening, ScoreSet, Duel, DuelActions, Cup, WithCorrection, TeamScoreOf, NewScores;
    hide Ranking.RankRows, Leaderboards.Rows, Duelling;
    DecidedReached();
    var u := WithCorrection(ScoreSet(Duel(), {1}), 0, 1, 1, 6.0);
    var v := ScoreSet(u, {1});
    DuelPoints(u);
    DuelScored(u);
    DuelScore(v, 1, 2, 1);
    DuelScore(v, 2, 1, 2);
    DuelEnters(u);
    ScoreOfTeam(u, {1}, 1, 1);
    ScoreOfTeam(u, {1}, 1, 2);
    TwoRanked(v);
  }

  lemma DuelEnters(w: World)
    requires Duelling(w)
    ensures Enters(w, 1, 1) && Enters(w, 2, 1)
  {
  }

  lemma TwoRanked(v: World)
    requires 1 in v.scores && 1 in v.scores[1] && 2 in v.scores[1]
    requires v.scores[1][1].totalPoints == 6.0 && v.scores[1][2].totalPoints == 12.0
    ensures var r := Ranking.RankRows([], Leaderboards.Rows(v, [1], [1, 2]));
      |r| == 2 && r[0].row.team == 2 && r[0].row.points == 12.0 && r[1].row.team == 1 && r[1].row.points == 6.0
  {
    hide Ranking.Order;
    var rows := Leaderboards.Rows(v, [1], [1, 2]);
    SumOne(Leaderboards.PointsIn(v, 1), 1);
    SumOne(Leaderboards.PointsIn(v, 2), 1);
    assert rows[0].points == 6.0 && rows[1].points == 12.0;
    Ranking.RankCorrect([], rows);
    Ranking.OrderMembers([], rows);
    var order := Ranking.Order([], rows);
    assert order[0] in rows && order[1] in rows;
    var r := Ranking.RankRows([], rows);
    assert r[0].row == order[0] && r[1].row == order[1];
    TableLaws.RulesMean(Ranking.Effective([]), order[0], order[1]);
    TableLaws.RulesInUse([]);
  }
}
