/** What the published tables show, said in the columns of the stored scores. */
module TableLaws {
  import opened Sequences
  import opened FantasyModel
  import opened Scoring
  import opened Season
  import opened SeasonFrames
  import opened SeasonRuns
  import opened Ranking
  import opened Leaderboards

  // Stored scores.

  /** Every stored total is what the players and the captain earned less the penalty. */
  ghost predicate Balanced(w: World)
  {
    forall g, t :: g in w.scores && t in w.scores[g] ==>
      w.scores[g][t].totalPoints
        == w.scores[g][t].playerPoints + w.scores[g][t].captainBonus - w.scores[g][t].transferPenalty
  }

  lemma ScoringBalances(w: World, gs: set<Id>)
    requires Balanced(w)
    ensures Balanced(ScoreSet(w, gs))
  {
    hide ScoreSet, TeamScoreOf;
    var v := ScoreSet(w, gs);
    forall g, t | g in v.scores && t in v.scores[g]
      ensures v.scores[g][t].totalPoints
        == v.scores[g][t].playerPoints + v.scores[g][t].captainBonus - v.scores[g][t].transferPenalty
    {
      ScoresAt(w, gs, g);
      assert v.scores[g] == At(v.scores, g);
      NewScoreBalanced(WithPoints(w, gs), g, t);
    }
  }

  lemma NewScoreBalanced(w: World, g: Id, t: Id)
    ensures t in NewScores(w, g) ==>
      var s := NewScores(w, g)[t]; s.totalPoints == s.playerPoints + s.captainBonus - s.transferPenalty
  {
    hide SumOf, Starters, EffectiveCaptain, Details, StateOf, CaptainBonus;
  }

  lemma SameScoresBalance(w: World, v: World)
    requires Balanced(w) && v.scores == w.scores
    ensures Balanced(v)
  {
  }

  lemma RescoreBalances(w: World, a: Action)
    requires Balanced(w) && ScoresRows(a)
    ensures Balanced(Step(w, a))
  {
    hide ScoreSet, Balanced, CanFinalize, CanCorrect, CanEditStatistic, WithCorrection;
    match a
    case Recalculate(g) => RecalculateBalances(w, g);
    case Finalize(g) => FinalizeBalances(w, g);
    case Correct(id, g, p, value) => CorrectBalances(w, id, g, p, value);
    case EditStatistic(i, value) => StatisticBalances(w, i, value);
    case ScoreAffected(fixtures) => ScoringBalances(w, Unfinal(w, Holding(w, ToSet(fixtures))));
  }

  lemma RecalculateBalances(w: World, g: Id)
    requires Balanced(w)
    ensures Balanced(AfterRecalculate(w, g))
  {
    hide ScoreSet, Balanced;
    ScoringBalances(w, {g});
    ScoringFrame(w, {g});
    if g in w.gameweeks {
      SameScoresBalance(ScoreSet(w, {g}), AfterRecalculate(w, g));
    }
  }

  lemma FinalizeBalances(w: World, g: Id)
    requires Balanced(w)
    ensures Balanced(AfterFinalize(w, g))
  {
    hide ScoreSet, Balanced;
    ScoringBalances(w, {g});
    ScoringFrame(w, {g});
    if CanFinalize(w, g) {
      SameScoresBalance(ScoreSet(w, {g}), AfterFinalize(w, g));
    }
  }

  lemma CorrectBalances(w: World, id: Id, g: Id, p: Id, value: real)
    requires Balanced(w)
    ensures Balanced(AfterCorrection(w, id, g, p, value))
  {
    hide ScoreSet, Balanced;
    if CanCorrect(w, g, p) {
      SameScoresBalance(w, WithCorrection(w, id, g, p, value));
      ScoringBalances(WithCorrection(w, id, g, p, value), {g});
    }
  }

  lemma StatisticBalances(w: World, i: nat, value: real)
    requires Balanced(w)
    ensures Balanced(AfterStatisticEdit(w, i, value))
  {
    hide ScoreSet, Balanced;
    if CanEditStatistic(w, i, value) {
      var u := w.(stats := w.stats[i := w.stats[i].(value := value)]);
      SameScoresBalance(w, u);
      ScoringBalances(u, Holding(w, {w.stats[i].fixture}));
    }
  }

  /** In every reachable state each stored score adds up. */
  lemma {:induction false} ScoresAddUp(w: World, actions: seq<Action>)
    requires Opening(w)
    ensures forall g, t :: g in Run(w, actions).scores && t in Run(w, actions).scores[g] ==>
      var s := Run(w, actions).scores[g][t];
      s.totalPoints == s.playerPoints + s.captainBonus - s.transferPenalty
  {
    hide Step, Framed;
    if actions != [] {
      var before, a := actions[..|actions| - 1], actions[|actions| - 1];
      var v := Run(w, before);
      ScoresAddUp(w, before);
      assert Balanced(v);
      StepBalances(v, a);
      assert Balanced(Step(v, a));
    }
  }

  lemma StepBalances(w: World, a: Action)
    requires Balanced(w)
    ensures Balanced(Step(w, a))
  {
    hide Step, Balanced;
    if ScoresRows(a) {
      RescoreBalances(w, a);
    } else {
      StepFramed(w, a);
      SameScoresBalance(w, Step(w, a));
    }
  }

  // Published rows.

  /** What a team's players and captains have earned in the listed gameweeks. */
  ghost function Earned(w: World, t: Id, gs: seq<Id>): real
  {
    SumOf((g: Id) => if g in w.scores && t in w.scores[g]
      then w.scores[g][t].playerPoints + w.scores[g][t].captainBonus else 0.0, gs)
  }

  /** What its transfers have cost it. */
  ghost function Fined(w: World, t: Id, gs: seq<Id>): real
  {
    SumOf((g: Id) => if g in w.scores && t in w.scores[g] then w.scores[g][t].transferPenalty else 0.0, gs)
  }

  lemma RowShows(w: World, gs: seq<Id>, t: Id)
    requires Balanced(w)
    ensures var r := TeamRow(w, gs, t);
      && r.team == t && r.createdAt == None
      && r.penalties == Fined(w, t, gs) && r.points == Earned(w, t, gs) - Fined(w, t, gs)
  {
    var earned := (g: Id) => if g in w.scores && t in w.scores[g]
      then w.scores[g][t].playerPoints + w.scores[g][t].captainBonus else 0.0;
    var fined := (g: Id) => if g in w.scores && t in w.scores[g] then w.scores[g][t].transferPenalty else 0.0;
    SumAgrees(PenaltyIn(w, t), fined, gs);
    SumLinear(PointsIn(w, t), earned, fined, gs);
    SumAgrees(earned, (g: Id) => if g in w.scores && t in w.scores[g]
      then w.scores[g][t].playerPoints + w.scores[g][t].captainBonus else 0.0, gs);
    SumAgrees(fined, (g: Id) => if g in w.scores && t in w.scores[g] then w.scores[g][t].transferPenalty else 0.0, gs);
  }

  // The comparison, rule by rule.

  /** `a` comes before `b`: the first configured column in which they differ decides, then the identifier. */
  ghost predicate Before(rules: seq<TieBreak>, a: Row, b: Row)
  {
    if rules == [] then a.team < b.team
    else match rules[0]
      case TotalPoints => a.points > b.points || (a.points == b.points && Before(rules[1..], a, b))
      case FewerTransferPenalties =>
        a.penalties < b.penalties || (a.penalties == b.penalties && Before(rules[1..], a, b))
      case EarlierRegistration =>
        if a.createdAt.Some? && b.createdAt.Some? then
          a.createdAt.value < b.createdAt.value
          || (a.createdAt.value == b.createdAt.value && Before(rules[1..], a, b))
        else Before(rules[1..], a, b)
      case Unsupported(_) => Before(rules[1..], a, b)
  }

  lemma {:induction false} RulesMean(rules: seq<TieBreak>, a: Row, b: Row)
    ensures RanksAbove(rules, a, b) <==> Before(rules, a, b)
  {
    if rules != [] {
      RanksAboveFirst(rules, a, b);
      assert rules[..1] == [rules[0]] && [rules[0]][0] == rules[0];
      RulesMean(rules[1..], a, b);
    }
  }

  lemma {:induction false} SupportedKept(rules: seq<TieBreak>)
    requires forall i :: 0 <= i < |rules| ==> !rules[i].Unsupported?
    ensures Filter(Supported, rules) == rules
  {
    if rules != [] {
      SupportedKept(rules[..|rules| - 1]);
    }
  }

  lemma UnsupportedStruck(rules: seq<TieBreak>, i: nat)
    requires i < |rules| && rules[i].Unsupported?
    ensures Filter(Supported, rules) == Filter(Supported, rules[..i] + rules[i + 1..])
  {
    hide Filter;
    FilterConcat(Supported, rules[..i + 1], rules[i + 1..]);
    FilterConcat(Supported, rules[..i], rules[i + 1..]);
    assert rules == rules[..i + 1] + rules[i + 1..];
    LastStruck(rules[..i + 1]);
    assert rules[..i + 1][..i] == rules[..i];
  }

  lemma LastStruck(rules: seq<TieBreak>)
    requires rules != [] && rules[|rules| - 1].Unsupported?
    ensures Filter(Supported, rules) == Filter(Supported, rules[..|rules| - 1])
  {
  }

  /** Rules with names the program does not know are struck out; the rest stand as configured or, when there are none,
      points and then registration decide. */
  lemma RulesInUse(configured: seq<TieBreak>)
    ensures Effective([]) == [TotalPoints, EarlierRegistration]
    ensures configured != [] && (forall i :: 0 <= i < |configured| ==> !configured[i].Unsupported?) ==>
      Effective(configured) == configured
    ensures forall i :: 0 <= i < |configured| && configured[i].Unsupported? ==>
      Effective(configured) == Effective(configured[..i] + configured[i + 1..])
  {
    hide Filter;
    assert Filter(Supported, []) == [] by {
      SupportedKept([]);
    }
    if forall i :: 0 <= i < |configured| ==> !configured[i].Unsupported? {
      SupportedKept(configured);
    }
    forall i | 0 <= i < |configured| && configured[i].Unsupported?
      ensures Effective(configured) == Effective(configured[..i] + configured[i + 1..])
    {
      UnsupportedStruck(configured, i);
    }
  }

  /** A row's columns are the sums of the stored ones. */
  ghost predicate Shown(w: World, gs: seq<Id>, r: Row)
  {
    r.penalties == Fined(w, r.team, gs) && r.points == Earned(w, r.team, gs) - r.penalties && r.createdAt == None
  }

  /** Every table of every reachable state has one numbered row for each of its teams, with the columns the stored
      scores add up to, in the order that the configured rules give to these columns. */
  lemma PublishedTable(w: World, actions: seq<Action>, configured: seq<TieBreak>, gs: seq<Id>, ts: seq<Id>)
    requires Opening(w) && Distinct(ts)
    ensures var v := Run(w, actions);
      var r := RankRows(configured, Leaderboards.Rows(v, gs, ts));
      && |r| == |ts|
      && (forall t :: t in ts <==> exists i :: 0 <= i < |r| && r[i].row.team == t)
      && (forall i :: 0 <= i < |r| ==> r[i].rank == i + 1 && Shown(v, gs, r[i].row))
      && (forall i, j :: 0 <= i < j < |r| ==> Before(Effective(configured), r[i].row, r[j].row))
  {
    hide Effective, Before, RanksAbove, Order, Run, Shown, TeamRow;
    ScoresAddUp(w, actions);
    var v := Run(w, actions);
    assert Balanced(v);
    var rows := Leaderboards.Rows(v, gs, ts);
    RowsRankable(v, gs, ts);
    RankCorrect(configured, rows);
    OrderMembers(configured, rows);
    var r := RankRows(configured, rows);
    forall i | 0 <= i < |ts| ensures rows[i].team == ts[i] && Shown(v, gs, rows[i]) {
      RowIsShown(v, gs, ts[i]);
    }
    forall i | 0 <= i < |r| ensures r[i].row in rows && r[i].row.team in ts && Shown(v, gs, r[i].row) {
      assert r[i].row == Order(configured, rows)[i];
    }
    forall t | t in ts ensures exists i :: 0 <= i < |r| && r[i].row.team == t {
      var k :| 0 <= k < |ts| && ts[k] == t;
      assert rows[k] in Order(configured, rows);
      var i :| 0 <= i < |r| && Order(configured, rows)[i] == rows[k];
      assert r[i].row.team == t;
    }
    forall i, j | 0 <= i < j < |r| ensures Before(Effective(configured), r[i].row, r[j].row) {
      RulesMean(Effective(configured), r[i].row, r[j].row);
    }
  }

  lemma RowIsShown(w: World, gs: seq<Id>, t: Id)
    requires Balanced(w)
    ensures TeamRow(w, gs, t).team == t && Shown(w, gs, TeamRow(w, gs, t))
  {
    RowShows(w, gs, t);
  }

  /** In every reachable state the leaderboard shows exactly the teams of the competition with a stored score, and a
      league's table exactly those of its members. */
  lemma WhoIsShown(w: World, actions: seq<Action>, configured: seq<TieBreak>, competition: Id, members: set<Id>,
                   gs: seq<Id>, ts: seq<Id>, t: Id)
    requires Opening(w) && Distinct(ts)
    ensures var v := Run(w, actions);
      var r := RankRows(configured, Leaderboards.Rows(v, gs, ts));
      && (Lists(ts, Entered(v, competition)) ==>
           ((exists i :: 0 <= i < |r| && r[i].row.team == t) <==>
             t in v.teams && v.teams[t].competition == competition && exists g :: g in v.scores && t in v.scores[g]))
      && (Lists(ts, Playing(v, members)) ==>
           ((exists i :: 0 <= i < |r| && r[i].row.team == t) <==>
             t in members && exists g :: g in v.scores && t in v.scores[g]))
  {
    hide RankRows, Leaderboards.Rows, Run;
    PublishedTable(w, actions, configured, gs, ts);
    assert t in ts <==> t in ToSet(ts);
  }
}
