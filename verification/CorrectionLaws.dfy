/** Corrections take effect, stick, chain and act linearly. */
module CorrectionLaws {
  import opened Sequences
  import opened FantasyModel
  import opened Scoring
  import opened ScoreLaws
  import opened Season
  import opened SeasonFrames
  import opened SeasonInvariant
  import opened SeasonRuns

  // One correction.

  /** No correction of the record was created at or after the present moment under a larger id. */
  predicate Newest(cs: seq<Correction>, now: int, id: Id, g: Id, p: Id)
  {
    forall i :: 0 <= i < |cs| && About(cs[i], g, p) ==>
      cs[i].createdAt < now || (cs[i].createdAt == now && cs[i].id < id)
  }

  /** Of corrections created at one instant, the one with the largest id is the latest. */
  lemma NewestIsLatest(w: World, id: Id, g: Id, p: Id, value: real)
    requires p in At(w.points, g)
    ensures var v := WithCorrection(w, id, g, p, value);
      Newest(w.corrections, w.now, id, g, p) ==>
        Latest(v.corrections, g, p) == Some(v.corrections[|w.corrections|])
  {
    var v := WithCorrection(w, id, g, p, value);
    LatestIsLast(w.corrections, g, p);
    LatestAppend(w.corrections, v.corrections[|w.corrections|], g, p);
  }

  /** A correction sets the player's total exactly when no tied correction with a larger id outranks it
      with another value. */
  lemma CorrectionTakesEffect(w: World, id: Id, g: Id, p: Id, value: real)
    requires Inv(w) && CanCorrect(w, g, p)
    ensures var v := AfterCorrection(w, id, g, p, value);
      var before := Latest(w.corrections, g, p);
      && p in At(v.points, g)
      && (At(v.points, g)[p].total == value <==>
        before.None? || before.value.newValue == value
        || before.value.createdAt < w.now || (before.value.createdAt == w.now && before.value.id < id))
  {
    var u := WithCorrection(w, id, g, p, value);
    WithCorrectionKeepsKeys(w, id, g, p, value);
    assert InPool(u, g, p);
    ScoreRecords(u, {g}, g, p);
    CorrectedTotal(u, g, p);
    LatestAppend(w.corrections, u.corrections[|w.corrections|], g, p);
  }

  // Corrections over a run.

  lemma ScoringKeepsLatest(w: World, gs: set<Id>, g: Id, p: Id)
    ensures Latest(ScoreSet(w, gs).corrections, g, p) == Latest(w.corrections, g, p)
  {
  }

  /** `a` is a correction of player `p` in gameweek `g`. */
  predicate Corrects(a: Action, g: Id, p: Id)
  {
    a.Correct? && a.gameweek == g && a.player == p
  }

  lemma OtherCorrection(w: World, id: Id, h: Id, q: Id, value: real, g: Id, p: Id)
    requires h != g || q != p
    ensures Latest(AfterCorrection(w, id, h, q, value).corrections, g, p) == Latest(w.corrections, g, p)
  {
    if CanCorrect(w, h, q) {
      var u := WithCorrection(w, id, h, q, value);
      LatestAppend(w.corrections, u.corrections[|w.corrections|], g, p);
      ScoringKeepsLatest(u, {h}, g, p);
    }
  }

  /** The latest correction of a record changes only when that record is corrected. */
  lemma LatestStays(w: World, a: Action, g: Id, p: Id)
    requires !Corrects(a, g, p)
    ensures Latest(Step(w, a).corrections, g, p) == Latest(w.corrections, g, p)
  {
    hide AfterCorrection;
    if a.Correct? {
      OtherCorrection(w, a.id, a.gameweek, a.player, a.value, g, p);
    } else {
      StepFramed(w, a);
    }
  }

  lemma {:induction false} LatestStaysOverRun(w: World, actions: seq<Action>, g: Id, p: Id)
    requires forall i :: 0 <= i < |actions| ==> !Corrects(actions[i], g, p)
    ensures Latest(Run(w, actions).corrections, g, p) == Latest(w.corrections, g, p)
  {
    if actions != [] {
      var n := |actions| - 1;
      LatestStaysOverRun(w, actions[..n], g, p);
      LatestStays(Run(w, actions[..n]), actions[n], g, p);
    }
  }

  /** A corrected total survives every rescoring, statistic edit and transfer until the next correction. */
  lemma CorrectionSticks(w: World, id: Id, g: Id, p: Id, value: real, actions: seq<Action>)
    requires Inv(w) && CanCorrect(w, g, p) && Newest(w.corrections, w.now, id, g, p)
    requires forall i :: 0 <= i < |actions| ==> !Corrects(actions[i], g, p)
    ensures var v := Run(AfterCorrection(w, id, g, p, value), actions);
      p in At(v.points, g) && At(v.points, g)[p].total == value
  {
    hide AfterCorrection, Inv, Newest;
    var u := AfterCorrection(w, id, g, p, value);
    CorrectionBecomesLatest(w, id, g, p, value);
    LatestStaysOverRun(u, actions, g, p);
    CorrectionKeeps(w, id, g, p, value);
    RunKeeps(u, actions);
    ShownInRun(Run(u, actions), g, p);
  }

  lemma ShownInRun(v: World, g: Id, p: Id)
    requires Inv(v)
    ensures CorrectionShown(v, g, p)
  {
  }

  lemma CorrectionBecomesLatest(w: World, id: Id, g: Id, p: Id, value: real)
    requires CanCorrect(w, g, p) && Newest(w.corrections, w.now, id, g, p)
    ensures var latest := Latest(AfterCorrection(w, id, g, p, value).corrections, g, p);
      latest.Some? && latest.value.newValue == value
  {
    hide ScoreSet;
    NewestIsLatest(w, id, g, p, value);
    ScoringKeepsLatest(WithCorrection(w, id, g, p, value), {g}, g, p);
  }

  /** `i` and `j` are consecutive corrections of one record. */
  ghost predicate Consecutive(cs: seq<Correction>, i: nat, j: nat)
  {
    && i < j < |cs|
    && About(cs[j], cs[i].gameweek, cs[i].player)
    && forall k :: i < k < j ==> !About(cs[k], cs[i].gameweek, cs[i].player)
  }

  ghost predicate TimesIncrease(cs: seq<Correction>)
  {
    forall i, j :: 0 <= i < j < |cs| ==> cs[i].createdAt < cs[j].createdAt
  }

  lemma {:induction false} LastIsLatest(cs: seq<Correction>, i: nat, g: Id, p: Id)
    requires TimesIncrease(cs) && i < |cs| && About(cs[i], g, p)
    requires forall k :: i < k < |cs| ==> !About(cs[k], g, p)
    ensures Latest(cs, g, p) == Some(cs[i])
  {
    var n := |cs| - 1;
    if i < n {
      LastIsLatest(cs[..n], i, g, p);
    } else {
      LatestIsLast(cs[..n], g, p);
      if Latest(cs[..n], g, p).Some? {
        var c := Latest(cs[..n], g, p).value;
        var k :| 0 <= k < n && cs[..n][k] == c;
        assert cs[k].createdAt < cs[n].createdAt;
      }
    }
  }

  lemma ChainedInRun(v: World, i: nat)
    requires Inv(v) && i < |v.corrections|
    ensures Chained(v.corrections, i)
  {
  }

  /** The corrections of a record form a chain: each one starts from the value the one before it set. */
  lemma CorrectionsChain(w: World, actions: seq<Action>, i: nat, j: nat)
    requires Opening(w)
    requires TimesIncrease(Run(w, actions).corrections) && Consecutive(Run(w, actions).corrections, i, j)
    ensures Run(w, actions).corrections[j].previousValue == Run(w, actions).corrections[i].newValue
  {
    hide Inv, Step;
    OpeningSound(w);
    RunKeeps(w, actions);
    var cs := Run(w, actions).corrections;
    ChainedInRun(Run(w, actions), j);
    LastIsLatest(cs[..j], i, cs[i].gameweek, cs[i].player);
  }

  // The linear effect of a correction.

  /** The stored rows of gameweek `g` are what scoring it now would give. */
  ghost predicate FreshlyScored(w: World, g: Id)
  {
    && (forall p :: InPool(w, g, p) ==> p in At(w.points, g) && At(w.points, g)[p] == PlayerRecord(w, g, p))
    && (forall t :: Enters(w, t, g) ==> t in At(w.scores, g) && At(w.scores, g)[t] == TeamScoreOf(w, g, t))
  }

  lemma ScoringRefreshes(w: World, gs: set<Id>, g: Id)
    requires g in gs
    ensures FreshlyScored(ScoreSet(w, gs), g)
  {
    var v := ScoreSet(w, gs);
    forall p | InPool(v, g, p)
      ensures p in At(v.points, g) && At(v.points, g)[p] == PlayerRecord(v, g, p)
    {
      ScoreRecords(w, gs, g, p);
      RecordReads(w, v, g, p);
    }
    forall t | Enters(v, t, g) ensures t in At(v.scores, g) && At(v.scores, g)[t] == TeamScoreOf(v, g, t) {
      ScoreOfTeam(w, gs, g, t);
    }
  }

  /** A team's stored score after scoring is its score in the scored state. */
  lemma ScoreOfTeam(w: World, gs: set<Id>, g: Id, t: Id)
    requires g in gs && Enters(w, t, g)
    ensures var v := ScoreSet(w, gs);
      Enters(v, t, g) && t in At(v.scores, g) && At(v.scores, g)[t] == TeamScoreOf(v, g, t)
  {
    ScoresAt(w, gs, g);
    NewScoreOf(WithPoints(w, gs), g, t);
    ScoringKeepsStates(w, gs);
    TeamScoreReads(WithPoints(w, gs), ScoreSet(w, gs), g, t);
  }

  /** Scoring after a correction changes no other player's points and moves the corrected one to the new value. */
  lemma OnlyCorrectedMoves(w: World, id: Id, g: Id, p: Id, value: real, q: Id)
    requires ForeignKeys(w) && FreshlyScored(w, g) && CanCorrect(w, g, p) && Newest(w.corrections, w.now, id, g, p)
    ensures var v := AfterCorrection(w, id, g, p, value);
      PointsOf(At(v.points, g), q) ==
        PointsOf(At(w.points, g), q) + if q == p then value - At(w.points, g)[p].total else 0.0
  {
    var u := WithCorrection(w, id, g, p, value);
    ScoreRecords(u, {g}, g, q);
    assert InPool(w, g, p);
    if q == p {
      NewestIsLatest(w, id, g, p, value);
      CorrectedTotal(u, g, p);
    } else if q in At(w.points, g) {
      assert InPool(w, g, q);
      LatestAppend(w.corrections, u.corrections[|w.corrections|], g, q);
      CorrectedTotal(u, g, q);
      CorrectedTotal(w, g, q);
    }
  }

  lemma CorrectionReads(w: World, id: Id, g: Id, p: Id, value: real)
    requires CanCorrect(w, g, p)
    ensures SameField(w, AfterCorrection(w, id, g, p, value))
  {
  }

  lemma CorrectionKeepsState(w: World, id: Id, g: Id, p: Id, value: real, t: Id)
    requires CanCorrect(w, g, p) && Enters(w, t, g)
    ensures StateOf(AfterCorrection(w, id, g, p, value), t, g, CompetitionOf(w, g)) == StateOf(w, t, g, CompetitionOf(w, g))
  {
    var u := WithCorrection(w, id, g, p, value);
    assert Enters(u, t, g);
    ScoringKeepsStates(u, {g});
    assert StateOf(u, t, g, CompetitionOf(w, g)) == StateOf(w, t, g, CompetitionOf(w, g));
  }

  lemma CorrectionScores(w: World, id: Id, g: Id, p: Id, value: real, t: Id)
    requires CanCorrect(w, g, p) && Enters(w, t, g)
    ensures var v := AfterCorrection(w, id, g, p, value);
      Enters(v, t, g) && t in At(v.scores, g) && At(v.scores, g)[t] == TeamScoreOf(v, g, t)
  {
    ScoreOfTeam(WithCorrection(w, id, g, p, value), {g}, g, t);
  }

  /** What a team gains when one player's points move from `before` to `after`. */
  ghost predicate MovesBy(before: TeamScore, after: TeamScore, starters: seq<Selection>, multiplier: real, p: Id,
                          delta: real)
  {
    && after.effectiveCaptain == before.effectiveCaptain && after.fallback == before.fallback
    && after.totalPoints == before.totalPoints + Worth(starters, before.effectiveCaptain, multiplier, p, delta)
  }

  lemma StoredScoresMove(w: World, v: World, g: Id, t: Id, p: Id, delta: real)
    requires SameField(w, v) && Enters(w, t, g) && DistinctMembers(w.teams[t].selections)
    requires StateOf(w, t, g, CompetitionOf(w, g)) == StateOf(v, t, g, CompetitionOf(w, g))
    requires forall q :: PointsOf(At(v.points, g), q) == PointsOf(At(w.points, g), q) + if q == p then delta else 0.0
    ensures MovesBy(TeamScoreOf(w, g, t), TeamScoreOf(v, g, t), Starters(w, t), CompetitionOf(w, g).captainMultiplier,
              p, delta)
  {
    OnePlayerMoves(w, v, g, t, p, delta);
  }

  lemma CorrectionMovesPoints(w: World, id: Id, g: Id, p: Id, value: real)
    requires ForeignKeys(w) && FreshlyScored(w, g) && CanCorrect(w, g, p) && Newest(w.corrections, w.now, id, g, p)
    ensures var v, delta := AfterCorrection(w, id, g, p, value), value - At(w.points, g)[p].total;
      forall q :: PointsOf(At(v.points, g), q) == PointsOf(At(w.points, g), q) + if q == p then delta else 0.0
  {
    hide AfterCorrection, FreshlyScored, ForeignKeys, Newest;
    var v, delta := AfterCorrection(w, id, g, p, value), value - At(w.points, g)[p].total;
    forall q ensures PointsOf(At(v.points, g), q) == PointsOf(At(w.points, g), q) + if q == p then delta else 0.0 {
      OnlyCorrectedMoves(w, id, g, p, value, q);
    }
  }

  lemma CorrectionMovesTeam(w: World, id: Id, g: Id, p: Id, value: real, t: Id)
    requires ForeignKeys(w) && FreshlyScored(w, g) && Enters(w, t, g) && DistinctMembers(w.teams[t].selections)
    requires CanCorrect(w, g, p) && Newest(w.corrections, w.now, id, g, p)
    ensures var v := AfterCorrection(w, id, g, p, value);
      && Enters(v, t, g)
      && MovesBy(TeamScoreOf(w, g, t), TeamScoreOf(v, g, t), Starters(w, t), CompetitionOf(w, g).captainMultiplier,
           p, value - At(w.points, g)[p].total)
  {
    hide AfterCorrection, FreshlyScored, ForeignKeys, Newest, MovesBy, SameField;
    CorrectionMovesPoints(w, id, g, p, value);
    CorrectionReads(w, id, g, p, value);
    CorrectionKeepsState(w, id, g, p, value, t);
    StoredScoresMove(w, AfterCorrection(w, id, g, p, value), g, t, p, value - At(w.points, g)[p].total);
  }

  /** Correcting a player of a freshly scored gameweek moves every team's total by what the difference is worth to
      it: nothing, the difference, or the difference times the captain multiplier. */
  lemma CorrectionIsLinear(w: World, id: Id, g: Id, p: Id, value: real, t: Id)
    requires ForeignKeys(w) && SquadsSound(w) && FreshlyScored(w, g) && Enters(w, t, g)
    requires CanCorrect(w, g, p) && Newest(w.corrections, w.now, id, g, p)
    ensures var v := AfterCorrection(w, id, g, p, value);
      && t in At(w.scores, g) && t in At(v.scores, g)
      && MovesBy(At(w.scores, g)[t], At(v.scores, g)[t], Starters(w, t), CompetitionOf(w, g).captainMultiplier,
           p, value - At(w.points, g)[p].total)
  {
    SquadDistinct(w, t);
    CorrectionMovesTeam(w, id, g, p, value, t);
    CorrectionScores(w, id, g, p, value, t);
  }

  lemma SquadDistinct(w: World, t: Id)
    requires SquadsSound(w) && t in w.teams
    ensures DistinctMembers(w.teams[t].selections)
  {
    assert SquadSound(w, t);
    ShapeDistinct(w.players, w.teams[t].selections);
  }
}
