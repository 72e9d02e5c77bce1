/** Statements over every run of the workflow. */
module SeasonRuns {
  import opened Sequences
  import opened FantasyModel
  import opened SquadRules
  import opened Scoring
  import opened ScoreLaws
  import opened Season
  import opened SeasonFrames
  import opened SeasonInvariant

  // Actions that leave teams and transfers alone.

  /** `v` differs from `w` only in the clock, statuses, statistics and what is derived from them. */
  ghost predicate SameSquads(w: World, v: World)
  {
    && v.teams == w.teams && v.players == w.players && v.competitions == w.competitions
    && v.transfers == w.transfers && v.founding == w.founding && SameWeeks(w, v)
  }

  lemma QuietKeepsKeys(w: World, v: World)
    requires ForeignKeys(w) && SameSquads(w, v)
    requires v.states == w.states && v.points == w.points && v.corrections == w.corrections
    ensures ForeignKeys(v)
  {
    forall g, p | p in At(v.points, g) ensures InPool(v, g, p) {
      assert InPool(w, g, p);
    }
    forall g, t | t in At(v.states, g) ensures Enters(v, t, g) {
      assert Enters(w, t, g);
    }
    assert CompetitionsKnown(v) && SquadsKnown(v) && CorrectionsKnown(v);
  }

  /** Changing the clock, a status, a statistic or a fixture keeps everything. */
  lemma QuietKeeps(w: World, v: World)
    requires Inv(w) && SameSquads(w, v)
    requires v.states == w.states && v.points == w.points && v.corrections == w.corrections
    ensures Inv(v)
  {
    QuietKeepsKeys(w, v);
    SquadsFrame(w, v);
    LedgersFrame(w, v);
    assert StatesKept(w, v);
    AccountsFrame(w, v);
    CorrectionsFrame(w, v);
  }

  lemma BalanceKeepsKeys(w: World, t: Id, g: Id, s: TransferState)
    requires ForeignKeys(w) && Enters(w, t, g)
    ensures ForeignKeys(WithState(w, t, g, s))
  {
    var v := WithState(w, t, g, s);
    forall h, u | u in At(v.states, h) ensures Enters(v, u, h) {
      assert u in At(w.states, h) || (u == t && h == g);
    }
    assert CompetitionsKnown(v) && SquadsKnown(v) && PointsKnown(v) && CorrectionsKnown(v);
  }

  lemma BalanceKeepsStates(w: World, t: Id, g: Id)
    requires Enters(w, t, g)
    ensures StatesKept(w, AfterBalance(w, t, g))
  {
    var v := AfterBalance(w, t, g);
    forall u, h | Enters(w, u, h)
      ensures StateOf(v, u, h, CompetitionOf(w, h)) == StateOf(w, u, h, CompetitionOf(w, h))
    {
      assert h != g ==> At(v.states, h) == At(w.states, h);
    }
  }

  lemma BalanceKeeps(w: World, t: Id, g: Id)
    requires Inv(w)
    ensures Inv(AfterBalance(w, t, g))
  {
    if Enters(w, t, g) {
      var v := AfterBalance(w, t, g);
      BalanceKeepsKeys(w, t, g, StateOf(w, t, g, CompetitionOf(w, g)));
      SquadsFrame(w, v);
      LedgersFrame(w, v);
      BalanceKeepsStates(w, t, g);
      AccountsFrame(w, v);
      CorrectionsFrame(w, v);
    }
  }

  lemma PreviewKeeps(w: World, t: Id, g: Id, playerOut: Id, playerIn: Id)
    requires Inv(w)
    ensures Inv(AfterPreview(w, t, g, playerOut, playerIn))
  {
    hide Inv, AfterBalance, CanTransfer;
    BalanceKeeps(w, t, g);
  }

  lemma TaskKeeps(w: World, fixtures: set<Id>)
    requires Inv(w)
    ensures Inv(AfterTask(w, fixtures))
  {
    hide Inv, ScoreSet;
    ScoringKeeps(w, Unfinal(w, Holding(w, fixtures)));
  }

  lemma RecalculateKeeps(w: World, g: Id)
    requires Inv(w)
    ensures Inv(AfterRecalculate(w, g))
  {
    hide Inv;
    if g in w.gameweeks {
      var v := ScoreSet(w, {g});
      ScoringKeeps(w, {g});
      QuietKeeps(v, WithStatus(v, g, Scoring));
    }
  }

  lemma FinalizeKeeps(w: World, g: Id)
    requires Inv(w)
    ensures Inv(AfterFinalize(w, g))
  {
    hide Inv;
    if CanFinalize(w, g) {
      var v := ScoreSet(w, {g});
      ScoringKeeps(w, {g});
      QuietKeeps(v, WithStatus(v, g, Finalized));
    }
  }

  lemma StatisticEditKeeps(w: World, i: nat, value: real)
    requires Inv(w)
    ensures Inv(AfterStatisticEdit(w, i, value))
  {
    hide Inv, ScoreSet;
    if CanEditStatistic(w, i, value) {
      var v := w.(stats := w.stats[i := w.stats[i].(value := value)]);
      QuietKeeps(w, v);
      ScoringKeeps(v, Holding(w, {w.stats[i].fixture}));
    }
  }

  // Corrections.

  lemma WithCorrectionKeepsKeys(w: World, id: Id, g: Id, p: Id, value: real)
    requires ForeignKeys(w) && p in At(w.points, g)
    ensures ForeignKeys(WithCorrection(w, id, g, p, value))
  {
    var v := WithCorrection(w, id, g, p, value);
    forall h, q ensures q in At(v.points, h) <==> q in At(w.points, h) {
    }
    forall h, q | q in At(v.points, h) ensures InPool(v, h, q) {
      assert InPool(w, h, q);
    }
    forall h, t | t in At(v.states, h) ensures Enters(v, t, h) {
      assert Enters(w, t, h);
    }
    forall i | 0 <= i < |v.corrections| ensures v.corrections[i].player in At(v.points, v.corrections[i].gameweek) {
      assert i < |w.corrections| ==> v.corrections[i] == w.corrections[i];
    }
    assert CompetitionsKnown(v) && SquadsKnown(v);
  }

  lemma WithCorrectionChains(w: World, id: Id, g: Id, p: Id, value: real)
    requires CorrectionsSound(w) && p in At(w.points, g)
    ensures var v := WithCorrection(w, id, g, p, value);
      && (forall i :: 0 <= i < |v.corrections| ==> Chained(v.corrections, i))
      && (forall h, q :: h != g ==> CorrectionShown(v, h, q))
  {
    var v := WithCorrection(w, id, g, p, value);
    var cs, c := w.corrections, v.corrections[|w.corrections|];
    forall i | 0 <= i < |v.corrections| ensures Chained(v.corrections, i) {
      if i < |cs| {
        assert Chained(cs, i);
        assert v.corrections[..i] == cs[..i] && v.corrections[i] == cs[i];
      } else {
        assert v.corrections[..i] == cs;
        assert CorrectionShown(w, g, p);
      }
    }
    forall h, q | h != g ensures CorrectionShown(v, h, q) {
      assert CorrectionShown(w, h, q);
      LatestAppend(cs, c, h, q);
    }
  }

  lemma WithCorrectionKeepsTeams(w: World, id: Id, g: Id, p: Id, value: real)
    requires SquadsSound(w) && LedgersSound(w) && AccountsSound(w) && p in At(w.points, g)
    ensures var v := WithCorrection(w, id, g, p, value);
      SquadsSound(v) && LedgersSound(v) && AccountsSound(v)
  {
    var v := WithCorrection(w, id, g, p, value);
    SquadsFrame(w, v);
    LedgersFrame(w, v);
    assert StatesKept(w, v);
    AccountsFrame(w, v);
  }

  lemma CorrectionKeeps(w: World, id: Id, g: Id, p: Id, value: real)
    requires Inv(w)
    ensures Inv(AfterCorrection(w, id, g, p, value))
  {
    if CanCorrect(w, g, p) {
      var v := WithCorrection(w, id, g, p, value);
      WithCorrectionKeepsKeys(w, id, g, p, value);
      WithCorrectionChains(w, id, g, p, value);
      WithCorrectionKeepsTeams(w, id, g, p, value);
      ScoringShows(v, {g});
      ScoringKeepsTeams(v, {g});
    }
  }

  // Market edits.

  lemma EditedKeepsKeys(w: World, p: Id, price: real, eligible: bool, availability: Availability)
    requires ForeignKeys(w) && p in w.players
    ensures ForeignKeys(Edited(w, p, price, eligible, availability))
  {
    var v := Edited(w, p, price, eligible, availability);
    forall g, q | q in At(v.points, g) ensures InPool(v, g, q) {
      assert InPool(w, g, q);
    }
    forall g, t | t in At(v.states, g) ensures Enters(v, t, g) {
      assert Enters(w, t, g);
    }
    assert CompetitionsKnown(v) && SquadsKnown(v) && CorrectionsKnown(v);
  }

  lemma EditedKeepsSquad(w: World, t: Id, p: Id, price: real, eligible: bool, availability: Availability)
    requires t in w.teams && SquadSound(w, t) && p in w.players
    ensures SquadSound(Edited(w, p, price, eligible, availability), t)
  {
    var v := Edited(w, p, price, eligible, availability);
    var team := w.teams[t];
    ShapeReads(team.competition, w.competitions[team.competition], SquadOf(w, t), SquadOf(v, t));
  }

  lemma EditedKeepsSquads(w: World, p: Id, price: real, eligible: bool, availability: Availability)
    requires SquadsSound(w) && p in w.players
    ensures SquadsSound(Edited(w, p, price, eligible, availability))
  {
    var v := Edited(w, p, price, eligible, availability);
    forall t | t in v.teams ensures SquadSound(v, t) {
      EditedKeepsSquad(w, t, p, price, eligible, availability);
    }
  }

  lemma EditPlayerKeeps(w: World, p: Id, price: real, eligible: bool, availability: Availability)
    requires Inv(w)
    ensures Inv(AfterEdit(w, p, price, eligible, availability))
  {
    hide SquadsSound, LedgersSound, AccountsSound, CorrectionsSound, ForeignKeys;
    if p in w.players {
      var v := Edited(w, p, price, eligible, availability);
      EditedKeepsKeys(w, p, price, eligible, availability);
      EditedKeepsSquads(w, p, price, eligible, availability);
      LedgersFrame(w, v);
      assert StatesKept(w, v);
      AccountsFrame(w, v);
      CorrectionsFrame(w, v);
    }
  }

  lemma TeamStepKeeps(w: World, a: Action)
    requires Inv(w)
    requires a.CreateTeam? || a.SetLineup? || a.MakeTransfer? || a.PreviewTransfer? || a.ReadBalance?
    ensures Inv(Step(w, a))
  {
    hide AfterCreate, AfterLineup, AfterTransfer, AfterPreview, AfterBalance, Inv;
    match a
    case CreateTeam(t, owner, c, items) => CreateKeeps(w, t, owner, c, items);
    case SetLineup(t, items) => LineupKeeps(w, t, items);
    case MakeTransfer(t, g, o, i) => TransferKeeps(w, t, g, o, i);
    case PreviewTransfer(t, g, o, i) => PreviewKeeps(w, t, g, o, i);
    case ReadBalance(t, g) => BalanceKeeps(w, t, g);
  }

  lemma ScoringStepKeeps(w: World, a: Action)
    requires Inv(w)
    requires a.Recalculate? || a.Finalize? || a.Correct? || a.EditStatistic? || a.ScoreAffected? || a.EditPlayer?
    ensures Inv(Step(w, a))
  {
    hide AfterTransition, AfterRecalculate, AfterFinalize, AfterCorrection, AfterStatisticEdit, AfterTask, AfterEdit, Inv;
    match a
    case Recalculate(g) => RecalculateKeeps(w, g);
    case Finalize(g) => FinalizeKeeps(w, g);
    case Correct(id, g, p, value) => CorrectionKeeps(w, id, g, p, value);
    case EditStatistic(i, value) => StatisticEditKeeps(w, i, value);
    case ScoreAffected(fixtures) => TaskKeeps(w, ToSet(fixtures));
    case EditPlayer(p, price, eligible, availability) => EditPlayerKeeps(w, p, price, eligible, availability);
  }

  lemma TransitionKeeps(w: World, g: Id, target: Status)
    requires Inv(w)
    ensures Inv(AfterTransition(w, g, target))
  {
    if CanTransition(w, g, target) {
      QuietKeeps(w, WithStatus(w, g, target));
    }
  }

  lemma FieldKeeps(w: World, v: World)
    requires Inv(w)
    requires v == w.(now := v.now, appearances := v.appearances, finished := v.finished, stats := v.stats)
    ensures Inv(v)
  {
    QuietKeeps(w, v);
  }

  lemma QuietStepKeeps(w: World, a: Action)
    requires Inv(w)
    requires a.Transition? || a.RecordStatistic? || a.Appear? || a.FinishFixture? || a.Tick?
    ensures Inv(Step(w, a))
  {
    hide Step, AfterTransition, Inv;
    if a.Transition? {
      TransitionIs(w, a.gameweek, a.target);
      TransitionKeeps(w, a.gameweek, a.target);
    } else {
      StepFramed(w, a);
      FieldKeeps(w, Step(w, a));
    }
  }

  lemma TransitionIs(w: World, g: Id, target: Status)
    ensures Step(w, Transition(g, target)) == AfterTransition(w, g, target)
  {
    hide AfterTransition;
  }

  /** Every action keeps the invariant. */
  lemma StepKeeps(w: World, a: Action)
    requires Inv(w)
    ensures Inv(Step(w, a))
  {
    hide Step, Inv;
    match a
    case CreateTeam(_, _, _, _) => TeamStepKeeps(w, a);
    case SetLineup(_, _) => TeamStepKeeps(w, a);
    case MakeTransfer(_, _, _, _) => TeamStepKeeps(w, a);
    case PreviewTransfer(_, _, _, _) => TeamStepKeeps(w, a);
    case ReadBalance(_, _) => TeamStepKeeps(w, a);
    case Recalculate(_) => ScoringStepKeeps(w, a);
    case Finalize(_) => ScoringStepKeeps(w, a);
    case Correct(_, _, _, _) => ScoringStepKeeps(w, a);
    case EditStatistic(_, _) => ScoringStepKeeps(w, a);
    case ScoreAffected(_) => ScoringStepKeeps(w, a);
    case EditPlayer(_, _, _, _) => ScoringStepKeeps(w, a);
    case Transition(_, _) => QuietStepKeeps(w, a);
    case RecordStatistic(_) => QuietStepKeeps(w, a);
    case Appear(_, _) => QuietStepKeeps(w, a);
    case FinishFixture(_) => QuietStepKeeps(w, a);
    case Tick(_) => QuietStepKeeps(w, a);
  }

  /** A season before its first team. */
  ghost predicate Opening(w: World)
  {
    && CompetitionsKnown(w)
    && w.teams == map[] && w.transfers == [] && w.states == map[] && w.points == map[] && w.corrections == []
    && w.scores == map[]
  }

  lemma {:induction false} RunKeeps(w: World, actions: seq<Action>)
    requires Inv(w)
    ensures Inv(Run(w, actions))
  {
    hide Step, Inv;
    if actions != [] {
      RunKeeps(w, actions[..|actions| - 1]);
      StepKeeps(Run(w, actions[..|actions| - 1]), actions[|actions| - 1]);
    }
  }

  lemma OpeningSound(w: World)
    requires Opening(w)
    ensures Inv(w)
  {
  }
}
