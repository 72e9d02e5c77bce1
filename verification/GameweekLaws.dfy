/** The end of a gameweek: what FINALIZED guarantees, and where it does not. */
module GameweekLaws {
  import opened Sequences
  import opened FantasyModel
  import opened Scoring
  import opened Season
  import opened SeasonFrames
  import opened CorrectionLaws

  // Every fixture of a finalized gameweek is over, as long as nobody finalizes by a bare transition.

  ghost predicate FinalMeansOver(w: World)
  {
    forall g :: g in w.gameweeks && w.gameweeks[g].status == Finalized ==> w.gameweeks[g].fixtures <= w.finished
  }

  lemma ScoringKeepsWeeks(w: World, gs: set<Id>)
    ensures ScoreSet(w, gs).gameweeks == w.gameweeks && ScoreSet(w, gs).finished == w.finished
  {
    hide Overlay, RecordRows, StateRows, ScoreRows;
  }

  /** The `finalize` action leaves a gameweek whose fixtures are over and whose rows are up to date. */
  lemma FinalizeIsComplete(w: World, g: Id)
    requires CanFinalize(w, g)
    ensures var v := AfterFinalize(w, g);
      v.gameweeks[g].status == Finalized && v.gameweeks[g].fixtures <= v.finished && FreshlyScored(v, g)
  {
    var u, v := ScoreSet(w, {g}), AfterFinalize(w, g);
    ScoringRefreshes(w, {g}, g);
    StatusUnread(u, g, Finalized);
  }

  /** A status is not an input of scoring. */
  lemma StatusUnread(w: World, g: Id, status: Status)
    requires g in w.gameweeks
    ensures FreshlyScored(WithStatus(w, g, status), g) <==> FreshlyScored(w, g)
  {
    var v := WithStatus(w, g, status);
    forall p | InPool(w, g, p) ensures PlayerRecord(v, g, p) == PlayerRecord(w, g, p) {
    }
    forall p ensures InPool(v, g, p) <==> InPool(w, g, p) {
    }
    forall t ensures Enters(v, t, g) <==> Enters(w, t, g) {
    }
    forall t | Enters(w, t, g) ensures TeamScoreOf(v, g, t) == TeamScoreOf(w, g, t) {
      var c := CompetitionOf(w, g);
      forall s: Selection ensures Plays(v, g, s) == Plays(w, g, s) {
      }
    }
  }

  /** The `transition` action asks for neither: its result is over and up to date exactly when it already was. */
  lemma TransitionChecksNothing(w: World, g: Id)
    requires CanTransition(w, g, Finalized)
    ensures var v := AfterTransition(w, g, Finalized);
      && (v.gameweeks[g].fixtures <= v.finished <==> w.gameweeks[g].fixtures <= w.finished)
      && (FreshlyScored(v, g) <==> FreshlyScored(w, g))
      && (FinalMeansOver(w) ==> (FinalMeansOver(v) <==> w.gameweeks[g].fixtures <= w.finished))
  {
    StatusUnread(w, g, Finalized);
  }

  /** No transition to FINALIZED is carried out while a fixture of its gameweek is open. */
  ghost predicate Patient(w: World, actions: seq<Action>)
  {
    actions == [] ||
    var n := |actions| - 1;
    var v := Run(w, actions[..n]);
    Patient(w, actions[..n]) && !Hasty(v, actions[n])
  }

  ghost predicate Hasty(w: World, a: Action)
  {
    && a.Transition? && a.target == Finalized && CanTransition(w, a.gameweek, Finalized)
    && !(w.gameweeks[a.gameweek].fixtures <= w.finished)
  }

  lemma StepFinalMeansOver(w: World, a: Action)
    requires FinalMeansOver(w)
    ensures FinalMeansOver(Step(w, a)) <==> !Hasty(w, a)
  {
    hide ScoreSet, Step;
    match a
    case Transition(g, target) => WeekStepOver(w, a);
    case Recalculate(g) => WeekStepOver(w, a);
    case Finalize(g) => WeekStepOver(w, a);
    case _ => StepFramed(w, a);
  }

  lemma WeekStepOver(w: World, a: Action)
    requires FinalMeansOver(w) && (a.Transition? || a.Recalculate? || a.Finalize?)
    ensures FinalMeansOver(Step(w, a)) <==> !Hasty(w, a)
  {
    hide Overlay, RecordRows, StateRows, ScoreRows;
    var v := Step(w, a);
    if Hasty(w, a) {
      assert v.gameweeks[a.gameweek].status == Finalized;
    }
  }

  /** In every run, FINALIZED means that the fixtures are over, provided no transition was hasty. */
  lemma {:induction false} FinalMeansOverInRuns(w: World, actions: seq<Action>)
    requires FinalMeansOver(w) && Patient(w, actions)
    ensures FinalMeansOver(Run(w, actions))
  {
    hide FinalMeansOver, Hasty, Step;
    if actions != [] {
      var n := |actions| - 1;
      FinalMeansOverInRuns(w, actions[..n]);
      StepFinalMeansOver(Run(w, actions[..n]), actions[n]);
    }
  }

  // What can still touch the rows of a finalized gameweek.

  ghost predicate Disturbs(w: World, a: Action, g: Id)
    requires g in w.gameweeks
  {
    match a
    case Transition(h, _) => h == g
    case Recalculate(h) => h == g
    case Correct(_, h, _, _) => h == g
    case EditStatistic(i, _) => i < |w.stats| && w.stats[i].fixture in w.gameweeks[g].fixtures
    case _ => false
  }

  ghost predicate FinalAt(w: World, g: Id)
  {
    g in w.gameweeks && w.gameweeks[g].status == Finalized
  }

  ghost predicate SameRows(w: World, v: World, g: Id)
  {
    At(v.points, g) == At(w.points, g) && At(v.scores, g) == At(w.scores, g)
  }

  /** The rescoring task leaves every row of a finalized gameweek as it is, whatever fixtures it is given. */
  lemma TaskSparesFinal(w: World, fixtures: set<Id>, g: Id)
    requires FinalAt(w, g)
    ensures FinalAt(AfterTask(w, fixtures), g) && SameRows(w, AfterTask(w, fixtures), g)
    ensures At(AfterTask(w, fixtures).states, g) == At(w.states, g)
  {
    hide ScoreSet, At;
    ScoreFrame(w, Unfinal(w, Holding(w, fixtures)), g);
    ScoringKeepsWeeks(w, Unfinal(w, Holding(w, fixtures)));
  }

  lemma TransitionSpares(w: World, h: Id, target: Status, g: Id)
    requires FinalAt(w, g) && h != g
    ensures FinalAt(AfterTransition(w, h, target), g) && SameRows(w, AfterTransition(w, h, target), g)
  {
    hide Allowed, At;
  }

  lemma RecalculateSpares(w: World, h: Id, g: Id)
    requires FinalAt(w, g) && h != g
    ensures FinalAt(AfterRecalculate(w, h), g) && SameRows(w, AfterRecalculate(w, h), g)
  {
    hide ScoreSet, At;
    ScoreFrame(w, {h}, g);
    ScoringKeepsWeeks(w, {h});
  }

  lemma FinalizeSpares(w: World, h: Id, g: Id)
    requires FinalAt(w, g)
    ensures FinalAt(AfterFinalize(w, h), g) && SameRows(w, AfterFinalize(w, h), g)
  {
    hide ScoreSet, At;
    if CanFinalize(w, h) {
      ScoreFrame(w, {h}, g);
      ScoringKeepsWeeks(w, {h});
    }
  }

  lemma CorrectionSpares(w: World, id: Id, h: Id, p: Id, value: real, g: Id)
    requires FinalAt(w, g) && h != g
    ensures FinalAt(AfterCorrection(w, id, h, p, value), g) && SameRows(w, AfterCorrection(w, id, h, p, value), g)
  {
    if CanCorrect(w, h, p) {
      ScoreFrame(WithCorrection(w, id, h, p, value), {h}, g);
    }
  }

  lemma StatisticSpares(w: World, i: nat, value: real, g: Id)
    requires FinalAt(w, g) && !Disturbs(w, EditStatistic(i, value), g)
    ensures FinalAt(AfterStatisticEdit(w, i, value), g) && SameRows(w, AfterStatisticEdit(w, i, value), g)
  {
    hide ScoreSet, At;
    if CanEditStatistic(w, i, value) {
      var u, reached := w.(stats := w.stats[i := w.stats[i].(value := value)]), Holding(w, {w.stats[i].fixture});
      ScoreFrame(u, reached, g);
      ScoringKeepsWeeks(u, reached);
    }
  }

  lemma StepSpares(w: World, a: Action, g: Id)
    requires FinalAt(w, g) && !Disturbs(w, a, g)
    ensures FinalAt(Step(w, a), g) && SameRows(w, Step(w, a), g)
  {
    hide AfterCorrection, AfterStatisticEdit, AfterTask, AfterCreate, AfterLineup, AfterTransfer;
    hide AfterPreview, AfterBalance, AfterTransition, AfterRecalculate, AfterFinalize, AfterRecord, AfterEdit;
    match a
    case Transition(h, target) => TransitionSpares(w, h, target, g);
    case Recalculate(h) => RecalculateSpares(w, h, g);
    case Finalize(h) => FinalizeSpares(w, h, g);
    case Correct(id, h, p, value) => CorrectionSpares(w, id, h, p, value, g);
    case EditStatistic(i, value) => StatisticSpares(w, i, value, g);
    case ScoreAffected(fixtures) => TaskSparesFinal(w, ToSet(fixtures), g);
    case _ => StepFramed(w, a);
  }

  ghost predicate Undisturbed(w: World, actions: seq<Action>, g: Id)
    requires g in w.gameweeks
  {
    actions == [] ||
    var n := |actions| - 1;
    var v := Run(w, actions[..n]);
    Undisturbed(w, actions[..n], g) && g in v.gameweeks && !Disturbs(v, actions[n], g)
  }

  /** The rows of a finalized gameweek stand in every run that does not transition, recalculate or correct it: no
      transfer, lineup, new statistic, price change or task run can move them. */
  lemma {:induction false} FinalRowsStand(w: World, actions: seq<Action>, g: Id)
    requires FinalAt(w, g) && Undisturbed(w, actions, g)
    ensures FinalAt(Run(w, actions), g) && SameRows(w, Run(w, actions), g)
  {
    hide Disturbs, Step;
    if actions != [] {
      var n := |actions| - 1;
      FinalRowsStand(w, actions[..n], g);
      StepSpares(Run(w, actions[..n]), actions[n], g);
    }
  }
}
