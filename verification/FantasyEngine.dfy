/** The store run action by action: it follows the state machine, so what holds of every run of the machine
    holds of the store. */
module FantasyEngine {
  import opened FantasyModel
  import opened Season
  import opened SeasonInvariant
  import opened SeasonRuns
  import opened FantasyStore

  /** What a method of the store may rely on, given the invariant. */
  lemma Supplied(w: World)
    requires Inv(w)
    ensures CompetitionsKnown(w) && SquadsKnown(w) && PointsKnown(w)
    ensures forall t :: t in w.teams ==> DistinctMembers(w.teams[t].selections)
  {
    forall t | t in w.teams ensures DistinctMembers(w.teams[t].selections) {
      assert SquadSound(w, t);
      ShapeDistinct(w.players, w.teams[t].selections);
    }
  }

  /** One request: an unknown identifier is answered "not found", everything else goes to its method. */
  method Perform(s: Store, a: Action)
    requires Inv(s.View()) && NumbersUnique(s.gameweeks)
    modifies s
    ensures s.View() == Step(old(s.View()), a)
    ensures Inv(s.View()) && NumbersUnique(s.gameweeks)
  {
    hide Inv, CompetitionsKnown, SquadsKnown, PointsKnown, DistinctMembers, NumbersUnique, Step;
    ghost var w := s.View();
    Supplied(w);
    StepKeeps(w, a);
    if a.CreateTeam? || a.SetLineup? {
      PerformTeam(s, a);
    } else if a.MakeTransfer? || a.PreviewTransfer? || a.ReadBalance? {
      PerformTransfer(s, a);
    } else if a.Transition? || a.Recalculate? || a.Finalize? {
      PerformGameweek(s, a);
    } else if a.Correct? || a.EditStatistic? || a.RecordStatistic? || a.ScoreAffected? {
      PerformScoring(s, a);
    } else {
      PerformAround(s, a);
    }
  }

  /** Any number of requests, one after the other. */
  method PerformAll(s: Store, actions: seq<Action>)
    requires Inv(s.View()) && NumbersUnique(s.gameweeks)
    modifies s
    ensures s.View() == Run(old(s.View()), actions)
    ensures Inv(s.View()) && NumbersUnique(s.gameweeks)
  {
    hide Inv, NumbersUnique, Step;
    ghost var w := s.View();
    for i := 0 to |actions|
      invariant s.View() == Run(w, actions[..i]) && Inv(s.View()) && NumbersUnique(s.gameweeks)
    {
      assert actions[..i + 1][..i] == actions[..i];
      Perform(s, actions[i]);
    }
    assert actions[..|actions|] == actions;
  }

  method PerformTeam(s: Store, a: Action)
    requires a.CreateTeam? || a.SetLineup?
    requires CompetitionsKnown(s.View()) && NumbersUnique(s.gameweeks)
    requires forall t :: t in s.teams ==> DistinctMembers(s.teams[t].selections)
    modifies s`teams, s`founding
    ensures s.View() == Step(old(s.View()), a)
  {
    hide NumbersUnique, DistinctMembers, Legal, MarksUnique;
    match a
    case CreateTeam(t, owner, c, items) =>
      if t !in s.teams && c in s.competitions {
        var _ := s.CreateTeam(t, owner, c, items);
      }
    case SetLineup(t, items) =>
      if t in s.teams {
        var _ := s.SetLineup(t, items);
      }
  }

  method PerformTransfer(s: Store, a: Action)
    requires a.MakeTransfer? || a.PreviewTransfer? || a.ReadBalance?
    requires CompetitionsKnown(s.View()) && SquadsKnown(s.View())
    modifies s`teams, s`transfers, s`states
    ensures s.View() == Step(old(s.View()), a)
  {
    hide Legal;
    match a
    case MakeTransfer(t, g, o, i) =>
      if t in s.teams && g in s.gameweeks && o in s.players && i in s.players {
        var _ := s.MakeTransfer(t, g, o, i);
      }
    case PreviewTransfer(t, g, o, i) =>
      if t in s.teams && g in s.gameweeks && o in s.players && i in s.players {
        var _, _ := s.PreviewTransfer(t, g, o, i);
      }
    case ReadBalance(t, g) =>
      if t in s.teams && g in s.gameweeks {
        var _ := s.ReadBalance(t, g);
      }
  }

  method PerformGameweek(s: Store, a: Action)
    requires a.Transition? || a.Recalculate? || a.Finalize?
    requires CompetitionsKnown(s.View())
    modifies s`gameweeks, s`points, s`states, s`scores
    ensures NumbersUnique(old(s.gameweeks)) ==> NumbersUnique(s.gameweeks)
    ensures s.View() == Step(old(s.View()), a)
  {
    hide Scoring.ScoreSet, NumbersUnique;
    match a
    case Transition(g, target) =>
      if g in s.gameweeks {
        var _ := s.Transition(g, target);
      }
    case Recalculate(g) =>
      if g in s.gameweeks {
        s.Recalculate(g);
      }
    case Finalize(g) =>
      if g in s.gameweeks {
        var _ := s.Finalize(g);
      }
  }

  method PerformScoring(s: Store, a: Action)
    requires a.Correct? || a.EditStatistic? || a.RecordStatistic? || a.ScoreAffected?
    requires CompetitionsKnown(s.View()) && PointsKnown(s.View())
    modifies s`stats, s`corrections, s`points, s`states, s`scores
    ensures s.View() == Step(old(s.View()), a)
  {
    hide Scoring.ScoreSet, AfterTask, AfterRecord;
    match a
    case Correct(id, g, p, value) =>
      if p in At(s.points, g) {
        s.Correct(id, g, p, value);
      }
    case EditStatistic(i, value) =>
      if i < |s.stats| {
        var _ := s.EditStatistic(i, value);
      }
    case RecordStatistic(row) =>
      var _ := s.RecordStatistic(row);
    case ScoreAffected(fixtures) =>
      var _, _, _ := s.ScoreAffected(fixtures);
  }

  method PerformAround(s: Store, a: Action)
    requires a.EditPlayer? || a.Appear? || a.FinishFixture? || a.Tick?
    modifies s`players, s`appearances, s`finished, s`now
    ensures s.View() == Step(old(s.View()), a)
  {
    hide AfterCreate, AfterLineup, AfterTransfer, AfterPreview, AfterBalance, AfterTransition, AfterRecalculate;
    hide AfterFinalize, AfterCorrection, AfterStatisticEdit, AfterRecord, AfterTask, AfterEdit, AfterAppear;
    match a
    case EditPlayer(p, price, eligible, availability) => s.EditPlayer(p, price, eligible, availability);
    case Appear(f, p) => s.Appear(f, p);
    case FinishFixture(f) => s.FinishFixture(f);
    case Tick(n) => s.Tick(n);
  }
}
