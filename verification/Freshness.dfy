/** How long a scored gameweek stays up to date, and so what a bare transition to FINALIZED can rely on. */
module Freshness {
  import opened Sequences
  import opened FantasyModel
  import opened Scoring
  import opened ScoreLaws
  import opened Season
  import opened SeasonFrames
  import opened CorrectionLaws
  import opened GameweekLaws

  // What scoring a gameweek reads.

  /** The same competition, rules and fixtures, and the same players but for price and availability. */
  ghost predicate SameSetting(w: World, v: World, g: Id)
  {
    && v.competitions == w.competitions && v.rules == w.rules
    && (g in v.gameweeks <==> g in w.gameweeks)
    && (g in w.gameweeks ==>
         v.gameweeks[g].competition == w.gameweeks[g].competition && v.gameweeks[g].fixtures == w.gameweeks[g].fixtures)
    && v.players.Keys == w.players.Keys
    && forall p :: p in w.players ==> SameMember(v.players[p], w.players[p])
  }

  predicate SameMember(x: Player, y: Player)
  {
    x.competition == y.competition && x.participant == y.participant && x.position == y.position
  }

  /** The same events in the gameweek's fixtures. */
  ghost predicate SameEvents(w: World, v: World, g: Id)
    requires g in w.gameweeks
  {
    forall q: Id :: SameEventsOf(w, v, w.gameweeks[g].fixtures, q)
  }

  ghost predicate SameEventsOf(w: World, v: World, fixtures: set<Id>, q: Id)
  {
    && Filter(Counted(fixtures, q), v.stats) == Filter(Counted(fixtures, q), w.stats)
    && Appeared(v.stats, v.appearances, fixtures, q) == Appeared(w.stats, w.appearances, fixtures, q)
  }

  ghost predicate SameCorrections(w: World, v: World, g: Id)
  {
    forall p :: Latest(v.corrections, g, p) == Latest(w.corrections, g, p)
  }

  /** The same squads and penalties of the teams that play the gameweek. */
  ghost predicate SameEntries(w: World, v: World, g: Id)
  {
    forall t :: SameEntry(w, v, g, t)
  }

  ghost predicate SameEntry(w: World, v: World, g: Id, t: Id)
  {
    && (Enters(v, t, g) <==> Enters(w, t, g))
    && (Enters(w, t, g) ==>
         && v.teams[t].selections == w.teams[t].selections
         && StateIn(At(v.states, g), t, CompetitionOf(w, g)) == StateIn(At(w.states, g), t, CompetitionOf(w, g)))
  }

  /** The two databases agree on what scoring gameweek `g` reads and on what it has stored. */
  ghost predicate SameScoring(w: World, v: World, g: Id)
  {
    && SameSetting(w, v, g) && (g in w.gameweeks ==> SameEvents(w, v, g))
    && SameCorrections(w, v, g) && SameEntries(w, v, g) && SameRows(w, v, g)
  }

  lemma RecordSame(w: World, v: World, g: Id, p: Id)
    requires SameScoring(w, v, g) && InPool(v, g, p)
    ensures InPool(w, g, p) && PlayerRecord(v, g, p) == PlayerRecord(w, g, p)
  {
    assert SameMember(v.players[p], w.players[p]);
    assert SameEventsOf(w, v, w.gameweeks[g].fixtures, w.players[p].participant);
  }

  lemma PlaysSame(w: World, v: World, g: Id, s: Selection)
    requires SameSetting(w, v, g) && g in w.gameweeks && SameEvents(w, v, g)
    ensures Plays(v, g, s) == Plays(w, g, s)
  {
    if s.item.player in w.players {
      assert SameMember(v.players[s.item.player], w.players[s.item.player]);
      assert SameEventsOf(w, v, w.gameweeks[g].fixtures, w.players[s.item.player].participant);
    }
  }

  lemma DetailsSame(w: World, v: World, g: Id, c: Competition, captain: Option<Id>, starters: seq<Selection>)
    requires SameSetting(w, v, g) && SameRows(w, v, g)
    ensures Details(v.players, At(v.points, g), c, captain, starters)
      == Details(w.players, At(w.points, g), c, captain, starters)
  {
    forall i | 0 <= i < |starters|
      ensures DetailOf(v.players, At(v.points, g), c, captain, starters[i])
        == DetailOf(w.players, At(w.points, g), c, captain, starters[i])
    {
      var p := starters[i].item.player;
      if p in w.players {
        assert SameMember(v.players[p], w.players[p]);
      }
    }
  }

  lemma ScoreSame(w: World, v: World, g: Id, t: Id)
    requires SameScoring(w, v, g) && Enters(v, t, g)
    ensures Enters(w, t, g) && TeamScoreOf(v, g, t) == TeamScoreOf(w, g, t)
  {
    hide Plays, Details, SumOf, First;
    assert SameEntry(w, v, g, t);
    var c, starters := CompetitionOf(w, g), Starters(w, t);
    forall s ensures Plays(v, g, s) == Plays(w, g, s) {
      PlaysSame(w, v, g, s);
    }
    DetailsSame(w, v, g, c, EffectiveCaptain(w, g, c, starters).captain, starters);
  }

  lemma FreshReads(w: World, v: World, g: Id)
    requires SameScoring(w, v, g) && FreshlyScored(w, g)
    ensures FreshlyScored(v, g)
  {
    hide SameScoring, PlayerRecord, TeamScoreOf;
    RowsOf(w, v, g);
    forall p | InPool(v, g, p) ensures p in At(v.points, g) && At(v.points, g)[p] == PlayerRecord(v, g, p) {
      RecordSame(w, v, g, p);
    }
    forall t | Enters(v, t, g) ensures t in At(v.scores, g) && At(v.scores, g)[t] == TeamScoreOf(v, g, t) {
      ScoreSame(w, v, g, t);
    }
  }

  lemma RowsOf(w: World, v: World, g: Id)
    requires SameScoring(w, v, g)
    ensures SameRows(w, v, g)
  {
  }

  // Which actions feed a gameweek.

  predicate PlaysIn(w: World, t: Id, g: Id)
    requires g in w.gameweeks
  {
    t in w.teams && w.teams[t].competition == w.gameweeks[g].competition
  }

  /** The action brings new input to the scoring of gameweek `g` without scoring it: a team, lineup or transfer of its
      competition, or a statistic or an appearance in one of its fixtures. */
  predicate Feeds(w: World, a: Action, g: Id)
  {
    && g in w.gameweeks
    && match a
       case CreateTeam(_, _, c, _) => c == w.gameweeks[g].competition
       case SetLineup(t, _) => PlaysIn(w, t, g)
       case MakeTransfer(t, _, _, _) => PlaysIn(w, t, g)
       case RecordStatistic(row) => row.fixture in w.gameweeks[g].fixtures
       case Appear(f, _) => f in w.gameweeks[g].fixtures
       case _ => false
  }

  /** The action scores gameweek `g`. */
  predicate Rescores(w: World, a: Action, g: Id)
  {
    && g in w.gameweeks
    && match a
       case Recalculate(h) => h == g
       case Finalize(h) => h == g && CanFinalize(w, g)
       case Correct(_, h, p, _) => h == g && CanCorrect(w, g, p)
       case EditStatistic(i, value) => CanEditStatistic(w, i, value) && w.stats[i].fixture in w.gameweeks[g].fixtures
       case ScoreAffected(fixtures) => g in Unfinal(w, Holding(w, ToSet(fixtures)))
       case _ => false
  }

  lemma RescoringRefreshes(w: World, a: Action, g: Id)
    requires Rescores(w, a, g)
    ensures FreshlyScored(Step(w, a), g)
  {
    hide FreshlyScored, ScoreSet;
    match a
    case Recalculate(_) =>
      ScoringRefreshes(w, {g}, g);
      ScoringKeepsWeeks(w, {g});
      StatusUnread(ScoreSet(w, {g}), g, Scoring);
    case Finalize(_) => FinalizeIsComplete(w, g);
    case Correct(id, _, p, value) => ScoringRefreshes(WithCorrection(w, id, g, p, value), {g}, g);
    case EditStatistic(i, value) =>
      assert w.gameweeks[g].fixtures * {w.stats[i].fixture} != {} by {
        assert w.stats[i].fixture in w.gameweeks[g].fixtures * {w.stats[i].fixture};
      }
      ScoringRefreshes(w.(stats := w.stats[i := w.stats[i].(value := value)]), Holding(w, {w.stats[i].fixture}), g);
    case ScoreAffected(fixtures) => ScoringRefreshes(w, Unfinal(w, Holding(w, ToSet(fixtures))), g);
  }

  // Actions that neither feed nor score the gameweek.

  /** Most actions change nothing that is read at all. */
  lemma SameInputsSame(w: World, v: World, g: Id)
    requires SameSetting(w, v, g) && v.stats == w.stats && v.appearances == w.appearances
    requires v.corrections == w.corrections && SameEntries(w, v, g) && SameRows(w, v, g)
    ensures SameScoring(w, v, g)
  {
    hide Appeared;
  }

  lemma SameTeams(w: World, v: World, g: Id)
    requires SameSetting(w, v, g) && v.teams == w.teams && At(v.states, g) == At(w.states, g)
    ensures SameEntries(w, v, g)
  {
  }

  lemma CreateStaysFresh(w: World, t: Id, owner: Id, c: Id, items: seq<Item>, g: Id)
    requires FreshlyScored(w, g) && g in w.gameweeks && c != w.gameweeks[g].competition
    ensures FreshlyScored(AfterCreate(w, t, owner, c, items), g)
  {
    hide FreshlyScored, SameScoring, Legal, MarksUnique, OwnsTeam;
    if CanCreate(w, t, owner, c, items) {
      var v := AfterCreate(w, t, owner, c, items);
      forall u ensures SameEntry(w, v, g, u) {
      }
      SameInputsSame(w, v, g);
      FreshReads(w, v, g);
    }
  }

  /** Another team's squad, or one of another competition, is not read. */
  lemma OtherTeamStaysFresh(w: World, v: World, t: Id, g: Id)
    requires FreshlyScored(w, g) && g in w.gameweeks && t in w.teams && w.teams[t].competition != w.gameweeks[g].competition
    requires v == w.(teams := v.teams, transfers := v.transfers, states := v.states)
    requires exists team: Team :: team.competition == w.teams[t].competition && v.teams == w.teams[t := team]
    requires At(v.states, g) == At(w.states, g)
    ensures FreshlyScored(v, g)
  {
    hide FreshlyScored, SameScoring;
    forall u ensures SameEntry(w, v, g, u) {
    }
    SameInputsSame(w, v, g);
    FreshReads(w, v, g);
  }

  lemma LineupStaysFresh(w: World, t: Id, items: seq<Item>, g: Id)
    requires FreshlyScored(w, g) && g in w.gameweeks && !PlaysIn(w, t, g)
    ensures FreshlyScored(AfterLineup(w, t, items), g)
  {
    hide FreshlyScored, CanSetLineup, RelinedAll;
    if CanSetLineup(w, t, items) {
      assert t in w.teams by {
        LineupTeam(w, t, items);
      }
      var team := w.teams[t].(selections := RelinedAll(w.teams[t].selections, items));
      assert AfterLineup(w, t, items).teams == w.teams[t := team];
      OtherTeamStaysFresh(w, AfterLineup(w, t, items), t, g);
    }
  }

  lemma LineupTeam(w: World, t: Id, items: seq<Item>)
    requires CanSetLineup(w, t, items)
    ensures t in w.teams
  {
  }

  lemma TransferStaysFresh(w: World, t: Id, h: Id, playerOut: Id, playerIn: Id, g: Id)
    requires FreshlyScored(w, g) && g in w.gameweeks && !PlaysIn(w, t, g)
    ensures FreshlyScored(AfterTransfer(w, t, h, playerOut, playerIn), g)
  {
    hide FreshlyScored, Legal, StateOf, Find;
    if CanConfirm(w, t, h, playerOut, playerIn) {
      assert h != g;
      var team := TeamAfter(w.teams[t], TransferRow(w, t, h, playerOut, playerIn));
      assert AfterTransfer(w, t, h, playerOut, playerIn).teams == w.teams[t := team];
      OtherTeamStaysFresh(w, AfterTransfer(w, t, h, playerOut, playerIn), t, g);
    }
  }

  lemma BalanceStaysFresh(w: World, t: Id, h: Id, g: Id)
    requires FreshlyScored(w, g)
    ensures FreshlyScored(AfterBalance(w, t, h), g)
  {
    hide FreshlyScored, SameScoring;
    if Enters(w, t, h) {
      var v := AfterBalance(w, t, h);
      forall u ensures SameEntry(w, v, g, u) {
      }
      SameInputsSame(w, v, g);
      FreshReads(w, v, g);
    }
  }

  lemma StatusStaysFresh(w: World, h: Id, status: Status, g: Id)
    requires FreshlyScored(w, g) && h in w.gameweeks
    ensures FreshlyScored(WithStatus(w, h, status), g)
  {
    hide FreshlyScored, SameScoring;
    var v := WithStatus(w, h, status);
    forall u ensures SameEntry(w, v, g, u) {
    }
    SameInputsSame(w, v, g);
    FreshReads(w, v, g);
  }

  lemma ScoringStaysFresh(w: World, gs: set<Id>, g: Id)
    requires FreshlyScored(w, g) && g !in gs
    ensures FreshlyScored(ScoreSet(w, gs), g)
  {
    hide FreshlyScored, SameScoring, ScoreSet, At;
    var v := ScoreSet(w, gs);
    ScoringFrame(w, gs);
    ScoreFrame(w, gs, g);
    SameTeams(w, v, g);
    SameInputsSame(w, v, g);
    FreshReads(w, v, g);
  }

  lemma CorrectionStaysFresh(w: World, id: Id, h: Id, p: Id, value: real, g: Id)
    requires FreshlyScored(w, g) && h != g
    ensures FreshlyScored(AfterCorrection(w, id, h, p, value), g)
  {
    hide FreshlyScored, ScoreSet;
    if CanCorrect(w, h, p) {
      var u := WithCorrection(w, id, h, p, value);
      CorrectionReadsFresh(w, id, h, p, value, g);
      ScoringStaysFresh(u, {h}, g);
    }
  }

  lemma CorrectionReadsFresh(w: World, id: Id, h: Id, p: Id, value: real, g: Id)
    requires FreshlyScored(w, g) && h != g && CanCorrect(w, h, p)
    ensures FreshlyScored(WithCorrection(w, id, h, p, value), g)
  {
    hide FreshlyScored, Appeared;
    var u := WithCorrection(w, id, h, p, value);
    forall q ensures Latest(u.corrections, g, q) == Latest(w.corrections, g, q) {
      LatestAppend(w.corrections, u.corrections[|w.corrections|], g, q);
    }
    SameTeams(w, u, g);
    FreshReads(w, u, g);
  }

  /** Databases that differ in statistics and appearances outside the gameweek only. */
  lemma EventsStayFresh(w: World, v: World, g: Id)
    requires FreshlyScored(w, g) && g in w.gameweeks
    requires v == w.(stats := v.stats, appearances := v.appearances) && SameEvents(w, v, g)
    ensures FreshlyScored(v, g)
  {
    hide FreshlyScored, SameEvents;
    SameTeams(w, v, g);
    FreshReads(w, v, g);
  }

  lemma EditedEvents(w: World, i: nat, value: real, g: Id)
    requires g in w.gameweeks && i < |w.stats| && w.stats[i].fixture !in w.gameweeks[g].fixtures
    ensures SameEvents(w, w.(stats := w.stats[i := w.stats[i].(value := value)]), g)
  {
    var fixtures, x := w.gameweeks[g].fixtures, w.stats[i].(value := value);
    var after := w.stats[i := x];
    forall q: Id ensures SameEventsOf(w, w.(stats := after), fixtures, q) {
      FilterSkips(Counted(fixtures, q), w.stats, i, x);
      SeenInFilter(w.stats, fixtures, q);
      SeenInFilter(after, fixtures, q);
    }
  }

  lemma RecordedEvents(w: World, row: Statistic, g: Id)
    requires g in w.gameweeks && row.fixture !in w.gameweeks[g].fixtures
    ensures SameEvents(w, w.(stats := w.stats + [row]), g)
  {
    var fixtures, after := w.gameweeks[g].fixtures, w.stats + [row];
    forall q: Id ensures SameEventsOf(w, w.(stats := after), fixtures, q) {
      assert after[..|w.stats|] == w.stats;
      assert Filter(Counted(fixtures, q), w.stats) + [] == Filter(Counted(fixtures, q), w.stats);
      SeenInFilter(w.stats, fixtures, q);
      SeenInFilter(after, fixtures, q);
    }
  }

  /** Whether a participant has a statistic in the fixtures shows in the rows that count. */
  lemma SeenInFilter(stats: seq<Statistic>, fixtures: set<Id>, q: Id)
    ensures (exists s :: s in stats && s.fixture in fixtures && s.participant == q)
      <==> Filter(Counted(fixtures, q), stats) != []
  {
    var f := Filter(Counted(fixtures, q), stats);
    if f != [] {
      FilterMembers(Counted(fixtures, q), stats, f[0]);
    }
    if exists s :: s in stats && s.fixture in fixtures && s.participant == q {
      var s :| s in stats && s.fixture in fixtures && s.participant == q;
      FilterMembers(Counted(fixtures, q), stats, s);
    }
  }

  lemma StatisticStaysFresh(w: World, i: nat, value: real, g: Id)
    requires FreshlyScored(w, g) && g in w.gameweeks && !Rescores(w, EditStatistic(i, value), g)
    ensures FreshlyScored(AfterStatisticEdit(w, i, value), g)
  {
    hide FreshlyScored, ScoreSet, SameEvents;
    if CanEditStatistic(w, i, value) {
      EditedEvents(w, i, value, g);
      var u := w.(stats := w.stats[i := w.stats[i].(value := value)]);
      EventsStayFresh(w, u, g);
      ScoringStaysFresh(u, Holding(w, {w.stats[i].fixture}), g);
    }
  }

  lemma RecordStaysFresh(w: World, row: Statistic, g: Id)
    requires FreshlyScored(w, g) && g in w.gameweeks && row.fixture !in w.gameweeks[g].fixtures
    ensures FreshlyScored(AfterRecord(w, row), g)
  {
    hide FreshlyScored, CanRecord, SameEvents;
    if CanRecord(w, row) {
      RecordedEvents(w, row, g);
      EventsStayFresh(w, w.(stats := w.stats + [row]), g);
    }
  }

  lemma AppearStaysFresh(w: World, f: Id, p: Id, g: Id)
    requires FreshlyScored(w, g) && g in w.gameweeks && f !in w.gameweeks[g].fixtures
    ensures FreshlyScored(AfterAppear(w, f, p), g)
  {
    hide FreshlyScored;
    EventsStayFresh(w, AfterAppear(w, f, p), g);
  }

  lemma EditStaysFresh(w: World, p: Id, price: real, eligible: bool, availability: Availability, g: Id)
    requires FreshlyScored(w, g)
    ensures FreshlyScored(AfterEdit(w, p, price, eligible, availability), g)
  {
    hide FreshlyScored, SameScoring;
    if p in w.players {
      var v := AfterEdit(w, p, price, eligible, availability);
      SameTeams(w, v, g);
      SameInputsSame(w, v, g);
      FreshReads(w, v, g);
    }
  }

  lemma ClockStaysFresh(w: World, v: World, g: Id)
    requires FreshlyScored(w, g) && v == w.(now := v.now, finished := v.finished)
    ensures FreshlyScored(v, g)
  {
    hide FreshlyScored, SameScoring;
    SameTeams(w, v, g);
    SameInputsSame(w, v, g);
    FreshReads(w, v, g);
  }

  // One step, and every run.

  lemma WeekStepStaysFresh(w: World, a: Action, g: Id)
    requires FreshlyScored(w, g) && g in w.gameweeks && !Rescores(w, a, g)
    requires a.Transition? || a.Recalculate? || a.Finalize? || a.ScoreAffected?
    ensures FreshlyScored(Step(w, a), g)
  {
    hide FreshlyScored, ScoreSet;
    match a
    case Transition(h, target) =>
      if CanTransition(w, h, target) {
        StatusStaysFresh(w, h, target, g);
      }
    case Recalculate(h) =>
      if h in w.gameweeks {
        ScoringStaysFresh(w, {h}, g);
        ScoringKeepsWeeks(w, {h});
        StatusStaysFresh(ScoreSet(w, {h}), h, Scoring, g);
      }
    case Finalize(h) =>
      if CanFinalize(w, h) {
        ScoringStaysFresh(w, {h}, g);
        ScoringKeepsWeeks(w, {h});
        StatusStaysFresh(ScoreSet(w, {h}), h, Finalized, g);
      }
    case ScoreAffected(fixtures) => ScoringStaysFresh(w, Unfinal(w, Holding(w, ToSet(fixtures))), g);
  }

  /** An action that does not feed a gameweek leaves it up to date. */
  lemma StepStaysFresh(w: World, a: Action, g: Id)
    requires FreshlyScored(w, g) && g in w.gameweeks && !Feeds(w, a, g)
    ensures FreshlyScored(Step(w, a), g)
  {
    hide FreshlyScored, AfterCreate, AfterLineup, AfterTransfer, AfterPreview, AfterBalance, AfterCorrection;
    hide AfterStatisticEdit, AfterRecord, AfterEdit, AfterAppear, AfterTransition, AfterRecalculate, AfterFinalize;
    hide AfterTask, CanTransfer;
    if Rescores(w, a, g) {
      RescoringRefreshes(w, a, g);
    } else {
      match a
      case CreateTeam(t, owner, c, items) => CreateStaysFresh(w, t, owner, c, items, g);
      case SetLineup(t, items) => LineupStaysFresh(w, t, items, g);
      case MakeTransfer(t, h, o, i) => TransferStaysFresh(w, t, h, o, i, g);
      case PreviewTransfer(t, h, o, i) => PreviewStaysFresh(w, t, h, o, i, g);
      case ReadBalance(t, h) => BalanceStaysFresh(w, t, h, g);
      case Correct(id, h, p, value) => CorrectStaysFresh(w, id, h, p, value, g);
      case EditStatistic(i, value) => StatisticStaysFresh(w, i, value, g);
      case RecordStatistic(row) => RecordStaysFresh(w, row, g);
      case EditPlayer(p, price, eligible, availability) => EditStaysFresh(w, p, price, eligible, availability, g);
      case Appear(f, p) => AppearStaysFresh(w, f, p, g);
      case FinishFixture(_) => ClockStaysFresh(w, Step(w, a), g);
      case Tick(_) => ClockStaysFresh(w, Step(w, a), g);
      case _ => WeekStepStaysFresh(w, a, g);
    }
  }

  lemma PreviewStaysFresh(w: World, t: Id, h: Id, playerOut: Id, playerIn: Id, g: Id)
    requires FreshlyScored(w, g)
    ensures FreshlyScored(AfterPreview(w, t, h, playerOut, playerIn), g)
  {
    hide FreshlyScored, CanTransfer, AfterBalance;
    BalanceStaysFresh(w, t, h, g);
  }

  lemma CorrectStaysFresh(w: World, id: Id, h: Id, p: Id, value: real, g: Id)
    requires FreshlyScored(w, g) && g in w.gameweeks && !Rescores(w, Correct(id, h, p, value), g)
    ensures FreshlyScored(AfterCorrection(w, id, h, p, value), g)
  {
    hide FreshlyScored, ScoreSet;
    if h != g {
      CorrectionStaysFresh(w, id, h, p, value, g);
    }
  }

  lemma WeekStays(w: World, a: Action, g: Id)
    requires g in w.gameweeks
    ensures g in Step(w, a).gameweeks
  {
    hide ScoreSet, Framed;
    if a.Transition? || a.Recalculate? || a.Finalize? {
      ScoringKeepsWeeks(w, {a.gameweek});
    } else {
      WeeksFramed(w, a);
    }
  }

  lemma WeeksFramed(w: World, a: Action)
    requires !a.Transition? && !a.Recalculate? && !a.Finalize?
    ensures Step(w, a).gameweeks == w.gameweeks
  {
    hide Step;
    StepFramed(w, a);
  }

  /** No action of the run feeds the gameweek at the moment it is carried out. */
  ghost predicate Unfed(w: World, actions: seq<Action>, g: Id)
  {
    actions == [] ||
    var n := |actions| - 1;
    Unfed(w, actions[..n], g) && !Feeds(Run(w, actions[..n]), actions[n], g)
  }

  lemma {:induction false} RunStaysFresh(w: World, actions: seq<Action>, g: Id)
    requires FreshlyScored(w, g) && g in w.gameweeks && Unfed(w, actions, g)
    ensures FreshlyScored(Run(w, actions), g) && g in Run(w, actions).gameweeks
  {
    hide FreshlyScored, Step, Feeds;
    if actions != [] {
      var n := |actions| - 1;
      RunStaysFresh(w, actions[..n], g);
      StepStaysFresh(Run(w, actions[..n]), actions[n], g);
      WeekStays(Run(w, actions[..n]), actions[n], g);
    }
  }

  /** What a bare transition to FINALIZED leaves: a complete and up-to-date record, if the gameweek was scored at some
      point and nothing has fed it since, whatever else happened. */
  lemma FinalizedUpToDate(w: World, a: Action, actions: seq<Action>, g: Id)
    requires Rescores(w, a, g) && Unfed(Step(w, a), actions, g)
    requires CanTransition(Run(Step(w, a), actions), g, Finalized)
    ensures var v := AfterTransition(Run(Step(w, a), actions), g, Finalized);
      v.gameweeks[g].status == Finalized && FreshlyScored(v, g)
  {
    hide FreshlyScored, Step, Run, Rescores;
    RescoredWeek(w, a, g);
    RescoringRefreshes(w, a, g);
    WeekStays(w, a, g);
    RunStaysFresh(Step(w, a), actions, g);
    StatusStaysFresh(Run(Step(w, a), actions), g, Finalized, g);
  }

  lemma RescoredWeek(w: World, a: Action, g: Id)
    requires Rescores(w, a, g)
    ensures g in w.gameweeks
  {
  }
}
