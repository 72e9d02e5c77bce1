/** Which tables each action can touch: one frame for all the laws about runs. */
module SeasonFrames {
  import opened Sequences
  import opened FantasyModel
  import opened Scoring
  import opened Season

  predicate ScoresRows(a: Action)
  {
    a.Recalculate? || a.Finalize? || a.Correct? || a.EditStatistic? || a.ScoreAffected?
  }

  predicate ChangesSquads(a: Action)
  {
    a.CreateTeam? || a.SetLineup? || a.MakeTransfer?
  }

  /** Table by table, the actions that may touch it; all others leave it as it is. */
  ghost predicate Framed(w: World, v: World, a: Action)
  {
    && v.competitions == w.competitions && v.rules == w.rules
    && w.now <= v.now && (a.Tick? || v.now == w.now)
    && (a.EditPlayer? || v.players == w.players)
    && (a.Transition? || a.Recalculate? || a.Finalize? || v.gameweeks == w.gameweeks)
    && w.finished <= v.finished && (a.FinishFixture? || v.finished == w.finished)
    && (a.EditStatistic? || a.RecordStatistic? || v.stats == w.stats)
    && (a.Appear? || v.appearances == w.appearances)
    && (ChangesSquads(a) || v.teams == w.teams)
    && (a.CreateTeam? || v.founding == w.founding)
    && (a.MakeTransfer? || v.transfers == w.transfers)
    && (ScoresRows(a) || a.MakeTransfer? || a.PreviewTransfer? || a.ReadBalance? || v.states == w.states)
    && (ScoresRows(a) || (v.points == w.points && v.scores == w.scores))
    && (a.Correct? || v.corrections == w.corrections)
  }

  lemma ScoringFrame(w: World, gs: set<Id>)
    ensures var v := ScoreSet(w, gs); v == w.(points := v.points, states := v.states, scores := v.scores)
  {
    hide Overlay, RecordRows, StateRows, ScoreRows;
  }

  /** An action that is refused touches nothing. */
  lemma Idle(w: World, a: Action)
    ensures Framed(w, w, a)
  {
  }

  // Action by action.

  lemma CreateFramed(w: World, t: Id, owner: Id, c: Id, items: seq<Item>)
    ensures Framed(w, AfterCreate(w, t, owner, c, items), CreateTeam(t, owner, c, items))
  {
    hide NewTeam, Legal, MarksUnique, OwnsTeam;
    if !CanCreate(w, t, owner, c, items) {
      Idle(w, CreateTeam(t, owner, c, items));
    }
  }

  lemma LineupFramed(w: World, t: Id, items: seq<Item>)
    ensures Framed(w, AfterLineup(w, t, items), SetLineup(t, items))
  {
    hide RelinedAll, Legal, MarksUnique;
    if !CanSetLineup(w, t, items) {
      Idle(w, SetLineup(t, items));
    }
  }

  lemma TransferFramed(w: World, t: Id, g: Id, playerOut: Id, playerIn: Id)
    ensures Framed(w, AfterTransfer(w, t, g, playerOut, playerIn), MakeTransfer(t, g, playerOut, playerIn))
  {
    hide TransferRow, TeamAfter, StateOf, Legal;
    if !CanConfirm(w, t, g, playerOut, playerIn) {
      Idle(w, MakeTransfer(t, g, playerOut, playerIn));
    }
  }

  lemma BalanceFramed(w: World, t: Id, g: Id)
    ensures Framed(w, AfterBalance(w, t, g), ReadBalance(t, g))
  {
    hide StateOf, At;
    if !Enters(w, t, g) {
      Idle(w, ReadBalance(t, g));
    }
  }

  lemma PreviewFramed(w: World, t: Id, g: Id, playerOut: Id, playerIn: Id)
    ensures Framed(w, AfterPreview(w, t, g, playerOut, playerIn), PreviewTransfer(t, g, playerOut, playerIn))
  {
    hide CanTransfer, AfterBalance;
    BalanceFramed(w, t, g);
  }

  lemma TransitionFramed(w: World, g: Id, target: Status)
    ensures Framed(w, AfterTransition(w, g, target), Transition(g, target))
  {
    hide Allowed;
    if !CanTransition(w, g, target) {
      Idle(w, Transition(g, target));
    }
  }

  lemma RecalculateFramed(w: World, g: Id)
    ensures Framed(w, AfterRecalculate(w, g), Recalculate(g))
  {
    hide ScoreSet;
    if g in w.gameweeks {
      ScoringFrame(w, {g});
    } else {
      Idle(w, Recalculate(g));
    }
  }

  lemma FinalizeFramed(w: World, g: Id)
    ensures Framed(w, AfterFinalize(w, g), Finalize(g))
  {
    hide ScoreSet;
    ScoringFrame(w, {g});
  }

  lemma CorrectFramed(w: World, id: Id, g: Id, p: Id, value: real)
    ensures Framed(w, AfterCorrection(w, id, g, p, value), Correct(id, g, p, value))
  {
    hide ScoreSet;
    if CanCorrect(w, g, p) {
      ScoringFrame(WithCorrection(w, id, g, p, value), {g});
    }
  }

  lemma EditStatisticFramed(w: World, i: nat, value: real)
    ensures Framed(w, AfterStatisticEdit(w, i, value), EditStatistic(i, value))
  {
    hide ScoreSet;
    if CanEditStatistic(w, i, value) {
      ScoringFrame(w.(stats := w.stats[i := w.stats[i].(value := value)]), Holding(w, {w.stats[i].fixture}));
    }
  }

  lemma RecordFramed(w: World, row: Statistic)
    ensures Framed(w, AfterRecord(w, row), RecordStatistic(row))
  {
    hide CanRecord;
    if !CanRecord(w, row) {
      Idle(w, RecordStatistic(row));
    }
  }

  lemma TaskFramed(w: World, fixtures: seq<Id>)
    ensures Framed(w, AfterTask(w, ToSet(fixtures)), ScoreAffected(fixtures))
  {
    hide ScoreSet;
    ScoringFrame(w, Unfinal(w, Holding(w, ToSet(fixtures))));
  }

  lemma EditPlayerFramed(w: World, p: Id, price: real, eligible: bool, availability: Availability)
    ensures Framed(w, AfterEdit(w, p, price, eligible, availability), EditPlayer(p, price, eligible, availability))
  {
    if p !in w.players {
      Idle(w, EditPlayer(p, price, eligible, availability));
    }
  }

  lemma AppearFramed(w: World, f: Id, p: Id)
    ensures Framed(w, AfterAppear(w, f, p), Appear(f, p))
  {
  }

  lemma FinishFramed(w: World, f: Id)
    ensures Framed(w, AfterFinish(w, f), FinishFixture(f))
  {
  }

  lemma TickFramed(w: World, n: nat)
    ensures Framed(w, AfterTick(w, n), Tick(n))
  {
  }

  lemma StepFramed(w: World, a: Action)
    ensures Framed(w, Step(w, a), a)
  {
    hide Framed, AfterCreate, AfterLineup, AfterTransfer, AfterPreview, AfterBalance, AfterTransition, AfterRecalculate;
    hide AfterFinalize, AfterCorrection, AfterStatisticEdit, AfterTask, AfterRecord, AfterEdit, AfterAppear;
    hide AfterFinish, AfterTick;
    match a
    case CreateTeam(t, owner, c, items) => CreateFramed(w, t, owner, c, items);
    case SetLineup(t, items) => LineupFramed(w, t, items);
    case MakeTransfer(t, g, o, i) => TransferFramed(w, t, g, o, i);
    case PreviewTransfer(t, g, o, i) => PreviewFramed(w, t, g, o, i);
    case ReadBalance(t, g) => BalanceFramed(w, t, g);
    case Transition(g, target) => TransitionFramed(w, g, target);
    case Recalculate(g) => RecalculateFramed(w, g);
    case Finalize(g) => FinalizeFramed(w, g);
    case Correct(id, g, p, value) => CorrectFramed(w, id, g, p, value);
    case EditStatistic(i, value) => EditStatisticFramed(w, i, value);
    case RecordStatistic(row) => RecordFramed(w, row);
    case ScoreAffected(fixtures) => TaskFramed(w, fixtures);
    case EditPlayer(p, price, eligible, availability) => EditPlayerFramed(w, p, price, eligible, availability);
    case Appear(f, p) => AppearFramed(w, f, p);
    case FinishFixture(f) => FinishFramed(w, f);
    case Tick(n) => TickFramed(w, n);
  }
}
