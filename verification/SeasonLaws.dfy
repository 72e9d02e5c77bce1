/** The promises of the Fantasy season, for every run of its workflow. */
module SeasonLaws {
  import opened Sequences
  import opened FantasyModel
  import opened SquadRules
  import opened Scoring
  import opened ScoreLaws
  import opened Season
  import opened TransferLedger
  import opened SeasonFrames
  import opened SeasonInvariant
  import opened SeasonRuns

  // Money.

  /** In every reachable state the budget and the prices paid add up to the initial budget. */
  lemma BudgetConserved(w: World, actions: seq<Action>, t: Id)
    requires Opening(w) && t in Run(w, actions).teams
    ensures var v := Run(w, actions);
      && v.teams[t].competition in v.competitions
      && v.teams[t].budgetRemaining + SumOf(PurchasePrice, v.teams[t].selections)
        == v.competitions[v.teams[t].competition].initialBudget
  {
    OpeningSound(w);
    RunKeeps(w, actions);
    assert SquadSound(Run(w, actions), t);
  }

  /** The transfer rows of a team, replayed from its creation, explain its squad, its budget and every price out. */
  lemma LogExplainsTeam(w: World, actions: seq<Action>, t: Id)
    requires Opening(w) && t in Run(w, actions).teams
    ensures var v := Run(w, actions);
      && t in v.founding
      && var log := LogOf(v.transfers, t);
      && Replay(v.founding[t], log) == Some(Ledger(v.teams[t].budgetRemaining, Holdings(v.teams[t].selections)))
      && v.teams[t].budgetRemaining == v.founding[t].budget + SumOf(BudgetFlow, log)
      && (forall i :: 0 <= i < |log| ==> PriceExplained(v.founding[t], log, i))
  {
    OpeningSound(w);
    RunKeeps(w, actions);
    var v := Run(w, actions);
    assert LedgerSound(v, t);
    var log := LogOf(v.transfers, t);
    BudgetIsFlow(v.founding[t], log);
    forall i | 0 <= i < |log| ensures PriceExplained(v.founding[t], log, i) {
      PriceOutIsLastPrice(v.founding[t], log, i);
    }
  }

  /** The price a player is sold at is the price of its latest earlier purchase, or its creation price. */
  ghost predicate PriceExplained(l: Ledger, log: seq<Transfer>, i: nat)
    requires i < |log|
  {
    || (exists j: nat :: j < i && LastPurchase(log[..i], j, log[i].playerOut) && log[j].priceIn == log[i].priceOut)
    || ((forall k :: 0 <= k < i ==> log[k].playerIn != log[i].playerOut)
        && log[i].playerOut in l.holdings && l.holdings[log[i].playerOut] == log[i].priceOut)
  }

  /** After k transfers of a team in a gameweek: k used, and the penalty of the k - free ones beyond the free ones. */
  lemma PenaltyClosedForm(w: World, actions: seq<Action>, t: Id, g: Id)
    requires Opening(w) && Enters(Run(w, actions), t, g)
    ensures var v := Run(w, actions);
      var c := CompetitionOf(v, g);
      var s := StateOf(v, t, g, c);
      && s.used == |Moves(v, t, g)|
      && s.penalty == c.transferPenalty * Excess(|Moves(v, t, g)|, c.freeTransfersPerGameweek)
      && s.penalty as real == SumOf(PenaltyOf, Moves(v, t, g))
  {
    OpeningSound(w);
    RunKeeps(w, actions);
    assert AccountSound(Run(w, actions), t, g);
  }

  // Squads.

  /** One selection leads and another one is its deputy; both start, and no other selection carries a mark. */
  ghost predicate Led(s: seq<Selection>, c: nat, v: nat)
  {
    && c < |s| && v < |s| && c != v && s[c].item.starter && s[v].item.starter
    && forall i :: 0 <= i < |s| ==> (s[i].item.captain <==> i == c) && (s[i].item.vice <==> i == v)
  }

  lemma OneMark(items: seq<Item>, i: nat, j: nat)
    requires MarksUnique(items) && i < |items| && j < |items| && i != j
    ensures !(items[i].captain && items[j].captain) && !(items[i].vice && items[j].vice)
  {
    if i > j {
      assert !(items[j].captain && items[i].captain) && !(items[j].vice && items[i].vice);
    }
  }

  /** Whole-squad captaincy: the squad check sees the starters, the table constraints the rest. */
  lemma SquadIsLed(w: World, t: Id) returns (c: nat, v: nat)
    requires t in w.teams && SquadSound(w, t)
    ensures Led(w.teams[t].selections, c, v)
  {
    var s, squad := w.teams[t].selections, SquadOf(w, t);
    var items := Items(s);
    var x, y :| 0 <= x < |squad| && 0 <= y < |squad| && x != y && Leads(squad, x, y);
    c, v := x, y;
    assert squad[x].captain && squad[x].starter && squad[y].vice && squad[y].starter;
    forall i | 0 <= i < |s| ensures (s[i].item.captain <==> i == c) && (s[i].item.vice <==> i == v) {
      if i != c {
        OneMark(items, i, c);
      }
      if i != v {
        OneMark(items, i, v);
      }
    }
  }

  /** Every team of every reachable state has a squad of legal shape with one captain and one deputy. */
  lemma SquadsStayLegal(w: World, actions: seq<Action>, t: Id)
    requires Opening(w) && t in Run(w, actions).teams
    ensures var v := Run(w, actions);
      && SquadSound(v, t)
      && (exists c, d :: Led(v.teams[t].selections, c, d))
  {
    OpeningSound(w);
    RunKeeps(w, actions);
    var c, d := SquadIsLed(Run(w, actions), t);
  }

  lemma LedIsMarked(w: World, t: Id, c: nat, v: nat)
    requires t in w.teams && Led(w.teams[t].selections, c, v)
    ensures Marks(Starters(w, t), w.teams[t].selections[c], w.teams[t].selections[v])
  {
    var s := w.teams[t].selections;
    forall x ensures x in Starters(w, t) <==> x in s && x.item.starter {
      FilterMembers(Starts, s, x);
    }
  }

  /** So the scores of a reachable state do not depend on the order in which selections are read. */
  lemma ScoresIgnoreRowOrder(w: World, actions: seq<Action>, g: Id, t: Id, shuffled: seq<Selection>)
    requires Opening(w) && Enters(Run(w, actions), t, g)
    requires multiset(shuffled) == multiset(Run(w, actions).teams[t].selections)
    ensures var v := Run(w, actions);
      SameScore(v, v.(teams := v.teams[t := v.teams[t].(selections := shuffled)]), g, t)
  {
    OpeningSound(w);
    RunKeeps(w, actions);
    var v := Run(w, actions);
    assert SquadSound(v, t);
    var c, d := SquadIsLed(v, t);
    LedIsMarked(v, t, c, d);
    SelectionOrderFree(v, g, t, shuffled, v.teams[t].selections[c], v.teams[t].selections[d]);
  }

  // Locks.

  /** What any action may do to the clock and the gameweeks: only statuses move, and never back to an editable one. */
  ghost predicate TimePasses(w: World, v: World)
  {
    && w.now <= v.now && w.gameweeks.Keys == v.gameweeks.Keys
    && forall g :: g in w.gameweeks ==>
      && v.gameweeks[g] == w.gameweeks[g].(status := v.gameweeks[g].status)
      && (w.gameweeks[g].status != Draft && w.gameweeks[g].status != Open ==>
        v.gameweeks[g].status != Draft && v.gameweeks[g].status != Open)
  }

  /** A gameweek that has left the editable statuses may only take another one outside them. */
  lemma StatusPasses(w: World, u: World, g: Id, status: Status)
    requires g in w.gameweeks && u.gameweeks == w.gameweeks && u.now == w.now
    requires w.gameweeks[g].status != Draft && w.gameweeks[g].status != Open ==> status != Draft && status != Open
    ensures TimePasses(w, WithStatus(u, g, status))
  {
  }

  lemma SameTime(w: World, v: World)
    requires w.gameweeks == v.gameweeks && w.now <= v.now
    ensures TimePasses(w, v)
  {
  }

  ghost predicate LockedAt(w: World, g: Id)
  {
    g in w.gameweeks && DeadlineLocked(w.gameweeks[g], w.now)
  }

  lemma LockStays(w: World, v: World, g: Id)
    requires LockedAt(w, g) && TimePasses(w, v)
    ensures LockedAt(v, g)
  {
  }

  /** The transfer rows and the accounting of team `t` in gameweek `g` are the same in both states. */
  ghost predicate Frozen(w: World, v: World, t: Id, g: Id)
    requires Enters(w, t, g)
  {
    && Enters(v, t, g)
    && CompetitionOf(v, g) == CompetitionOf(w, g)
    && Moves(v, t, g) == Moves(w, t, g)
    && StateOf(v, t, g, CompetitionOf(v, g)) == StateOf(w, t, g, CompetitionOf(w, g))
  }

  /** Time passes, and a locked gameweek's transfers and accounting do not move. */
  ghost predicate RespectsLock(w: World, v: World, t: Id, g: Id)
    requires Enters(w, t, g)
  {
    TimePasses(w, v) && (LockedAt(w, g) ==> Frozen(w, v, t, g))
  }

  lemma SameAccounts(w: World, v: World, t: Id, g: Id)
    requires Enters(w, t, g) && v.gameweeks == w.gameweeks && w.now <= v.now
    requires v.transfers == w.transfers && v.competitions == w.competitions
    requires t in v.teams && v.teams[t].competition == w.teams[t].competition
    requires At(v.states, g) == At(w.states, g)
    ensures RespectsLock(w, v, t, g) && Frozen(w, v, t, g)
  {
    SameTime(w, v);
  }

  lemma ScoringFreezes(w: World, gs: set<Id>, t: Id, g: Id)
    requires Enters(w, t, g)
    ensures RespectsLock(w, ScoreSet(w, gs), t, g) && Frozen(w, ScoreSet(w, gs), t, g)
  {
    ScoringKeepsStates(w, gs);
    SameTime(w, ScoreSet(w, gs));
    assert Moves(ScoreSet(w, gs), t, g) == Moves(w, t, g);
  }

  lemma StatusFreezes(w: World, u: World, h: Id, status: Status, t: Id, g: Id)
    requires Enters(w, t, g) && Frozen(w, u, t, g) && u.gameweeks == w.gameweeks && u.now == w.now && h in w.gameweeks
    requires w.gameweeks[h].status != Draft && w.gameweeks[h].status != Open ==> status != Draft && status != Open
    ensures RespectsLock(w, WithStatus(u, h, status), t, g)
  {
    StatusPasses(w, u, h, status);
  }

  lemma OtherWeekMoves(w: World, row: Transfer, t: Id, g: Id)
    requires Enters(w, row.team, row.gameweek) && Find(w.teams[row.team].selections, row.playerOut).Some?
    requires Enters(w, t, g) && row.gameweek != g
    ensures Frozen(w, Transferred(w, row), t, g)
  {
    MovesAppend(w, Transferred(w, row), row, t, g);
    assert Moves(w, t, g) + [] == Moves(w, t, g);
  }

  // Action by action.

  lemma CreateRespects(w: World, u: Id, owner: Id, c: Id, items: seq<Item>, t: Id, g: Id)
    requires Enters(w, t, g)
    ensures RespectsLock(w, AfterCreate(w, u, owner, c, items), t, g)
  {
    if CanCreate(w, u, owner, c, items) {
      SameAccounts(w, Created(w, u, NewTeam(w, owner, c, items)), t, g);
    } else {
      SameAccounts(w, w, t, g);
    }
  }

  lemma LineupRespects(w: World, u: Id, items: seq<Item>, t: Id, g: Id)
    requires Enters(w, t, g)
    ensures RespectsLock(w, AfterLineup(w, u, items), t, g)
  {
    if CanSetLineup(w, u, items) {
      SameAccounts(w, WithSquad(w, u, RelinedAll(w.teams[u].selections, items)), t, g);
    } else {
      SameAccounts(w, w, t, g);
    }
  }

  lemma TransferRespects(w: World, u: Id, h: Id, playerOut: Id, playerIn: Id, t: Id, g: Id)
    requires Enters(w, t, g)
    ensures RespectsLock(w, AfterTransfer(w, u, h, playerOut, playerIn), t, g)
  {
    if CanConfirm(w, u, h, playerOut, playerIn) {
      var row := TransferRow(w, u, h, playerOut, playerIn);
      SameTime(w, Transferred(w, row));
      if LockedAt(w, g) {
        OtherWeekMoves(w, row, t, g);
      }
    } else {
      SameAccounts(w, w, t, g);
    }
  }

  lemma BalanceRespects(w: World, u: Id, h: Id, t: Id, g: Id)
    requires Enters(w, t, g)
    ensures RespectsLock(w, AfterBalance(w, u, h), t, g)
  {
    SameTime(w, AfterBalance(w, u, h));
    if Enters(w, u, h) {
      BalanceKeepsStates(w, u, h);
      assert Moves(AfterBalance(w, u, h), t, g) == Moves(w, t, g);
    }
  }

  lemma PreviewRespects(w: World, u: Id, h: Id, playerOut: Id, playerIn: Id, t: Id, g: Id)
    requires Enters(w, t, g)
    ensures RespectsLock(w, AfterPreview(w, u, h, playerOut, playerIn), t, g)
  {
    if CanTransfer(w, u, h, playerOut, playerIn) {
      BalanceRespects(w, u, h, t, g);
    } else {
      SameAccounts(w, w, t, g);
    }
  }

  lemma TransitionRespects(w: World, h: Id, target: Status, t: Id, g: Id)
    requires Enters(w, t, g)
    ensures RespectsLock(w, AfterTransition(w, h, target), t, g)
  {
    SameAccounts(w, w, t, g);
    if CanTransition(w, h, target) {
      StatusFreezes(w, w, h, target, t, g);
    }
  }

  lemma RecalculateRespects(w: World, h: Id, t: Id, g: Id)
    requires Enters(w, t, g)
    ensures RespectsLock(w, AfterRecalculate(w, h), t, g)
  {
    if h in w.gameweeks {
      ScoringFreezes(w, {h}, t, g);
      StatusFreezes(w, ScoreSet(w, {h}), h, Scoring, t, g);
    } else {
      SameAccounts(w, w, t, g);
    }
  }

  lemma FinalizeRespects(w: World, h: Id, t: Id, g: Id)
    requires Enters(w, t, g)
    ensures RespectsLock(w, AfterFinalize(w, h), t, g)
  {
    if CanFinalize(w, h) {
      ScoringFreezes(w, {h}, t, g);
      StatusFreezes(w, ScoreSet(w, {h}), h, Finalized, t, g);
    } else {
      SameAccounts(w, w, t, g);
    }
  }

  /** Writing a table that accounts do not read and then scoring. */
  lemma WriteThenScore(w: World, v: World, gs: set<Id>, t: Id, g: Id)
    requires Enters(w, t, g) && v == w.(points := v.points, corrections := v.corrections, stats := v.stats)
    ensures RespectsLock(w, ScoreSet(v, gs), t, g)
  {
    SameAccounts(w, v, t, g);
    ScoringFreezes(v, gs, t, g);
    SameTime(w, ScoreSet(v, gs));
  }

  lemma CorrectionRespects(w: World, id: Id, h: Id, p: Id, value: real, t: Id, g: Id)
    requires Enters(w, t, g)
    ensures RespectsLock(w, AfterCorrection(w, id, h, p, value), t, g)
  {
    if CanCorrect(w, h, p) {
      WriteThenScore(w, WithCorrection(w, id, h, p, value), {h}, t, g);
    } else {
      SameAccounts(w, w, t, g);
    }
  }

  lemma StatisticEditRespects(w: World, i: nat, value: real, t: Id, g: Id)
    requires Enters(w, t, g)
    ensures RespectsLock(w, AfterStatisticEdit(w, i, value), t, g)
  {
    if CanEditStatistic(w, i, value) {
      WriteThenScore(w, w.(stats := w.stats[i := w.stats[i].(value := value)]), Holding(w, {w.stats[i].fixture}), t, g);
    } else {
      SameAccounts(w, w, t, g);
    }
  }

  lemma TaskRespects(w: World, fixtures: set<Id>, t: Id, g: Id)
    requires Enters(w, t, g)
    ensures RespectsLock(w, AfterTask(w, fixtures), t, g)
  {
    ScoringFreezes(w, Unfinal(w, Holding(w, fixtures)), t, g);
  }

  lemma TeamStepRespects(w: World, a: Action, t: Id, g: Id)
    requires Enters(w, t, g)
    requires a.CreateTeam? || a.SetLineup? || a.MakeTransfer? || a.PreviewTransfer? || a.ReadBalance?
    ensures RespectsLock(w, Step(w, a), t, g)
  {
    hide AfterCreate, AfterLineup, AfterTransfer, AfterPreview, AfterBalance, RespectsLock;
    match a
    case CreateTeam(u, owner, c, items) => CreateRespects(w, u, owner, c, items, t, g);
    case SetLineup(u, items) => LineupRespects(w, u, items, t, g);
    case MakeTransfer(u, h, o, i) => TransferRespects(w, u, h, o, i, t, g);
    case PreviewTransfer(u, h, o, i) => PreviewRespects(w, u, h, o, i, t, g);
    case ReadBalance(u, h) => BalanceRespects(w, u, h, t, g);
  }

  lemma WeekStepRespects(w: World, a: Action, t: Id, g: Id)
    requires Enters(w, t, g)
    requires a.Transition? || a.Recalculate? || a.Finalize? || a.Correct? || a.EditStatistic? || a.ScoreAffected?
    ensures RespectsLock(w, Step(w, a), t, g)
  {
    hide AfterTransition, AfterRecalculate, AfterFinalize, AfterCorrection, AfterStatisticEdit, AfterTask, RespectsLock;
    match a
    case Transition(h, target) => TransitionRespects(w, h, target, t, g);
    case Recalculate(h) => RecalculateRespects(w, h, t, g);
    case Finalize(h) => FinalizeRespects(w, h, t, g);
    case Correct(id, h, p, value) => CorrectionRespects(w, id, h, p, value, t, g);
    case EditStatistic(i, value) => StatisticEditRespects(w, i, value, t, g);
    case ScoreAffected(fixtures) => TaskRespects(w, ToSet(fixtures), t, g);
  }

  lemma FieldStepRespects(w: World, a: Action, t: Id, g: Id)
    requires Enters(w, t, g)
    requires a.RecordStatistic? || a.EditPlayer? || a.Appear? || a.FinishFixture? || a.Tick?
    ensures RespectsLock(w, Step(w, a), t, g)
  {
    hide Step, RespectsLock;
    StepFramed(w, a);
    SameAccounts(w, Step(w, a), t, g);
  }

  lemma StepRespects(w: World, a: Action, t: Id, g: Id)
    requires Enters(w, t, g)
    ensures RespectsLock(w, Step(w, a), t, g)
  {
    hide Step, RespectsLock;
    match a
    case CreateTeam(_, _, _, _) => TeamStepRespects(w, a, t, g);
    case SetLineup(_, _) => TeamStepRespects(w, a, t, g);
    case MakeTransfer(_, _, _, _) => TeamStepRespects(w, a, t, g);
    case PreviewTransfer(_, _, _, _) => TeamStepRespects(w, a, t, g);
    case ReadBalance(_, _) => TeamStepRespects(w, a, t, g);
    case Transition(_, _) => WeekStepRespects(w, a, t, g);
    case Recalculate(_) => WeekStepRespects(w, a, t, g);
    case Finalize(_) => WeekStepRespects(w, a, t, g);
    case Correct(_, _, _, _) => WeekStepRespects(w, a, t, g);
    case EditStatistic(_, _) => WeekStepRespects(w, a, t, g);
    case ScoreAffected(_) => WeekStepRespects(w, a, t, g);
    case RecordStatistic(_) => FieldStepRespects(w, a, t, g);
    case EditPlayer(_, _, _, _) => FieldStepRespects(w, a, t, g);
    case Appear(_, _) => FieldStepRespects(w, a, t, g);
    case FinishFixture(_) => FieldStepRespects(w, a, t, g);
    case Tick(_) => FieldStepRespects(w, a, t, g);
  }

  /** Once locked, a gameweek stays locked in every run, and its transfers and penalties are frozen. */
  lemma {:induction false} LockIsForever(w: World, actions: seq<Action>, t: Id, g: Id)
    requires Enters(w, t, g) && LockedAt(w, g)
    ensures LockedAt(Run(w, actions), g) && Frozen(w, Run(w, actions), t, g)
  {
    if actions != [] {
      var before, a := actions[..|actions| - 1], actions[|actions| - 1];
      var v := Run(w, before);
      LockIsForever(w, before, t, g);
      StepRespects(v, a, t, g);
      LockStays(v, Step(v, a), g);
    }
  }
}
