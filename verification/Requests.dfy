/** When each request is accepted and what it leaves, said in the columns of the rows it touches. */
module Requests {
  import opened Sequences
  import opened FantasyModel
  import opened SquadRules
  import opened Scoring
  import opened Season
  import opened TransferLedger
  import opened SeasonFrames
  import opened SeasonInvariant
  import opened SeasonRuns
  import opened SeasonLaws
  import opened CorrectionLaws
  import opened Freshness
  import opened Acceptance

  // Teams.

  /** No two lines are both captain, and no two are both vice-captain. */
  ghost predicate MarkedOnce(items: seq<Item>)
  {
    && (forall i, j :: 0 <= i < |items| && 0 <= j < |items| && items[i].captain && items[j].captain ==> i == j)
    && (forall i, j :: 0 <= i < |items| && 0 <= j < |items| && items[i].vice && items[j].vice ==> i == j)
  }

  lemma MarksSame(items: seq<Item>)
    ensures MarksUnique(items) <==> MarkedOnce(items)
  {
    if MarkedOnce(items) {
      forall i, j | 0 <= i < j < |items|
        ensures !(items[i].captain && items[j].captain) && !(items[i].vice && items[j].vice)
      {
      }
    }
    if MarksUnique(items) {
      forall i, j | 0 <= i < |items| && 0 <= j < |items| && i != j
        ensures !(items[i].captain && items[j].captain) && !(items[i].vice && items[j].vice)
      {
        OneMark(items, i, j);
      }
    }
  }

  /** A team is created if and only if registration is open, the squad is legal and the owner has none yet. */
  lemma CreateExactly(w: World, t: Id, owner: Id, competition: Id, items: seq<Item>)
    ensures CanCreate(w, t, owner, competition, items) <==>
      && t !in w.teams && competition in w.competitions
      && w.competitions[competition].enabled && w.competitions[competition].registrationOpen
      && (w.competitions[competition].registrationDeadline.Some? ==>
           w.now < w.competitions[competition].registrationDeadline.value)
      && LegalLines(w, competition, items) && MarkedOnce(items)
      && (forall u :: u in w.teams ==> w.teams[u].owner != owner || w.teams[u].competition != competition)
  {
    hide Legal, LegalLines, MarksUnique, MarkedOnce;
    LegalExactly(w, competition, items);
    MarksSame(items);
  }

  /** The new team holds the submitted lines at present prices, with what these leave of the initial budget. */
  lemma CreateWrites(w: World, t: Id, owner: Id, competition: Id, items: seq<Item>)
    requires CanCreate(w, t, owner, competition, items)
    ensures var v := AfterCreate(w, t, owner, competition, items);
      && v.teams.Keys == w.teams.Keys + {t} && (forall u :: u in w.teams ==> v.teams[u] == w.teams[u])
      && var team := v.teams[t];
      && team.owner == owner && team.competition == competition && team.createdAt == w.now
      && team.budgetRemaining == w.competitions[competition].initialBudget - Cost(w, items)
      && |team.selections| == |items|
      && forall i :: 0 <= i < |items| ==>
        items[i].player in w.players && team.selections[i].item == items[i]
        && team.selections[i].purchasePrice == w.players[items[i].player].price
  {
    hide ValidateSelections, MarksUnique, OwnsTeam, Resolve, Cost;
    CostSame(w, items);
  }

  /** A gameweek that a lineup or a transfer may still be entered for. */
  ghost predicate TakesChanges(w: World, g: Id)
  {
    && g in w.gameweeks && (w.gameweeks[g].status == Draft || w.gameweeks[g].status == Open)
    && w.now < w.gameweeks[g].deadline
  }

  /** The lowest-numbered of a competition's gameweeks that stand in Draft or Open. */
  ghost predicate NextWeek(w: World, competition: Id, g: Id)
  {
    && g in w.gameweeks && w.gameweeks[g].competition == competition
    && (w.gameweeks[g].status == Draft || w.gameweeks[g].status == Open)
    && forall h :: h in w.gameweeks && w.gameweeks[h].competition == competition ==>
      w.gameweeks[h].status == Draft || w.gameweeks[h].status == Open ==>
        w.gameweeks[g].number <= w.gameweeks[h].number
  }

  lemma NextWeekSame(w: World, competition: Id)
    ensures LineupOpen(w.gameweeks, competition, w.now) <==>
      exists g :: NextWeek(w, competition, g) && w.now < w.gameweeks[g].deadline
  {
    if LineupOpen(w.gameweeks, competition, w.now) {
      var g :| g in w.gameweeks && Editable(w.gameweeks[g], competition)
        && (forall h :: h in w.gameweeks && Editable(w.gameweeks[h], competition) ==>
             w.gameweeks[g].number <= w.gameweeks[h].number)
        && !DeadlineLocked(w.gameweeks[g], w.now);
      forall h | h in w.gameweeks && w.gameweeks[h].competition == competition
          && (w.gameweeks[h].status == Draft || w.gameweeks[h].status == Open)
        ensures w.gameweeks[g].number <= w.gameweeks[h].number
      {
        assert Editable(w.gameweeks[h], competition);
      }
      assert NextWeek(w, competition, g);
    }
    if g :| NextWeek(w, competition, g) && w.now < w.gameweeks[g].deadline {
      assert Editable(w.gameweeks[g], competition);
    }
  }

  /** The lines name the players the team holds, no more and no fewer. */
  ghost predicate SamePlayers(items: seq<Item>, s: seq<Selection>)
  {
    && (forall i :: 0 <= i < |items| ==> Holds(s, items[i].player))
    && (forall j :: 0 <= j < |s| ==> Submitted(items, s[j].item.player))
  }

  ghost predicate Submitted(items: seq<Item>, p: Id)
  {
    exists i :: 0 <= i < |items| && items[i].player == p
  }

  lemma MembersMean(items: seq<Item>, s: seq<Selection>)
    ensures Members(items) == Members(Items(s)) <==> SamePlayers(items, s)
  {
    forall p ensures p in Members(Items(s)) <==> Holds(s, p) {
      if p in Members(Items(s)) {
        var j :| 0 <= j < |s| && Items(s)[j].player == p;
      }
      if j :| 0 <= j < |s| && s[j].item.player == p {
        assert Items(s)[j].player == p;
      }
    }
    if Members(items) == Members(Items(s)) {
      forall i | 0 <= i < |items| ensures Holds(s, items[i].player) {
        assert items[i].player in Members(items);
      }
      forall j | 0 <= j < |s| ensures Submitted(items, s[j].item.player) {
        assert Items(s)[j].player in Members(Items(s));
      }
    }
    if SamePlayers(items, s) {
      forall p | p in Members(items) ensures p in Members(Items(s)) {
        var i :| 0 <= i < |items| && items[i].player == p;
      }
      forall p | p in Members(Items(s)) ensures p in Members(items) {
        var j :| 0 <= j < |s| && Items(s)[j].player == p;
        assert Submitted(items, s[j].item.player);
      }
      assert Members(items) == Members(Items(s));
    }
  }

  /** A lineup is accepted if and only if the next gameweek still takes it and it is a legal rearrangement. */
  lemma LineupExactly(w: World, t: Id, items: seq<Item>)
    ensures CanSetLineup(w, t, items) <==>
      && t in w.teams
      && (exists g :: NextWeek(w, w.teams[t].competition, g) && w.now < w.gameweeks[g].deadline)
      && LegalLines(w, w.teams[t].competition, items) && MarkedOnce(items)
      && SamePlayers(items, w.teams[t].selections)
  {
    hide Legal, LegalLines, MarksUnique, MarkedOnce, SamePlayers, Members, LineupOpen, NextWeek;
    if t in w.teams {
      LegalExactly(w, w.teams[t].competition, items);
      LegalKnown(w, w.teams[t].competition, items);
      MarksSame(items);
      NextWeekSame(w, w.teams[t].competition);
      MembersMean(items, w.teams[t].selections);
    }
  }

  lemma LegalKnown(w: World, competition: Id, items: seq<Item>)
    ensures LegalLines(w, competition, items) ==> competition in w.competitions
  {
    hide OnOffer, OfPosition, OfClub, StartingAt, Order, WithinLimits, LedBy;
  }

  /** Every row keeps its player and its price and takes over its player's submitted line. */
  lemma LineupWrites(w: World, t: Id, items: seq<Item>)
    requires CanSetLineup(w, t, items)
    ensures var v := AfterLineup(w, t, items);
      && v == w.(teams := w.teams[t := w.teams[t].(selections := v.teams[t].selections)])
      && var before, after := w.teams[t].selections, v.teams[t].selections;
      && |after| == |before|
      && forall j :: 0 <= j < |after| ==>
        after[j].item in items && after[j].item.player == before[j].item.player
        && after[j].purchasePrice == before[j].purchasePrice
  {
    hide Legal, MarksUnique, LineupOpen;
    var s := w.teams[t].selections;
    forall j | 0 <= j < |s|
      ensures RelinedAll(s, items)[j].item in items && RelinedAll(s, items)[j].item.player == s[j].item.player
      ensures RelinedAll(s, items)[j].purchasePrice == s[j].purchasePrice
    {
      LinedUp(s, items, j);
    }
  }

  // Transfers.

  /** Row `i` is the team's first one for player `p`. */
  ghost predicate HeldAt(s: seq<Selection>, p: Id, i: int)
  {
    0 <= i < |s| && s[i].item.player == p && forall j :: 0 <= j < i ==> s[j].item.player != p
  }

  lemma {:induction false} FindMeans(s: seq<Selection>, p: Id)
    ensures Find(s, p).Some? ==> HeldAt(s, p, Find(s, p).value)
    ensures Find(s, p).None? ==> forall i :: !HeldAt(s, p, i)
  {
    if s != [] {
      FindMeans(s[..|s| - 1], p);
    }
  }

  lemma FindIs(s: seq<Selection>, p: Id, i: int)
    requires HeldAt(s, p, i)
    ensures Find(s, p) == Some(i)
  {
    FindMeans(s, p);
  }

  /** What the next transfer would bring the penalty to. */
  ghost function PenaltyNext(w: World, t: Id, g: Id): int
    requires Enters(w, t, g)
  {
    var s := StateOf(w, t, g, CompetitionOf(w, g));
    if s.used < s.free then s.penalty else s.penalty + CompetitionOf(w, g).transferPenalty
  }

  /** The gameweek takes transfers, the buyer is on offer, and the squad with the exchange made is legal. */
  ghost predicate MayExchange(w: World, t: Id, g: Id, playerOut: Id, playerIn: Id, i: int)
  {
    && Enters(w, t, g) && TakesChanges(w, g) && playerOut in w.players
    && OnOffer(w, playerIn, w.teams[t].competition)
    && HeldAt(w.teams[t].selections, playerOut, i)
    && LegalLines(w, w.teams[t].competition,
         Items(w.teams[t].selections)[i := w.teams[t].selections[i].item.(player := playerIn)])
  }

  lemma TransferExactly(w: World, t: Id, g: Id, playerOut: Id, playerIn: Id)
    ensures CanTransfer(w, t, g, playerOut, playerIn) <==> exists i :: MayExchange(w, t, g, playerOut, playerIn, i)
    ensures CanConfirm(w, t, g, playerOut, playerIn) <==>
      (exists i :: MayExchange(w, t, g, playerOut, playerIn, i)) && PenaltyNext(w, t, g) >= 0
  {
    hide Legal, LegalLines, Find, HeldAt;
    if Enters(w, t, g) {
      var s := w.teams[t].selections;
      FindMeans(s, playerOut);
      if Find(s, playerOut).Some? {
        var i := Find(s, playerOut).value;
        FindRow(s, playerOut);
        LegalExactly(w, w.teams[t].competition, Prospective(s, i, playerIn));
        assert CanTransfer(w, t, g, playerOut, playerIn) <==> MayExchange(w, t, g, playerOut, playerIn, i);
      }
    }
  }

  lemma FindRow(s: seq<Selection>, p: Id)
    ensures forall i :: HeldAt(s, p, i) ==> 0 <= i < |s| && Find(s, p) == Some(i)
  {
    hide HeldAt, Find;
    forall i | HeldAt(s, p, i) ensures 0 <= i < |s| && Find(s, p) == Some(i) {
      FindIs(s, p, i);
      HeldInside(s, p, i);
    }
  }

  lemma HeldInside(s: seq<Selection>, p: Id, i: int)
    requires HeldAt(s, p, i)
    ensures 0 <= i < |s|
  {
  }

  // The life of a gameweek.

  /** The stages of a gameweek, in order. */
  function Stage(s: Status): int
  {
    match s case Draft => 0 case Open => 1 case Locked => 2 case Live => 3 case Scoring => 4 case Finalized => 5
  }

  /** A gameweek moves one stage on, may go from Locked straight to Scoring, and back by one from the last two. */
  lemma TransitionExactly(w: World, g: Id, target: Status)
    ensures CanTransition(w, g, target) <==>
      g in w.gameweeks &&
      var from, to := Stage(w.gameweeks[g].status), Stage(target);
      to == from + 1 || (from == 2 && to == 4) || (from >= 4 && to == from - 1)
    ensures var v := AfterTransition(w, g, target);
      if CanTransition(w, g, target)
      then v == w.(gameweeks := w.gameweeks[g := w.gameweeks[g].(status := target)])
      else v == w
  {
  }

  /** Finalizing is accepted if and only if the gameweek is in Scoring and every fixture is over. */
  lemma FinalizeExactly(w: World, g: Id)
    ensures var v := AfterFinalize(w, g);
      if g in w.gameweeks && w.gameweeks[g].status == Scoring
        && (forall f :: f in w.gameweeks[g].fixtures ==> f in w.finished)
      then v.gameweeks == w.gameweeks[g := w.gameweeks[g].(status := Finalized)]
      else v == w
  {
    hide ScoreSet;
    ScoringFrame(w, {g});
  }

  /** Recalculating moves a locked or live gameweek to Scoring and no other one anywhere. */
  lemma RecalculateMoves(w: World, g: Id)
    ensures var v := AfterRecalculate(w, g);
      if g in w.gameweeks && 2 <= Stage(w.gameweeks[g].status) <= 3
      then v.gameweeks == w.gameweeks[g := w.gameweeks[g].(status := Scoring)]
      else v.gameweeks == w.gameweeks
  {
    hide ScoreSet;
    ScoringFrame(w, {g});
  }

  /** The gameweek has one of the listed fixtures. */
  ghost predicate Lists(w: World, g: Id, fixtures: seq<Id>)
  {
    g in w.gameweeks && exists i :: 0 <= i < |fixtures| && fixtures[i] in w.gameweeks[g].fixtures
  }

  lemma ReachedMeans(w: World, fixtures: seq<Id>, g: Id)
    ensures g in Holding(w, ToSet(fixtures)) <==> Lists(w, g, fixtures)
  {
    if g in Holding(w, ToSet(fixtures)) {
      var f :| f in w.gameweeks[g].fixtures * ToSet(fixtures);
      var i :| 0 <= i < |fixtures| && fixtures[i] == f;
    }
    if Lists(w, g, fixtures) {
      var i :| 0 <= i < |fixtures| && fixtures[i] in w.gameweeks[g].fixtures;
      assert fixtures[i] in w.gameweeks[g].fixtures * ToSet(fixtures);
    }
  }

  /** The task brings every gameweek with a listed fixture up to date unless it is final, and leaves the others alone. */
  lemma TaskReaches(w: World, fixtures: seq<Id>, g: Id)
    ensures var v := AfterTask(w, ToSet(fixtures));
      if Lists(w, g, fixtures) && w.gameweeks[g].status != Finalized
      then FreshlyScored(v, g)
      else At(v.points, g) == At(w.points, g) && At(v.states, g) == At(w.states, g) && At(v.scores, g) == At(w.scores, g)
  {
    hide ScoreSet, FreshlyScored;
    var gs := Unfinal(w, Holding(w, ToSet(fixtures)));
    ReachedMeans(w, fixtures, g);
    if g in gs {
      ScoringRefreshes(w, gs, g);
    } else {
      ScoreFrame(w, gs, g);
    }
  }

  /** A correction of a statistic brings every gameweek with its fixture up to date with the new value. */
  lemma StatisticReaches(w: World, i: nat, value: real, g: Id)
    requires i < |w.stats| && value >= 0.0
    ensures var v := AfterStatisticEdit(w, i, value);
      && v.stats == w.stats[i := w.stats[i].(value := value)]
      && (g in w.gameweeks && w.stats[i].fixture in w.gameweeks[g].fixtures ==> FreshlyScored(v, g))
  {
    hide ScoreSet, FreshlyScored;
    var u := w.(stats := w.stats[i := w.stats[i].(value := value)]);
    var gs := Holding(w, {w.stats[i].fixture});
    ScoringFrame(u, gs);
    if g in w.gameweeks && w.stats[i].fixture in w.gameweeks[g].fixtures {
      assert w.stats[i].fixture in w.gameweeks[g].fixtures * {w.stats[i].fixture};
      ScoringRefreshes(u, gs, g);
    }
  }

  /** Scoring a gameweek writes a record for every player of its competition and a score for every team, and touches no
      other row. */
  lemma ScoringReaches(w: World, g: Id, p: Id, t: Id)
    requires g in w.gameweeks && w.gameweeks[g].competition in w.competitions
    ensures var v := ScoreSet(w, {g});
      && (p in w.players && w.players[p].competition == w.gameweeks[g].competition ==>
           p in At(v.points, g) && At(v.points, g)[p] == PlayerRecord(w, g, p))
      && (p !in w.players || w.players[p].competition != w.gameweeks[g].competition ==>
           (p in At(v.points, g) <==> p in At(w.points, g))
           && (p in At(v.points, g) ==> At(v.points, g)[p] == At(w.points, g)[p]))
      && (t in w.teams && w.teams[t].competition == w.gameweeks[g].competition ==>
           Enters(v, t, g) && t in At(v.scores, g) && At(v.scores, g)[t] == TeamScoreOf(v, g, t))
      && (t !in w.teams || w.teams[t].competition != w.gameweeks[g].competition ==>
           (t in At(v.scores, g) <==> t in At(w.scores, g))
           && (t in At(v.scores, g) ==> At(v.scores, g)[t] == At(w.scores, g)[t]))
  {
    hide ScoreSet, PlayerRecord, TeamScoreOf, At;
    ScoreRecords(w, {g}, g, p);
    ScoresAt(w, {g}, g);
    NewScoreOf(WithPoints(w, {g}), g, t);
    if Enters(w, t, g) {
      ScoreOfTeam(w, {g}, g, t);
    }
  }

  /** The two rows record the same type for the same participant of the same match. */
  predicate SameFact(a: Statistic, b: Statistic)
  {
    a.fixture == b.fixture && a.participant == b.participant && a.kind == b.kind
  }

  /** A statistic is recorded if and only if no row records the same fact. */
  lemma RecordExactly(w: World, row: Statistic)
    ensures var v := AfterRecord(w, row);
      if exists i :: 0 <= i < |w.stats| && SameFact(w.stats[i], row) then v == w
      else v == w.(stats := w.stats + [row])
  {
  }

  ghost predicate FactsOnce(s: seq<Statistic>)
  {
    forall i, j :: 0 <= i < j < |s| ==> !SameFact(s[i], s[j])
  }

  lemma StepFactsOnce(w: World, a: Action)
    requires FactsOnce(w.stats)
    ensures FactsOnce(Step(w, a).stats)
  {
    hide AfterStatisticEdit, AfterRecord, ScoreSet;
    StepFramed(w, a);
    if a.EditStatistic? {
      if CanEditStatistic(w, a.index, a.value) {
        StatisticReaches(w, a.index, a.value, 0);
      } else {
        EditRefused(w, a.index, a.value);
      }
    } else if a.RecordStatistic? {
      RecordExactly(w, a.row);
    }
  }

  lemma EditRefused(w: World, i: nat, value: real)
    requires !CanEditStatistic(w, i, value)
    ensures AfterStatisticEdit(w, i, value) == w
  {
    hide ScoreSet;
  }

  /** No run records a fact twice. */
  lemma {:induction false} FactsStayUnique(w: World, actions: seq<Action>)
    requires FactsOnce(w.stats)
    ensures FactsOnce(Run(w, actions).stats)
  {
    hide Step;
    if actions != [] {
      var n := |actions| - 1;
      FactsStayUnique(w, actions[..n]);
      StepFactsOnce(Run(w, actions[..n]), actions[n]);
    }
  }

  /** The balance a team is told is what its transfers have left of the free ones. */
  lemma BalanceTold(w: World, actions: seq<Action>, t: Id, g: Id)
    requires Opening(w) && Enters(Run(w, actions), t, g)
    ensures var v := Run(w, actions);
      var free, made := CompetitionOf(v, g).freeTransfersPerGameweek, |Moves(v, t, g)|;
      StateOf(v, t, g, CompetitionOf(v, g)).Remaining() == if made < free then free - made else 0
  {
    hide Run, Opening, SquadsSound, LedgersSound, CorrectionsSound, ForeignKeys, Moves, StateOf;
    OpeningSound(w);
    RunKeeps(w, actions);
    assert AccountSound(Run(w, actions), t, g);
  }

  // Locks, over whole runs.

  /** Once a gameweek has left Draft and Open, or its deadline has come, no run moves its transfers or accounts. */
  lemma ClosedForTransfers(w: World, actions: seq<Action>, t: Id, g: Id)
    requires Enters(w, t, g)
    requires (w.gameweeks[g].status != Draft && w.gameweeks[g].status != Open) || w.gameweeks[g].deadline <= w.now
    ensures var v := Run(w, actions);
      && Moves(v, t, g) == Moves(w, t, g)
      && Enters(v, t, g)
      && StateOf(v, t, g, CompetitionOf(v, g)) == StateOf(w, t, g, CompetitionOf(w, g))
      && ((v.gameweeks[g].status != Draft && v.gameweeks[g].status != Open) || v.gameweeks[g].deadline <= v.now)
      && forall o, p :: !CanTransfer(v, t, g, o, p)
  {
    LockIsForever(w, actions, t, g);
  }

  // Withdrawn players, over whole runs.

  /** The player may not be bought: ineligible, injured, suspended or unavailable. */
  ghost predicate Withdrawn(w: World, p: Id)
  {
    && p in w.players
    && (!w.players[p].eligible || w.players[p].availability == Injured || w.players[p].availability == Suspended
        || w.players[p].availability == Unavailable)
  }

  lemma WithdrawnIsIllegal(w: World, competition: Id, items: seq<Item>, i: int)
    requires 0 <= i < |items| && Withdrawn(w, items[i].player)
    ensures !Legal(w, competition, items)
  {
    hide Legal, LegalLines;
    LegalExactly(w, competition, items);
    LinesOffered(w, competition, items, i);
  }

  lemma LinesOffered(w: World, competition: Id, items: seq<Item>, i: int)
    requires 0 <= i < |items|
    ensures LegalLines(w, competition, items) ==> OnOffer(w, items[i].player, competition)
  {
    hide OnOffer, OfPosition, OfClub, StartingAt, Order, WithinLimits, LedBy;
  }

  /** A team that holds a withdrawn player after a step is the team it was before the step. */
  ghost predicate HoldersStand(w: World, v: World, p: Id)
  {
    forall t :: t in v.teams && Holds(v.teams[t].selections, p) ==> t in w.teams && v.teams[t] == w.teams[t]
  }

  lemma CreateLeavesOut(w: World, t: Id, owner: Id, c: Id, items: seq<Item>, p: Id)
    requires Withdrawn(w, p)
    ensures HoldersStand(w, AfterCreate(w, t, owner, c, items), p)
  {
    hide Legal, MarksUnique, OwnsTeam;
    if CanCreate(w, t, owner, c, items) {
      var v := AfterCreate(w, t, owner, c, items);
      if Holds(v.teams[t].selections, p) {
        var i :| 0 <= i < |items| && items[i].player == p;
        WithdrawnIsIllegal(w, c, items, i);
      }
    }
  }

  lemma LineupLeavesOut(w: World, t: Id, items: seq<Item>, p: Id)
    requires Withdrawn(w, p)
    ensures HoldersStand(w, AfterLineup(w, t, items), p)
  {
    hide Legal, MarksUnique, LineupOpen, RelinedAll;
    if CanSetLineup(w, t, items) {
      var v := AfterLineup(w, t, items);
      if Holds(v.teams[t].selections, p) {
        var j :| 0 <= j < |v.teams[t].selections| && v.teams[t].selections[j].item.player == p;
        LineupWrites(w, t, items);
        var i :| 0 <= i < |items| && items[i] == v.teams[t].selections[j].item;
        WithdrawnIsIllegal(w, w.teams[t].competition, items, i);
      }
    }
  }

  lemma TransferLeavesOut(w: World, t: Id, g: Id, playerOut: Id, playerIn: Id, p: Id)
    requires Withdrawn(w, p)
    ensures HoldersStand(w, AfterTransfer(w, t, g, playerOut, playerIn), p)
  {
    hide Legal, StateOf, Find;
    if CanConfirm(w, t, g, playerOut, playerIn) {
      var v := AfterTransfer(w, t, g, playerOut, playerIn);
      var s, after := w.teams[t].selections, v.teams[t].selections;
      if Holds(after, p) {
        var j :| 0 <= j < |after| && after[j].item.player == p;
        var items := Prospective(s, Find(s, playerOut).value, playerIn);
        assert items[j].player == p;
        WithdrawnIsIllegal(w, w.teams[t].competition, items, j);
      }
    }
  }

  lemma StepLeavesOut(w: World, a: Action, p: Id)
    requires Withdrawn(w, p)
    ensures HoldersStand(w, Step(w, a), p)
    ensures !(a.EditPlayer? && a.player == p) ==> Withdrawn(Step(w, a), p)
  {
    hide HoldersStand, AfterCreate, AfterLineup, AfterTransfer;
    StepFramed(w, a);
    match a
    case CreateTeam(t, owner, c, items) => CreateLeavesOut(w, t, owner, c, items, p);
    case SetLineup(t, items) => LineupLeavesOut(w, t, items, p);
    case MakeTransfer(t, g, o, i) => TransferLeavesOut(w, t, g, o, i, p);
    case _ => SameTeamsStand(w, Step(w, a), p);
  }

  lemma SameTeamsStand(w: World, v: World, p: Id)
    requires v.teams == w.teams
    ensures HoldersStand(w, v, p)
  {
  }

  /** Until a withdrawn player is edited again, nobody gains it, and whoever holds it can change nothing but sell it. */
  lemma {:induction false} WithdrawnIsFrozen(w: World, actions: seq<Action>, p: Id)
    requires Withdrawn(w, p)
    requires forall i :: 0 <= i < |actions| ==> !(actions[i].EditPlayer? && actions[i].player == p)
    ensures var v := Run(w, actions);
      && Withdrawn(v, p)
      && (forall t :: t in v.teams && Holds(v.teams[t].selections, p) ==> t in w.teams && v.teams[t] == w.teams[t])
      && (forall t, g, o :: !CanTransfer(v, t, g, o, p))
      && (forall c, items: seq<Item>, i :: 0 <= i < |items| && items[i].player == p ==> !Legal(v, c, items))
  {
    hide Step, Legal, Withdrawn;
    var v := Run(w, actions);
    if actions != [] {
      var before, a := actions[..|actions| - 1], actions[|actions| - 1];
      WithdrawnIsFrozen(w, before, p);
      StepLeavesOut(Run(w, before), a, p);
    }
    NeverAccepted(v, p);
  }

  lemma NeverAccepted(w: World, p: Id)
    requires Withdrawn(w, p)
    ensures forall t, g, o :: !CanTransfer(w, t, g, o, p)
    ensures forall c, items: seq<Item>, i :: 0 <= i < |items| && items[i].player == p ==> !Legal(w, c, items)
  {
    hide Legal;
    forall c, items: seq<Item>, i | 0 <= i < |items| && items[i].player == p ensures !Legal(w, c, items) {
      WithdrawnIsIllegal(w, c, items, i);
    }
  }

  /** A player who is edited to be ineligible, injured, suspended or unavailable is in no squad accepted afterwards until
      edited again. */
  lemma EditWithdraws(w: World, p: Id, price: real, eligible: bool, availability: Availability, actions: seq<Action>)
    requires p in w.players && (!eligible || (availability != Available && availability != Doubtful))
    requires forall i :: 0 <= i < |actions| ==> !(actions[i].EditPlayer? && actions[i].player == p)
    ensures var u := AfterEdit(w, p, price, eligible, availability);
      var v := Run(u, actions);
      && (forall t :: t in v.teams && Holds(v.teams[t].selections, p) ==> t in w.teams && v.teams[t] == w.teams[t])
      && (forall t, g, o :: !CanTransfer(v, t, g, o, p))
      && (forall c, items: seq<Item>, i :: 0 <= i < |items| && items[i].player == p ==> !Legal(v, c, items))
  {
    hide Run, Legal, CanTransfer, Holds;
    WithdrawnIsFrozen(AfterEdit(w, p, price, eligible, availability), actions, p);
  }

  // What happens around the workflow.

  /** The end of each of the listed fixtures. */
  function Ended(fixtures: seq<Id>): (r: seq<Action>)
    ensures |r| == |fixtures|
  {
    seq(|fixtures|, i requires 0 <= i < |fixtures| => FinishFixture(fixtures[i]))
  }

  lemma {:induction false} AllEnded(w: World, fixtures: seq<Id>)
    ensures Run(w, Ended(fixtures)) == w.(finished := w.finished + ToSet(fixtures))
  {
    if fixtures == [] {
      assert ToSet(fixtures) == {};
    } else {
      var n := |fixtures| - 1;
      AllEnded(w, fixtures[..n]);
      assert Ended(fixtures)[..n] == Ended(fixtures[..n]);
      assert ToSet(fixtures) == ToSet(fixtures[..n]) + {fixtures[n]};
      FinishStep(Run(w, Ended(fixtures[..n])), fixtures[n]);
    }
  }

  lemma FinishStep(w: World, f: Id)
    ensures Step(w, FinishFixture(f)) == w.(finished := w.finished + {f})
  {
  }

  /** A gameweek in Scoring can be finalized as soon as its fixtures have ended. */
  lemma EndedCanBeFinalized(w: World, g: Id, fixtures: seq<Id>)
    requires g in w.gameweeks && w.gameweeks[g].status == Scoring && ToSet(fixtures) == w.gameweeks[g].fixtures
    ensures var v := AfterFinalize(Run(w, Ended(fixtures)), g);
      g in v.gameweeks && v.gameweeks[g].status == Finalized
  {
    hide ScoreSet, Run;
    AllEnded(w, fixtures);
    FinalizeExactly(Run(w, Ended(fixtures)), g);
  }

  lemma WeeksStand(w: World, a: Action, g: Id)
    requires g in w.gameweeks
    ensures g in Step(w, a).gameweeks && Step(w, a).gameweeks[g].fixtures == w.gameweeks[g].fixtures
  {
    hide AfterTransition, AfterRecalculate, AfterFinalize, AfterCreate, AfterLineup, AfterTransfer, AfterPreview;
    hide AfterBalance, AfterCorrection, AfterStatisticEdit, AfterTask, AfterRecord, AfterEdit, AfterAppear, Framed;
    match a
    case Transition(h, target) => TransitionExactly(w, h, target);
    case Recalculate(h) => RecalculateMoves(w, h);
    case Finalize(h) => FinalizeExactly(w, h);
    case _ => WeeksFramed(w, a);
  }

  lemma PlayersStand(w: World, a: Action, p: Id)
    requires p in w.players
    ensures p in Step(w, a).players && Step(w, a).players[p].participant == w.players[p].participant
  {
    hide Step;
    StepFramed(w, a);
    if a.EditPlayer? {
      EditStep(w, a);
    }
  }

  lemma EditStep(w: World, a: Action)
    requires a.EditPlayer?
    ensures Step(w, a) == AfterEdit(w, a.player, a.price, a.eligible, a.availability)
  {
    hide AfterEdit;
  }

  lemma EventsStand(w: World, a: Action, fixtures: set<Id>, q: Id)
    requires Appeared(w.stats, w.appearances, fixtures, q)
    ensures Appeared(Step(w, a).stats, Step(w, a).appearances, fixtures, q)
  {
    hide AfterStatisticEdit, AfterRecord, ScoreSet, Framed;
    if a.EditStatistic? {
      StatisticStands(w, a.index, a.value, fixtures, q);
    } else if a.RecordStatistic? {
      RecordExactly(w, a.row);
    } else if !a.Appear? {
      EventsFramed(w, a);
    }
  }

  lemma EventsFramed(w: World, a: Action)
    requires !a.EditStatistic? && !a.RecordStatistic? && !a.Appear?
    ensures Step(w, a).stats == w.stats && Step(w, a).appearances == w.appearances
  {
    hide Step;
    StepFramed(w, a);
  }

  lemma StatisticStands(w: World, i: nat, value: real, fixtures: set<Id>, q: Id)
    requires Appeared(w.stats, w.appearances, fixtures, q)
    ensures var v := AfterStatisticEdit(w, i, value); Appeared(v.stats, v.appearances, fixtures, q)
  {
    hide ScoreSet;
    if CanEditStatistic(w, i, value) {
      var u := w.(stats := w.stats[i := w.stats[i].(value := value)]);
      ScoringFrame(u, Holding(w, {w.stats[i].fixture}));
      if s :| s in w.stats && s.fixture in fixtures && s.participant == q {
        var k :| 0 <= k < |w.stats| && w.stats[k] == s;
        assert u.stats[k] in u.stats && u.stats[k].fixture in fixtures && u.stats[k].participant == q;
      }
    }
  }

  lemma StepTakingPart(w: World, a: Action, g: Id, s: Selection)
    requires g in w.gameweeks && Plays(w, g, s)
    ensures g in Step(w, a).gameweeks && Plays(Step(w, a), g, s)
  {
    hide Step, Appeared;
    WeeksStand(w, a, g);
    PlayersStand(w, a, s.item.player);
    EventsStand(w, a, w.gameweeks[g].fixtures, w.players[s.item.player].participant);
  }

  /** Whoever has taken part once has taken part in every run from there: nothing takes an appearance back. */
  lemma {:induction false} TakingPartStays(w: World, actions: seq<Action>, g: Id, s: Selection)
    requires g in w.gameweeks && Plays(w, g, s)
    ensures var v := Run(w, actions); g in v.gameweeks && Plays(v, g, s)
  {
    hide Step, Plays;
    if actions != [] {
      var n := |actions| - 1;
      TakingPartStays(w, actions[..n], g, s);
      StepTakingPart(Run(w, actions[..n]), actions[n], g, s);
    }
  }

  /** A lineup row in a fixture of the gameweek makes the player one who took part. */
  lemma AppearingCounts(w: World, g: Id, s: Selection, f: Id)
    requires g in w.gameweeks && s.item.player in w.players && f in w.gameweeks[g].fixtures
    ensures Plays(AfterAppear(w, f, w.players[s.item.player].participant), g, s)
  {
  }

  /** So does a new statistic in one. */
  lemma RecordingCounts(w: World, g: Id, s: Selection, row: Statistic)
    requires g in w.gameweeks && s.item.player in w.players && row.fixture in w.gameweeks[g].fixtures
    requires row.participant == w.players[s.item.player].participant
    ensures Plays(AfterRecord(w, row), g, s)
  {
    hide AfterRecord;
    var v := AfterRecord(w, row);
    RecordExactly(w, row);
    if i :| 0 <= i < |w.stats| && SameFact(w.stats[i], row) {
      assert w.stats[i] in v.stats;
    } else {
      assert v.stats[|w.stats|] == row;
    }
  }
}
