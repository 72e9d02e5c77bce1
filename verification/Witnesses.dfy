/** Concrete runs that show where the application does less than one might expect. */
module Witnesses {
  import opened Sequences
  import opened FantasyModel
  import opened SquadRules
  import opened Scoring
  import opened ScoreLaws
  import opened Season
  import opened SeasonLaws
  import opened SeasonFrames
  import opened SeasonRuns
  import opened CorrectionLaws
  import opened GameweekLaws
  import opened LockedScores
  import Leaderboards
  import Ranking
  import RegistrationOrder

  // A competition for squads of three starters, and a pool of four players.

  function Cup(): Competition
  {
    Competition(true, true, None, 3, 3, 0, 10.0, 3, 2.0, true, 1, 4, map["P" := 3], map[])
  }

  function Member(participant: Id, price: real): Player
  {
    Player(1, participant, "P", None, price, true, Available)
  }

  function Pool(first: real, fourth: real): map<Id, Player>
  {
    map[1 := Member(1, first), 2 := Member(2, 4.0), 3 := Member(3, 2.0), 4 := Member(4, fourth)]
  }

  /** Player `c` is captain, player `v` vice-captain, player `p` fills the third place. */
  function Lines(c: Id, v: Id, p: Id): seq<Item>
  {
    [Item(c, true, None, true, false), Item(v, true, None, false, true), Item(p, true, None, false, false)]
  }

  function Trio(p: Id): seq<Item>
  {
    Lines(1, 2, p)
  }

  lemma FilterThree<T>(p: T -> bool, x: T, y: T, z: T)
    ensures Filter(p, [x, y, z]) ==
      (if p(x) then [x] else []) + (if p(y) then [y] else []) + (if p(z) then [z] else [])
  {
    assert [x, y, z][..2] == [x, y] && [x, y][..1] == [x] && [x][..0] == [];
    assert Filter(p, [x]) == if p(x) then [x] else [];
    assert Filter(p, [x, y]) == Filter(p, [x]) + if p(y) then [y] else [];
  }

  lemma SumThree<T>(f: T -> real, x: T, y: T, z: T)
    ensures SumOf(f, [x, y, z]) == f(x) + f(y) + f(z)
  {
    hide SumOf;
    assert [x, y, z] == [x] + [y] + [z];
    SumConcat(f, [x] + [y], [z]);
    SumConcat(f, [x], [y]);
    SumOne(f, x);
    SumOne(f, y);
    SumOne(f, z);
  }

  /** Three players of the pool are a legal squad whenever they are affordable. */
  lemma LinesLegal(w: World, c: Id, v: Id, p: Id, first: real, fourth: real)
    requires w.competitions == map[1 := Cup()] && w.players == Pool(first, fourth)
    requires {c, v, p} <= {1, 2, 3, 4} && c != v && v != p && c != p
    requires w.players[c].price + w.players[v].price + w.players[p].price <= 10.0
    ensures KnownPlayers(w.players, Lines(c, v, p))
    ensures Legal(w, 1, Lines(c, v, p)) && MarksUnique(Lines(c, v, p))
  {
    hide ValidateSelections;
    assert c in {c, v, p} && v in {c, v, p} && p in {c, v, p};
    var squad := Resolve(w.players, Lines(c, v, p));
    var x, y, z := squad[0], squad[1], squad[2];
    assert squad == [x, y, z];
    SumThree(Price, x, y, z);
    TrioShape(x, y, z);
    ValidateAcceptsLegal(1, Cup(), squad, 10.0);
  }

  lemma TrioLegal(w: World, p: Id, first: real, fourth: real)
    requires w.competitions == map[1 := Cup()] && w.players == Pool(first, fourth) && (p == 3 || p == 4)
    requires first + 4.0 + w.players[p].price <= 10.0
    ensures KnownPlayers(w.players, Trio(p))
    ensures Legal(w, 1, Trio(p)) && MarksUnique(Trio(p))
  {
    hide Legal, KnownPlayers, MarksUnique;
    LinesLegal(w, 1, 2, p, first, fourth);
  }

  predicate Plain(e: Entry)
  {
    && e.starter && e.benchOrder == None
    && e.player.competition == 1 && e.player.position == "P" && e.player.club == None
  }

  lemma TrioShape(x: Entry, y: Entry, z: Entry)
    requires x.id != y.id && y.id != z.id && x.id != z.id
    requires Plain(x) && Plain(y) && Plain(z)
    requires x.captain && !x.vice && y.vice && !y.captain && !z.captain && !z.vice
    ensures SquadShape(1, Cup(), [x, y, z])
  {
    var squad := [x, y, z];
    assert x in squad && y in squad && z in squad;
    forall p: string ensures |Filter(AtPosition(p), squad)| == Required(Cup().positionRules, p) {
      FilterThree(AtPosition(p), x, y, z);
    }
    forall k: Id ensures |Filter(AtClub(k), squad)| <= 3 {
      FilterThree(AtClub(k), x, y, z);
    }
    FilterThree(IsStarter, x, y, z);
    FilterThree(IsBench, x, y, z);
    assert Leads(squad, 0, 1);
  }

  /** Two gameweeks, one over by time 5 and the other open until time 100. */
  function Start(first: real, fourth: real): World
  {
    World(0, map[1 := Cup()], Pool(first, fourth), [],
      map[1 := Gameweek(1, 1, 5, Open, {7}), 2 := Gameweek(1, 2, 100, Open, {8})],
      {}, [], {}, map[], [], map[], map[], [], map[], map[])
  }

  lemma StartOpens(first: real, fourth: real)
    ensures Opening(Start(first, fourth))
  {
  }

  lemma {:induction false} RunMore(w: World, actions: seq<Action>, a: Action)
    ensures Run(w, actions + [a]) == Step(Run(w, actions), a)
  {
    assert (actions + [a])[..|actions|] == actions;
  }

  lemma RunTwo(w: World, a: Action, b: Action)
    ensures Run(w, [a, b]) == Step(Step(w, a), b)
  {
    hide Step;
    RunMore(w, [], a);
    RunMore(w, [a], b);
    assert [] + [a] == [a] && [a] + [b] == [a, b];
  }

  lemma RunThree(w: World, a: Action, b: Action, c: Action)
    ensures Run(w, [a, b, c]) == Step(Step(Step(w, a), b), c)
  {
    hide Step;
    RunTwo(w, a, b);
    RunMore(w, [a, b], c);
    assert [a, b] + [c] == [a, b, c];
  }

  lemma TransitionStep(w: World, g: Id, target: Status)
    requires CanTransition(w, g, target)
    ensures Step(w, Transition(g, target)) == WithStatus(w, g, target)
  {
  }

  /** Without a single record a gameweek with players is not up to date. */
  lemma NeverScored(w: World)
    requires w.players == Pool(4.0, 5.0) && w.points == map[] && 1 in w.gameweeks && w.gameweeks[1].competition == 1
    ensures !FreshlyScored(w, 1)
  {
    assert InPool(w, 1, 1);
  }

  /** A gameweek becomes FINALIZED by transitions alone, with its one fixture still to be played and nothing scored. */
  lemma FinalizedUnplayed()
    ensures Opening(Start(4.0, 5.0)) && FinalMeansOver(Start(4.0, 5.0))
    ensures var v := Run(Start(4.0, 5.0),
        [Transition(1, Locked), Transition(1, Status.Scoring), Transition(1, Finalized)]);
      1 in v.gameweeks && v.gameweeks[1].status == Finalized && !FinalMeansOver(v) && !FreshlyScored(v, 1)
  {
    hide Step, Pool, Cup, Opening, FreshlyScored;
    StartOpens(4.0, 5.0);
    var w := Start(4.0, 5.0);
    RunThree(w, Transition(1, Locked), Transition(1, Status.Scoring), Transition(1, Finalized));
    TransitionStep(w, 1, Locked);
    var x := WithStatus(w, 1, Locked);
    TransitionStep(x, 1, Status.Scoring);
    var y := WithStatus(x, 1, Status.Scoring);
    TransitionStep(y, 1, Finalized);
    assert 7 in WithStatus(y, 1, Finalized).gameweeks[1].fixtures;
    NeverScored(WithStatus(y, 1, Finalized));
  }

  // Money.

  /** The first three players at the prices they open with: together the whole budget. */
  function BoughtBy(c: Id, v: Id): seq<Selection>
  {
    [Selection(Lines(c, v, 3)[0], 4.0), Selection(Lines(c, v, 3)[1], 4.0), Selection(Lines(c, v, 3)[2], 2.0)]
  }

  function Bought3(): seq<Selection>
  {
    BoughtBy(1, 2)
  }

  lemma CreateIs(w: World, t: Id, owner: Id, items: seq<Item>)
    ensures Step(w, CreateTeam(t, owner, 1, items)) == AfterCreate(w, t, owner, 1, items)
  {
    hide AfterCreate;
  }

  lemma LinesBought(w: World, t: Id, owner: Id, fourth: real, c: Id, v: Id)
    requires w.competitions == map[1 := Cup()] && w.players == Pool(4.0, fourth)
    requires t !in w.teams && !OwnsTeam(w.teams, owner, 1) && ((c == 1 && v == 2) || (c == 2 && v == 1))
    ensures Step(w, CreateTeam(t, owner, 1, Lines(c, v, 3))) == Created(w, t, Team(owner, 1, w.now, 0.0, BoughtBy(c, v)))
  {
    hide Legal, ValidateSelections, MarksUnique, OwnsTeam;
    var items := Lines(c, v, 3);
    CreateIs(w, t, owner, items);
    LinesLegal(w, c, v, 3, 4.0, fourth);
    var squad := Resolve(w.players, items);
    assert squad == [squad[0], squad[1], squad[2]];
    SumThree(Price, squad[0], squad[1], squad[2]);
    assert BuyAt(w.players, items) == BoughtBy(c, v);
    assert CanCreate(w, t, owner, 1, items);
  }

  lemma TrioBought(w: World, t: Id, owner: Id, fourth: real)
    requires w.competitions == map[1 := Cup()] && w.players == Pool(4.0, fourth)
    requires t !in w.teams && !OwnsTeam(w.teams, owner, 1)
    ensures Step(w, CreateTeam(t, owner, 1, Trio(3))) == Created(w, t, Team(owner, 1, w.now, 0.0, Bought3()))
  {
    hide Step, Created, OwnsTeam;
    LinesBought(w, t, owner, fourth, 1, 2);
  }

  /** A budget can turn negative: the squad check looks at present prices, and one of them has fallen. */
  lemma BudgetTurnsNegative()
    ensures Opening(Start(4.0, 5.0))
    ensures var v := Run(Start(4.0, 5.0),
        [CreateTeam(1, 9, 1, Trio(3)), EditPlayer(1, 0.0, true, Available), MakeTransfer(1, 2, 3, 4)]);
      1 in v.teams && v.teams[1].budgetRemaining == -3.0
  {
    hide Step, Opening, Pool, Cup, Bought3, Holdings, Trio;
    StartOpens(4.0, 5.0);
    var w := Start(4.0, 5.0);
    RunThree(w, CreateTeam(1, 9, 1, Trio(3)), EditPlayer(1, 0.0, true, Available), MakeTransfer(1, 2, 3, 4));
    TrioBought(w, 1, 9, 5.0);
    var x := Created(w, 1, Team(9, 1, 0, 0.0, Bought3()));
    EditStep(x, 5.0);
    TransferStep(x.(players := Pool(0.0, 5.0)), 0.0, 5.0);
  }

  lemma EditStep(w: World, fourth: real)
    requires w.players == Pool(4.0, fourth)
    ensures Step(w, EditPlayer(1, 0.0, true, Available)) == w.(players := Pool(0.0, fourth))
  {
    assert AfterEdit(w, 1, 0.0, true, Available) == w.(players := Pool(0.0, fourth));
    EditIs(w, 1, 0.0, true, Available);
  }

  lemma EditIs(w: World, p: Id, price: real, eligible: bool, availability: Availability)
    ensures Step(w, EditPlayer(p, price, eligible, availability)) == AfterEdit(w, p, price, eligible, availability)
  {
    hide AfterEdit;
  }

  lemma TransferIs(w: World, t: Id, g: Id, o: Id, i: Id)
    ensures Step(w, MakeTransfer(t, g, o, i)) == AfterTransfer(w, t, g, o, i)
  {
    hide AfterTransfer;
  }

  lemma ThirdFound()
    ensures Find(Bought3(), 3) == Some(2) && Prospective(Bought3(), 2, 4) == Trio(4)
  {
    hide Find;
    assert Bought3()[2].item.player == 3;
  }

  lemma PlayersExchange(w: World, first: real, fourth: real)
    requires w.competitions == map[1 := Cup()] && w.players == Pool(first, fourth)
    requires 1 in w.teams && w.teams[1].competition == 1 && w.teams[1].selections == Bought3()
    requires 2 in w.gameweeks && w.gameweeks[2] == Gameweek(1, 2, 100, Open, {8}) && w.now < 100
    ensures CanExchange(w, 1, 2, 3, 4)
  {
    hide Cup, Bought3, Find;
    ThirdFound();
  }

  /** The first transfer of a team in a gameweek that grants one is free. */
  lemma FirstIsFree(w: World, t: Id, g: Id, playerOut: Id, playerIn: Id)
    requires CanTransfer(w, t, g, playerOut, playerIn) && At(w.states, g) == map[]
    requires CompetitionOf(w, g).freeTransfersPerGameweek > 0
    ensures CanConfirm(w, t, g, playerOut, playerIn)
  {
    hide CanTransfer;
  }

  lemma TransferPays(w: World, t: Id, g: Id, playerOut: Id, playerIn: Id)
    requires CanConfirm(w, t, g, playerOut, playerIn)
    ensures var v := AfterTransfer(w, t, g, playerOut, playerIn);
      t in v.teams && v.teams[t].budgetRemaining == w.teams[t].budgetRemaining
        + w.teams[t].selections[Find(w.teams[t].selections, playerOut).value].purchasePrice - w.players[playerIn].price
  {
    hide Legal;
  }

  /** Player 4 is exchanged for player 3 in the second gameweek. */
  lemma TransferStep(w: World, first: real, fourth: real)
    requires w.competitions == map[1 := Cup()] && w.players == Pool(first, fourth)
    requires 1 in w.teams && w.teams[1].competition == 1 && w.teams[1].selections == Bought3()
    requires 2 in w.gameweeks && w.gameweeks[2] == Gameweek(1, 2, 100, Open, {8}) && w.now < 100
    requires At(w.states, 2) == map[] && first + 4.0 + fourth <= 10.0
    ensures CanConfirm(w, 1, 2, 3, 4)
    ensures var v := Step(w, MakeTransfer(1, 2, 3, 4));
      1 in v.teams && v.teams[1].budgetRemaining == w.teams[1].budgetRemaining + 2.0 - fourth
  {
    hide Legal, ValidateSelections, Find, Prospective, At, Step, CanExchange, CanConfirm, AfterTransfer;
    ThirdFound();
    PlayersExchange(w, first, fourth);
    TrioLegal(w, 4, first, fourth);
    FirstIsFree(w, 1, 2, 3, 4);
    TransferIs(w, 1, 2, 3, 4);
    TransferPays(w, 1, 2, 3, 4);
  }

  // A locked gameweek.

  /** A state of the season in which the trio's team exists and nothing has been played or transferred. */
  ghost predicate Ready(w: World)
  {
    && w.competitions == map[1 := Cup()] && w.players == Pool(4.0, 2.0)
    && w.gameweeks == Start(4.0, 2.0).gameweeks && w.now < 100
    && w.teams.Keys == {1} && w.teams[1].competition == 1 && w.teams[1].selections == Bought3()
    && At(w.states, 2) == map[] && w.stats == []
  }

  lemma RecalculateIs(w: World, g: Id)
    requires g in w.gameweeks && w.gameweeks[g].status == Open
    ensures Step(w, Recalculate(g)) == ScoreSet(w, {g})
  {
    hide ScoreSet;
  }

  lemma CorrectIs(w: World, id: Id, g: Id, p: Id, value: real)
    requires CanCorrect(w, g, p)
    ensures Step(w, Correct(id, g, p, value)) == ScoreSet(WithCorrection(w, id, g, p, value), {g})
  {
    hide ScoreSet, WithCorrection;
  }

  lemma TickIs(w: World, n: nat)
    ensures Step(w, Tick(n)) == w.(now := w.now + n)
  {
  }

  lemma ReadyScored(w: World)
    requires Ready(w)
    ensures var v := ScoreSet(w, {1});
      Ready(v) && v.corrections == w.corrections && v.now == w.now && FreshlyScored(v, 1)
  {
    hide Pool, Cup, Bought3, Overlay, RecordRows, StateRows, ScoreRows, FreshlyScored, At;
    ScoringRefreshes(w, {1}, 1);
    ScoreFrame(w, {1}, 2);
  }

  ghost predicate NoStatistics(w: World)
  {
    && w.competitions == map[1 := Cup()] && w.players == Pool(4.0, 2.0)
    && w.gameweeks == Start(4.0, 2.0).gameweeks && w.stats == []
  }

  /** Without statistics a player has the points he was corrected to, or none. */
  lemma ScoredTotal(w: World, p: Id)
    requires NoStatistics(w) && 1 <= p <= 4
    ensures var v := ScoreSet(w, {1});
      && p in At(v.points, 1)
      && At(v.points, 1)[p].total == match Latest(w.corrections, 1, p) case None => 0.0 case Some(c) => c.newValue
  {
    hide ScoreSet, At, PlayerRecord, Cup, Bought3, RuleTable;
    assert InPool(w, 1, p);
    ScoreRecords(w, {1}, 1, p);
    CorrectedTotal(w, 1, p);
    assert StatisticsOf(w, 1, p) == [];
  }

  lemma ClockUnread(w: World, now: int)
    ensures FreshlyScored(w.(now := now), 1) <==> FreshlyScored(w, 1)
  {
    var v := w.(now := now);
    forall p ensures InPool(v, 1, p) <==> InPool(w, 1, p) {
    }
    forall p | InPool(w, 1, p) ensures PlayerRecord(v, 1, p) == PlayerRecord(w, 1, p) {
    }
    forall t ensures Enters(v, t, 1) <==> Enters(w, t, 1) {
    }
    forall t | Enters(w, t, 1) ensures TeamScoreOf(v, 1, t) == TeamScoreOf(w, 1, t) {
      TeamScoreReads(w, v, 1, t);
    }
  }

  /** The rows before the transfer: gameweek 1 is locked and up to date, and player 4 has six points in it. */
  ghost predicate Settled(w: World)
  {
    && Ready(w) && LockedAt(w, 1) && FreshlyScored(w, 1)
    && PointsOf(At(w.points, 1), 4) == 6.0 && PointsOf(At(w.points, 1), 3) == 0.0
  }

  /** The trio's team is created, gameweek 1 is scored, and player 4 is corrected to six points. */
  function Opened(id: Id): seq<Action>
  {
    [CreateTeam(1, 9, 1, Trio(3)), Recalculate(1), Correct(id, 1, 4, 6.0)]
  }

  lemma CorrectedReached(id: Id)
    ensures var u := Run(Start(4.0, 2.0), Opened(id));
      && Ready(u) && FreshlyScored(u, 1) && u.now == 0 && u.corrections == [Correction(id, 0, 1, 4, 0.0, 6.0)]
      && 4 in At(u.points, 1) && At(u.points, 1)[4].total == 6.0 && PointsOf(At(u.points, 1), 3) == 0.0
  {
    hide Step, ScoreSet, FreshlyScored, Pool, Cup, Bought3, Trio, Holdings;
    var w := Start(4.0, 2.0);
    RunThree(w, Opened(id)[0], Opened(id)[1], Opened(id)[2]);
    TrioBought(w, 1, 9, 2.0);
    var x := Created(w, 1, Team(9, 1, 0, 0.0, Bought3()));
    RecalculateIs(x, 1);
    ReadyScored(x);
    ScoredTotal(x, 4);
    var y := ScoreSet(x, {1});
    CorrectIs(y, id, 1, 4, 6.0);
    var z := WithCorrection(y, id, 1, 4, 6.0);
    ReadyScored(z);
    LatestAppend([], z.corrections[0], 1, 3);
    LatestAppend([], z.corrections[0], 1, 4);
    ScoredTotal(z, 3);
    ScoredTotal(z, 4);
  }

  lemma SettledReached()
    ensures Opening(Start(4.0, 2.0))
    ensures Settled(Run(Start(4.0, 2.0), Opened(0) + [Tick(10)]))
  {
    hide Step, FreshlyScored, Pool, Cup, Bought3, Opened, Opening;
    StartOpens(4.0, 2.0);
    CorrectedReached(0);
    var u := Run(Start(4.0, 2.0), Opened(0));
    RunMore(Start(4.0, 2.0), Opened(0), Tick(10));
    TickIs(u, 10);
    ClockUnread(u, 10);
  }

  /** A second correction at the same moment whose identifier happens to be the smaller one is not applied. */
  lemma TiedCorrectionLost()
    ensures Opening(Start(4.0, 2.0))
    ensures var v := Run(Start(4.0, 2.0), Opened(1) + [Correct(0, 1, 4, 9.0)]);
      4 in At(v.points, 1) && At(v.points, 1)[4].total != 9.0
  {
    hide Step, FreshlyScored, Pool, Cup, Bought3, Opened, Opening, AfterCorrection;
    StartOpens(4.0, 2.0);
    CorrectedReached(1);
    var w, u := Start(4.0, 2.0), Run(Start(4.0, 2.0), Opened(1));
    RunMore(w, Opened(1), Correct(0, 1, 4, 9.0));
    CorrectionIs(u, 0, 1, 4, 9.0);
    OpeningSound(w);
    RunKeeps(w, Opened(1));
    LatestAppend([], u.corrections[0], 1, 4);
    CorrectionTakesEffect(u, 0, 1, 4, 9.0);
  }

  lemma CorrectionIs(w: World, id: Id, g: Id, p: Id, value: real)
    ensures Step(w, Correct(id, g, p, value)) == AfterCorrection(w, id, g, p, value)
  {
    hide AfterCorrection;
  }

  lemma ThirdUnmarked()
    ensures Led(Bought3(), 0, 1) && Unmarked(Bought3()[2]) && Bought3()[2].item.starter
  {
  }

  /** After a transfer for gameweek 2, rescoring gameweek 1, locked as it is, gives the team six points more. */
  lemma LockedScoreMovesHere(w: World)
    requires Settled(w)
    ensures var v := Run(w, [MakeTransfer(1, 2, 3, 4), Recalculate(1)]);
      && 1 in At(w.scores, 1) && 1 in At(v.scores, 1)
      && At(v.scores, 1)[1].totalPoints == At(w.scores, 1)[1].totalPoints + 6.0
  {
    hide Step, ScoreSet, FreshlyScored, Pool, Cup, Find, CanConfirm, Bought3, Led, AfterTransfer, AfterRecalculate;
    RunTwo(w, MakeTransfer(1, 2, 3, 4), Recalculate(1));
    ThirdFound();
    TransferStep(w, 4.0, 2.0);
    TransferIs(w, 1, 2, 3, 4);
    RecalculatesTo(AfterTransfer(w, 1, 2, 3, 4), 1);
    ThirdUnmarked();
    UnmarkedMove(w, 1, 2, 3, 4, 1, 0, 1);
  }

  lemma RecalculatesTo(w: World, g: Id)
    ensures Step(w, Recalculate(g)) == AfterRecalculate(w, g)
  {
    hide AfterRecalculate;
  }

  // Two teams with the same squad.

  /** Owner 9 registers team 2 at time 0, owner 8 registers team 1 at time 1. */
  function TwoTeams(): World
  {
    var w := Start(4.0, 2.0);
    var x := Created(w, 2, Team(9, 1, 0, 0.0, Bought3()));
    Created(x.(now := 1), 1, Team(8, 1, 1, 0.0, Bought3()))
  }

  lemma TwoTeamsReached()
    ensures Opening(Start(4.0, 2.0))
    ensures Run(Start(4.0, 2.0), [CreateTeam(2, 9, 1, Trio(3)), Tick(1), CreateTeam(1, 8, 1, Trio(3))]) == TwoTeams()
  {
    hide Step, Opening, Pool, Cup, Bought3, Trio, Holdings;
    StartOpens(4.0, 2.0);
    var w := Start(4.0, 2.0);
    RunThree(w, CreateTeam(2, 9, 1, Trio(3)), Tick(1), CreateTeam(1, 8, 1, Trio(3)));
    TrioBought(w, 2, 9, 2.0);
    var x := Created(w, 2, Team(9, 1, 0, 0.0, Bought3()));
    TickIs(x, 1);
    TrioBought(x.(now := 1), 1, 8, 2.0);
  }

  /** The same squad and no transfers earn the same score. */
  lemma SameSquadSameScore(w: World, g: Id, t: Id, u: Id)
    requires Enters(w, t, g) && Enters(w, u, g) && w.teams[t].selections == w.teams[u].selections
    requires StateOf(w, t, g, CompetitionOf(w, g)) == StateOf(w, u, g, CompetitionOf(w, g))
    ensures TeamScoreOf(w, g, t) == TeamScoreOf(w, g, u)
  {
  }

  lemma LevelScores(v: World)
    requires v == ScoreSet(TwoTeams(), {1})
    ensures 1 in At(v.scores, 1) && 2 in At(v.scores, 1) && At(v.scores, 1)[1] == At(v.scores, 1)[2]
  {
    hide ScoreSet, TeamScoreOf, Bought3, Pool, Cup, Holdings;
    var w := TwoTeams();
    ScoringFrame(w, {1});
    ScoreOfTeam(w, {1}, 1, 1);
    ScoreOfTeam(w, {1}, 1, 2);
    ScoringKeepsStates(w, {1});
    assert Enters(w, 1, 1) && Enters(w, 2, 1);
    SameSquadSameScore(v, 1, 1, 2);
  }

  /** Two teams level on points: the one that registered later is ranked first, because its identifier is smaller. The
      default rules promise the opposite. */
  lemma LaterRegistrationFirst()
    ensures Opening(Start(4.0, 2.0))
    ensures var v := Run(Start(4.0, 2.0),
        [CreateTeam(2, 9, 1, Trio(3)), Tick(1), CreateTeam(1, 8, 1, Trio(3))] + [Recalculate(1)]);
      var rows, full := Leaderboards.Rows(v, [1], [1, 2]), Leaderboards.FullRows(v, [1], [1, 2]);
      && 1 in v.teams && 2 in v.teams && v.teams[2].createdAt < v.teams[1].createdAt
      && rows[0].points == rows[1].points
      && Ranking.Order([], rows) != [] && Ranking.Order([], rows)[0].team == 1
      && Ranking.Order([], full) != [] && Ranking.Order([], full)[0].team == 2
  {
    hide Step, Opening, ScoreSet, TwoTeams, Ranking.Order;
    var w := Start(4.0, 2.0);
    var actions := [CreateTeam(2, 9, 1, Trio(3)), Tick(1), CreateTeam(1, 8, 1, Trio(3))];
    TwoTeamsReached();
    RunMore(w, actions, Recalculate(1));
    TwoTeamsOpen();
    RecalculateIs(TwoTeams(), 1);
    var v := ScoreSet(TwoTeams(), {1});
    ScoringFrame(TwoTeams(), {1});
    LevelScores(v);
    RowsRanked(v);
  }

  lemma TwoTeamsOpen()
    ensures 1 in TwoTeams().gameweeks && TwoTeams().gameweeks[1].status == Open
    ensures TwoTeams().teams.Keys == {1, 2} && TwoTeams().teams[1].createdAt == 1 && TwoTeams().teams[2].createdAt == 0
  {
  }

  lemma RowsRanked(v: World)
    requires 1 in At(v.scores, 1) && 2 in At(v.scores, 1) && At(v.scores, 1)[1] == At(v.scores, 1)[2]
    requires 1 in v.teams && 2 in v.teams && v.teams[1].createdAt == 1 && v.teams[2].createdAt == 0
    ensures var rows, full := Leaderboards.Rows(v, [1], [1, 2]), Leaderboards.FullRows(v, [1], [1, 2]);
      && rows[0].points == rows[1].points
      && Ranking.Order([], rows) != [] && Ranking.Order([], rows)[0].team == 1
      && Ranking.Order([], full) != [] && Ranking.Order([], full)[0].team == 2
  {
    hide Ranking.Order;
    var rows, full := Leaderboards.Rows(v, [1], [1, 2]), Leaderboards.FullRows(v, [1], [1, 2]);
    SumOne(Leaderboards.PointsIn(v, 1), 1);
    SumOne(Leaderboards.PointsIn(v, 2), 1);
    SumOne(Leaderboards.PenaltyIn(v, 1), 1);
    SumOne(Leaderboards.PenaltyIn(v, 2), 1);
    FirstOfTwo(rows[0], rows[1]);
    assert rows == [rows[0], rows[1]];
    FirstOfTwo(full[1], full[0]);
    assert full == [full[0], full[1]];
    assert multiset([full[1], full[0]]) == multiset([full[0], full[1]]);
    assert Ranking.Rankable([full[1], full[0]]);
    Ranking.RankCanonical([], [full[1], full[0]], full);
    Leaderboards.OrderFromRanks([], [full[1], full[0]], full);
  }

  /** Of two rows level on points the default rules put first the one registered earlier or, when the rows do not say,
      the one with the smaller identifier. */
  lemma FirstOfTwo(a: Ranking.Row, b: Ranking.Row)
    requires a.team != b.team && a.points == b.points
    requires (a.createdAt.None? && b.createdAt.None? && a.team < b.team)
      || (a.createdAt.Some? && b.createdAt.Some? && a.createdAt.value < b.createdAt.value)
    ensures Ranking.Order([], [a, b]) != [] && Ranking.Order([], [a, b])[0] == a
  {
    hide Ranking.Order;
    var rules, order := Ranking.Effective([]), Ranking.Order([], [a, b]);
    assert rules == [TotalPoints, EarlierRegistration];
    Ranking.RankCorrect([], [a, b]);
    Ranking.OrderMembers([], [a, b]);
    assert order[0] in [a, b] && order[1] in [a, b];
    assert Ranking.RankRows([], [a, b])[0].row == order[0] && Ranking.RankRows([], [a, b])[1].row == order[1];
    assert Ranking.Level(rules[..1], a, b) && (a.createdAt.Some? ==> Ranking.Better(rules[1], a, b));
    assert Ranking.RanksAbove(rules, a, b);
    RegistrationOrder.NotBothAbove(rules, a, b);
    RegistrationOrder.NotBothAbove(rules, b, b);
  }
}
