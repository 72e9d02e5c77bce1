/** The workflow actions of the Fantasy application, each as one step on the whole database. */
module Season {
  import opened Sequences
  import opened FantasyModel
  import opened SquadRules
  import opened Scoring

  // Creating a team.

  function BuyAt(players: map<Id, Player>, items: seq<Item>): (r: seq<Selection>)
    requires KnownPlayers(players, items)
    ensures |r| == |items|
  {
    seq(|items|, i requires 0 <= i < |items| => Selection(items[i], players[items[i].player].price))
  }

  /** The partial unique constraints of the selection table: one captain and one vice-captain a team. */
  predicate MarksUnique(items: seq<Item>)
  {
    forall i, j :: 0 <= i < j < |items| ==>
      !(items[i].captain && items[j].captain) && !(items[i].vice && items[j].vice)
  }

  predicate RegistrationOpen(c: Competition, now: int)
  {
    c.enabled && c.registrationOpen && (c.registrationDeadline.None? || now < c.registrationDeadline.value)
  }

  predicate OwnsTeam(teams: map<Id, Team>, owner: Id, competition: Id)
  {
    exists t :: t in teams && teams[t].owner == owner && teams[t].competition == competition
  }

  /** The squad check accepts `items` for the whole initial budget. */
  predicate Legal(w: World, competition: Id, items: seq<Item>)
  {
    && competition in w.competitions && KnownPlayers(w.players, items)
    && ValidateSelections(competition, w.competitions[competition], Resolve(w.players, items),
         w.competitions[competition].initialBudget).None?
  }

  predicate CanCreate(w: World, t: Id, owner: Id, competition: Id, items: seq<Item>)
  {
    && t !in w.teams && competition in w.competitions
    && RegistrationOpen(w.competitions[competition], w.now)
    && Legal(w, competition, items)
    && !OwnsTeam(w.teams, owner, competition)
    && MarksUnique(items)
  }

  function PurchasePrice(s: Selection): real { s.purchasePrice }

  /** The purchase price of every player held. */
  function Holdings(s: seq<Selection>): map<Id, real>
  {
    if s == [] then map[]
    else
      var n := |s| - 1;
      Holdings(s[..n])[s[n].item.player := s[n].purchasePrice]
  }

  function NewTeam(w: World, owner: Id, competition: Id, items: seq<Item>): Team
    requires KnownPlayers(w.players, items) && competition in w.competitions
  {
    Team(owner, competition, w.now,
      w.competitions[competition].initialBudget - SumOf(Price, Resolve(w.players, items)),
      BuyAt(w.players, items))
  }

  function Created(w: World, t: Id, team: Team): World
  {
    w.(teams := w.teams[t := team],
       founding := w.founding[t := Ledger(team.budgetRemaining, Holdings(team.selections))])
  }

  function AfterCreate(w: World, t: Id, owner: Id, competition: Id, items: seq<Item>): World
  {
    if CanCreate(w, t, owner, competition, items)
    then Created(w, t, NewTeam(w, owner, competition, items))
    else w
  }

  // Changing a lineup.

  predicate Editable(gw: Gameweek, competition: Id)
  {
    gw.competition == competition && (gw.status == Draft || gw.status == Open)
  }

  /** The editable gameweek with the lowest number exists and its deadline lies ahead. */
  predicate LineupOpen(gameweeks: map<Id, Gameweek>, competition: Id, now: int)
  {
    exists g :: g in gameweeks && Editable(gameweeks[g], competition)
      && (forall h :: h in gameweeks && Editable(gameweeks[h], competition) ==> gameweeks[g].number <= gameweeks[h].number)
      && !DeadlineLocked(gameweeks[g], now)
  }

  function Members(items: seq<Item>): set<Id>
  {
    set i | 0 <= i < |items| :: items[i].player
  }

  predicate CanSetLineup(w: World, t: Id, items: seq<Item>)
  {
    && t in w.teams && w.teams[t].competition in w.competitions
    && LineupOpen(w.gameweeks, w.teams[t].competition, w.now)
    && Legal(w, w.teams[t].competition, items)
    && Members(items) == Members(Items(w.teams[t].selections))
    && MarksUnique(items)
  }

  function NamesPlayer(p: Id): Item -> bool { (it: Item) => it.player == p }

  /** A selection with the flags its player has in the new lineup. */
  function Relined(s: Selection, items: seq<Item>): Selection
  {
    var line := First(NamesPlayer(s.item.player), items);
    if line.Some? then s.(item := line.value) else s
  }

  function RelinedAll(selections: seq<Selection>, items: seq<Item>): (r: seq<Selection>)
    ensures |r| == |selections|
  {
    seq(|selections|, i requires 0 <= i < |selections| => Relined(selections[i], items))
  }

  function WithSquad(w: World, t: Id, selections: seq<Selection>): World
    requires t in w.teams
  {
    w.(teams := w.teams[t := w.teams[t].(selections := selections)])
  }

  function AfterLineup(w: World, t: Id, items: seq<Item>): World
  {
    if CanSetLineup(w, t, items)
    then WithSquad(w, t, RelinedAll(w.teams[t].selections, items))
    else w
  }

  // Transfers.

  /** Where a team holds player `p`; `None` when it does not. */
  function Find(s: seq<Selection>, p: Id): (r: Option<nat>)
    ensures r.Some? ==> r.value < |s| && s[r.value].item.player == p
    ensures r.None? ==> forall i :: 0 <= i < |s| ==> s[i].item.player != p
  {
    if s == [] then None
    else
      var n := |s| - 1;
      var before := Find(s[..n], p);
      if before.Some? then before else if s[n].item.player == p then Some(n) else None
  }

  function Bought(s: Selection, p: Id, price: real): Selection
  {
    Selection(s.item.(player := p), price)
  }

  /** The squad a transfer would leave, as the code lays it out for the squad check. */
  function Prospective(selections: seq<Selection>, i: nat, playerIn: Id): seq<Item>
    requires i < |selections|
  {
    Items(selections)[i := selections[i].item.(player := playerIn)]
  }

  /** The locks and the two players of a transfer are in order. */
  predicate CanExchange(w: World, t: Id, g: Id, playerOut: Id, playerIn: Id)
  {
    && Enters(w, t, g) && playerOut in w.players && playerIn in w.players
    && !DeadlineLocked(w.gameweeks[g], w.now)
    && Find(w.teams[t].selections, playerOut).Some?
    && w.players[playerIn].competition == w.teams[t].competition
    && Selectable(w.players[playerIn])
  }

  predicate CanTransfer(w: World, t: Id, g: Id, playerOut: Id, playerIn: Id)
  {
    && CanExchange(w, t, g, playerOut, playerIn)
    && Legal(w, w.teams[t].competition,
         Prospective(w.teams[t].selections, Find(w.teams[t].selections, playerOut).value, playerIn))
  }

  /** The penalty of one more transfer: nothing while free transfers remain. */
  function Charge(s: TransferState, c: Competition): int
  {
    if s.Remaining() > 0 then 0 else c.transferPenalty
  }

  function Charged(s: TransferState, c: Competition): TransferState
  {
    s.(used := s.used + 1, penalty := s.penalty + Charge(s, c))
  }

  function TransferRow(w: World, t: Id, g: Id, playerOut: Id, playerIn: Id): Transfer
    requires CanExchange(w, t, g, playerOut, playerIn)
  {
    var s := w.teams[t].selections[Find(w.teams[t].selections, playerOut).value];
    var c := CompetitionOf(w, g);
    Transfer(t, g, playerOut, playerIn, s.purchasePrice, w.players[playerIn].price, Charge(StateOf(w, t, g, c), c))
  }

  /** The penalty column holds non-negative numbers only, so a negative total is refused by the database. */
  predicate CanConfirm(w: World, t: Id, g: Id, playerOut: Id, playerIn: Id)
  {
    && CanTransfer(w, t, g, playerOut, playerIn)
    && Charged(StateOf(w, t, g, CompetitionOf(w, g)), CompetitionOf(w, g)).penalty >= 0
  }

  function TeamAfter(team: Team, row: Transfer): Team
    requires Find(team.selections, row.playerOut).Some?
  {
    var i := Find(team.selections, row.playerOut).value;
    team.(budgetRemaining := team.budgetRemaining + row.priceOut - row.priceIn,
          selections := team.selections[i := Bought(team.selections[i], row.playerIn, row.priceIn)])
  }

  function WithState(w: World, t: Id, g: Id, s: TransferState): World
  {
    w.(states := w.states[g := At(w.states, g)[t := s]])
  }

  /** The database with transfer `row` carried out. */
  function Transferred(w: World, row: Transfer): World
    requires Enters(w, row.team, row.gameweek) && Find(w.teams[row.team].selections, row.playerOut).Some?
  {
    var c := CompetitionOf(w, row.gameweek);
    WithState(w, row.team, row.gameweek, Charged(StateOf(w, row.team, row.gameweek, c), c)).(
      teams := w.teams[row.team := TeamAfter(w.teams[row.team], row)],
      transfers := w.transfers + [row])
  }

  function AfterTransfer(w: World, t: Id, g: Id, playerOut: Id, playerIn: Id): World
  {
    if CanConfirm(w, t, g, playerOut, playerIn)
    then Transferred(w, TransferRow(w, t, g, playerOut, playerIn))
    else w
  }

  /** Looking at a team's balance creates its state row. */
  function AfterBalance(w: World, t: Id, g: Id): World
  {
    if Enters(w, t, g) then WithState(w, t, g, StateOf(w, t, g, CompetitionOf(w, g))) else w
  }

  /** A preview runs the checks of a transfer and creates the state row, nothing else. */
  function AfterPreview(w: World, t: Id, g: Id, playerOut: Id, playerIn: Id): World
  {
    if CanTransfer(w, t, g, playerOut, playerIn) then AfterBalance(w, t, g) else w
  }

  // The life of a gameweek.

  predicate Allowed(source: Status, target: Status)
  {
    match source
    case Draft => target == Open
    case Open => target == Locked
    case Locked => target == Live || target == Scoring
    case Live => target == Scoring
    case Scoring => target == Finalized || target == Live
    case Finalized => target == Scoring
  }

  function WithStatus(w: World, g: Id, status: Status): World
    requires g in w.gameweeks
  {
    w.(gameweeks := w.gameweeks[g := w.gameweeks[g].(status := status)])
  }

  predicate CanTransition(w: World, g: Id, target: Status)
  {
    g in w.gameweeks && Allowed(w.gameweeks[g].status, target)
  }

  function AfterTransition(w: World, g: Id, target: Status): World
  {
    if CanTransition(w, g, target) then WithStatus(w, g, target) else w
  }

  function AfterRecalculate(w: World, g: Id): World
  {
    if g in w.gameweeks then
      var v := ScoreSet(w, {g});
      if w.gameweeks[g].status == Locked || w.gameweeks[g].status == Live then WithStatus(v, g, Scoring) else v
    else w
  }

  predicate CanFinalize(w: World, g: Id)
  {
    g in w.gameweeks && w.gameweeks[g].status == Scoring && w.gameweeks[g].fixtures <= w.finished
  }

  function AfterFinalize(w: World, g: Id): World
  {
    if CanFinalize(w, g) then WithStatus(ScoreSet(w, {g}), g, Finalized) else w
  }

  // Corrections and statistics.

  /** The correction row, and the point record as it is overwritten before the gameweek is scored. */
  function WithCorrection(w: World, id: Id, g: Id, p: Id, value: real): World
    requires p in At(w.points, g)
  {
    var record := At(w.points, g)[p];
    w.(corrections := w.corrections + [Correction(id, w.now, g, p, record.total, value)],
       points := w.points[g := At(w.points, g)[p := record.(correction := value - record.base, total := value)]])
  }

  predicate CanCorrect(w: World, g: Id, p: Id)
  {
    p in At(w.points, g)
  }

  function AfterCorrection(w: World, id: Id, g: Id, p: Id, value: real): World
  {
    if CanCorrect(w, g, p) then ScoreSet(WithCorrection(w, id, g, p, value), {g}) else w
  }

  /** The gameweeks that contain one of the fixtures. */
  function HoldingIn(gameweeks: map<Id, Gameweek>, fixtures: set<Id>): set<Id>
  {
    set g | g in gameweeks && gameweeks[g].fixtures * fixtures != {}
  }

  function Holding(w: World, fixtures: set<Id>): set<Id>
  {
    HoldingIn(w.gameweeks, fixtures)
  }

  predicate CanEditStatistic(w: World, i: nat, value: real)
  {
    i < |w.stats| && value >= 0.0
  }

  function AfterStatisticEdit(w: World, i: nat, value: real): World
  {
    if CanEditStatistic(w, i, value)
    then ScoreSet(w.(stats := w.stats[i := w.stats[i].(value := value)]), Holding(w, {w.stats[i].fixture}))
    else w
  }

  /** One row per match, participant and type. */
  predicate CanRecord(w: World, row: Statistic)
  {
    forall i :: 0 <= i < |w.stats| ==>
      !(w.stats[i].fixture == row.fixture && w.stats[i].participant == row.participant && w.stats[i].kind == row.kind)
  }

  function AfterRecord(w: World, row: Statistic): World
  {
    if CanRecord(w, row) then w.(stats := w.stats + [row]) else w
  }

  function Unfinal(w: World, gs: set<Id>): set<Id>
  {
    set g | g in gs && g in w.gameweeks && w.gameweeks[g].status != Finalized
  }

  /** `score_affected_gameweeks` */
  function AfterTask(w: World, fixtures: set<Id>): World
  {
    ScoreSet(w, Unfinal(w, Holding(w, fixtures)))
  }

  /** An administrator's change to a pool row. */
  function Edited(w: World, p: Id, price: real, eligible: bool, availability: Availability): World
    requires p in w.players
  {
    w.(players := w.players[p := w.players[p].(price := price, eligible := eligible, availability := availability)])
  }

  function AfterEdit(w: World, p: Id, price: real, eligible: bool, availability: Availability): World
  {
    if p in w.players then Edited(w, p, price, eligible, availability) else w
  }

  function AfterAppear(w: World, fixture: Id, participant: Id): World
  {
    w.(appearances := w.appearances + {(fixture, participant)})
  }

  function AfterFinish(w: World, fixture: Id): World
  {
    w.(finished := w.finished + {fixture})
  }

  function AfterTick(w: World, seconds: nat): World
  {
    w.(now := w.now + seconds)
  }

  // Runs.

  datatype Action =
    | CreateTeam(team: Id, owner: Id, competition: Id, items: seq<Item>)
    | SetLineup(team: Id, items: seq<Item>)
    | MakeTransfer(team: Id, gameweek: Id, playerOut: Id, playerIn: Id)
    | PreviewTransfer(team: Id, gameweek: Id, playerOut: Id, playerIn: Id)
    | ReadBalance(team: Id, gameweek: Id)
    | Transition(gameweek: Id, target: Status)
    | Recalculate(gameweek: Id)
    | Finalize(gameweek: Id)
    | Correct(id: Id, gameweek: Id, player: Id, value: real)
    | EditStatistic(index: nat, value: real)
    | RecordStatistic(row: Statistic)
    | ScoreAffected(fixtures: seq<Id>)
    // What happens around the workflow.
    | EditPlayer(player: Id, price: real, eligible: bool, availability: Availability)
    | Appear(fixture: Id, participant: Id)
    | FinishFixture(fixture: Id)
    | Tick(seconds: nat)

  function Step(w: World, a: Action): World
  {
    match a
    case CreateTeam(t, owner, c, items) => AfterCreate(w, t, owner, c, items)
    case SetLineup(t, items) => AfterLineup(w, t, items)
    case MakeTransfer(t, g, o, i) => AfterTransfer(w, t, g, o, i)
    case PreviewTransfer(t, g, o, i) => AfterPreview(w, t, g, o, i)
    case ReadBalance(t, g) => AfterBalance(w, t, g)
    case Transition(g, target) => AfterTransition(w, g, target)
    case Recalculate(g) => AfterRecalculate(w, g)
    case Finalize(g) => AfterFinalize(w, g)
    case Correct(id, g, p, value) => AfterCorrection(w, id, g, p, value)
    case EditStatistic(i, value) => AfterStatisticEdit(w, i, value)
    case RecordStatistic(row) => AfterRecord(w, row)
    case ScoreAffected(fixtures) => AfterTask(w, ToSet(fixtures))
    case EditPlayer(p, price, eligible, availability) =>
      AfterEdit(w, p, price, eligible, availability)
    case Appear(f, p) => AfterAppear(w, f, p)
    case FinishFixture(f) => AfterFinish(w, f)
    case Tick(n) => AfterTick(w, n)
  }

  function Run(w: World, actions: seq<Action>): World
  {
    if actions == [] then w else Step(Run(w, actions[..|actions| - 1]), actions[|actions| - 1])
  }
}
