/** The tables of the Fantasy application, one datatype per row. Prices and points are exact decimals. */
module FantasyModel {
  import opened Sequences

  type Id = nat

  datatype Availability = Available | Doubtful | Injured | Suspended | Unavailable

  datatype Status = Draft | Open | Locked | Live | Scoring | Finalized

  /** A formation rule; an absent bound falls back to 0 or to the lineup size. */
  datatype Limits = Limits(min: Option<int>, max: Option<int>)

  datatype TieBreak = TotalPoints | FewerTransferPenalties | EarlierRegistration | Unsupported(name: string)

  datatype Competition = Competition(
    enabled: bool,
    registrationOpen: bool,
    registrationDeadline: Option<int>,
    squadSize: nat,
    startingLineupSize: nat,
    benchSize: nat,
    initialBudget: real,
    maxPlayersPerTeam: nat,
    captainMultiplier: real,
    viceCaptainFallback: bool,
    freeTransfersPerGameweek: nat,
    transferPenalty: int,
    positionRules: map<string, int>,
    formationRules: map<string, Limits>)

  datatype Player = Player(
    competition: Id,
    participant: Id,
    position: string,
    club: Option<Id>,
    price: real,
    eligible: bool,
    availability: Availability)

  /** One line of a submitted squad or lineup. */
  datatype Item = Item(player: Id, starter: bool, benchOrder: Option<int>, captain: bool, vice: bool)

  /** A squad member: the lineup line plus the price it was bought at. */
  datatype Selection = Selection(item: Item, purchasePrice: real)

  datatype Team = Team(
    owner: Id, competition: Id, createdAt: int, budgetRemaining: real, selections: seq<Selection>)

  datatype Gameweek = Gameweek(competition: Id, number: nat, deadline: int, status: Status, fixtures: set<Id>)

  datatype Transfer = Transfer(
    team: Id, gameweek: Id, playerOut: Id, playerIn: Id, priceOut: real, priceIn: real, penalty: int)

  datatype TransferState = TransferState(free: nat, used: nat, penalty: int)
  {
    function Remaining(): nat
    {
      if free > used then free - used else 0
    }
  }

  datatype Statistic = Statistic(fixture: Id, participant: Id, kind: string, value: real)

  datatype ScoringRule = ScoringRule(
    competition: Id, kind: string, points: real, unconditional: bool, enabled: bool)

  datatype BreakdownLine = BreakdownLine(kind: string, value: real, points: real)

  datatype PointRecord = PointRecord(
    base: real, correction: real, total: real, breakdown: seq<BreakdownLine>, available: bool)

  datatype Correction = Correction(
    id: Id, createdAt: int, gameweek: Id, player: Id, previousValue: real, newValue: real)

  datatype Detail = Detail(
    player: Id, position: string, base: real, correction: real, captainBonus: real, finalPoints: real,
    available: bool, captain: bool)

  datatype TeamScore = TeamScore(
    playerPoints: real, captainBonus: real, transferPenalty: real, totalPoints: real,
    details: seq<Detail>, fallback: bool, effectiveCaptain: Option<Id>)

  /** A budget and the purchase prices of the players held. */
  datatype Ledger = Ledger(budget: real, holdings: map<Id, real>)

  /** The whole database of the Fantasy application and the clock. States, point records and scores are
      kept per gameweek, then per team or player. `founding` is history the application does not store: the
      ledger each team was created with. */
  datatype World = World(
    now: int,
    competitions: map<Id, Competition>,
    players: map<Id, Player>,
    rules: seq<ScoringRule>,
    gameweeks: map<Id, Gameweek>,
    finished: set<Id>,
    stats: seq<Statistic>,
    appearances: set<(Id, Id)>,
    teams: map<Id, Team>,
    transfers: seq<Transfer>,
    states: map<Id, map<Id, TransferState>>,
    points: map<Id, map<Id, PointRecord>>,
    corrections: seq<Correction>,
    scores: map<Id, map<Id, TeamScore>>,
    founding: map<Id, Ledger>)

  /** The rows of one gameweek. */
  function At<V>(table: map<Id, map<Id, V>>, g: Id): map<Id, V>
  {
    if g in table then table[g] else map[]
  }

  /** Referential integrity, which the database keeps by its foreign keys. */
  ghost predicate ForeignKeys(w: World)
  {
    CompetitionsKnown(w) && SquadsKnown(w) && PointsKnown(w) && CorrectionsKnown(w) && StatesKnown(w)
  }

  ghost predicate CompetitionsKnown(w: World)
  {
    && (forall p :: p in w.players ==> w.players[p].competition in w.competitions)
    && (forall g :: g in w.gameweeks ==> w.gameweeks[g].competition in w.competitions)
    && (forall t :: t in w.teams ==> w.teams[t].competition in w.competitions)
  }

  ghost predicate SquadsKnown(w: World)
  {
    forall t :: t in w.teams ==> KnownPlayers(w.players, Items(w.teams[t].selections))
  }

  ghost predicate PointsKnown(w: World)
  {
    forall g, p :: p in At(w.points, g) ==> InPool(w, g, p)
  }

  ghost predicate CorrectionsKnown(w: World)
  {
    forall i :: 0 <= i < |w.corrections| ==> w.corrections[i].player in At(w.points, w.corrections[i].gameweek)
  }

  ghost predicate StatesKnown(w: World)
  {
    forall g, t :: t in At(w.states, g) ==> Enters(w, t, g)
  }

  /** Player `p` belongs to the pool of the competition that gameweek `g` is part of. */
  predicate InPool(w: World, g: Id, p: Id)
  {
    g in w.gameweeks && p in w.players && w.players[p].competition == w.gameweeks[g].competition
  }

  /** Team `t` plays in the competition that gameweek `g` is part of. */
  predicate Enters(w: World, t: Id, g: Id)
  {
    && g in w.gameweeks && t in w.teams
    && w.teams[t].competition == w.gameweeks[g].competition
    && w.gameweeks[g].competition in w.competitions
  }

  ghost predicate DistinctMembers(s: seq<Selection>)
  {
    forall i, j :: 0 <= i < j < |s| ==> s[i].item.player != s[j].item.player
  }

  ghost predicate Holds(s: seq<Selection>, p: Id)
  {
    exists i :: 0 <= i < |s| && s[i].item.player == p
  }

  function Items(selections: seq<Selection>): (r: seq<Item>)
    ensures |r| == |selections|
  {
    seq(|selections|, i requires 0 <= i < |selections| => selections[i].item)
  }

  predicate KnownPlayers(players: map<Id, Player>, items: seq<Item>)
  {
    forall i :: 0 <= i < |items| ==> items[i].player in players
  }

  /** `deadline_locked`: the gameweek has left the editable statuses or its deadline has passed. */
  predicate DeadlineLocked(gw: Gameweek, now: int)
  {
    (gw.status != Draft && gw.status != Open) || now >= gw.deadline
  }

  predicate Selectable(p: Player)
  {
    p.eligible && p.availability != Injured && p.availability != Suspended && p.availability != Unavailable
  }
}
