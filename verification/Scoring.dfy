/** What scoring a gameweek computes, as a function of the tables it reads. */
module Scoring {
  import opened Sequences
  import opened FantasyModel

  // Player points.

  function UpperChar(c: char): char
  {
    if 'a' <= c <= 'z' then (c as int - 'a' as int + 'A' as int) as char else c
  }

  /** `str.upper` on the ASCII letters. */
  function Upper(s: string): string
  {
    seq(|s|, i requires 0 <= i < |s| => UpperChar(s[i]))
  }

  predicate Applies(rule: ScoringRule, competition: Id)
  {
    rule.competition == competition && rule.enabled && rule.unconditional
  }

  /** The rule dictionary of a competition: keyed by upper-cased type, the last applicable rule winning. */
  function RuleTable(rules: seq<ScoringRule>, competition: Id): map<string, real>
  {
    if rules == [] then map[]
    else
      var n := |rules| - 1;
      var table := RuleTable(rules[..n], competition);
      if Applies(rules[n], competition) then table[Upper(rules[n].kind) := rules[n].points] else table
  }

  function Counted(fixtures: set<Id>, participant: Id): Statistic -> bool
  {
    (s: Statistic) => s.fixture in fixtures && s.participant == participant
  }

  function RowPoints(table: map<string, real>): Statistic -> real
  {
    (s: Statistic) => if Upper(s.kind) in table then s.value * table[Upper(s.kind)] else 0.0
  }

  function Line(table: map<string, real>, row: Statistic): BreakdownLine
    requires Upper(row.kind) in table
  {
    BreakdownLine(row.kind, row.value, row.value * table[Upper(row.kind)])
  }

  function Breakdown(table: map<string, real>, rows: seq<Statistic>): seq<BreakdownLine>
  {
    if rows == [] then []
    else
      var n := |rows| - 1;
      Breakdown(table, rows[..n]) +
      if Upper(rows[n].kind) in table
      then [Line(table, rows[n])]
      else []
  }

  predicate Later(a: Correction, b: Correction)
  {
    b.createdAt > a.createdAt || (b.createdAt == a.createdAt && b.id > a.id)
  }

  predicate About(c: Correction, g: Id, p: Id)
  {
    c.gameweek == g && c.player == p
  }

  /** `corrections.order_by("created_at", "id").last()` for one point record. */
  function Latest(corrections: seq<Correction>, g: Id, p: Id): Option<Correction>
  {
    if corrections == [] then None
    else
      var n := |corrections| - 1;
      var before := Latest(corrections[..n], g, p);
      if About(corrections[n], g, p) && (before.None? || Later(before.value, corrections[n]))
      then Some(corrections[n])
      else before
  }

  function Base(w: World, g: Id, p: Id): real
    requires g in w.gameweeks && p in w.players
  {
    SumOf(RowPoints(RuleTable(w.rules, w.gameweeks[g].competition)), StatisticsOf(w, g, p))
  }

  function StatisticsOf(w: World, g: Id, p: Id): seq<Statistic>
    requires g in w.gameweeks && p in w.players
  {
    Filter(Counted(w.gameweeks[g].fixtures, w.players[p].participant), w.stats)
  }

  /** The point record a scoring leaves for player `p` in gameweek `g`. */
  function PlayerRecord(w: World, g: Id, p: Id): PointRecord
    requires g in w.gameweeks && p in w.players
  {
    var base := Base(w, g, p);
    var correction := match Latest(w.corrections, g, p) case None => 0.0 case Some(c) => c.newValue - base;
    PointRecord(
      base, correction, base + correction,
      Breakdown(RuleTable(w.rules, w.gameweeks[g].competition), StatisticsOf(w, g, p)),
      StatisticsOf(w, g, p) != [])
  }

  // Team scores.

  predicate Starts(s: Selection) { s.item.starter }

  predicate Captains(s: Selection) { s.item.captain }

  predicate Vices(s: Selection) { s.item.vice }

  /** `_participated`: the player has a statistic or a lineup row in one of the gameweek's fixtures. */
  predicate Appeared(stats: seq<Statistic>, appearances: set<(Id, Id)>, fixtures: set<Id>, participant: Id)
  {
    || (exists s :: s in stats && s.fixture in fixtures && s.participant == participant)
    || (exists f :: f in fixtures && (f, participant) in appearances)
  }

  predicate Participated(w: World, g: Id, p: Id)
    requires g in w.gameweeks && p in w.players
  {
    Appeared(w.stats, w.appearances, w.gameweeks[g].fixtures, w.players[p].participant)
  }

  /** Who gets the captain's bonus, and whether that is the vice-captain standing in. */
  datatype Choice = Choice(captain: Option<Id>, fallback: bool)

  predicate Plays(w: World, g: Id, s: Selection)
    requires g in w.gameweeks
  {
    s.item.player in w.players && Participated(w, g, s.item.player)
  }

  function EffectiveCaptain(w: World, g: Id, c: Competition, starters: seq<Selection>): Choice
    requires g in w.gameweeks
  {
    var captain := First(Captains, starters);
    var vice := First(Vices, starters);
    if captain.Some? && vice.Some? && c.viceCaptainFallback
      && !Plays(w, g, captain.value) && Plays(w, g, vice.value)
    then Choice(Some(vice.value.item.player), true)
    else Choice(if captain.Some? then Some(captain.value.item.player) else None, false)
  }

  function PointsOf(records: map<Id, PointRecord>, p: Id): real
  {
    if p in records then records[p].total else 0.0
  }

  function SelectionPoints(records: map<Id, PointRecord>): Selection -> real
  {
    (s: Selection) => PointsOf(records, s.item.player)
  }

  function PositionOf(players: map<Id, Player>, p: Id): string
  {
    if p in players then players[p].position else ""
  }

  function Bonus(records: map<Id, PointRecord>, c: Competition, p: Id): real
  {
    PointsOf(records, p) * (c.captainMultiplier - 1.0)
  }

  function CaptainBonus(records: map<Id, PointRecord>, c: Competition, captain: Option<Id>): real
  {
    if captain.Some? then Bonus(records, c, captain.value) else 0.0
  }

  /** The breakdown line of one starter. */
  function DetailOf(players: map<Id, Player>, records: map<Id, PointRecord>, c: Competition, captain: Option<Id>,
                    s: Selection): Detail
  {
    var p := s.item.player;
    var extra := if captain == Some(p) then Bonus(records, c, p) else 0.0;
    Detail(
      p,
      PositionOf(players, p),
      if p in records then records[p].base else 0.0,
      if p in records then records[p].correction else 0.0,
      extra,
      PointsOf(records, p) + extra,
      p in records && records[p].available,
      captain == Some(p))
  }

  function Details(players: map<Id, Player>, records: map<Id, PointRecord>, c: Competition, captain: Option<Id>,
                   starters: seq<Selection>): (r: seq<Detail>)
    ensures |r| == |starters|
  {
    seq(|starters|, i requires 0 <= i < |starters| => DetailOf(players, records, c, captain, starters[i]))
  }

  /** `gameweek_state`: the stored row, or the row it creates. */
  function StateIn(rows: map<Id, TransferState>, t: Id, c: Competition): TransferState
  {
    if t in rows then rows[t] else TransferState(c.freeTransfersPerGameweek, 0, 0)
  }

  function StateOf(w: World, t: Id, g: Id, c: Competition): TransferState
  {
    StateIn(At(w.states, g), t, c)
  }

  function Starters(w: World, t: Id): seq<Selection>
    requires t in w.teams
  {
    Filter(Starts, w.teams[t].selections)
  }

  function CompetitionOf(w: World, g: Id): Competition
    requires g in w.gameweeks && w.gameweeks[g].competition in w.competitions
  {
    w.competitions[w.gameweeks[g].competition]
  }

  /** The score a scoring leaves for team `t` in gameweek `g`, once the point records stand in `w`. */
  function TeamScoreOf(w: World, g: Id, t: Id): TeamScore
    requires Enters(w, t, g)
  {
    var c := CompetitionOf(w, g);
    var starters := Starters(w, t);
    var records := At(w.points, g);
    var choice := EffectiveCaptain(w, g, c, starters);
    var total := SumOf(SelectionPoints(records), starters);
    var bonus := CaptainBonus(records, c, choice.captain);
    var penalty := StateOf(w, t, g, c).penalty as real;
    TeamScore(total, bonus, penalty, total + bonus - penalty,
      Details(w.players, records, c, choice.captain, starters), choice.fallback, choice.captain)
  }

  // Whole gameweeks.

  /** The records, states and scores that scoring gameweek `g` writes. */
  function NewRecords(w: World, g: Id): map<Id, PointRecord>
  {
    map p | p in w.players && InPool(w, g, p) :: PlayerRecord(w, g, p)
  }

  function NewStates(w: World, g: Id): map<Id, TransferState>
  {
    map t | t in w.teams && Enters(w, t, g) :: StateOf(w, t, g, CompetitionOf(w, g))
  }

  function NewScores(w: World, g: Id): map<Id, TeamScore>
  {
    map t | t in w.teams && Enters(w, t, g) :: TeamScoreOf(w, g, t)
  }

  /** The table with the rows of `extra[g]` written over those of each gameweek `g`. */
  function Overlay<V>(table: map<Id, map<Id, V>>, extra: map<Id, map<Id, V>>): map<Id, map<Id, V>>
  {
    table + map g | g in extra :: At(table, g) + extra[g]
  }

  function Rows<V>(f: Id -> map<Id, V>, gs: set<Id>): map<Id, map<Id, V>>
  {
    map g | g in gs :: f(g)
  }

  function RecordRows(w: World, gs: set<Id>): map<Id, map<Id, PointRecord>>
  {
    Rows(g => NewRecords(w, g), gs)
  }

  function StateRows(w: World, gs: set<Id>): map<Id, map<Id, TransferState>>
  {
    Rows(g => NewStates(w, g), gs)
  }

  function ScoreRows(w: World, gs: set<Id>): map<Id, map<Id, TeamScore>>
  {
    Rows(g => NewScores(w, g), gs)
  }

  /** The player half of `score_gameweek`, for every gameweek of `gs`. */
  function WithPoints(w: World, gs: set<Id>): World
  {
    w.(points := Overlay(w.points, RecordRows(w, gs)))
  }

  /** The store after every gameweek of `gs` has been scored. */
  function ScoreSet(w: World, gs: set<Id>): World
  {
    var v := WithPoints(w, gs);
    v.(states := Overlay(w.states, StateRows(w, gs)), scores := Overlay(w.scores, ScoreRows(v, gs)))
  }

  // A team's score reads only its own gameweek's records.

  /** The same tables, apart from the ones scoring writes and the corrections. */
  ghost predicate SameField(a: World, b: World)
  {
    && a.competitions == b.competitions && a.players == b.players && a.rules == b.rules
    && a.gameweeks == b.gameweeks && a.stats == b.stats && a.appearances == b.appearances
    && a.teams == b.teams
  }

  ghost predicate SameInputs(a: World, b: World)
  {
    SameField(a, b) && a.corrections == b.corrections
  }

  lemma TeamScoreReads(a: World, b: World, g: Id, t: Id)
    requires SameField(a, b) && Enters(a, t, g)
    requires At(a.points, g) == At(b.points, g)
    requires StateOf(a, t, g, CompetitionOf(a, g)) == StateOf(b, t, g, CompetitionOf(b, g))
    ensures TeamScoreOf(a, g, t) == TeamScoreOf(b, g, t)
  {
    ChoiceReads(a, b, g, CompetitionOf(a, g), Starters(a, t));
  }

  lemma ChoiceReads(a: World, b: World, g: Id, c: Competition, starters: seq<Selection>)
    requires SameField(a, b) && g in a.gameweeks
    ensures EffectiveCaptain(a, g, c, starters) == EffectiveCaptain(b, g, c, starters)
  {
    forall s: Selection ensures Plays(a, g, s) == Plays(b, g, s) {
    }
  }

  lemma RecordReads(a: World, b: World, g: Id, p: Id)
    requires SameInputs(a, b) && g in a.gameweeks && p in a.players
    ensures PlayerRecord(a, g, p) == PlayerRecord(b, g, p)
  {
  }

  lemma RecordsRead(a: World, b: World, g: Id)
    requires SameInputs(a, b)
    ensures NewRecords(a, g) == NewRecords(b, g)
  {
    forall p | p in a.players && InPool(a, g, p) ensures PlayerRecord(a, g, p) == PlayerRecord(b, g, p) {
      RecordReads(a, b, g, p);
    }
  }

  lemma StatesRead(a: World, b: World, g: Id)
    requires SameInputs(a, b)
    requires forall t :: Enters(a, t, g) ==>
      StateOf(a, t, g, CompetitionOf(a, g)) == StateOf(b, t, g, CompetitionOf(b, g))
    ensures NewStates(a, g) == NewStates(b, g)
  {
  }

  lemma ScoresRead(a: World, b: World, g: Id)
    requires SameInputs(a, b) && At(a.points, g) == At(b.points, g)
    requires forall t :: Enters(a, t, g) ==>
      StateOf(a, t, g, CompetitionOf(a, g)) == StateOf(b, t, g, CompetitionOf(b, g))
    ensures NewScores(a, g) == NewScores(b, g)
  {
    forall t | t in a.teams && Enters(a, t, g) ensures TeamScoreOf(a, g, t) == TeamScoreOf(b, g, t) {
      TeamScoreReads(a, b, g, t);
    }
  }

  lemma OverlayAt<V>(table: map<Id, map<Id, V>>, extra: map<Id, map<Id, V>>, g: Id)
    ensures At(Overlay(table, extra), g) == if g in extra then At(table, g) + extra[g] else At(table, g)
    ensures g in Overlay(table, extra) <==> g in table || g in extra
  {
  }

  lemma PointsAt(w: World, gs: set<Id>, g: Id)
    ensures At(ScoreSet(w, gs).points, g) == if g in gs then At(w.points, g) + NewRecords(w, g) else At(w.points, g)
  {
    OverlayAt(w.points, RecordRows(w, gs), g);
  }

  lemma StatesAt(w: World, gs: set<Id>, g: Id)
    ensures At(ScoreSet(w, gs).states, g) == if g in gs then At(w.states, g) + NewStates(w, g) else At(w.states, g)
  {
    OverlayAt(w.states, StateRows(w, gs), g);
  }

  lemma ScoresAt(w: World, gs: set<Id>, g: Id)
    ensures At(ScoreSet(w, gs).scores, g) ==
      if g in gs then At(w.scores, g) + NewScores(WithPoints(w, gs), g) else At(w.scores, g)
  {
    OverlayAt(w.scores, ScoreRows(WithPoints(w, gs), gs), g);
  }

  lemma NewStateOf(w: World, g: Id, t: Id)
    ensures t in NewStates(w, g) <==> Enters(w, t, g)
    ensures Enters(w, t, g) ==> NewStates(w, g)[t] == StateOf(w, t, g, CompetitionOf(w, g))
  {
  }

  lemma NewScoreOf(w: World, g: Id, t: Id)
    ensures t in NewScores(w, g) <==> Enters(w, t, g)
  {
  }

  lemma NewRecordOf(w: World, g: Id, p: Id)
    ensures p in NewRecords(w, g) <==> InPool(w, g, p)
    ensures InPool(w, g, p) ==> NewRecords(w, g)[p] == PlayerRecord(w, g, p)
  {
  }

  lemma RowsTwice<V>(before: map<Id, V>, a: map<Id, V>)
    ensures before + a + a == before + a
  {
  }

  lemma SameTable<V>(x: map<Id, map<Id, V>>, y: map<Id, map<Id, V>>)
    requires forall g :: g in x <==> g in y
    requires forall g :: At(x, g) == At(y, g)
    ensures x == y
  {
    forall g | g in x ensures x[g] == y[g] {
      assert At(x, g) == At(y, g);
    }
  }

  /** Writing rows twice, or two sets of rows that agree where they meet, is writing them once. */
  lemma OverlayTwice<V>(table: map<Id, map<Id, V>>, a: map<Id, map<Id, V>>, b: map<Id, map<Id, V>>)
    requires forall g :: g in a && g in b ==> a[g] == b[g]
    ensures Overlay(Overlay(table, a), b) == Overlay(table, a + b)
  {
    var mid := Overlay(table, a);
    var x, y := Overlay(mid, b), Overlay(table, a + b);
    forall g
      ensures g in x <==> g in y
      ensures At(x, g) == At(y, g)
    {
      OverlayAt(table, a, g);
      OverlayAt(mid, b, g);
      OverlayAt(table, a + b, g);
      if g in a && g in b {
        RowsTwice(At(table, g), b[g]);
      }
    }
    SameTable(x, y);
  }

  lemma RecordRowsRead(w: World, v: World, gs: set<Id>)
    requires SameInputs(w, v)
    ensures RecordRows(v, gs) == RecordRows(w, gs)
  {
    forall g | g in gs ensures NewRecords(v, g) == NewRecords(w, g) {
      RecordsRead(v, w, g);
    }
  }

  lemma RowsAdd<V>(f: Id -> map<Id, V>, a: set<Id>, b: set<Id>)
    ensures Rows(f, a) + Rows(f, b) == Rows(f, a + b)
  {
  }

  lemma RowsUnion<V>(table: map<Id, map<Id, V>>, f: Id -> map<Id, V>, a: set<Id>, b: set<Id>)
    ensures Overlay(Overlay(table, Rows(f, a)), Rows(f, b)) == Overlay(table, Rows(f, a + b))
  {
    OverlayTwice(table, Rows(f, a), Rows(f, b));
    RowsAdd(f, a, b);
  }

  lemma RecordRowsUnion(w: World, a: set<Id>, b: set<Id>)
    ensures Overlay(Overlay(w.points, RecordRows(w, a)), RecordRows(w, b)) == Overlay(w.points, RecordRows(w, a + b))
  {
    RowsUnion(w.points, g => NewRecords(w, g), a, b);
  }

  /** `v` holds every state of `w`, and otherwise only states as they are first created. */
  ghost predicate StatesKept(w: World, v: World)
  {
    forall t, g :: Enters(w, t, g) ==>
      StateOf(v, t, g, CompetitionOf(w, g)) == StateOf(w, t, g, CompetitionOf(w, g))
  }

  lemma ScoringKeepsStates(w: World, gs: set<Id>)
    ensures StatesKept(w, ScoreSet(w, gs))
  {
    forall t, g | Enters(w, t, g)
      ensures StateOf(ScoreSet(w, gs), t, g, CompetitionOf(w, g)) == StateOf(w, t, g, CompetitionOf(w, g))
    {
      StatesAt(w, gs, g);
      NewStateOf(w, g, t);
    }
  }

  lemma StateRowsRead(w: World, v: World, gs: set<Id>)
    requires SameInputs(w, v) && StatesKept(w, v)
    ensures StateRows(v, gs) == StateRows(w, gs)
  {
    forall g | g in gs ensures NewStates(v, g) == NewStates(w, g) {
      StatesRead(v, w, g);
    }
  }

  lemma StateRowsUnion(w: World, a: set<Id>, b: set<Id>)
    ensures Overlay(Overlay(w.states, StateRows(w, a)), StateRows(w, b)) == Overlay(w.states, StateRows(w, a + b))
  {
    RowsUnion(w.states, g => NewStates(w, g), a, b);
  }

  lemma ScoreRowsRead(w: World, v: World, gs: set<Id>)
    requires SameInputs(w, v) && StatesKept(w, v)
    requires forall g :: g in gs ==> At(w.points, g) == At(v.points, g)
    ensures ScoreRows(v, gs) == ScoreRows(w, gs)
  {
    forall g | g in gs ensures NewScores(v, g) == NewScores(w, g) {
      ScoresRead(v, w, g);
    }
  }

  lemma ScoreRowsUnion(table: map<Id, map<Id, TeamScore>>, w: World, a: set<Id>, b: set<Id>)
    ensures Overlay(Overlay(table, ScoreRows(w, a)), ScoreRows(w, b)) == Overlay(table, ScoreRows(w, a + b))
  {
    RowsUnion(table, g => NewScores(w, g), a, b);
  }

  /** The points that a gameweek of `a` is scored from are final: scoring `b` as well does not change them. */
  lemma PointsSettled(w: World, a: set<Id>, b: set<Id>, g: Id)
    requires g in a
    ensures At(WithPoints(w, a).points, g) == At(WithPoints(w, a + b).points, g)
  {
    OverlayAt(w.points, RecordRows(w, a), g);
    OverlayAt(w.points, RecordRows(w, a + b), g);
  }

  lemma UnionPoints(w: World, v: World, a: set<Id>, b: set<Id>)
    requires SameInputs(w, v) && v.points == WithPoints(w, a).points
    ensures WithPoints(v, b).points == WithPoints(w, a + b).points
  {
    RecordRowsRead(w, v, b);
    RecordRowsUnion(w, a, b);
  }

  lemma UnionStates(w: World, a: set<Id>, b: set<Id>)
    ensures ScoreSet(ScoreSet(w, a), b).states == ScoreSet(w, a + b).states
  {
    ScoringKeepsStates(w, a);
    StateRowsRead(w, ScoreSet(w, a), b);
    StateRowsUnion(w, a, b);
  }

  lemma EarlierScores(w: World, a: set<Id>, b: set<Id>)
    ensures ScoreRows(WithPoints(w, a), a) == ScoreRows(WithPoints(w, a + b), a)
  {
    forall g | g in a ensures At(WithPoints(w, a).points, g) == At(WithPoints(w, a + b).points, g) {
      PointsSettled(w, a, b, g);
    }
    ScoreRowsRead(WithPoints(w, a + b), WithPoints(w, a), a);
  }

  lemma StatesStayKept(w: World, v: World, x: World, y: World)
    requires StatesKept(w, v) && SameInputs(w, x) && x.states == w.states && y.states == v.states
    ensures StatesKept(x, y)
  {
    forall t, g | Enters(x, t, g)
      ensures StateOf(y, t, g, CompetitionOf(x, g)) == StateOf(x, t, g, CompetitionOf(x, g))
    {
      assert Enters(w, t, g);
    }
  }

  lemma LaterScores(w: World, v: World, a: set<Id>, b: set<Id>)
    requires SameInputs(w, v) && StatesKept(w, v) && v.points == WithPoints(w, a).points
    ensures ScoreRows(WithPoints(v, b), b) == ScoreRows(WithPoints(w, a + b), b)
  {
    var x, y := WithPoints(w, a + b), WithPoints(v, b);
    StatesStayKept(w, v, x, y);
    assert x.points == y.points by {
      UnionPoints(w, v, a, b);
    }
    ScoreRowsRead(x, y, b);
  }

  lemma UnionScores(w: World, a: set<Id>, b: set<Id>)
    ensures ScoreSet(ScoreSet(w, a), b).scores == ScoreSet(w, a + b).scores
  {
    EarlierScores(w, a, b);
    ScoringKeepsStates(w, a);
    LaterScores(w, ScoreSet(w, a), a, b);
    ScoreRowsUnion(w.scores, WithPoints(w, a + b), a, b);
  }

  /** Scoring two sets of gameweeks one after the other is scoring their union. */
  lemma ScoreUnion(w: World, a: set<Id>, b: set<Id>)
    ensures ScoreSet(ScoreSet(w, a), b) == ScoreSet(w, a + b)
  {
    UnionPoints(w, ScoreSet(w, a), a, b);
    UnionStates(w, a, b);
    UnionScores(w, a, b);
  }

  lemma ScoreUnionAs(w: World, a: set<Id>, b: set<Id>, both: set<Id>)
    requires both == a + b
    ensures ScoreSet(ScoreSet(w, a), b) == ScoreSet(w, both)
  {
    ScoreUnion(w, a, b);
  }

  /** Scoring twice is scoring once. */
  lemma ScoreIdempotent(w: World, gs: set<Id>)
    ensures ScoreSet(ScoreSet(w, gs), gs) == ScoreSet(w, gs)
  {
    ScoreUnionAs(w, gs, gs, gs);
  }

  /** The store after rescoring several gameweeks does not depend on the order they were taken in. */
  lemma ScoreCommutes(w: World, a: set<Id>, b: set<Id>)
    ensures ScoreSet(ScoreSet(w, a), b) == ScoreSet(ScoreSet(w, b), a)
  {
    ScoreUnionAs(w, a, b, a + b);
    ScoreUnionAs(w, b, a, a + b);
  }

  /** Scoring touches only the rows of the gameweeks scored. */
  lemma ScoreFrame(w: World, gs: set<Id>, g: Id)
    requires g !in gs
    ensures var v := ScoreSet(w, gs);
      At(v.points, g) == At(w.points, g) && At(v.scores, g) == At(w.scores, g) && At(v.states, g) == At(w.states, g)
  {
    PointsAt(w, gs, g);
    StatesAt(w, gs, g);
    ScoresAt(w, gs, g);
  }

  /** It creates states without changing any. */
  lemma ScoreStates(w: World, gs: set<Id>, g: Id, t: Id)
    ensures t in At(w.states, g) ==>
      t in At(ScoreSet(w, gs).states, g) && At(ScoreSet(w, gs).states, g)[t] == At(w.states, g)[t]
    ensures t in At(ScoreSet(w, gs).states, g) && t !in At(w.states, g) ==>
      Enters(w, t, g) && At(ScoreSet(w, gs).states, g)[t] == StateOf(w, t, g, CompetitionOf(w, g))
  {
    StatesAt(w, gs, g);
    NewStateOf(w, g, t);
  }

  lemma ScoreRecords(w: World, gs: set<Id>, g: Id, p: Id)
    ensures p in At(ScoreSet(w, gs).points, g) <==> p in At(w.points, g) || (g in gs && InPool(w, g, p))
    ensures p in At(ScoreSet(w, gs).points, g) ==>
      At(ScoreSet(w, gs).points, g)[p] ==
      if g in gs && InPool(w, g, p) then PlayerRecord(w, g, p) else At(w.points, g)[p]
  {
    PointsAt(w, gs, g);
    NewRecordOf(w, g, p);
  }

  lemma ScoreSetKeepsKeys(w: World, gs: set<Id>)
    requires ForeignKeys(w)
    ensures ForeignKeys(ScoreSet(w, gs))
  {
    var v := ScoreSet(w, gs);
    forall g, p | p in At(v.points, g) ensures InPool(v, g, p) {
      ScoreRecords(w, gs, g, p);
    }
    forall g, t | t in At(v.states, g) ensures Enters(v, t, g) {
      ScoreStates(w, gs, g, t);
    }
    forall i | 0 <= i < |v.corrections| ensures v.corrections[i].player in At(v.points, v.corrections[i].gameweek) {
      ScoreRecords(w, gs, v.corrections[i].gameweek, v.corrections[i].player);
    }
  }

  lemma Rewritten<V>(a: map<Id, V>, b: map<Id, V>, extra: map<Id, V>)
    requires a.Keys <= extra.Keys && b.Keys <= extra.Keys
    ensures a + extra == b + extra
  {
  }

  lemma RewrittenTable<V>(table: map<Id, map<Id, V>>, g: Id, rows: map<Id, V>, extra: map<Id, map<Id, V>>)
    requires extra.Keys == {g}
    requires rows.Keys <= extra[g].Keys && At(table, g).Keys <= extra[g].Keys
    ensures Overlay(table[g := rows], extra) == Overlay(table, extra)
  {
    Rewritten(rows, At(table, g), extra[g]);
    forall h
      ensures At(Overlay(table[g := rows], extra), h) == At(Overlay(table, extra), h)
      ensures h in Overlay(table[g := rows], extra) <==> h in Overlay(table, extra)
    {
      OverlayAt(table[g := rows], extra, h);
      OverlayAt(table, extra, h);
    }
    SameTable(Overlay(table[g := rows], extra), Overlay(table, extra));
  }

  /** `w` with other records and scores stored for gameweek `g`. */
  function Stored(w: World, g: Id, records: map<Id, PointRecord>, scores: map<Id, TeamScore>): World
  {
    w.(points := w.points[g := records], scores := w.scores[g := scores])
  }

  lemma RecordsForgotten(w: World, g: Id, records: map<Id, PointRecord>, scores: map<Id, TeamScore>)
    requires forall p :: p in records || p in At(w.points, g) ==> InPool(w, g, p)
    ensures WithPoints(Stored(w, g, records, scores), {g}).points == WithPoints(w, {g}).points
  {
    RecordRowsRead(w, Stored(w, g, records, scores), {g});
    forall p ensures p in NewRecords(w, g) <==> InPool(w, g, p) {
      NewRecordOf(w, g, p);
    }
    RewrittenTable(w.points, g, records, RecordRows(w, {g}));
  }

  lemma SameNewScores(w: World, v: World, g: Id)
    requires SameInputs(w, v) && w.states == v.states && w.points == v.points
    ensures ScoreRows(v, {g}) == ScoreRows(w, {g})
  {
    assert StatesKept(w, v);
    ScoreRowsRead(w, v, {g});
  }

  lemma ScoresForgotten(w: World, g: Id, records: map<Id, PointRecord>, scores: map<Id, TeamScore>)
    requires WithPoints(Stored(w, g, records, scores), {g}).points == WithPoints(w, {g}).points
    requires forall t :: t in scores || t in At(w.scores, g) ==> Enters(w, t, g)
    ensures ScoreSet(Stored(w, g, records, scores), {g}).scores == ScoreSet(w, {g}).scores
  {
    var vp, wp := WithPoints(Stored(w, g, records, scores), {g}), WithPoints(w, {g});
    SameNewScores(wp, vp, g);
    forall t | Enters(w, t, g) ensures t in NewScores(wp, g) {
      NewScoreOf(wp, g, t);
    }
    RewrittenTable(w.scores, g, scores, ScoreRows(wp, {g}));
  }

  /** What earlier scorings left in the rows of gameweek `g` has no influence on scoring it again. */
  lemma ScoreForgets(w: World, g: Id, records: map<Id, PointRecord>, scores: map<Id, TeamScore>)
    requires forall p :: p in records || p in At(w.points, g) ==> InPool(w, g, p)
    requires forall t :: t in scores || t in At(w.scores, g) ==> Enters(w, t, g)
    ensures ScoreSet(Stored(w, g, records, scores), {g}) == ScoreSet(w, {g})
  {
    RecordsForgotten(w, g, records, scores);
    ScoresForgotten(w, g, records, scores);
    StateRowsRead(w, Stored(w, g, records, scores), {g});
  }
}
