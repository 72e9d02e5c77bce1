/** The application itself: the tables as fields, and every workflow action as a method that changes them in place.
    Each method is shown to do to the tables exactly what its specification function does to a `World`. */
module FantasyStore {
  import opened Sequences
  import opened FantasyModel
  import opened SquadRules
  import opened Scoring
  import opened ScoreLaws
  import opened Season

  // Partial results of the two scoring loops.

  /** The records of gameweek `g` once the players of `ps` have been scored. */
  ghost function RecordsSoFar(w: World, g: Id, ps: set<Id>): map<Id, PointRecord>
  {
    At(w.points, g) + map p | p in ps && InPool(w, g, p) :: PlayerRecord(w, g, p)
  }

  ghost function StatesSoFar(w: World, g: Id, ts: set<Id>): map<Id, TransferState>
  {
    At(w.states, g) + map t | t in ts && Enters(w, t, g) :: StateOf(w, t, g, CompetitionOf(w, g))
  }

  ghost function ScoresSoFar(w: World, g: Id, ts: set<Id>): map<Id, TeamScore>
  {
    At(w.scores, g) + map t | t in ts && Enters(w, t, g) :: TeamScoreOf(w, g, t)
  }

  lemma NothingYet(w: World, g: Id)
    ensures RecordsSoFar(w, g, {}) == At(w.points, g)
    ensures StatesSoFar(w, g, {}) == At(w.states, g)
    ensures ScoresSoFar(w, g, {}) == At(w.scores, g)
  {
    hide PlayerRecord, StateOf, TeamScoreOf;
  }

  lemma OneMoreRecord(w: World, g: Id, ps: set<Id>, p: Id)
    requires InPool(w, g, p)
    ensures RecordsSoFar(w, g, ps + {p}) == RecordsSoFar(w, g, ps)[p := PlayerRecord(w, g, p)]
  {
    hide PlayerRecord;
  }

  lemma OneMoreState(w: World, g: Id, ts: set<Id>, t: Id)
    requires Enters(w, t, g)
    ensures StatesSoFar(w, g, ts + {t}) == StatesSoFar(w, g, ts)[t := StateOf(w, t, g, CompetitionOf(w, g))]
  {
    hide StateOf, CompetitionOf;
  }

  lemma OneMoreScore(w: World, g: Id, ts: set<Id>, t: Id)
    requires Enters(w, t, g)
    ensures ScoresSoFar(w, g, ts + {t}) == ScoresSoFar(w, g, ts)[t := TeamScoreOf(w, g, t)]
  {
    hide TeamScoreOf;
  }

  lemma AllRecords(w: World, g: Id, ps: set<Id>)
    requires forall p :: p in ps <==> InPool(w, g, p)
    ensures w.points[g := RecordsSoFar(w, g, ps)] == WithPoints(w, {g}).points
  {
    assert RecordsSoFar(w, g, ps) == At(w.points, g) + NewRecords(w, g);
    OneRow(w.points, g, RecordRows(w, {g}));
  }

  lemma AllScores(w: World, g: Id, ts: set<Id>)
    requires forall t :: t in ts <==> Enters(w, t, g)
    ensures w.scores[g := ScoresSoFar(w, g, ts)] == Overlay(w.scores, ScoreRows(w, {g}))
  {
    assert ScoresSoFar(w, g, ts) == At(w.scores, g) + NewScores(w, g);
    OneRow(w.scores, g, ScoreRows(w, {g}));
  }

  lemma AllStates(w: World, g: Id, ts: set<Id>)
    requires forall t :: t in ts <==> Enters(w, t, g)
    ensures w.states[g := StatesSoFar(w, g, ts)] == Overlay(w.states, StateRows(w, {g}))
  {
    assert StatesSoFar(w, g, ts) == At(w.states, g) + NewStates(w, g);
    OneRow(w.states, g, StateRows(w, {g}));
  }

  lemma OneRow<V>(table: map<Id, map<Id, V>>, g: Id, extra: map<Id, map<Id, V>>)
    requires extra.Keys == {g}
    ensures Overlay(table, extra) == table[g := At(table, g) + extra[g]]
  {
  }

  lemma StoreOne<V>(table: map<Id, map<Id, V>>, g: Id, rows: map<Id, V>, k: Id, row: V)
    ensures var now := table[g := rows];
      now[g := At(now, g)[k := row]] == table[g := rows[k := row]]
  {
  }

  class Store {
    var now: int
    var competitions: map<Id, Competition>
    var players: map<Id, Player>
    var rules: seq<ScoringRule>
    var gameweeks: map<Id, Gameweek>
    var finished: set<Id>
    var stats: seq<Statistic>
    var appearances: set<(Id, Id)>
    var teams: map<Id, Team>
    var transfers: seq<Transfer>
    var states: map<Id, map<Id, TransferState>>
    var points: map<Id, map<Id, PointRecord>>
    var corrections: seq<Correction>
    var scores: map<Id, map<Id, TeamScore>>
    ghost var founding: map<Id, Ledger>

    /** A season before its first team. */
    constructor (now: int, competitions: map<Id, Competition>, players: map<Id, Player>, rules: seq<ScoringRule>,
                 gameweeks: map<Id, Gameweek>)
      ensures View() == World(now, competitions, players, rules, gameweeks, {}, [], {}, map[], [], map[], map[], [],
        map[], map[])
    {
      this.now, this.competitions, this.players, this.rules := now, competitions, players, rules;
      this.gameweeks, finished, stats, appearances := gameweeks, {}, [], {};
      teams, transfers, states, points, corrections, scores, founding := map[], [], map[], map[], [], map[], map[];
    }

    /** The tables as one value. */
    ghost function View(): World
      reads this
    {
      World(now, competitions, players, rules, gameweeks, finished, stats, appearances, teams, transfers, states,
        points, corrections, scores, founding)
    }

    // Teams.

    predicate Clash(a: Item, b: Item)
    {
      (a.captain && b.captain) || (a.vice && b.vice)
    }

    /** Looks up the pool row of every submitted line. */
    method LookUp(items: seq<Item>) returns (known: bool, squad: seq<Entry>)
      ensures known == KnownPlayers(players, items)
      ensures known ==> squad == Resolve(players, items)
    {
      squad := [];
      for i := 0 to |items|
        invariant KnownPlayers(players, items[..i]) && squad == Resolve(players, items[..i])
      {
        if items[i].player !in players {
          return false, [];
        }
        squad := squad + [EntryOf(players, items[i])];
      }
      assert items[..|items|] == items;
      known := true;
    }

    /** The selection rows of a new squad, refused as soon as one breaks a unique constraint. */
    method BuyRows(items: seq<Item>) returns (ok: bool, rows: seq<Selection>)
      requires KnownPlayers(players, items)
      ensures ok == MarksUnique(items)
      ensures ok ==> rows == BuyAt(players, items)
    {
      rows := [];
      for i := 0 to |items|
        invariant rows == BuyAt(players, items[..i]) && MarksUnique(items[..i])
      {
        if exists j :: 0 <= j < |rows| && Clash(rows[j].item, items[i]) {
          ghost var j :| 0 <= j < |rows| && Clash(rows[j].item, items[i]);
          assert rows[j].item == items[j];
          return false, [];
        }
        assert forall j :: 0 <= j < i ==> rows[j].item == items[j] && !Clash(rows[j].item, items[i]);
        rows := rows + [Selection(items[i], players[items[i].player].price)];
      }
      assert items[..|items|] == items;
      ok := true;
    }

    method TotalPrice(squad: seq<Entry>) returns (total: real)
      ensures total == SumOf(Price, squad)
    {
      total := 0.0;
      for i := 0 to |squad|
        invariant total == SumOf(Price, squad[..i])
      {
        assert squad[..i + 1][..i] == squad[..i];
        total := total + squad[i].player.price;
      }
      assert squad[..|squad|] == squad;
    }

    /** `TeamSerializer.create`, with `t` the fresh identifier. */
    method CreateTeam(t: Id, owner: Id, competition: Id, items: seq<Item>) returns (ok: bool)
      requires t !in teams && competition in competitions
      modifies this`teams, this`founding
      ensures ok == CanCreate(old(View()), t, owner, competition, items)
      ensures View() == AfterCreate(old(View()), t, owner, competition, items)
    {
      hide MarksUnique, OwnsTeam, ValidateSelections;
      var known, squad := LookUp(items);
      var c := competitions[competition];
      if !known || !RegistrationOpen(c, now) {
        return false;
      }
      if ValidateSelections(competition, c, squad, c.initialBudget).Some? || OwnsTeam(teams, owner, competition) {
        return false;
      }
      var total := TotalPrice(squad);
      var rows;
      ok, rows := BuyRows(items);
      if ok {
        teams := teams[t := Team(owner, competition, now, c.initialBudget - total, rows)];
        founding := founding[t := Ledger(c.initialBudget - total, Holdings(rows))];
      }
    }

    /** `replace_lineup`: the rows are changed one submitted line at a time, then written back. */
    method ReplaceLineup(t: Id, items: seq<Item>) returns (ok: bool)
      requires t in teams && teams[t].competition in competitions && DistinctMembers(teams[t].selections)
      modifies this`teams
      ensures ok ==
        (Legal(old(View()), old(teams)[t].competition, items) && MarksUnique(items) &&
         Members(items) == Members(Items(old(teams)[t].selections)))
      ensures teams == if ok
        then old(teams)[t := old(teams)[t].(selections := RelinedAll(old(teams)[t].selections, items))]
        else old(teams)
    {
      hide MarksUnique, ValidateSelections;
      var team := teams[t];
      var c := competitions[team.competition];
      var known, squad := LookUp(items);
      if !known || ValidateSelections(team.competition, c, squad, c.initialBudget).Some? {
        return false;
      }
      if Members(Items(team.selections)) != Members(items) || !MarksUnique(items) {
        return false;
      }
      AcceptedDiffer(team.competition, c, players, items);
      var current := Relabel(team.selections, items);
      var rows := seq(|team.selections|, i requires 0 <= i < |team.selections| => current[team.selections[i].item.player]);
      assert rows == RelinedAll(team.selections, items);
      teams := teams[t := team.(selections := rows)];
      ok := true;
    }

    /** The editable gameweek with the lowest number. */
    method NextEditable(competition: Id) returns (next: Option<Id>)
      ensures next.None? ==> forall h :: h in gameweeks ==> !Editable(gameweeks[h], competition)
      ensures next.Some? ==> next.value in gameweeks && Editable(gameweeks[next.value], competition)
      ensures next.Some? ==> forall h :: h in gameweeks && Editable(gameweeks[h], competition) ==>
        gameweeks[next.value].number <= gameweeks[h].number
    {
      next := None;
      var todo := gameweeks.Keys;
      while todo != {}
        invariant todo <= gameweeks.Keys
        invariant next.None? ==> forall h :: h in gameweeks && h !in todo ==> !Editable(gameweeks[h], competition)
        invariant next.Some? ==> next.value in gameweeks && Editable(gameweeks[next.value], competition)
        invariant next.Some? ==> forall h :: h in gameweeks && h !in todo && Editable(gameweeks[h], competition) ==>
          gameweeks[next.value].number <= gameweeks[h].number
        decreases todo
      {
        var h :| h in todo;
        if Editable(gameweeks[h], competition) {
          if next.None? || gameweeks[h].number < gameweeks[next.value].number {
            next := Some(h);
          }
        }
        todo := todo - {h};
      }
    }

    /** The `lineup` action. */
    method SetLineup(t: Id, items: seq<Item>) returns (ok: bool)
      requires t in teams && teams[t].competition in competitions && DistinctMembers(teams[t].selections)
      requires NumbersUnique(gameweeks)
      modifies this`teams
      ensures ok == CanSetLineup(old(View()), t, items)
      ensures View() == AfterLineup(old(View()), t, items)
    {
      hide ValidateSelections, MarksUnique, DistinctMembers;
      var next := NextEditable(teams[t].competition);
      if next.None? || DeadlineLocked(gameweeks[next.value], now) {
        return false;
      }
      ok := ReplaceLineup(t, items);
    }

    // Transfers.

    /** The squad with one player exchanged, collected row by row. */
    method LayOut(selections: seq<Selection>, i: nat, playerIn: Id) returns (items: seq<Item>)
      requires i < |selections|
      ensures items == Prospective(selections, i, playerIn)
    {
      items := [];
      for k := 0 to |selections|
        invariant |items| == k
        invariant forall j :: 0 <= j < k ==> items[j] == Prospective(selections, i, playerIn)[j]
      {
        items := items + [if k == i then selections[k].item.(player := playerIn) else selections[k].item];
      }
    }

    /** The checks shared by `transfer` and `transfer_preview`; `i` is the row of the outgoing player. */
    method CheckTransfer(t: Id, g: Id, playerOut: Id, playerIn: Id) returns (ok: bool, i: nat)
      requires t in teams && g in gameweeks && playerOut in players && playerIn in players
      requires teams[t].competition in competitions && KnownPlayers(players, Items(teams[t].selections))
      ensures ok == CanTransfer(View(), t, g, playerOut, playerIn)
      ensures ok ==> Enters(View(), t, g) && Find(teams[t].selections, playerOut) == Some(i)
    {
      hide ValidateSelections;
      var team := teams[t];
      i := 0;
      if gameweeks[g].competition != team.competition || DeadlineLocked(gameweeks[g], now) {
        return false, 0;
      }
      var found := Find(team.selections, playerOut);
      if found.None? || players[playerIn].competition != team.competition || !Selectable(players[playerIn]) {
        return false, 0;
      }
      i := found.value;
      var items := LayOut(team.selections, i, playerIn);
      var known, squad := LookUp(items);
      var c := competitions[team.competition];
      ok := known && ValidateSelections(team.competition, c, squad, c.initialBudget).None?;
    }

    /** The `transfer` action. */
    method MakeTransfer(t: Id, g: Id, playerOut: Id, playerIn: Id) returns (ok: bool)
      requires t in teams && g in gameweeks && playerOut in players && playerIn in players
      requires teams[t].competition in competitions && KnownPlayers(players, Items(teams[t].selections))
      modifies this`teams, this`transfers, this`states
      ensures ok == CanConfirm(old(View()), t, g, playerOut, playerIn)
      ensures View() == AfterTransfer(old(View()), t, g, playerOut, playerIn)
    {
      hide Legal, Find, CanTransfer, CanConfirm, AfterTransfer, At, CanExchange, KnownPlayers, StateIn, Items;
      hide DeadlineLocked, Selectable;
      ghost var w := View();
      var i;
      ok, i := CheckTransfer(t, g, playerOut, playerIn);
      TransferSpelledOut(w, t, g, playerOut, playerIn);
      if !ok {
        return;
      }
      var team := teams[t];
      var c := competitions[team.competition];
      var selection := team.selections[i];
      var priceIn := players[playerIn].price;
      var state := StateIn(At(states, g), t, c);
      var penalty := if state.Remaining() > 0 then 0 else c.transferPenalty;
      if state.penalty + penalty < 0 {
        return false;
      }
      transfers := transfers + [Transfer(t, g, playerOut, playerIn, selection.purchasePrice, priceIn, penalty)];
      teams := teams[t := team.(
        selections := team.selections[i := Selection(selection.item.(player := playerIn), priceIn)],
        budgetRemaining := team.budgetRemaining + selection.purchasePrice - priceIn)];
      state := state.(used := state.used + 1, penalty := state.penalty + penalty);
      states := states[g := At(states, g)[t := state]];
    }

    /** The `transfer_preview` action. */
    method PreviewTransfer(t: Id, g: Id, playerOut: Id, playerIn: Id) returns (ok: bool, penalty: int)
      requires t in teams && g in gameweeks && playerOut in players && playerIn in players
      requires teams[t].competition in competitions && KnownPlayers(players, Items(teams[t].selections))
      modifies this`states
      ensures ok == CanTransfer(old(View()), t, g, playerOut, playerIn)
      ensures View() == AfterPreview(old(View()), t, g, playerOut, playerIn)
      ensures ok ==> penalty == TransferRow(old(View()), t, g, playerOut, playerIn).penalty
    {
      hide ValidateSelections, Legal, Find;
      var i;
      penalty := 0;
      ok, i := CheckTransfer(t, g, playerOut, playerIn);
      if ok {
        var c := competitions[teams[t].competition];
        var state := StateIn(At(states, g), t, c);
        states := states[g := At(states, g)[t := state]];
        penalty := if state.Remaining() > 0 then 0 else c.transferPenalty;
      }
    }

    /** Reading a team's transfer balance for a gameweek. */
    method ReadBalance(t: Id, g: Id) returns (remaining: Option<nat>)
      requires t in teams && g in gameweeks && teams[t].competition in competitions
      modifies this`states
      ensures View() == AfterBalance(old(View()), t, g)
      ensures remaining == if Enters(View(), t, g) then Some(At(states, g)[t].Remaining()) else None
    {
      if gameweeks[g].competition != teams[t].competition {
        return None;
      }
      var state := StateIn(At(states, g), t, competitions[teams[t].competition]);
      states := states[g := At(states, g)[t := state]];
      remaining := Some(state.Remaining());
    }

    // The life of a gameweek.

    /** The `transition` action; `target` may be any status the client names. */
    method Transition(g: Id, target: Status) returns (ok: bool)
      requires g in gameweeks
      modifies this`gameweeks
      ensures ok == CanTransition(old(View()), g, target)
      ensures View() == AfterTransition(old(View()), g, target)
      ensures NumbersUnique(old(gameweeks)) ==> NumbersUnique(gameweeks)
    {
      var allowed: map<Status, set<Status>> := map[
        Draft := {Open},
        Open := {Locked},
        Locked := {Live, Status.Scoring},
        Live := {Status.Scoring},
        Status.Scoring := {Finalized, Live},
        Finalized := {Status.Scoring}];
      ok := gameweeks[g].status in allowed && target in allowed[gameweeks[g].status];
      if ok {
        gameweeks := gameweeks[g := gameweeks[g].(status := target)];
      }
    }

    /** The `recalculate` action. */
    method Recalculate(g: Id)
      requires g in gameweeks && gameweeks[g].competition in competitions
      modifies this`points, this`states, this`scores, this`gameweeks
      ensures View() == AfterRecalculate(old(View()), g)
      ensures NumbersUnique(old(gameweeks)) ==> NumbersUnique(gameweeks)
    {
      hide ScoreSet;
      ghost var w := View();
      ScoreGameweek(g);
      ScoringKeepsTables(w, {g});
      if gameweeks[g].status == Locked || gameweeks[g].status == Live {
        gameweeks := gameweeks[g := gameweeks[g].(status := Scoring)];
      }
    }

    /** The `finalize` action. */
    method Finalize(g: Id) returns (ok: bool)
      requires g in gameweeks && gameweeks[g].competition in competitions
      modifies this`points, this`states, this`scores, this`gameweeks
      ensures ok == CanFinalize(old(View()), g)
      ensures View() == AfterFinalize(old(View()), g)
      ensures NumbersUnique(old(gameweeks)) ==> NumbersUnique(gameweeks)
    {
      hide ScoreSet;
      ghost var w := View();
      if gameweeks[g].status != Scoring {
        return false;
      }
      if gameweeks[g].fixtures != {} && exists f :: f in gameweeks[g].fixtures && f !in finished {
        return false;
      }
      ScoreGameweek(g);
      ScoringKeepsTables(w, {g});
      gameweeks := gameweeks[g := gameweeks[g].(status := Finalized)];
      ok := true;
    }

    // Corrections and statistics.

    /** Creating a correction: the row, the point record it overrides, and the rescoring. */
    method Correct(id: Id, g: Id, p: Id, value: real)
      requires g in gameweeks && gameweeks[g].competition in competitions && p in At(points, g)
      modifies this`corrections, this`points, this`states, this`scores
      ensures View() == AfterCorrection(old(View()), id, g, p, value)
    {
      hide ScoreSet;
      var record := At(points, g)[p];
      corrections := corrections + [Correction(id, now, g, p, record.total, value)];
      record := record.(correction := value - record.base, total := value);
      points := points[g := At(points, g)[p := record]];
      ScoreGameweek(g);
    }

    /** A new statistic row, unless the match already has one for that participant and type. */
    method RecordStatistic(row: Statistic) returns (ok: bool)
      modifies this`stats
      ensures ok == CanRecord(old(View()), row)
      ensures View() == AfterRecord(old(View()), row)
    {
      for i := 0 to |stats|
        invariant unchanged(this)
        invariant forall j :: 0 <= j < i ==> !SameStatistic(stats[j], row)
      {
        if SameStatistic(stats[i], row) {
          return false;
        }
      }
      stats := stats + [row];
      ok := true;
    }

    predicate SameStatistic(a: Statistic, b: Statistic)
    {
      a.fixture == b.fixture && a.participant == b.participant && a.kind == b.kind
    }

    /** The `correct` action on a statistic. */
    method EditStatistic(i: nat, value: real) returns (ok: bool)
      requires i < |stats| && CompetitionsKnown(View())
      modifies this`stats, this`points, this`states, this`scores
      ensures ok == CanEditStatistic(old(View()), i, value)
      ensures View() == AfterStatisticEdit(old(View()), i, value)
    {
      hide ScoreSet;
      if value < 0.0 {
        return false;
      }
      var fixture := stats[i].fixture;
      stats := stats[i := stats[i].(value := value)];
      ScoreEach(HoldingIn(gameweeks, {fixture}));
      ok := true;
    }

    // What happens around the workflow.

    method EditPlayer(p: Id, price: real, eligible: bool, availability: Availability)
      modifies this`players
      ensures View() == AfterEdit(old(View()), p, price, eligible, availability)
    {
      if p in players {
        players := players[p := players[p].(price := price, eligible := eligible, availability := availability)];
      }
    }

    method Appear(fixture: Id, participant: Id)
      modifies this`appearances
      ensures View() == AfterAppear(old(View()), fixture, participant)
    {
      appearances := appearances + {(fixture, participant)};
    }

    method FinishFixture(fixture: Id)
      modifies this`finished
      ensures View() == AfterFinish(old(View()), fixture)
    {
      finished := finished + {fixture};
    }

    method Tick(seconds: nat)
      modifies this`now
      ensures View() == AfterTick(old(View()), seconds)
    {
      now := now + seconds;
    }

    // Scoring.

    /** The rule dictionary, built entry by entry. */
    method RuleDictionary(competition: Id) returns (table: map<string, real>)
      ensures table == RuleTable(rules, competition)
    {
      table := map[];
      for i := 0 to |rules|
        invariant table == RuleTable(rules[..i], competition)
      {
        assert rules[..i + 1][..i] == rules[..i];
        if Applies(rules[i], competition) {
          table := table[Upper(rules[i].kind) := rules[i].points];
        }
      }
      assert rules[..|rules|] == rules;
    }

    /** The first half of `score_gameweek`: one player's points from scratch. */
    method ComputeRecord(g: Id, p: Id, table: map<string, real>) returns (record: PointRecord)
      requires g in gameweeks && p in players && table == RuleTable(rules, gameweeks[g].competition)
      ensures record == PlayerRecord(View(), g, p)
    {
      hide RuleTable, Filter, Latest;
      var rows := Filter(Counted(gameweeks[g].fixtures, players[p].participant), stats);
      var base, breakdown := AddStatistics(table, rows);
      var latest := Latest(corrections, g, p);
      var correction := if latest.Some? then latest.value.newValue - base else 0.0;
      record := PointRecord(base, correction, base + correction, breakdown, rows != []);
    }

    predicate HasPlayed(g: Id, s: Selection)
      requires g in gameweeks
      reads this
    {
      && s.item.player in players
      && Appeared(stats, appearances, gameweeks[g].fixtures, players[s.item.player].participant)
    }

    /** Who leads the starters, found row by row. */
    method ChooseCaptain(g: Id, c: Competition, starters: seq<Selection>) returns (leader: Option<Id>, fallback: bool)
      requires g in gameweeks
      ensures RightChoice(View(), g, c, starters, leader, fallback)
    {
      hide Appeared, Captains, Vices;
      var captain := NextMarked(Captains, starters);
      var vice := NextMarked(Vices, starters);
      assert forall i :: FirstAt(Captains, starters, i) ==> i == captain;
      assert forall i :: FirstAt(Vices, starters, i) ==> i == vice;
      leader, fallback := if captain < |starters| then Some(starters[captain].item.player) else None, false;
      if captain < |starters| && vice < |starters| && c.viceCaptainFallback {
        if !HasPlayed(g, starters[captain]) && HasPlayed(g, starters[vice]) {
          leader, fallback := Some(starters[vice].item.player), true;
        }
      }
    }

    method AddUp(records: map<Id, PointRecord>, c: Competition, effective: Option<Id>, starters: seq<Selection>)
      returns (total: real, captainBonus: real, details: seq<Detail>)
      requires effective.Some? ==> Holds(starters, effective.value)
      ensures total == SumOf(SelectionPoints(records), starters)
      ensures captainBonus == CaptainBonus(records, c, effective)
      ensures details == Details(players, records, c, effective, starters)
    {
      total, captainBonus, details := 0.0, 0.0, [];
      for i := 0 to |starters|
        invariant total == SumOf(SelectionPoints(records), starters[..i])
        invariant captainBonus == if effective.Some? && Holds(starters[..i], effective.value)
          then CaptainBonus(records, c, effective) else 0.0
        invariant details == Details(players, records, c, effective, starters[..i])
      {
        var p := starters[i].item.player;
        var earned := if p in records then records[p].total else 0.0;
        total := total + earned;
        var playerBonus := 0.0;
        HoldsOneMore(starters, i);
        if effective == Some(p) {
          captainBonus := earned * (c.captainMultiplier - 1.0);
          playerBonus := captainBonus;
        }
        details := details + [Detail(
          p, PositionOf(players, p),
          if p in records then records[p].base else 0.0,
          if p in records then records[p].correction else 0.0,
          playerBonus, earned + playerBonus,
          p in records && records[p].available,
          effective == Some(p))];
        assert starters[..i + 1][..i] == starters[..i];
      }
      assert starters[..|starters|] == starters;
    }

    /** The second half of `score_gameweek`: one team's score from the point records. */
    method ComputeScore(g: Id, t: Id) returns (score: TeamScore)
      requires Enters(View(), t, g)
      ensures score == TeamScoreOf(View(), g, t)
    {
      var c := competitions[gameweeks[g].competition];
      var starters := Filter(Starts, teams[t].selections);
      var effective, fallback := ChooseCaptain(g, c, starters);
      ChoiceDetermined(View(), g, c, starters, effective, fallback);
      ChosenStarts(View(), g, c, starters);
      var total, captainBonus, details := AddUp(At(points, g), c, effective, starters);
      var penalty := StateIn(At(states, g), t, c).penalty as real;
      score := TeamScore(total, captainBonus, penalty, total + captainBonus - penalty, details, fallback, effective);
    }

    /** `score_gameweek`: every player of the pool, then every team, each in any order. */
    method ScoreGameweek(g: Id)
      requires g in gameweeks && gameweeks[g].competition in competitions
      modifies this`points, this`states, this`scores
      ensures View() == ScoreSet(old(View()), {g})
    {
      hide WithPoints, ScoreSet, Overlay, StateRows, ScoreRows;
      ghost var w := View();
      ScorePool(g);
      ghost var v := View();
      ScoreTeams(g);
      Assembled(w, v, View(), g);
    }

    method ScorePool(g: Id)
      requires g in gameweeks
      modifies this`points
      ensures points == WithPoints(old(View()), {g}).points
    {
      hide RecordsSoFar, PlayerRecord, WithPoints, RuleTable, At;
      ghost var w := View();
      var table := RuleDictionary(gameweeks[g].competition);
      var pool := set p | p in players && players[p].competition == gameweeks[g].competition;
      points := points[g := At(points, g)];
      NothingYet(w, g);
      ScorePlayers(w, g, pool, table);
      AllRecords(w, g, pool);
    }

    /** The player loop; no turn reads what another one wrote. */
    method ScorePlayers(ghost w: World, g: Id, pool: set<Id>, table: map<string, real>)
      requires g in gameweeks && table == RuleTable(rules, gameweeks[g].competition)
      requires SameInputs(w, View()) && forall p :: p in pool ==> InPool(w, g, p)
      requires points == w.points[g := RecordsSoFar(w, g, {})]
      modifies this`points
      ensures points == w.points[g := RecordsSoFar(w, g, pool)]
    {
      hide RecordsSoFar, RuleTable;
      var todo, done := pool, {};
      while todo != {}
        invariant todo + done == pool
        invariant points == w.points[g := RecordsSoFar(w, g, done)]
        decreases todo
      {
        var p :| p in todo;
        ScorePlayer(w, g, done, p, table);
        todo, done := todo - {p}, done + {p};
      }
    }

    /** One turn of the player loop. */
    method ScorePlayer(ghost w: World, g: Id, ghost done: set<Id>, p: Id, table: map<string, real>)
      requires g in gameweeks && table == RuleTable(rules, gameweeks[g].competition)
      requires InPool(w, g, p) && SameInputs(w, View())
      requires points == w.points[g := RecordsSoFar(w, g, done)]
      modifies this`points
      ensures points == w.points[g := RecordsSoFar(w, g, done + {p})]
    {
      hide RecordsSoFar, PlayerRecord, RuleTable;
      RecordReads(w, View(), g, p);
      OneMoreRecord(w, g, done, p);
      var record := ComputeRecord(g, p, table);
      StoreOne(w.points, g, RecordsSoFar(w, g, done), p, record);
      points := points[g := At(points, g)[p := record]];
    }

    method ScoreTeams(g: Id)
      requires g in gameweeks && gameweeks[g].competition in competitions
      modifies this`states, this`scores
      ensures states == Overlay(old(states), StateRows(old(View()), {g}))
      ensures scores == Overlay(old(scores), ScoreRows(old(View()), {g}))
    {
      hide StatesSoFar, ScoresSoFar, Overlay, StateRows, ScoreRows, At;
      ghost var w := View();
      var entered := set t | t in teams && teams[t].competition == gameweeks[g].competition;
      states := states[g := At(states, g)];
      scores := scores[g := At(scores, g)];
      NothingYet(w, g);
      ScoreEntered(w, g, entered);
      AllStates(w, g, entered);
      AllScores(w, g, entered);
    }

    /** The team loop; again no turn reads what another one wrote. */
    method ScoreEntered(ghost w: World, g: Id, entered: set<Id>)
      requires SameInputs(w, View()) && w.points == points && forall t :: t in entered ==> Enters(w, t, g)
      requires states == w.states[g := StatesSoFar(w, g, {})]
      requires scores == w.scores[g := ScoresSoFar(w, g, {})]
      modifies this`states, this`scores
      ensures states == w.states[g := StatesSoFar(w, g, entered)]
      ensures scores == w.scores[g := ScoresSoFar(w, g, entered)]
    {
      hide StatesSoFar, ScoresSoFar, At;
      var todo, done := entered, {};
      while todo != {}
        invariant todo + done == entered
        invariant states == w.states[g := StatesSoFar(w, g, done)]
        invariant scores == w.scores[g := ScoresSoFar(w, g, done)]
        decreases todo
      {
        var t :| t in todo;
        ScoreTeam(w, g, done, t);
        todo, done := todo - {t}, done + {t};
      }
    }

    /** One turn of the team loop: the state row is created when missing, then the score is stored. */
    method ScoreTeam(ghost w: World, g: Id, ghost done: set<Id>, t: Id)
      requires SameInputs(w, View()) && w.points == points && Enters(w, t, g)
      requires states == w.states[g := StatesSoFar(w, g, done)]
      requires scores == w.scores[g := ScoresSoFar(w, g, done)]
      modifies this`states, this`scores
      ensures states == w.states[g := StatesSoFar(w, g, done + {t})]
      ensures scores == w.scores[g := ScoresSoFar(w, g, done + {t})]
    {
      hide StatesSoFar, ScoresSoFar, TeamScoreOf;
      StateSoFar(w, g, done, t);
      TeamScoreReads(View(), w, g, t);
      OneMoreState(w, g, done, t);
      OneMoreScore(w, g, done, t);
      var c := competitions[gameweeks[g].competition];
      var score := ComputeScore(g, t);
      var state := StateIn(At(states, g), t, c);
      StoreOne(w.states, g, StatesSoFar(w, g, done), t, state);
      StoreOne(w.scores, g, ScoresSoFar(w, g, done), t, score);
      states := states[g := At(states, g)[t := state]];
      scores := scores[g := At(scores, g)[t := score]];
    }

    /** The loop of a statistic correction over the gameweeks it reaches. */
    method ScoreEach(gs: set<Id>)
      requires CompetitionsKnown(View()) && gs <= gameweeks.Keys
      modifies this`points, this`states, this`scores
      ensures View() == ScoreSet(old(View()), gs)
    {
      hide ScoreSet;
      ghost var w := View();
      var todo, done := gs, {};
      ScoreNothing(w);
      while todo != {}
        invariant todo + done == gs
        invariant View() == ScoreSet(w, done)
        decreases todo
      {
        var g :| g in todo;
        ScoringKeepsTables(w, done);
        ScoreGameweek(g);
        ScoreUnion(w, done, {g});
        todo, done := todo - {g}, done + {g};
      }
    }

    /** `score_affected_gameweeks` with the counts it reports. */
    method ScoreAffected(fixtures: seq<Id>) returns (scored: nat, skipped: nat, missing: nat)
      requires CompetitionsKnown(View())
      modifies this`points, this`states, this`scores
      ensures View() == AfterTask(old(View()), ToSet(fixtures))
      ensures scored == |Unfinal(old(View()), Holding(old(View()), ToSet(fixtures)))|
      ensures scored + skipped == |Holding(old(View()), ToSet(fixtures))|
      ensures missing == if Holding(old(View()), ToSet(fixtures)) == {} then |fixtures| else 0
    {
      hide ScoreSet, CompetitionsKnown;
      ghost var w := View();
      ScoreNothing(w);
      scored, skipped, missing := 0, 0, 0;
      var reached := HoldingIn(gameweeks, ToSet(fixtures));
      if fixtures == [] {
        assert reached == {} && Unfinal(w, reached) == {};
        return;
      }
      if reached == {} {
        assert Unfinal(w, reached) == {};
        missing := |fixtures|;
        return;
      }
      var todo, done := reached, {};
      assert Unfinal(w, done) == {};
      while todo != {}
        invariant todo + done == reached && todo !! done
        invariant View() == ScoreSet(w, Unfinal(w, done))
        invariant scored == |Unfinal(w, done)| && scored + skipped == |done|
        decreases todo
      {
        var g :| g in todo;
        ScoringKeepsTables(w, Unfinal(w, done));
        OneMoreUnfinal(w, done, g);
        if gameweeks[g].status == Finalized {
          skipped := skipped + 1;
        } else {
          ScoreGameweek(g);
          ScoreUnion(w, Unfinal(w, done), {g});
          scored := scored + 1;
        }
        todo, done := todo - {g}, done + {g};
      }
    }
  }

  /** The two halves of a scoring, one after the other. */
  lemma Assembled(w: World, v: World, u: World, g: Id)
    requires v == w.(points := WithPoints(w, {g}).points)
    requires u == v.(states := Overlay(v.states, StateRows(v, {g})), scores := Overlay(v.scores, ScoreRows(v, {g})))
    ensures u == ScoreSet(w, {g})
  {
    StateRowsRead(w, v, {g});
  }

  lemma OneMoreRow(table: map<string, real>, rows: seq<Statistic>, i: nat)
    requires i < |rows|
    ensures SumOf(RowPoints(table), rows[..i + 1]) == SumOf(RowPoints(table), rows[..i]) + RowPoints(table)(rows[i])
    ensures Breakdown(table, rows[..i + 1]) ==
      if Upper(rows[i].kind) in table then Breakdown(table, rows[..i]) + [Line(table, rows[i])]
      else Breakdown(table, rows[..i])
  {
    var front := rows[..i + 1];
    assert front[..|front| - 1] == rows[..i] && front[|front| - 1] == rows[i];
    assert Breakdown(table, rows[..i]) + [] == Breakdown(table, rows[..i]);
  }

  /** The first row with a mark; the length of the list when there is none. */
  method NextMarked(p: Selection -> bool, s: seq<Selection>) returns (i: nat)
    ensures FirstAt(p, s, i) || (i == |s| && Nowhere(p, s))
  {
    i := 0;
    while i < |s| && !p(s[i])
      invariant i <= |s| && forall j :: 0 <= j < i ==> !p(s[j])
    {
      i := i + 1;
    }
  }

  lemma AddedNothing(table: map<string, real>)
    ensures SumOf(RowPoints(table), []) == 0.0 && Breakdown(table, []) == []
  {
  }

  /** The statistic loop: the base points and the lines that explain them. */
  method AddStatistics(table: map<string, real>, rows: seq<Statistic>)
    returns (base: real, breakdown: seq<BreakdownLine>)
    ensures base == SumOf(RowPoints(table), rows)
    ensures breakdown == Breakdown(table, rows)
  {
    hide Breakdown, SumOf, Upper;
    AddedNothing(table);
    base, breakdown := 0.0, [];
    for i := 0 to |rows|
      invariant base == SumOf(RowPoints(table), rows[..i])
      invariant breakdown == Breakdown(table, rows[..i])
    {
      OneMoreRow(table, rows, i);
      var kind := Upper(rows[i].kind);
      if kind in table {
        var earned := rows[i].value * table[kind];
        base := base + earned;
        assert Line(table, rows[i]) == BreakdownLine(rows[i].kind, rows[i].value, earned);
        breakdown := breakdown + [BreakdownLine(rows[i].kind, rows[i].value, earned)];
      }
    }
    assert rows[..|rows|] == rows;
  }

  /** A transfer as the fields it leaves. */
  lemma TransferSpelledOut(w: World, t: Id, g: Id, playerOut: Id, playerIn: Id)
    ensures CanConfirm(w, t, g, playerOut, playerIn) ==> CanTransfer(w, t, g, playerOut, playerIn)
    ensures !CanConfirm(w, t, g, playerOut, playerIn) ==> AfterTransfer(w, t, g, playerOut, playerIn) == w
    ensures CanTransfer(w, t, g, playerOut, playerIn) ==>
      var team, state := w.teams[t], StateOf(w, t, g, CompetitionOf(w, g));
      var i, price := Find(team.selections, playerOut).value, w.players[playerIn].price;
      var row := TransferRow(w, t, g, playerOut, playerIn);
      var s := team.selections[i];
      && CanConfirm(w, t, g, playerOut, playerIn) == (state.penalty + row.penalty >= 0)
      && (CanConfirm(w, t, g, playerOut, playerIn) ==>
           AfterTransfer(w, t, g, playerOut, playerIn) == w.(
             transfers := w.transfers + [row],
             teams := w.teams[t := team.(
               selections := team.selections[i := Selection(s.item.(player := playerIn), price)],
               budgetRemaining := team.budgetRemaining + s.purchasePrice - price)],
             states := w.states[g := At(w.states, g)[
               t := state.(used := state.used + 1, penalty := state.penalty + row.penalty)]]))
  {
    hide Legal;
  }

  /** The unique constraint on gameweek numbers. */
  ghost predicate NumbersUnique(gameweeks: map<Id, Gameweek>)
  {
    forall g, h :: g in gameweeks && h in gameweeks ==>
      (gameweeks[g].competition == gameweeks[h].competition && gameweeks[g].number == gameweeks[h].number ==> g == h)
  }

  ghost predicate DifferentPlayers(items: seq<Item>)
  {
    forall i, j :: 0 <= i < j < |items| ==> items[i].player != items[j].player
  }

  lemma AcceptedDiffer(id: Id, c: Competition, players: map<Id, Player>, items: seq<Item>)
    requires KnownPlayers(players, items)
    requires ValidateSelections(id, c, Resolve(players, items), c.initialBudget).None?
    ensures DifferentPlayers(items)
  {
    hide ValidateSelections;
    ValidateAcceptsLegal(id, c, Resolve(players, items), c.initialBudget);
    forall i, j | 0 <= i < j < |items| ensures items[i].player != items[j].player {
      assert Resolve(players, items)[i].id != Resolve(players, items)[j].id;
    }
  }

  /** The dictionary holds every row of the squad as the lines of `items` rewrite it. */
  ghost predicate Rewrites(current: map<Id, Selection>, selections: seq<Selection>, items: seq<Item>)
  {
    forall j :: 0 <= j < |selections| ==>
      && selections[j].item.player in current
      && current[selections[j].item.player] == Relined(selections[j], items)
  }

  lemma OneMoreLine(s: Selection, items: seq<Item>, i: nat)
    requires i < |items| && DifferentPlayers(items)
    ensures Relined(s, items[..i + 1]) ==
      if s.item.player == items[i].player then s.(item := items[i]) else Relined(s, items[..i])
  {
    var p := s.item.player;
    var before, now := First(NamesPlayer(p), items[..i]), First(NamesPlayer(p), items[..i + 1]);
    assert items[..i + 1] == items[..i] + [items[i]];
    assert forall x, y :: x in items && y in items && x.player == y.player ==> x == y;
    assert items[i] in items[..i + 1];
    if before.Some? {
      assert before.value in items && before.value.player != items[i].player;
      assert before.value in items[..i + 1];
    }
  }

  /** The rows of a squad by player. */
  method ByPlayer(selections: seq<Selection>) returns (current: map<Id, Selection>)
    requires DistinctMembers(selections)
    ensures Rewrites(current, selections, [])
  {
    current := map[];
    for i := 0 to |selections|
      invariant Rewrites(current, selections[..i], [])
    {
      current := current[selections[i].item.player := selections[i]];
    }
    assert selections[..|selections|] == selections;
  }

  /** The rows by player, each overwritten by the submitted line for that player. */
  method Relabel(selections: seq<Selection>, items: seq<Item>) returns (current: map<Id, Selection>)
    requires DistinctMembers(selections) && DifferentPlayers(items) && Members(items) == Members(Items(selections))
    ensures Rewrites(current, selections, items)
  {
    current := ByPlayer(selections);
    for i := 0 to |items|
      invariant Rewrites(current, selections, items[..i])
    {
      var p := items[i].player;
      assert p in Members(items);
      forall j | 0 <= j < |selections|
        ensures Relined(selections[j], items[..i + 1]) ==
          if selections[j].item.player == p then selections[j].(item := items[i]) else Relined(selections[j], items[..i])
      {
        OneMoreLine(selections[j], items, i);
      }
      var k :| 0 <= k < |selections| && Items(selections)[k].player == p;
      current := current[p := current[p].(item := items[i])];
    }
    assert items[..|items|] == items;
  }

  lemma ScoreNothing(w: World)
    ensures ScoreSet(w, {}) == w
  {
    assert Overlay(w.points, RecordRows(w, {})) == w.points;
    assert Overlay(w.states, StateRows(w, {})) == w.states;
    assert Overlay(w.scores, ScoreRows(WithPoints(w, {}), {})) == w.scores;
  }

  lemma ScoringKeepsTables(w: World, gs: set<Id>)
    ensures var v := ScoreSet(w, gs); v.gameweeks == w.gameweeks && (CompetitionsKnown(w) ==> CompetitionsKnown(v))
  {
  }

  lemma OneMoreUnfinal(w: World, gs: set<Id>, g: Id)
    requires g in w.gameweeks && g !in gs
    ensures Unfinal(w, gs + {g}) == if w.gameweeks[g].status == Finalized then Unfinal(w, gs) else Unfinal(w, gs) + {g}
  {
  }

  /** A team not yet scored still has the state it started from. */
  lemma StateSoFar(w: World, g: Id, ts: set<Id>, t: Id)
    requires Enters(w, t, g)
    ensures StateIn(StatesSoFar(w, g, ts), t, CompetitionOf(w, g)) == StateOf(w, t, g, CompetitionOf(w, g))
  {
  }

  lemma HoldsOneMore(s: seq<Selection>, i: nat)
    requires i < |s|
    ensures forall p :: Holds(s[..i + 1], p) <==> Holds(s[..i], p) || s[i].item.player == p
  {
    forall p ensures Holds(s[..i + 1], p) <==> Holds(s[..i], p) || s[i].item.player == p {
      if Holds(s[..i], p) {
        var j :| 0 <= j < i && s[..i][j].item.player == p;
        assert s[..i + 1][j].item.player == p;
      }
      if Holds(s[..i + 1], p) {
        var j :| 0 <= j <= i && s[..i + 1][j].item.player == p;
        assert j < i ==> s[..i][j].item.player == p;
      }
      if s[i].item.player == p {
        assert s[..i + 1][i].item.player == p;
      }
    }
  }
}
