/** Scoring reads the squad as it is now: what later transfers and lineups do to the score of a
    locked gameweek. */
module LockedScores {
  import opened Sequences
  import opened FantasyModel
  import opened Scoring
  import opened ScoreLaws
  import opened Season
  import opened SeasonInvariant
  import opened SeasonLaws
  import opened CorrectionLaws

  // A team's total as a closed expression over its squad.

  /** What one row counts for before the captain's bonus. */
  function RowWorth(w: World, g: Id, s: Selection): real
  {
    if s.item.starter then PointsOf(At(w.points, g), s.item.player) else 0.0
  }

  function RowWorths(w: World, g: Id): Selection -> real
  {
    (s: Selection) => RowWorth(w, g, s)
  }

  /** Who leads a squad whose captain is row `c` and whose vice-captain is row `v`. */
  function Leader(w: World, g: Id, comp: Competition, s: seq<Selection>, c: nat, v: nat): Id
    requires g in w.gameweeks && c < |s| && v < |s|
  {
    if comp.viceCaptainFallback && !Plays(w, g, s[c]) && Plays(w, g, s[v]) then s[v].item.player else s[c].item.player
  }

  /** The rows' worth and the leader's bonus. */
  function SquadWorth(w: World, g: Id, comp: Competition, s: seq<Selection>, c: nat, v: nat): real
    requires g in w.gameweeks && c < |s| && v < |s|
  {
    SumOf(RowWorths(w, g), s) + Bonus(At(w.points, g), comp, Leader(w, g, comp, s, c, v))
  }

  lemma {:induction false} StartersWorth(w: World, g: Id, s: seq<Selection>)
    ensures SumOf(SelectionPoints(At(w.points, g)), Filter(Starts, s)) == SumOf(RowWorths(w, g), s)
  {
    if s != [] {
      var n := |s| - 1;
      StartersWorth(w, g, s[..n]);
      var f := Filter(Starts, s[..n]);
      if Starts(s[n]) {
        SumConcat(SelectionPoints(At(w.points, g)), f, [s[n]]);
        assert [s[n]][..0] == [];
      } else {
        assert f + [] == f;
      }
    }
  }

  /** In a led squad the score is the worth of the squad less the penalty. */
  lemma TotalIsWorth(w: World, g: Id, t: Id, c: nat, v: nat)
    requires Enters(w, t, g) && Led(w.teams[t].selections, c, v)
    ensures var comp := CompetitionOf(w, g);
      TeamScoreOf(w, g, t).totalPoints ==
        SquadWorth(w, g, comp, w.teams[t].selections, c, v) - StateOf(w, t, g, comp).penalty as real
  {
    var s, comp := w.teams[t].selections, CompetitionOf(w, g);
    LedIsMarked(w, t, c, v);
    FallbackExactly(w, g, comp, Starters(w, t), s[c], s[v]);
    StartersWorth(w, g, s);
    ScoreIsGross(w, g, t);
  }

  /** The same field of play for gameweek `g`, whatever the other tables say. */
  ghost predicate SameGameweek(w: World, v: World, g: Id)
  {
    && v.competitions == w.competitions && v.gameweeks == w.gameweeks && v.players == w.players && v.rules == w.rules
    && v.stats == w.stats && v.appearances == w.appearances && v.corrections == w.corrections
    && At(v.points, g) == At(w.points, g)
  }

  /** Rescoring a freshly scored gameweek writes the same point records again, even if squads have changed. */
  lemma RecordsRewritten(w: World, v: World, g: Id)
    requires SameGameweek(w, v, g) && FreshlyScored(w, g)
    ensures At(ScoreSet(v, {g}).points, g) == At(w.points, g)
  {
    hide ScoreSet, PlayerRecord, FreshlyScored, At;
    var r := At(ScoreSet(v, {g}).points, g);
    forall p
      ensures p in r <==> p in At(w.points, g)
      ensures p in r ==> r[p] == At(w.points, g)[p]
    {
      ScoreRecords(v, {g}, g, p);
      if InPool(v, g, p) {
        RecordUnread(w, v, g, p);
        StoredRecord(w, g, p);
      }
    }
  }

  lemma RecordUnread(w: World, v: World, g: Id, p: Id)
    requires SameGameweek(w, v, g) && InPool(v, g, p)
    ensures InPool(w, g, p) && PlayerRecord(v, g, p) == PlayerRecord(w, g, p)
  {
  }

  lemma StoredRecord(w: World, g: Id, p: Id)
    requires FreshlyScored(w, g) && InPool(w, g, p)
    ensures p in At(w.points, g) && At(w.points, g)[p] == PlayerRecord(w, g, p)
  {
  }

  /** Rescoring such a gameweek gives a team the score its present squad earns with the points stored before. */
  lemma RescoredTeam(w: World, v: World, g: Id, t: Id)
    requires SameGameweek(w, v, g) && FreshlyScored(w, g) && Enters(v, t, g)
    ensures var r := ScoreSet(v, {g});
      t in At(r.scores, g) && At(r.scores, g)[t].totalPoints == TeamScoreOf(v, g, t).totalPoints
  {
    var r := ScoreSet(v, {g});
    RecordsRewritten(w, v, g);
    ScoreOfTeam(v, {g}, g, t);
    ScoringKeepsStates(v, {g});
    TeamScoreReads(r, v, g, t);
  }

  lemma StoredScore(w: World, g: Id, t: Id)
    requires FreshlyScored(w, g) && Enters(w, t, g)
    ensures t in At(w.scores, g) && At(w.scores, g)[t] == TeamScoreOf(w, g, t)
  {
  }

  lemma WorthReads(w: World, v: World, g: Id, comp: Competition, s: seq<Selection>, c: nat, d: nat)
    requires SameGameweek(w, v, g) && g in w.gameweeks && c < |s| && d < |s|
    ensures SquadWorth(v, g, comp, s, c, d) == SquadWorth(w, g, comp, s, c, d)
  {
    assert Plays(v, g, s[c]) == Plays(w, g, s[c]) && Plays(v, g, s[d]) == Plays(w, g, s[d]);
    SumAgrees(RowWorths(v, g), RowWorths(w, g), s);
  }

  /** Whatever has become of the squad since a gameweek was scored, scoring it again moves the team by the
      difference in worth of the two squads at the points stored before. */
  lemma RescoredByWorth(w: World, v: World, g: Id, t: Id, c: nat, d: nat, c': nat, d': nat)
    requires SameGameweek(w, v, g) && FreshlyScored(w, g) && Enters(w, t, g) && Enters(v, t, g)
    requires StateOf(v, t, g, CompetitionOf(w, g)) == StateOf(w, t, g, CompetitionOf(w, g))
    requires Led(w.teams[t].selections, c, d) && Led(v.teams[t].selections, c', d')
    ensures var r, comp := ScoreSet(v, {g}), CompetitionOf(w, g);
      && t in At(w.scores, g) && t in At(r.scores, g)
      && At(r.scores, g)[t].totalPoints == At(w.scores, g)[t].totalPoints
        + SquadWorth(w, g, comp, v.teams[t].selections, c', d') - SquadWorth(w, g, comp, w.teams[t].selections, c, d)
  {
    hide FreshlyScored, ScoreSet, SquadWorth, TeamScoreOf;
    RescoredTeam(w, v, g, t);
    StoredScore(w, g, t);
    TotalIsWorth(w, g, t, c, d);
    TotalIsWorth(v, g, t, c', d');
    WorthReads(w, v, g, CompetitionOf(w, g), v.teams[t].selections, c', d');
  }

  // A transfer for another gameweek.

  lemma TransferExchanges(w: World, t: Id, h: Id, playerOut: Id, playerIn: Id, g: Id)
    requires CanConfirm(w, t, h, playerOut, playerIn) && Enters(w, t, g) && h != g
    ensures var v := AfterTransfer(w, t, h, playerOut, playerIn);
      var i := Find(w.teams[t].selections, playerOut).value;
      && SameGameweek(w, v, g) && Enters(v, t, g)
      && v.teams[t].selections ==
        w.teams[t].selections[i := Bought(w.teams[t].selections[i], playerIn, w.players[playerIn].price)]
      && StateOf(v, t, g, CompetitionOf(w, g)) == StateOf(w, t, g, CompetitionOf(w, g))
  {
    hide Legal;
  }

  lemma NotLocked(w: World, t: Id, h: Id, playerOut: Id, playerIn: Id)
    requires CanConfirm(w, t, h, playerOut, playerIn)
    ensures !LockedAt(w, h) && Find(w.teams[t].selections, playerOut).Some? && playerIn in w.players
  {
  }

  /** The marks stay with the row, so an exchanged squad is led from the same rows. */
  lemma ExchangeLeads(s: seq<Selection>, i: nat, p: Id, price: real, c: nat, d: nat)
    requires i < |s| && Led(s, c, d)
    ensures Led(s[i := Bought(s[i], p, price)], c, d)
  {
  }

  /** A locked gameweek that is up to date does not keep its scores. After a transfer for another gameweek, of any
      player, captain or not, rescoring moves the team by the difference in worth of the exchanged row and in the
      leader's bonus; the score stands exactly when these cancel. */
  lemma LockedScoreMoves(w: World, t: Id, h: Id, playerOut: Id, playerIn: Id, g: Id, c: nat, d: nat)
    requires LockedAt(w, g) && Enters(w, t, g) && FreshlyScored(w, g)
    requires CanConfirm(w, t, h, playerOut, playerIn) && Led(w.teams[t].selections, c, d)
    ensures var v := AfterRecalculate(AfterTransfer(w, t, h, playerOut, playerIn), g);
      var s, comp, records := w.teams[t].selections, CompetitionOf(w, g), At(w.points, g);
      var i := Find(s, playerOut).value;
      var x := Bought(s[i], playerIn, w.players[playerIn].price);
      var move := RowWorth(w, g, x) - RowWorth(w, g, s[i])
        + Bonus(records, comp, Leader(w, g, comp, s[i := x], c, d)) - Bonus(records, comp, Leader(w, g, comp, s, c, d));
      && t in At(w.scores, g) && t in At(v.scores, g)
      && At(v.scores, g)[t].totalPoints == At(w.scores, g)[t].totalPoints + move
      && (At(v.scores, g)[t].totalPoints == At(w.scores, g)[t].totalPoints <==> move == 0.0)
  {
    hide AfterTransfer, CanConfirm, FreshlyScored, ScoreSet, Led, Leader, RowWorth;
    NotLocked(w, t, h, playerOut, playerIn);
    var u := AfterTransfer(w, t, h, playerOut, playerIn);
    var s, i := w.teams[t].selections, Find(w.teams[t].selections, playerOut).value;
    var x := Bought(s[i], playerIn, w.players[playerIn].price);
    TransferExchanges(w, t, h, playerOut, playerIn, g);
    ExchangeLeads(s, i, playerIn, w.players[playerIn].price, c, d);
    RescoredByWorth(w, u, g, t, c, d, c, d);
    SumUpdate(RowWorths(w, g), s, i, x);
  }

  predicate Unmarked(s: Selection) { !s.item.captain && !s.item.vice }

  /** Without a mark in play the leader stays, and the score stands exactly when the row is on the bench or the two
      players earned the same. */
  lemma UnmarkedMove(w: World, t: Id, h: Id, playerOut: Id, playerIn: Id, g: Id, c: nat, d: nat)
    requires LockedAt(w, g) && Enters(w, t, g) && FreshlyScored(w, g)
    requires CanConfirm(w, t, h, playerOut, playerIn) && Led(w.teams[t].selections, c, d)
    requires Unmarked(w.teams[t].selections[Find(w.teams[t].selections, playerOut).value])
    ensures var v := AfterRecalculate(AfterTransfer(w, t, h, playerOut, playerIn), g);
      var row := w.teams[t].selections[Find(w.teams[t].selections, playerOut).value];
      && t in At(w.scores, g) && t in At(v.scores, g)
      && At(v.scores, g)[t].totalPoints == At(w.scores, g)[t].totalPoints +
        (if row.item.starter then PointsOf(At(w.points, g), playerIn) - PointsOf(At(w.points, g), playerOut) else 0.0)
      && (At(v.scores, g)[t].totalPoints == At(w.scores, g)[t].totalPoints <==>
           !row.item.starter || PointsOf(At(w.points, g), playerIn) == PointsOf(At(w.points, g), playerOut))
  {
    hide AfterTransfer, CanConfirm, FreshlyScored, AfterRecalculate, Plays, Bonus;
    NotLocked(w, t, h, playerOut, playerIn);
    LockedScoreMoves(w, t, h, playerOut, playerIn, g, c, d);
    var i := Find(w.teams[t].selections, playerOut).value;
    assert i != c && i != d;
  }

  // A new lineup for the next gameweek.

  /** What a row gains by the new lineup: its points when it comes in, their loss when it goes out. */
  function Swing(w: World, g: Id, items: seq<Item>): Selection -> real
  {
    (s: Selection) => RowWorth(w, g, Relined(s, items)) - RowWorth(w, g, s)
  }

  lemma {:induction false} RelinedWorth(w: World, g: Id, s: seq<Selection>, items: seq<Item>)
    ensures SumOf(RowWorths(w, g), RelinedAll(s, items)) == SumOf(RowWorths(w, g), s) + SumOf(Swing(w, g, items), s)
  {
    if s != [] {
      var n := |s| - 1;
      RelinedWorth(w, g, s[..n], items);
      assert RelinedAll(s, items)[..n] == RelinedAll(s[..n], items);
    }
  }

  lemma LineupRelines(w: World, t: Id, items: seq<Item>, g: Id)
    requires CanSetLineup(w, t, items) && Enters(w, t, g)
    ensures var v := AfterLineup(w, t, items);
      && SameGameweek(w, v, g) && Enters(v, t, g) && v.teams[t].selections == RelinedAll(w.teams[t].selections, items)
      && StateOf(v, t, g, CompetitionOf(w, g)) == StateOf(w, t, g, CompetitionOf(w, g))
  {
    hide Legal, LineupOpen;
  }

  lemma RelinedLeads(w: World, t: Id, items: seq<Item>) returns (c: nat, d: nat)
    requires t in w.teams && SquadSound(w, t) && CanSetLineup(w, t, items)
    ensures Led(RelinedAll(w.teams[t].selections, items), c, d)
  {
    hide Legal, LineupOpen;
    var v, team := AfterLineup(w, t, items), w.teams[t];
    RelinedSound(w, team, items);
    assert SquadSound(v, t);
    c, d := SquadIsLed(v, t);
  }

  /** The other way to move it: a lineup accepted for the next editable gameweek. Rescoring the locked one moves the
      team by the points of those who came in, less those of who went out, and by the change of the leader's bonus. */
  lemma LineupMovesLockedScore(w: World, t: Id, items: seq<Item>, g: Id, c: nat, d: nat) returns (c': nat, d': nat)
    requires LockedAt(w, g) && Enters(w, t, g) && FreshlyScored(w, g) && SquadSound(w, t)
    requires CanSetLineup(w, t, items) && Led(w.teams[t].selections, c, d)
    ensures var s := w.teams[t].selections;
      && Led(RelinedAll(s, items), c', d')
      && var v := AfterRecalculate(AfterLineup(w, t, items), g);
      var comp, records := CompetitionOf(w, g), At(w.points, g);
      var move := SumOf(Swing(w, g, items), s)
        + Bonus(records, comp, Leader(w, g, comp, RelinedAll(s, items), c', d'))
        - Bonus(records, comp, Leader(w, g, comp, s, c, d));
      && t in At(w.scores, g) && t in At(v.scores, g)
      && At(v.scores, g)[t].totalPoints == At(w.scores, g)[t].totalPoints + move
      && (At(v.scores, g)[t].totalPoints == At(w.scores, g)[t].totalPoints <==> move == 0.0)
  {
    hide AfterLineup, CanSetLineup, FreshlyScored, ScoreSet, Led, Leader, RelinedAll, SquadSound, Swing, RowWorth, At;
    hide Bonus;
    LineupRelines(w, t, items, g);
    c', d' := RelinedLeads(w, t, items);
    RescoredByWorth(w, AfterLineup(w, t, items), g, t, c, d, c', d');
    RelinedWorth(w, g, w.teams[t].selections, items);
  }
}
