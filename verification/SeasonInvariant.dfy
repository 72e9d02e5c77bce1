/** What every workflow action keeps, and so what holds in every reachable state of the application. */
module SeasonInvariant {
  import opened Sequences
  import opened FantasyModel
  import opened SquadRules
  import opened Scoring
  import opened ScoreLaws
  import opened Season
  import opened TransferLedger

  /** The squad of team `t` as the squad check sees it. */
  ghost function SquadOf(w: World, t: Id): seq<Entry>
    requires t in w.teams && KnownPlayers(w.players, Items(w.teams[t].selections))
  {
    Resolve(w.players, Items(w.teams[t].selections))
  }

  /** A team's squad has a legal shape, one captain and one vice-captain, and its money adds up. */
  ghost predicate SquadSound(w: World, t: Id)
    requires t in w.teams
  {
    var team := w.teams[t];
    && team.competition in w.competitions
    && KnownPlayers(w.players, Items(team.selections))
    && var c := w.competitions[team.competition];
    && SquadShape(team.competition, c, SquadOf(w, t))
    && MarksUnique(Items(team.selections))
    && team.budgetRemaining + SumOf(PurchasePrice, team.selections) == c.initialBudget
  }

  ghost predicate SquadsSound(w: World)
  {
    forall t :: t in w.teams ==> SquadSound(w, t)
  }

  ghost predicate LedgersSound(w: World)
  {
    && (forall t :: t in w.teams ==> LedgerSound(w, t))
    && (forall i :: 0 <= i < |w.transfers| ==> w.transfers[i].team in w.teams)
  }

  ghost predicate AccountsSound(w: World)
  {
    forall t, g :: Enters(w, t, g) ==> AccountSound(w, t, g)
  }

  /** A corrected record shows its latest corrected value. */
  ghost predicate CorrectionShown(w: World, g: Id, p: Id)
  {
    Latest(w.corrections, g, p).Some? ==>
      p in At(w.points, g) && At(w.points, g)[p].total == Latest(w.corrections, g, p).value.newValue
  }

  /** A correction starts from the value the latest earlier correction of the record set. */
  ghost predicate Chained(cs: seq<Correction>, i: nat)
    requires i < |cs|
  {
    var before := Latest(cs[..i], cs[i].gameweek, cs[i].player);
    before.Some? ==> cs[i].previousValue == before.value.newValue
  }

  ghost predicate CorrectionsSound(w: World)
  {
    && (forall g, p :: CorrectionShown(w, g, p))
    && (forall i :: 0 <= i < |w.corrections| ==> Chained(w.corrections, i))
  }

  ghost predicate Inv(w: World)
  {
    ForeignKeys(w) && SquadsSound(w) && LedgersSound(w) && AccountsSound(w) && CorrectionsSound(w)
  }

  // Frames: which tables each part of the invariant reads.

  lemma SquadsFrame(w: World, v: World)
    requires SquadsSound(w) && v.teams == w.teams && v.players == w.players && v.competitions == w.competitions
    ensures SquadsSound(v)
  {
    forall t | t in v.teams ensures SquadSound(v, t) {
      assert SquadSound(w, t);
    }
  }

  lemma LedgersFrame(w: World, v: World)
    requires LedgersSound(w) && v.teams == w.teams && v.transfers == w.transfers && v.founding == w.founding
    ensures LedgersSound(v)
  {
    forall t | t in v.teams ensures LedgerSound(v, t) {
      assert LedgerSound(w, t);
    }
  }

  /** The same gameweeks, apart from their statuses. */
  ghost predicate SameWeeks(w: World, v: World)
  {
    && w.gameweeks.Keys == v.gameweeks.Keys
    && forall g :: g in w.gameweeks ==> v.gameweeks[g] == w.gameweeks[g].(status := v.gameweeks[g].status)
  }

  lemma AccountsFrame(w: World, v: World)
    requires AccountsSound(w) && v.teams == w.teams && v.transfers == w.transfers && v.competitions == w.competitions
    requires SameWeeks(w, v) && StatesKept(w, v)
    ensures AccountsSound(v)
  {
    forall t, g | Enters(v, t, g) ensures AccountSound(v, t, g) {
      assert Enters(w, t, g);
      assert AccountSound(w, t, g);
      assert Moves(v, t, g) == Moves(w, t, g);
    }
  }

  lemma CorrectionsFrame(w: World, v: World)
    requires CorrectionsSound(w) && v.corrections == w.corrections && v.points == w.points
    ensures CorrectionsSound(v)
  {
    forall g, p ensures CorrectionShown(v, g, p) {
      assert CorrectionShown(w, g, p);
    }
  }

  // Scoring.

  lemma ScoringKeepsTeams(w: World, gs: set<Id>)
    requires ForeignKeys(w) && SquadsSound(w) && LedgersSound(w) && AccountsSound(w)
    ensures var v := ScoreSet(w, gs);
      ForeignKeys(v) && SquadsSound(v) && LedgersSound(v) && AccountsSound(v)
  {
    var v := ScoreSet(w, gs);
    ScoreSetKeepsKeys(w, gs);
    SquadsFrame(w, v);
    LedgersFrame(w, v);
    ScoringKeepsStates(w, gs);
    AccountsFrame(w, v);
  }

  lemma ScoringKeeps(w: World, gs: set<Id>)
    requires Inv(w)
    ensures Inv(ScoreSet(w, gs))
  {
    ScoringKeepsTeams(w, gs);
    ScoringShows(w, gs);
  }

  /** Scoring shows the latest corrected values, also of a record whose correction is only just written. */
  lemma ScoringShows(w: World, gs: set<Id>)
    requires ForeignKeys(w)
    requires forall g, p :: g !in gs ==> CorrectionShown(w, g, p)
    requires forall i :: 0 <= i < |w.corrections| ==> Chained(w.corrections, i)
    ensures CorrectionsSound(ScoreSet(w, gs))
  {
    var v := ScoreSet(w, gs);
    forall g, p ensures CorrectionShown(v, g, p) {
      ScoreRecords(w, gs, g, p);
      if Latest(w.corrections, g, p).Some? {
        LatestIsLast(w.corrections, g, p);
        assert p in At(w.points, g);
        assert InPool(w, g, p);
        if g in gs {
          CorrectedTotal(w, g, p);
        } else {
          assert CorrectionShown(w, g, p);
        }
      }
    }
  }

  // Creating a team.

  lemma {:induction false} PaidIsPrice(players: map<Id, Player>, items: seq<Item>)
    requires KnownPlayers(players, items)
    ensures SumOf(PurchasePrice, BuyAt(players, items)) == SumOf(Price, Resolve(players, items))
    ensures Items(BuyAt(players, items)) == items
  {
    if items != [] {
      var n := |items| - 1;
      PaidIsPrice(players, items[..n]);
      assert BuyAt(players, items)[..n] == BuyAt(players, items[..n]);
      assert Resolve(players, items)[..n] == Resolve(players, items[..n]);
    }
  }

  lemma LegalShape(w: World, competition: Id, items: seq<Item>)
    requires Legal(w, competition, items)
    ensures KnownPlayers(w.players, items) && competition in w.competitions
    ensures SquadShape(competition, w.competitions[competition], Resolve(w.players, items))
  {
    var c := w.competitions[competition];
    ValidateAcceptsLegal(competition, c, Resolve(w.players, items), c.initialBudget);
  }

  lemma ShapeDistinct(players: map<Id, Player>, s: seq<Selection>)
    requires KnownPlayers(players, Items(s)) && DistinctPlayers(Resolve(players, Items(s)))
    ensures DistinctMembers(s)
  {
    var squad := Resolve(players, Items(s));
    forall i, j | 0 <= i < j < |s| ensures s[i].item.player != s[j].item.player {
      assert squad[i].id != squad[j].id;
    }
  }

  /** A team whose squad and money are in order, as a value. */
  ghost predicate TeamSound(w: World, team: Team)
  {
    && team.competition in w.competitions
    && KnownPlayers(w.players, Items(team.selections))
    && SquadShape(team.competition, w.competitions[team.competition], Resolve(w.players, Items(team.selections)))
    && MarksUnique(Items(team.selections))
    && team.budgetRemaining + SumOf(PurchasePrice, team.selections) == w.competitions[team.competition].initialBudget
  }

  /** Replacing or adding one team leaves the others as they were. */
  lemma OneTeamChanges(w: World, v: World, t: Id, team: Team)
    requires SquadsSound(w) && v.teams == w.teams[t := team]
    requires v.players == w.players && v.competitions == w.competitions && TeamSound(w, team)
    ensures SquadsSound(v)
  {
    forall u | u in v.teams ensures SquadSound(v, u) {
      if u != t {
        assert SquadSound(w, u);
      }
    }
  }

  lemma NewTeamSound(w: World, owner: Id, competition: Id, items: seq<Item>)
    requires Legal(w, competition, items) && MarksUnique(items)
    ensures TeamSound(w, NewTeam(w, owner, competition, items))
  {
    LegalShape(w, competition, items);
    PaidIsPrice(w.players, items);
  }

  lemma CreatedKeepsKeys(w: World, t: Id, team: Team)
    requires ForeignKeys(w) && t !in w.teams && TeamSound(w, team)
    ensures ForeignKeys(Created(w, t, team))
  {
    var v := Created(w, t, team);
    assert CompetitionsKnown(v) && SquadsKnown(v);
    assert PointsKnown(v) && CorrectionsKnown(v);
    forall g, u | u in At(v.states, g) ensures Enters(v, u, g) {
      assert Enters(w, u, g);
    }
  }

  lemma CreatedKeepsLedgers(w: World, t: Id, team: Team)
    requires LedgersSound(w) && t !in w.teams
    ensures LedgersSound(Created(w, t, team))
  {
    var v := Created(w, t, team);
    forall u | u in v.teams ensures LedgerSound(v, u) {
      if u == t {
        FilterNone(ByTeam(t), w.transfers);
      } else {
        assert LedgerSound(w, u);
      }
    }
  }

  lemma CreatedKeepsAccounts(w: World, t: Id, team: Team)
    requires AccountsSound(w) && StatesKnown(w) && LedgersSound(w) && t !in w.teams
    ensures AccountsSound(Created(w, t, team))
  {
    var v := Created(w, t, team);
    forall u, g | Enters(v, u, g) ensures AccountSound(v, u, g) {
      assert Moves(v, u, g) == Moves(w, u, g);
      if u == t {
        FilterNone(ByTeamGameweek(t, g), w.transfers);
        assert t in At(w.states, g) ==> Enters(w, t, g);
      } else {
        assert Enters(w, u, g);
        assert AccountSound(w, u, g);
      }
    }
  }

  lemma CreateKeeps(w: World, t: Id, owner: Id, competition: Id, items: seq<Item>)
    requires Inv(w)
    ensures Inv(AfterCreate(w, t, owner, competition, items))
  {
    if CanCreate(w, t, owner, competition, items) {
      var team := NewTeam(w, owner, competition, items);
      var v := Created(w, t, team);
      NewTeamSound(w, owner, competition, items);
      OneTeamChanges(w, v, t, team);
      CreatedKeepsKeys(w, t, team);
      CreatedKeepsLedgers(w, t, team);
      CreatedKeepsAccounts(w, t, team);
      CorrectionsFrame(w, v);
    }
  }

  // Lineups.

  lemma LinedUp(selections: seq<Selection>, items: seq<Item>, i: nat)
    requires i < |selections| && Members(items) == Members(Items(selections))
    ensures RelinedAll(selections, items)[i].item in items
    ensures RelinedAll(selections, items)[i].item.player == selections[i].item.player
    ensures RelinedAll(selections, items)[i].purchasePrice == selections[i].purchasePrice
  {
    var p := selections[i].item.player;
    assert Items(selections)[i].player in Members(Items(selections));
    assert p in Members(items);
    var j :| 0 <= j < |items| && items[j].player == p;
    assert NamesPlayer(p)(items[j]);
  }

  lemma {:induction false} RelinedPaid(selections: seq<Selection>, items: seq<Item>)
    ensures SumOf(PurchasePrice, RelinedAll(selections, items)) == SumOf(PurchasePrice, selections)
    ensures DistinctMembers(selections) && Members(items) == Members(Items(selections)) ==>
      DistinctMembers(RelinedAll(selections, items))
  {
    var r := RelinedAll(selections, items);
    if Members(items) == Members(Items(selections)) {
      forall i | 0 <= i < |r| ensures r[i].item.player == selections[i].item.player {
        LinedUp(selections, items, i);
      }
    }
    RelinedSum(selections, items);
  }

  lemma {:induction false} RelinedSum(selections: seq<Selection>, items: seq<Item>)
    ensures SumOf(PurchasePrice, RelinedAll(selections, items)) == SumOf(PurchasePrice, selections)
  {
    if selections != [] {
      var n := |selections| - 1;
      RelinedSum(selections[..n], items);
      assert RelinedAll(selections, items)[..n] == RelinedAll(selections[..n], items);
    }
  }

  lemma {:induction false} SubsetIsPermutation<T>(a: seq<T>, b: seq<T>)
    requires Distinct(a) && Distinct(b) && |a| == |b| && forall x :: x in a ==> x in b
    ensures multiset(a) == multiset(b)
  {
    if a != [] {
      var n := |a| - 1;
      assert a[n] in b;
      var j :| 0 <= j < |b| && b[j] == a[n];
      var rest := b[..j] + b[j+1..];
      forall x | x in a[..n] ensures x in rest {
        assert x in b && x != a[n];
      }
      SubsetIsPermutation(a[..n], rest);
      assert a[..n] + a[n+1..] == a[..n];
      RestoreSame(a, n, b, j);
    }
  }

  /** The stored lineup is the submitted one, in the order of the stored rows. */
  lemma RelinedPermutes(players: map<Id, Player>, selections: seq<Selection>, items: seq<Item>)
    requires KnownPlayers(players, items) && DistinctPlayers(Resolve(players, items))
    requires DistinctMembers(selections) && |selections| == |items|
    requires Members(items) == Members(Items(selections))
    ensures var r := Items(RelinedAll(selections, items));
      multiset(r) == multiset(items) && KnownPlayers(players, r) && DistinctPlayers(Resolve(players, r))
  {
    var r := Items(RelinedAll(selections, items));
    forall i | 0 <= i < |r| ensures r[i] in items && r[i].player == selections[i].item.player {
      LinedUp(selections, items, i);
    }
    assert Distinct(items) by {
      forall i, j | 0 <= i < j < |items| ensures items[i] != items[j] {
        assert Resolve(players, items)[i].id != Resolve(players, items)[j].id;
      }
    }
    SubsetIsPermutation(r, items);
  }

  lemma ResolveWithout(players: map<Id, Player>, s: seq<Item>, i: nat)
    requires KnownPlayers(players, s) && i < |s|
    ensures KnownPlayers(players, s[..i] + s[i+1..])
    ensures Resolve(players, s[..i] + s[i+1..]) == Resolve(players, s)[..i] + Resolve(players, s)[i+1..]
    ensures Resolve(players, s)[i] == EntryOf(players, s[i])
  {
    hide EntryOf;
  }

  lemma {:induction false} ResolvePermutes(players: map<Id, Player>, a: seq<Item>, b: seq<Item>)
    requires KnownPlayers(players, a) && KnownPlayers(players, b) && multiset(a) == multiset(b)
    ensures multiset(Resolve(players, a)) == multiset(Resolve(players, b))
  {
    hide EntryOf, Resolve;
    SameLength(a, b);
    if a != [] {
      var j := Occurs(a, a[0], b);
      RemoveSame(a, 0, b, j);
      ResolveWithout(players, a, 0);
      ResolveWithout(players, b, j);
      ResolvePermutes(players, a[..0] + a[1..], b[..j] + b[j+1..]);
      RestoreSame(Resolve(players, a), 0, Resolve(players, b), j);
    }
  }

  lemma MarksPermute(a: seq<Item>, b: seq<Item>)
    requires multiset(a) == multiset(b) && MarksUnique(a) && Distinct(b)
    ensures MarksUnique(b)
  {
    forall i, j | 0 <= i < j < |b| ensures !(b[i].captain && b[j].captain) && !(b[i].vice && b[j].vice) {
      var k := Occurs(b, b[i], a);
      var l := Occurs(b, b[j], a);
      if k < l {
        assert !(a[k].captain && a[l].captain) && !(a[k].vice && a[l].vice);
      } else {
        assert !(a[l].captain && a[k].captain) && !(a[l].vice && a[k].vice);
      }
    }
  }

  lemma RelinedSound(w: World, team: Team, items: seq<Item>)
    requires TeamSound(w, team) && Legal(w, team.competition, items) && MarksUnique(items)
    requires Members(items) == Members(Items(team.selections))
    ensures TeamSound(w, team.(selections := RelinedAll(team.selections, items)))
    ensures DistinctMembers(team.selections) && DistinctMembers(RelinedAll(team.selections, items))
  {
    var r := RelinedAll(team.selections, items);
    var c := w.competitions[team.competition];
    LegalShape(w, team.competition, items);
    ShapeDistinct(w.players, team.selections);
    RelinedPaid(team.selections, items);
    RelinedPermutes(w.players, team.selections, items);
    ResolvePermutes(w.players, items, Items(r));
    ShapePermutes(team.competition, c, Resolve(w.players, items), Resolve(w.players, Items(r)));
    MarksPermute(items, Items(r));
  }

  lemma {:induction false} SameHoldings(a: seq<Selection>, b: seq<Selection>)
    requires |a| == |b|
    requires forall i :: 0 <= i < |a| ==>
      a[i].item.player == b[i].item.player && a[i].purchasePrice == b[i].purchasePrice
    ensures Holdings(a) == Holdings(b)
  {
    if a != [] {
      SameHoldings(a[..|a| - 1], b[..|a| - 1]);
    }
  }

  lemma LineupKeepsKeys(w: World, t: Id, s: seq<Selection>)
    requires ForeignKeys(w) && t in w.teams && KnownPlayers(w.players, Items(s))
    ensures ForeignKeys(WithSquad(w, t, s))
  {
    var v := WithSquad(w, t, s);
    assert CompetitionsKnown(v) && SquadsKnown(v);
    assert PointsKnown(v) && CorrectionsKnown(v);
    forall g, u | u in At(v.states, g) ensures Enters(v, u, g) {
      assert Enters(w, u, g);
    }
  }

  lemma LineupKeepsLedgers(w: World, t: Id, s: seq<Selection>)
    requires LedgersSound(w) && t in w.teams && Holdings(s) == Holdings(w.teams[t].selections)
    ensures LedgersSound(WithSquad(w, t, s))
  {
    forall u | u in w.teams ensures LedgerSound(WithSquad(w, t, s), u) {
      assert LedgerSound(w, u);
    }
  }

  lemma LineupKeepsAccounts(w: World, t: Id, s: seq<Selection>)
    requires AccountsSound(w) && t in w.teams
    ensures AccountsSound(WithSquad(w, t, s))
  {
    var v := WithSquad(w, t, s);
    forall u, g | Enters(v, u, g) ensures AccountSound(v, u, g) {
      assert Enters(w, u, g);
      assert AccountSound(w, u, g);
      assert Moves(v, u, g) == Moves(w, u, g);
    }
  }

  lemma LineupKeeps(w: World, t: Id, items: seq<Item>)
    requires Inv(w)
    ensures Inv(AfterLineup(w, t, items))
  {
    if CanSetLineup(w, t, items) {
      var team := w.teams[t];
      var s := RelinedAll(team.selections, items);
      assert TeamSound(w, team) by {
        assert SquadSound(w, t);
      }
      RelinedSound(w, team, items);
      OneTeamChanges(w, WithSquad(w, t, s), t, team.(selections := s));
      LineupKeepsKeys(w, t, s);
      forall i | 0 <= i < |s| ensures s[i].item.player == team.selections[i].item.player
        && s[i].purchasePrice == team.selections[i].purchasePrice
      {
        LinedUp(team.selections, items, i);
      }
      SameHoldings(s, team.selections);
      LineupKeepsLedgers(w, t, s);
      LineupKeepsAccounts(w, t, s);
      CorrectionsFrame(w, WithSquad(w, t, s));
    }
  }

  // Transfers.

  lemma NewcomerIsNew(s: seq<Selection>, i: nat, x: Selection)
    requires i < |s| && DistinctMembers(s[i := x])
    ensures Holds(s, x.item.player) ==> x.item.player == s[i].item.player
  {
    if Holds(s, x.item.player) {
      var j :| 0 <= j < |s| && s[j].item.player == x.item.player;
      assert s[i := x][j].item.player == x.item.player && s[i := x][i].item.player == x.item.player;
    }
  }

  lemma ExchangedSound(w: World, team: Team, row: Transfer)
    requires TeamSound(w, team) && Find(team.selections, row.playerOut).Some?
    requires var i := Find(team.selections, row.playerOut).value;
      && row.priceOut == team.selections[i].purchasePrice
      && Legal(w, team.competition, Prospective(team.selections, i, row.playerIn))
    ensures TeamSound(w, TeamAfter(team, row))
    ensures DistinctMembers(team.selections) && DistinctMembers(TeamAfter(team, row).selections)
  {
    var s := team.selections;
    var i := Find(s, row.playerOut).value;
    var x := Bought(s[i], row.playerIn, row.priceIn);
    var a, b := Items(s), Items(s[i := x]);
    assert b == Prospective(s, i, row.playerIn);
    LegalShape(w, team.competition, b);
    ShapeDistinct(w.players, s);
    ShapeDistinct(w.players, s[i := x]);
    SumUpdate(PurchasePrice, s, i, x);
    forall j, k | 0 <= j < k < |b| ensures !(b[j].captain && b[k].captain) && !(b[j].vice && b[k].vice) {
      assert !(a[j].captain && a[k].captain) && !(a[j].vice && a[k].vice);
    }
  }

  /** The exchange of one member is the replay of its row. */
  lemma ExchangeIsApply(team: Team, row: Transfer)
    requires Find(team.selections, row.playerOut).Some?
    requires row.priceOut == team.selections[Find(team.selections, row.playerOut).value].purchasePrice
    requires DistinctMembers(team.selections) && DistinctMembers(TeamAfter(team, row).selections)
    ensures Apply(Ledger(team.budgetRemaining, Holdings(team.selections)), row)
      == Some(Ledger(TeamAfter(team, row).budgetRemaining, Holdings(TeamAfter(team, row).selections)))
  {
    var s := team.selections;
    var i := Find(s, row.playerOut).value;
    var x := Bought(s[i], row.playerIn, row.priceIn);
    HoldingsLookup(s, row.playerOut);
    HoldingsLookup(s, row.playerIn);
    NewcomerIsNew(s, i, x);
    HoldingsExchange(s, i, x);
  }

  /** One more row of its own takes a sound ledger to the ledger of the exchanged squad. */
  lemma LedgerGrows(l: Ledger, transfers: seq<Transfer>, row: Transfer, before: Ledger, after: Ledger)
    requires Replay(l, LogOf(transfers, row.team)) == Some(before) && Apply(before, row) == Some(after)
    ensures Replay(l, LogOf(transfers + [row], row.team)) == Some(after)
  {
    LogAppend(transfers, row, row.team);
    ReplayAppend(l, LogOf(transfers, row.team), row);
  }

  lemma TransferredKeepsLedgers(w: World, row: Transfer)
    requires LedgersSound(w) && Enters(w, row.team, row.gameweek)
    requires Find(w.teams[row.team].selections, row.playerOut).Some?
    requires var team := w.teams[row.team];
      Apply(Ledger(team.budgetRemaining, Holdings(team.selections)), row)
        == Some(Ledger(TeamAfter(team, row).budgetRemaining, Holdings(TeamAfter(team, row).selections)))
    ensures LedgersSound(Transferred(w, row))
  {
    var v := Transferred(w, row);
    var team := w.teams[row.team];
    forall u | u in v.teams ensures LedgerSound(v, u) {
      assert LedgerSound(w, u);
      if u == row.team {
        LedgerGrows(w.founding[u], w.transfers, row, Ledger(team.budgetRemaining, Holdings(team.selections)),
          Ledger(TeamAfter(team, row).budgetRemaining, Holdings(TeamAfter(team, row).selections)));
      } else {
        LogAppend(w.transfers, row, u);
        assert LogOf(v.transfers, u) == LogOf(w.transfers, u);
      }
    }
  }

  lemma ChargedSound(c: Competition, s: TransferState, moves: seq<Transfer>, row: Transfer)
    requires s.used == |moves| && s.penalty == c.transferPenalty * Excess(s.used, s.free)
    requires s.penalty as real == SumOf(PenaltyOf, moves) && row.penalty == Charge(s, c)
    ensures var s' := Charged(s, c);
      && s'.used == |moves + [row]| && s'.penalty == c.transferPenalty * Excess(s'.used, s'.free)
      && s'.penalty as real == SumOf(PenaltyOf, moves + [row])
  {
    OneMoreCharge(c.transferPenalty, s.used, s.free);
    assert (moves + [row])[..|moves|] == moves;
  }

  lemma OtherStates(w: World, t: Id, g: Id, s: TransferState, u: Id, h: Id, c: Competition)
    ensures StateOf(WithState(w, t, g, s), u, h, c) == if u == t && h == g then s else StateOf(w, u, h, c)
  {
  }

  lemma TransferredKeepsAccount(w: World, row: Transfer, t: Id, g: Id)
    requires Enters(w, t, g) && AccountSound(w, t, g) && Enters(w, row.team, row.gameweek)
    requires Find(w.teams[row.team].selections, row.playerOut).Some?
    requires row.penalty
      == Charge(StateOf(w, row.team, row.gameweek, CompetitionOf(w, row.gameweek)), CompetitionOf(w, row.gameweek))
    ensures Enters(Transferred(w, row), t, g) && AccountSound(Transferred(w, row), t, g)
  {
    var v := Transferred(w, row);
    var c, k := CompetitionOf(w, g), CompetitionOf(w, row.gameweek);
    MovesAppend(w, v, row, t, g);
    OtherStates(w, row.team, row.gameweek, Charged(StateOf(w, row.team, row.gameweek, k), k), t, g, c);
    if t == row.team && g == row.gameweek {
      ChargedSound(c, StateOf(w, t, g, c), Moves(w, t, g), row);
    } else {
      assert Moves(v, t, g) == Moves(w, t, g);
    }
  }

  lemma TransferredKeepsAccounts(w: World, row: Transfer)
    requires AccountsSound(w) && Enters(w, row.team, row.gameweek)
    requires Find(w.teams[row.team].selections, row.playerOut).Some?
    requires row.penalty
      == Charge(StateOf(w, row.team, row.gameweek, CompetitionOf(w, row.gameweek)), CompetitionOf(w, row.gameweek))
    ensures AccountsSound(Transferred(w, row))
  {
    var v := Transferred(w, row);
    forall u, h | Enters(v, u, h) ensures AccountSound(v, u, h) {
      assert Enters(w, u, h);
      TransferredKeepsAccount(w, row, u, h);
    }
  }

  lemma TransferredKeepsKeys(w: World, row: Transfer)
    requires ForeignKeys(w) && Enters(w, row.team, row.gameweek)
    requires Find(w.teams[row.team].selections, row.playerOut).Some?
    requires KnownPlayers(w.players, Items(TeamAfter(w.teams[row.team], row).selections))
    ensures ForeignKeys(Transferred(w, row))
  {
    var v := Transferred(w, row);
    forall h, u | u in At(v.states, h) ensures Enters(v, u, h) {
      assert u in At(w.states, h) || (u == row.team && h == row.gameweek);
    }
    assert CompetitionsKnown(v) && SquadsKnown(v);
    assert PointsKnown(v) && CorrectionsKnown(v);
  }

  lemma TransferKeeps(w: World, t: Id, g: Id, playerOut: Id, playerIn: Id)
    requires Inv(w)
    ensures Inv(AfterTransfer(w, t, g, playerOut, playerIn))
  {
    if CanConfirm(w, t, g, playerOut, playerIn) {
      var row := TransferRow(w, t, g, playerOut, playerIn);
      var team := w.teams[t];
      assert TeamSound(w, team) by {
        assert SquadSound(w, t);
      }
      ExchangedSound(w, team, row);
      ExchangeIsApply(team, row);
      OneTeamChanges(w, Transferred(w, row), t, TeamAfter(team, row));
      TransferredKeepsLedgers(w, row);
      TransferredKeepsAccounts(w, row);
      TransferredKeepsKeys(w, row);
      CorrectionsFrame(w, Transferred(w, row));
    }
  }
}
