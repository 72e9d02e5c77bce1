/** What edits of the player pool mean for squads and budgets. */
module PoolLaws {
  import opened Sequences
  import opened FantasyModel
  import opened SquadRules
  import opened Season
  import opened SeasonFrames
  import opened SeasonInvariant
  import opened SeasonRuns

  /** Two promises about a team: the squad check would accept it again as it stands, or it has no debt. */
  datatype Promise = Acceptable | Solvent

  /** No player cost more than it does now. */
  ghost predicate PaidAtMost(players: map<Id, Player>, s: seq<Selection>)
  {
    forall i :: 0 <= i < |s| ==> s[i].item.player in players && s[i].purchasePrice <= players[s[i].item.player].price
  }

  ghost predicate Kept(k: Promise, w: World, team: Team)
  {
    && TeamSound(w, team)
    && match k
       case Acceptable =>
         && AllSelectable(Resolve(w.players, Items(team.selections)))
         && Affordable(Resolve(w.players, Items(team.selections)), w.competitions[team.competition].initialBudget)
       case Solvent => PaidAtMost(w.players, team.selections) && team.budgetRemaining >= 0.0
  }

  ghost predicate AllKept(k: Promise, w: World)
  {
    forall t :: t in w.teams ==> Kept(k, w, w.teams[t])
  }

  /** The pool edits that endanger a promise: for acceptance a higher price or the withdrawal of a player, for
      solvency a lower price. */
  predicate Breaks(k: Promise, w: World, a: Action)
  {
    && a.EditPlayer? && a.player in w.players
    && match k
       case Acceptable =>
         || a.price > w.players[a.player].price
         || (Selectable(w.players[a.player])
             && !Selectable(w.players[a.player].(eligible := a.eligible, availability := a.availability)))
       case Solvent => a.price < w.players[a.player].price
  }

  /** No action of the run endangers the promise at the moment it is carried out. */
  ghost predicate Harmless(k: Promise, w: World, actions: seq<Action>)
  {
    actions == [] ||
    var n := |actions| - 1;
    Harmless(k, w, actions[..n]) && !Breaks(k, Run(w, actions[..n]), actions[n])
  }

  lemma LegalIsValid(w: World, competition: Id, items: seq<Item>)
    requires Legal(w, competition, items)
    ensures KnownPlayers(w.players, items) && competition in w.competitions
    ensures ValidSquad(competition, w.competitions[competition], Resolve(w.players, items),
              w.competitions[competition].initialBudget)
  {
    ValidateAcceptsLegal(competition, w.competitions[competition], Resolve(w.players, items),
      w.competitions[competition].initialBudget);
  }

  /** Nobody owes money for a squad that is affordable at prices no lower than those paid. */
  lemma {:induction false} PaidAtMostSum(players: map<Id, Player>, s: seq<Selection>)
    requires KnownPlayers(players, Items(s)) && PaidAtMost(players, s)
    ensures SumOf(PurchasePrice, s) <= SumOf(Price, Resolve(players, Items(s)))
  {
    if s != [] {
      var n := |s| - 1;
      assert Items(s)[..n] == Items(s[..n]);
      assert Resolve(players, Items(s))[..n] == Resolve(players, Items(s[..n]));
      PaidAtMostSum(players, s[..n]);
    }
  }

  lemma NewTeamKept(k: Promise, w: World, owner: Id, competition: Id, items: seq<Item>)
    requires Legal(w, competition, items) && MarksUnique(items)
    ensures Kept(k, w, NewTeam(w, owner, competition, items))
  {
    LegalIsValid(w, competition, items);
    NewTeamSound(w, owner, competition, items);
    PaidIsPrice(w.players, items);
  }

  lemma SelectablePermutes(a: seq<Entry>, b: seq<Entry>)
    requires multiset(a) == multiset(b) && AllSelectable(a)
    ensures AllSelectable(b)
  {
    forall i | 0 <= i < |b|
      ensures b[i].player.eligible && (b[i].player.availability == Available || b[i].player.availability == Doubtful)
    {
      var k := Occurs(b, b[i], a);
    }
  }

  lemma RelinedKept(k: Promise, w: World, team: Team, items: seq<Item>)
    requires Kept(k, w, team) && Legal(w, team.competition, items) && MarksUnique(items)
    requires Members(items) == Members(Items(team.selections))
    ensures Kept(k, w, team.(selections := RelinedAll(team.selections, items)))
  {
    var r := RelinedAll(team.selections, items);
    RelinedSound(w, team, items);
    LegalIsValid(w, team.competition, items);
    RelinedPermutes(w.players, team.selections, items);
    ResolvePermutes(w.players, items, Items(r));
    SelectablePermutes(Resolve(w.players, items), Resolve(w.players, Items(r)));
    SumPermutation(Price, Resolve(w.players, items), Resolve(w.players, Items(r)));
    forall i | 0 <= i < |r|
      ensures r[i].item.player == team.selections[i].item.player && r[i].purchasePrice == team.selections[i].purchasePrice
    {
      LinedUp(team.selections, items, i);
    }
  }

  lemma ExchangedKept(k: Promise, w: World, team: Team, row: Transfer)
    requires Kept(k, w, team) && Find(team.selections, row.playerOut).Some?
    requires row.playerIn in w.players && row.priceIn == w.players[row.playerIn].price
    requires var i := Find(team.selections, row.playerOut).value;
      && row.priceOut == team.selections[i].purchasePrice
      && Legal(w, team.competition, Prospective(team.selections, i, row.playerIn))
    ensures Kept(k, w, TeamAfter(team, row))
  {
    var s, i := team.selections, Find(team.selections, row.playerOut).value;
    ExchangedSound(w, team, row);
    LegalIsValid(w, team.competition, Prospective(s, i, row.playerIn));
    assert Items(TeamAfter(team, row).selections) == Prospective(s, i, row.playerIn);
    if k.Solvent? {
      PaidAtMostSum(w.players, TeamAfter(team, row).selections);
    }
  }

  lemma {:induction false} CheaperSum(players: map<Id, Player>, p: Id, row: Player, items: seq<Item>)
    requires p in players && KnownPlayers(players, items) && row.price <= players[p].price
    ensures KnownPlayers(players[p := row], items)
    ensures SumOf(Price, Resolve(players[p := row], items)) <= SumOf(Price, Resolve(players, items))
  {
    if items != [] {
      var n := |items| - 1;
      CheaperSum(players, p, row, items[..n]);
      assert Resolve(players, items)[..n] == Resolve(players, items[..n]);
      assert Resolve(players[p := row], items)[..n] == Resolve(players[p := row], items[..n]);
    }
  }

  lemma EditedKept(k: Promise, w: World, t: Id, p: Id, price: real, eligible: bool, availability: Availability)
    requires t in w.teams && Kept(k, w, w.teams[t]) && p in w.players
    requires !Breaks(k, w, EditPlayer(p, price, eligible, availability))
    ensures Kept(k, Edited(w, p, price, eligible, availability), w.teams[t])
  {
    hide SquadShape;
    var v, items := Edited(w, p, price, eligible, availability), Items(w.teams[t].selections);
    assert SquadSound(w, t);
    EditedKeepsSquad(w, t, p, price, eligible, availability);
    if k.Acceptable? {
      CheaperSum(w.players, p, v.players[p], items);
      forall i | 0 <= i < |items| ensures Selectable(Resolve(v.players, items)[i].player) {
        assert Resolve(w.players, items)[i].player.eligible;
      }
    }
  }

  // Whole databases.

  lemma OneTeamKept(k: Promise, w: World, v: World, t: Id, team: Team)
    requires AllKept(k, w) && v.teams == w.teams[t := team]
    requires v.players == w.players && v.competitions == w.competitions && Kept(k, w, team)
    ensures AllKept(k, v)
  {
    forall u | u in v.teams ensures Kept(k, v, v.teams[u]) {
      if u != t {
        assert Kept(k, w, w.teams[u]);
      }
    }
  }

  lemma SamePoolKept(k: Promise, w: World, v: World)
    requires AllKept(k, w) && v.teams == w.teams && v.players == w.players && v.competitions == w.competitions
    ensures AllKept(k, v)
  {
    forall t | t in v.teams ensures Kept(k, v, v.teams[t]) {
      assert Kept(k, w, w.teams[t]);
    }
  }

  lemma CreateKeepsPromise(k: Promise, w: World, t: Id, owner: Id, competition: Id, items: seq<Item>)
    requires AllKept(k, w)
    ensures AllKept(k, AfterCreate(w, t, owner, competition, items))
  {
    hide Kept;
    if CanCreate(w, t, owner, competition, items) {
      NewTeamKept(k, w, owner, competition, items);
      OneTeamKept(k, w, Created(w, t, NewTeam(w, owner, competition, items)), t, NewTeam(w, owner, competition, items));
    }
  }

  lemma LineupKeepsPromise(k: Promise, w: World, t: Id, items: seq<Item>)
    requires AllKept(k, w)
    ensures AllKept(k, AfterLineup(w, t, items))
  {
    hide Kept, Legal;
    if CanSetLineup(w, t, items) {
      var s := RelinedAll(w.teams[t].selections, items);
      RelinedKept(k, w, w.teams[t], items);
      OneTeamKept(k, w, WithSquad(w, t, s), t, w.teams[t].(selections := s));
    }
  }

  lemma TransferKeepsPromise(k: Promise, w: World, t: Id, g: Id, playerOut: Id, playerIn: Id)
    requires AllKept(k, w)
    ensures AllKept(k, AfterTransfer(w, t, g, playerOut, playerIn))
  {
    hide Kept, Legal;
    if CanConfirm(w, t, g, playerOut, playerIn) {
      var row := TransferRow(w, t, g, playerOut, playerIn);
      ExchangedKept(k, w, w.teams[t], row);
      OneTeamKept(k, w, Transferred(w, row), t, TeamAfter(w.teams[t], row));
    }
  }

  lemma EditKeepsPromise(k: Promise, w: World, p: Id, price: real, eligible: bool, availability: Availability)
    requires AllKept(k, w) && !Breaks(k, w, EditPlayer(p, price, eligible, availability))
    ensures AllKept(k, AfterEdit(w, p, price, eligible, availability))
  {
    hide Kept, Breaks;
    if p in w.players {
      forall t | t in w.teams ensures Kept(k, Edited(w, p, price, eligible, availability), w.teams[t]) {
        EditedKept(k, w, t, p, price, eligible, availability);
      }
    }
  }

  lemma StepKeepsPromise(k: Promise, w: World, a: Action)
    requires AllKept(k, w) && !Breaks(k, w, a)
    ensures AllKept(k, Step(w, a))
  {
    hide AllKept, Breaks, Framed, AfterCreate, AfterLineup, AfterTransfer, AfterEdit;
    if a.CreateTeam? {
      CreateKeepsPromise(k, w, a.team, a.owner, a.competition, a.items);
    } else if a.SetLineup? {
      LineupKeepsPromise(k, w, a.team, a.items);
    } else if a.MakeTransfer? {
      TransferKeepsPromise(k, w, a.team, a.gameweek, a.playerOut, a.playerIn);
    } else if a.EditPlayer? {
      EditKeepsPromise(k, w, a.player, a.price, a.eligible, a.availability);
    } else {
      PoolStands(w, a);
      SamePoolKept(k, w, Step(w, a));
    }
  }

  lemma PoolStands(w: World, a: Action)
    requires !a.CreateTeam? && !a.SetLineup? && !a.MakeTransfer? && !a.EditPlayer?
    ensures var v := Step(w, a); v.teams == w.teams && v.players == w.players && v.competitions == w.competitions
  {
    hide Step;
    StepFramed(w, a);
  }

  lemma {:induction false} RunKeepsPromise(k: Promise, w: World, actions: seq<Action>)
    requires AllKept(k, w) && Harmless(k, w, actions)
    ensures AllKept(k, Run(w, actions))
  {
    hide AllKept, Step, Breaks;
    if actions != [] {
      var n := |actions| - 1;
      RunKeepsPromise(k, w, actions[..n]);
      StepKeepsPromise(k, Run(w, actions[..n]), actions[n]);
    }
  }

  /** In every run in which no pool edit lowers a price, no budget is ever negative. */
  lemma RunsStaySolvent(w: World, actions: seq<Action>, t: Id)
    requires Opening(w) && Harmless(Solvent, w, actions) && t in Run(w, actions).teams
    ensures Run(w, actions).teams[t].budgetRemaining >= 0.0
  {
    hide Step;
    RunKeepsPromise(Solvent, w, actions);
  }

  /** In every run in which no pool edit raises a price or withdraws a player, every squad would pass the whole squad
      check again. */
  lemma SquadsStayAcceptable(w: World, actions: seq<Action>, t: Id)
    requires Opening(w) && Harmless(Acceptable, w, actions) && t in Run(w, actions).teams
    ensures var v := Run(w, actions);
      Legal(v, v.teams[t].competition, Items(v.teams[t].selections))
  {
    hide Step;
    RunKeepsPromise(Acceptable, w, actions);
    var v := Run(w, actions);
    KeptIsLegal(v, v.teams[t]);
  }

  lemma KeptIsLegal(v: World, team: Team)
    requires Kept(Acceptable, v, team)
    ensures Legal(v, team.competition, Items(team.selections))
  {
    var c := v.competitions[team.competition];
    ValidateAcceptsLegal(team.competition, c, Resolve(v.players, Items(team.selections)), c.initialBudget);
  }

  lemma {:induction false} NoEditsHarmless(k: Promise, w: World, actions: seq<Action>)
    requires forall i :: 0 <= i < |actions| ==> !actions[i].EditPlayer?
    ensures Harmless(k, w, actions)
  {
    hide Step;
    if actions != [] {
      NoEditsHarmless(k, w, actions[..|actions| - 1]);
    }
  }

  /** So while the pool is not edited both hold. */
  lemma FixedPoolKeepsSquadsValid(w: World, actions: seq<Action>, t: Id)
    requires Opening(w) && forall i :: 0 <= i < |actions| ==> !actions[i].EditPlayer?
    requires t in Run(w, actions).teams
    ensures var v := Run(w, actions);
      && Legal(v, v.teams[t].competition, Items(v.teams[t].selections))
      && v.teams[t].budgetRemaining >= 0.0
  {
    hide Step, Legal;
    NoEditsHarmless(Acceptable, w, actions);
    NoEditsHarmless(Solvent, w, actions);
    SquadsStayAcceptable(w, actions, t);
    RunsStaySolvent(w, actions, t);
  }

  /** The present value of a squad. */
  ghost function MarketValue(w: World, team: Team): real
    requires KnownPlayers(w.players, Items(team.selections))
  {
    SumOf(Price, Resolve(w.players, Items(team.selections)))
  }

  /** With edited prices the squad check bounds the budget only by what the squad has gained since it was bought;
      a transfer leaves it non-negative exactly when the old budget and the price once paid cover the new player. */
  lemma TransferBudgetBound(w: World, t: Id, g: Id, playerOut: Id, playerIn: Id)
    requires t in w.teams && SquadSound(w, t) && CanConfirm(w, t, g, playerOut, playerIn)
    ensures var v := AfterTransfer(w, t, g, playerOut, playerIn);
      && KnownPlayers(v.players, Items(v.teams[t].selections))
      && v.teams[t].budgetRemaining >= MarketValue(v, v.teams[t]) - SumOf(PurchasePrice, v.teams[t].selections)
      && (v.teams[t].budgetRemaining >= 0.0 <==>
           w.players[playerIn].price <= w.teams[t].budgetRemaining
             + w.teams[t].selections[Find(w.teams[t].selections, playerOut).value].purchasePrice)
  {
    var row := TransferRow(w, t, g, playerOut, playerIn);
    var team := w.teams[t];
    var s, i := team.selections, Find(team.selections, row.playerOut).value;
    assert TeamSound(w, team);
    ExchangedSound(w, team, row);
    LegalIsValid(w, team.competition, Prospective(s, i, row.playerIn));
    assert Items(TeamAfter(team, row).selections) == Prospective(s, i, row.playerIn);
  }
}
