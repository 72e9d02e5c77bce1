/** Which requests are accepted, said in the columns of the rows they touch. */
module Acceptance {
  import opened Sequences
  import opened FantasyModel
  import opened SquadRules
  import opened Season

  // Squads.

  /** The submitted lines whose player has this position, or this club; the starters; the starters of a position. */
  ghost function OfPosition(w: World, items: seq<Item>, position: string): set<int>
  {
    set i | 0 <= i < |items| && items[i].player in w.players && w.players[items[i].player].position == position
  }

  ghost function OfClub(w: World, items: seq<Item>, club: Id): set<int>
  {
    set i | 0 <= i < |items| && items[i].player in w.players && w.players[items[i].player].club == Some(club)
  }

  ghost function Starting(items: seq<Item>): set<int>
  {
    set i | 0 <= i < |items| && items[i].starter
  }

  ghost function Benched(items: seq<Item>): set<int>
  {
    set i | 0 <= i < |items| && !items[i].starter
  }

  ghost function StartingAt(w: World, items: seq<Item>, position: string): set<int>
  {
    set i | 0 <= i < |items| && items[i].starter && items[i].player in w.players
      && w.players[items[i].player].position == position
  }

  /** What the lines cost at present prices. */
  ghost function Cost(w: World, items: seq<Item>): real
  {
    SumOf((it: Item) => if it.player in w.players then w.players[it.player].price else 0.0, items)
  }

  /** The player may be bought now. */
  ghost predicate OnOffer(w: World, p: Id, competition: Id)
  {
    && p in w.players && w.players[p].competition == competition && w.players[p].eligible
    && (w.players[p].availability == Available || w.players[p].availability == Doubtful)
  }

  /** Line `a` starts as captain, line `b` as vice-captain, and no other starter carries a mark. */
  ghost predicate LedBy(items: seq<Item>, a: int, b: int)
  {
    && 0 <= a < |items| && 0 <= b < |items| && a != b
    && forall i :: 0 <= i < |items| ==>
      (items[i].starter && items[i].captain <==> i == a) && (items[i].starter && items[i].vice <==> i == b)
  }

  ghost predicate Order(items: seq<Item>, size: nat)
  {
    && (forall i :: 0 <= i < |items| ==>
         if items[i].starter then items[i].benchOrder == None
         else items[i].benchOrder.Some? && 1 <= items[i].benchOrder.value <= size)
    && (forall i, j :: 0 <= i < j < |items| && !items[i].starter && !items[j].starter ==>
         items[i].benchOrder != items[j].benchOrder)
    && (forall n :: 1 <= n <= size ==> OrderTaken(items, n))
  }

  ghost predicate OrderTaken(items: seq<Item>, n: int)
  {
    exists i :: 0 <= i < |items| && !items[i].starter && items[i].benchOrder == Some(n)
  }

  ghost predicate WithinLimits(count: nat, l: Limits, lineup: nat)
  {
    (l.min.Some? ==> l.min.value <= count) && (if l.max.Some? then count <= l.max.value else count <= lineup)
  }

  /** A legal squad of a competition. */
  ghost predicate LegalLines(w: World, competition: Id, items: seq<Item>)
  {
    && competition in w.competitions
    && var c := w.competitions[competition];
    && |items| == c.squadSize
    && (forall i, j :: 0 <= i < j < |items| ==> items[i].player != items[j].player)
    && (forall i :: 0 <= i < |items| ==> OnOffer(w, items[i].player, competition))
    && Cost(w, items) <= c.initialBudget
    && (forall p: string :: |OfPosition(w, items, p)| == if p in c.positionRules then c.positionRules[p] else 0)
    && (forall k: Id :: |OfClub(w, items, k)| <= c.maxPlayersPerTeam)
    && |Starting(items)| == c.startingLineupSize && |Benched(items)| == c.benchSize
    && (exists a, b :: LedBy(items, a, b))
    && Order(items, c.benchSize)
    && (forall p :: p in c.formationRules ==>
         WithinLimits(|StartingAt(w, items, p)|, c.formationRules[p], c.startingLineupSize))
  }

  lemma CountsSame(w: World, items: seq<Item>, p: string, k: Id)
    requires KnownPlayers(w.players, items)
    ensures var squad := Resolve(w.players, items);
      && |Filter(AtPosition(p), squad)| == |OfPosition(w, items, p)|
      && |Filter(AtClub(k), squad)| == |OfClub(w, items, k)|
      && |Filter(AtPosition(p), Filter(IsStarter, squad))| == |StartingAt(w, items, p)|
  {
    var squad := Resolve(w.players, items);
    FilterPlaces(AtPosition(p), squad);
    assert Places(AtPosition(p), squad) == OfPosition(w, items, p);
    FilterPlaces(AtClub(k), squad);
    assert Places(AtClub(k), squad) == OfClub(w, items, k);
    FilterTwice(IsStarter, AtPosition(p), StartsAt(p), squad);
    FilterPlaces(StartsAt(p), squad);
    assert Places(StartsAt(p), squad) == StartingAt(w, items, p);
  }

  lemma SidesSame(w: World, items: seq<Item>)
    requires KnownPlayers(w.players, items)
    ensures var squad := Resolve(w.players, items);
      |Filter(IsStarter, squad)| == |Starting(items)| && |Filter(IsBench, squad)| == |Benched(items)|
  {
    var squad := Resolve(w.players, items);
    FilterPlaces(IsStarter, squad);
    assert Places(IsStarter, squad) == Starting(items);
    FilterPlaces(IsBench, squad);
    assert Places(IsBench, squad) == Benched(items);
  }

  lemma {:induction false} CostSame(w: World, items: seq<Item>)
    requires KnownPlayers(w.players, items)
    ensures SumOf(Price, Resolve(w.players, items)) == Cost(w, items)
  {
    if items != [] {
      var n := |items| - 1;
      CostSame(w, items[..n]);
      assert Resolve(w.players, items)[..n] == Resolve(w.players, items[..n]);
    }
  }

  lemma LeadSame(w: World, items: seq<Item>)
    requires KnownPlayers(w.players, items)
    ensures Captaincy(Resolve(w.players, items)) <==> exists a, b :: LedBy(items, a, b)
  {
    var squad := Resolve(w.players, items);
    if a, b :| LedBy(items, a, b) {
      assert Leads(squad, a, b);
    }
    if Captaincy(squad) {
      var a, b :| 0 <= a < |squad| && 0 <= b < |squad| && a != b && Leads(squad, a, b);
      forall i | 0 <= i < |items|
        ensures (items[i].starter && items[i].captain <==> i == a) && (items[i].starter && items[i].vice <==> i == b)
      {
        assert squad[i].starter == items[i].starter && squad[i].captain == items[i].captain;
        assert squad[i].vice == items[i].vice;
      }
      assert LedBy(items, a, b);
    }
  }

  lemma OrderSame(w: World, items: seq<Item>, size: nat)
    requires KnownPlayers(w.players, items)
    ensures BenchNumbered(Resolve(w.players, items), size) <==> Order(items, size)
  {
    var squad := Resolve(w.players, items);
    forall i | 0 <= i < |items| ensures squad[i].starter == items[i].starter && squad[i].benchOrder == items[i].benchOrder {
    }
    forall n ensures SquadRules.Benched(squad, n) <==> OrderTaken(items, n) {
      if OrderTaken(items, n) {
        var i :| 0 <= i < |items| && !items[i].starter && items[i].benchOrder == Some(n);
        assert !squad[i].starter && squad[i].benchOrder == Some(n);
      }
    }
  }

  lemma MembersSame(w: World, competition: Id, items: seq<Item>)
    requires KnownPlayers(w.players, items)
    ensures var squad := Resolve(w.players, items);
      && (DistinctPlayers(squad) <==> forall i, j :: 0 <= i < j < |items| ==> items[i].player != items[j].player)
      && ((AllSelectable(squad) && forall i :: 0 <= i < |squad| ==> squad[i].player.competition == competition) <==>
           forall i :: 0 <= i < |items| ==> OnOffer(w, items[i].player, competition))
  {
    var squad := Resolve(w.players, items);
    forall i | 0 <= i < |items| ensures squad[i].id == items[i].player && squad[i].player == w.players[items[i].player] {
    }
  }

  lemma PositionsSame(w: World, items: seq<Item>, rules: map<string, int>)
    requires KnownPlayers(w.players, items)
    ensures (forall p: string :: |Filter(AtPosition(p), Resolve(w.players, items))| == Required(rules, p)) <==>
      forall p: string :: |OfPosition(w, items, p)| == if p in rules then rules[p] else 0
  {
    hide Filter, Resolve, OfPosition;
    forall p: string ensures |Filter(AtPosition(p), Resolve(w.players, items))| == |OfPosition(w, items, p)| {
      CountsSame(w, items, p, 0);
    }
  }

  lemma ClubsSame(w: World, items: seq<Item>, most: nat)
    requires KnownPlayers(w.players, items)
    ensures (forall k: Id :: |Filter(AtClub(k), Resolve(w.players, items))| <= most) <==>
      forall k: Id :: |OfClub(w, items, k)| <= most
  {
    hide Filter, Resolve, OfClub;
    forall k: Id ensures |Filter(AtClub(k), Resolve(w.players, items))| == |OfClub(w, items, k)| {
      CountsSame(w, items, "", k);
    }
  }

  lemma FormationSame(w: World, items: seq<Item>, c: Competition)
    requires KnownPlayers(w.players, items)
    ensures var starters := Filter(IsStarter, Resolve(w.players, items));
      (forall p :: p in c.formationRules ==> FormationMet(c, starters, p)) <==>
        forall p :: p in c.formationRules ==>
          WithinLimits(|StartingAt(w, items, p)|, c.formationRules[p], c.startingLineupSize)
  {
    hide Filter, Resolve, StartingAt, FormationMet, WithinLimits;
    forall p | p in c.formationRules
      ensures FormationMet(c, Filter(IsStarter, Resolve(w.players, items)), p) <==>
        WithinLimits(|StartingAt(w, items, p)|, c.formationRules[p], c.startingLineupSize)
    {
      LimitsSame(w, items, c, p);
    }
  }

  lemma LegalIfKnown(w: World, competition: Id, items: seq<Item>)
    requires competition in w.competitions && KnownPlayers(w.players, items)
    ensures Legal(w, competition, items) <==> LegalLines(w, competition, items)
  {
    hide ValidateSelections, Resolve, DistinctPlayers, Captaincy, BenchNumbered, Filter, AllSelectable, OnOffer, Order;
    hide SumOf, LedBy, OfPosition, OfClub, StartingAt, Starting, Benched, FormationMet, Cost, Required, WithinLimits;
    var c := w.competitions[competition];
    ValidateAcceptsLegal(competition, c, Resolve(w.players, items), c.initialBudget);
    PositionsSame(w, items, c.positionRules);
    ClubsSame(w, items, c.maxPlayersPerTeam);
    FormationSame(w, items, c);
    SidesSame(w, items);
    CostSame(w, items);
    LeadSame(w, items);
    OrderSame(w, items, c.benchSize);
    MembersSame(w, competition, items);
  }

  /** The squad check accepts the lines for a competition if and only if they form a legal squad. */
  lemma LegalExactly(w: World, competition: Id, items: seq<Item>)
    ensures Legal(w, competition, items) <==> LegalLines(w, competition, items)
  {
    hide ValidateSelections, OfPosition, OfClub, StartingAt, Order, WithinLimits, LedBy, OnOffer;
    if LegalLines(w, competition, items) {
      OnOfferKnown(w, competition, items);
    }
    if competition in w.competitions && KnownPlayers(w.players, items) {
      LegalIfKnown(w, competition, items);
    }
  }

  lemma OnOfferKnown(w: World, competition: Id, items: seq<Item>)
    requires LegalLines(w, competition, items)
    ensures KnownPlayers(w.players, items)
  {
    forall i | 0 <= i < |items| ensures items[i].player in w.players {
      assert OnOffer(w, items[i].player, competition);
    }
  }

  lemma LimitsSame(w: World, items: seq<Item>, c: Competition, p: string)
    requires KnownPlayers(w.players, items)
    ensures p in c.formationRules ==> (FormationMet(c, Filter(IsStarter, Resolve(w.players, items)), p) <==>
      WithinLimits(|StartingAt(w, items, p)|, c.formationRules[p], c.startingLineupSize))
  {
    CountsSame(w, items, p, 0);
  }
}
