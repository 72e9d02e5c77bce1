/** The squad check every team, lineup and transfer passes through, and what it accepts. */
module SquadRules {
  import opened Sequences
  import opened FantasyModel
  import Sorting

  /** A lineup line together with the pool row it names. */
  datatype Entry = Entry(
    id: Id, player: Player, starter: bool, benchOrder: Option<int>, captain: bool, vice: bool)

  datatype Rejection =
    | SquadSize | DuplicatePlayer | ForeignPlayer | UnselectablePlayer | OverBudget | PositionRules | ClubQuota
    | StarterCount | BenchCount | ViceCaptain | Captain | SameCaptain | BenchOrder | StarterBenchOrder | Formation

  function EntryOf(players: map<Id, Player>, it: Item): Entry
    requires it.player in players
  {
    Entry(it.player, players[it.player], it.starter, it.benchOrder, it.captain, it.vice)
  }

  function Resolve(players: map<Id, Player>, items: seq<Item>): (r: seq<Entry>)
    requires KnownPlayers(players, items)
    ensures |r| == |items|
  {
    seq(|items|, i requires 0 <= i < |items| => EntryOf(players, items[i]))
  }

  // Projections and tests on entries.

  function Price(e: Entry): real { e.player.price }

  predicate IsStarter(e: Entry) { e.starter }

  predicate IsBench(e: Entry) { !e.starter }

  predicate IsCaptain(e: Entry) { e.captain }

  predicate IsVice(e: Entry) { e.vice }

  function AtPosition(position: string): Entry -> bool { (e: Entry) => e.player.position == position }

  function AtClub(club: Id): Entry -> bool { (e: Entry) => e.player.club == Some(club) }

  function Ids(squad: seq<Entry>): (r: seq<Id>)
    ensures |r| == |squad|
  {
    seq(|squad|, i requires 0 <= i < |squad| => squad[i].id)
  }

  function Positions(squad: seq<Entry>): seq<string>
  {
    seq(|squad|, i requires 0 <= i < |squad| => squad[i].player.position)
  }

  function Clubs(squad: seq<Entry>): seq<Id>
  {
    if squad == [] then []
    else
      var n := |squad| - 1;
      Clubs(squad[..n]) + (match squad[n].player.club case None => [] case Some(c) => [c])
  }

  function BenchOrders(bench: seq<Entry>): (r: seq<int>)
    requires forall i :: 0 <= i < |bench| ==> bench[i].benchOrder.Some?
    ensures |r| == |bench|
  {
    seq(|bench|, i requires 0 <= i < |bench| => bench[i].benchOrder.value)
  }

  function Upto(n: nat): (r: seq<int>)
    ensures |r| == n
  {
    seq(n, i => i + 1)
  }

  predicate IntLe(a: int, b: int) { a <= b }

  function Required(rules: map<string, int>, position: string): int
  {
    if position in rules then rules[position] else 0
  }

  function AtLeast(l: Limits): int
  {
    match l.min case None => 0 case Some(v) => v
  }

  function AtMost(l: Limits, c: Competition): int
  {
    match l.max case None => c.startingLineupSize case Some(v) => v
  }

  /** Two counters agree: every key of either has the same count, an absent key counting zero. */
  predicate PositionsMeet(rules: map<string, int>, positions: seq<string>)
  {
    forall p :: p in rules.Keys + ToSet(positions) ==> multiset(positions)[p] == Required(rules, p)
  }

  predicate FormationMet(c: Competition, starters: seq<Entry>, p: string)
    requires p in c.formationRules
  {
    AtLeast(c.formationRules[p]) <= |Filter(AtPosition(p), starters)| <= AtMost(c.formationRules[p], c)
  }

  predicate Repeats(ids: seq<Id>) { |ids| != |ToSet(ids)| }

  predicate HasForeign(id: Id, squad: seq<Entry>) { exists e :: e in squad && e.player.competition != id }

  predicate HasUnselectable(squad: seq<Entry>) { exists e :: e in squad && !Selectable(e.player) }

  predicate OverQuota(c: Competition, clubs: seq<Id>)
  {
    exists k :: k in clubs && multiset(clubs)[k] > c.maxPlayersPerTeam
  }

  /** `sorted(bench_orders) == list(range(1, bench_size + 1))`; a missing order makes the comparison fail. */
  predicate Numbered(bench: seq<Entry>, size: nat)
  {
    (forall e :: e in bench ==> e.benchOrder.Some?) && Sorting.Sort(IntLe, BenchOrders(bench)) == Upto(size)
  }

  predicate HasOrder(starters: seq<Entry>) { exists e :: e in starters && e.benchOrder.Some? }

  predicate BreaksFormation(c: Competition, starters: seq<Entry>)
  {
    exists p :: p in c.formationRules && !FormationMet(c, starters, p)
  }

  /** `validate_selections`, check by check in the order of the code; `None` means accepted. */
  function ValidateSelections(id: Id, c: Competition, squad: seq<Entry>, budget: real): Option<Rejection>
  {
    var starters := Filter(IsStarter, squad);
    var bench := Filter(IsBench, squad);
    var captains := Filter(IsCaptain, starters);
    var vices := Filter(IsVice, starters);
    if |squad| != c.squadSize then Some(SquadSize)
    else if Repeats(Ids(squad)) then Some(DuplicatePlayer)
    else if HasForeign(id, squad) then Some(ForeignPlayer)
    else if HasUnselectable(squad) then Some(UnselectablePlayer)
    else if SumOf(Price, squad) > budget then Some(OverBudget)
    else if !PositionsMeet(c.positionRules, Positions(squad)) then Some(PositionRules)
    else if OverQuota(c, Clubs(squad)) then Some(ClubQuota)
    else if |starters| != c.startingLineupSize then Some(StarterCount)
    else if |bench| != c.benchSize then Some(BenchCount)
    else if |vices| != 1 then Some(ViceCaptain)
    else if |captains| != 1 then Some(Captain)
    else if captains[0].id == vices[0].id then Some(SameCaptain)
    else if !Numbered(bench, c.benchSize) then Some(BenchOrder)
    else if HasOrder(starters) then Some(StarterBenchOrder)
    else if BreaksFormation(c, starters) then Some(Formation)
    else None
  }

  // What a legal squad is, said without the check.

  ghost predicate DistinctPlayers(squad: seq<Entry>)
  {
    forall i, j :: 0 <= i < j < |squad| ==> squad[i].id != squad[j].id
  }

  /** One starter is the captain, another one the vice-captain, and no further starter carries either mark. */
  ghost predicate Captaincy(squad: seq<Entry>)
  {
    exists c, v :: 0 <= c < |squad| && 0 <= v < |squad| && c != v && Leads(squad, c, v)
  }

  ghost predicate Leads(squad: seq<Entry>, c: int, v: int)
  {
    forall i :: 0 <= i < |squad| ==>
      && (squad[i].starter && squad[i].captain <==> i == c)
      && (squad[i].starter && squad[i].vice <==> i == v)
  }

  /** The bench orders are a bijection onto 1..size, and starters have none. */
  ghost predicate BenchNumbered(squad: seq<Entry>, size: nat)
  {
    && (forall i :: 0 <= i < |squad| ==>
      if squad[i].starter then squad[i].benchOrder == None
      else squad[i].benchOrder.Some? && 1 <= squad[i].benchOrder.value <= size)
    && (forall i, j :: 0 <= i < j < |squad| && !squad[i].starter && !squad[j].starter ==>
      squad[i].benchOrder != squad[j].benchOrder)
    && (forall n :: 1 <= n <= size ==> Benched(squad, n))
  }

  ghost predicate Benched(squad: seq<Entry>, n: int)
  {
    exists i :: 0 <= i < |squad| && !squad[i].starter && squad[i].benchOrder == Some(n)
  }

  /** Everything about a squad that neither prices nor availability can change. */
  ghost predicate SquadShape(id: Id, c: Competition, squad: seq<Entry>)
  {
    && |squad| == c.squadSize
    && DistinctPlayers(squad)
    && (forall i :: 0 <= i < |squad| ==> squad[i].player.competition == id)
    && (forall p: string :: |Filter(AtPosition(p), squad)| == Required(c.positionRules, p))
    && (forall k: Id :: |Filter(AtClub(k), squad)| <= c.maxPlayersPerTeam)
    && |Filter(IsStarter, squad)| == c.startingLineupSize
    && |Filter(IsBench, squad)| == c.benchSize
    && Captaincy(squad)
    && BenchNumbered(squad, c.benchSize)
    && (forall p :: p in c.formationRules ==> FormationMet(c, Filter(IsStarter, squad), p))
  }

  ghost predicate Affordable(squad: seq<Entry>, budget: real)
  {
    SumOf(Price, squad) <= budget
  }

  ghost predicate AllSelectable(squad: seq<Entry>)
  {
    forall i :: 0 <= i < |squad| ==>
      squad[i].player.eligible && (squad[i].player.availability == Available || squad[i].player.availability == Doubtful)
  }

  ghost predicate ValidSquad(id: Id, c: Competition, squad: seq<Entry>, budget: real)
  {
    SquadShape(id, c, squad) && AllSelectable(squad) && Affordable(squad, budget)
  }

  // From the counters of the code to the statements above.

  lemma {:induction false} SetOfSeq<T>(s: seq<T>)
    ensures |ToSet(s)| <= |s|
    ensures |ToSet(s)| == |s| <==> Distinct(s)
  {
    if s != [] {
      var n := |s| - 1;
      SetOfSeq(s[..n]);
      assert Distinct(s) <==> Distinct(s[..n]) && s[n] !in s[..n];
      if s[n] in s[..n] {
        assert ToSet(s) == ToSet(s[..n]);
      } else {
        assert ToSet(s) == ToSet(s[..n]) + {s[n]};
      }
    }
  }

  lemma {:induction false} PositionCount(squad: seq<Entry>, p: string)
    ensures multiset(Positions(squad))[p] == |Filter(AtPosition(p), squad)|
  {
    if squad != [] {
      var n := |squad| - 1;
      PositionCount(squad[..n], p);
      assert Positions(squad) == Positions(squad[..n]) + [squad[n].player.position];
    }
  }

  lemma {:induction false} ClubCount(squad: seq<Entry>, k: Id)
    ensures multiset(Clubs(squad))[k] == |Filter(AtClub(k), squad)|
  {
    if squad != [] {
      ClubCount(squad[..|squad| - 1], k);
    }
  }

  /** Exactly one element of `s` passes `p`. */
  ghost predicate Only<T>(p: T -> bool, s: seq<T>, i: int)
  {
    0 <= i < |s| && forall j :: 0 <= j < |s| ==> (p(s[j]) <==> j == i)
  }

  lemma {:induction false} FilterNone<T>(p: T -> bool, s: seq<T>)
    ensures Filter(p, s) == [] <==> forall j :: 0 <= j < |s| ==> !p(s[j])
  {
    if s != [] {
      FilterNone(p, s[..|s| - 1]);
    }
  }

  lemma {:induction false} FilterOne<T>(p: T -> bool, s: seq<T>) returns (i: int)
    requires |Filter(p, s)| == 1
    ensures Only(p, s, i) && Filter(p, s)[0] == s[i]
  {
    var n := |s| - 1;
    if p(s[n]) {
      FilterNone(p, s[..n]);
      i := n;
    } else {
      i := FilterOne(p, s[..n]);
    }
  }

  lemma {:induction false} OnlyFilter<T>(p: T -> bool, s: seq<T>, i: int)
    requires Only(p, s, i)
    ensures Filter(p, s) == [s[i]]
  {
    var n := |s| - 1;
    if i == n {
      FilterNone(p, s[..n]);
    } else {
      OnlyFilter(p, s[..n], i);
    }
  }

  lemma {:induction false} FilterTwice<T>(p: T -> bool, q: T -> bool, both: T -> bool, s: seq<T>)
    requires forall x :: both(x) <==> p(x) && q(x)
    ensures Filter(q, Filter(p, s)) == Filter(both, s)
  {
    if s != [] {
      var n := |s| - 1;
      FilterTwice(p, q, both, s[..n]);
      var f := Filter(p, s[..n]);
      if p(s[n]) {
        FilterConcat(q, f, [s[n]]);
        assert [s[n]][..0] == [];
      } else {
        assert f + [] == f;
      }
    }
  }

  predicate StartingCaptain(e: Entry) { e.starter && e.captain }

  predicate StartingVice(e: Entry) { e.starter && e.vice }

  /** The code's four captaincy checks are the declared captaincy. */
  lemma CaptaincyChecked(squad: seq<Entry>)
    requires DistinctPlayers(squad)
    ensures var starters := Filter(IsStarter, squad);
      var captains, vices := Filter(IsCaptain, starters), Filter(IsVice, starters);
      (|vices| == 1 && |captains| == 1 && captains[0].id != vices[0].id) <==> Captaincy(squad)
  {
    FilterTwice(IsStarter, IsCaptain, StartingCaptain, squad);
    FilterTwice(IsStarter, IsVice, StartingVice, squad);
    var captains, vices := Filter(StartingCaptain, squad), Filter(StartingVice, squad);
    if |vices| == 1 && |captains| == 1 && captains[0].id != vices[0].id {
      var c := FilterOne(StartingCaptain, squad);
      var v := FilterOne(StartingVice, squad);
      assert Leads(squad, c, v);
    }
    if Captaincy(squad) {
      var c, v :| 0 <= c < |squad| && 0 <= v < |squad| && c != v && Leads(squad, c, v);
      OnlyFilter(StartingCaptain, squad, c);
      OnlyFilter(StartingVice, squad, v);
    }
  }

  /** `sorted(orders) == list(range(1, n + 1))` says the orders take every value 1..n exactly once. */
  lemma SortedIsRange(orders: seq<int>, n: nat)
    ensures Sorting.Sort(IntLe, orders) == Upto(n) <==>
      Distinct(orders) && forall k :: k in orders <==> 1 <= k <= n
  {
    Sorting.SortPermutes(IntLe, orders);
    Sorting.SortSorts(IntLe, orders);
    UptoContents(n);
    if Sorting.Sort(IntLe, orders) == Upto(n) {
      DistinctCount(orders);
      assert forall k :: k in orders <==> k in multiset(orders);
    }
    if Distinct(orders) && forall k :: k in orders <==> 1 <= k <= n {
      DistinctCount(orders);
      forall k: int ensures multiset(orders)[k] == multiset(Upto(n))[k] {
        assert k in orders <==> k in multiset(orders);
      }
      assert multiset(orders) == multiset(Upto(n));
      Sorting.SortedUnique(IntLe, Sorting.Sort(IntLe, orders), Upto(n));
    }
  }

  lemma {:induction false} UptoContents(n: nat)
    ensures forall k: int :: multiset(Upto(n))[k] == if 1 <= k <= n then 1 else 0
  {
    if n > 0 {
      UptoContents(n - 1);
      assert Upto(n) == Upto(n - 1) + [n];
    } else {
      assert Upto(n) == [];
    }
  }

  lemma {:induction false} DistinctCount<T(!new)>(s: seq<T>)
    ensures Distinct(s) <==> forall x :: multiset(s)[x] <= 1
  {
    if s != [] {
      var n := |s| - 1;
      DistinctCount(s[..n]);
      assert s == s[..n] + [s[n]];
      var m, m' := multiset(s[..n]), multiset(s);
      assert m' == m + multiset{s[n]};
      if Distinct(s) {
        assert Distinct(s[..n]);
        assert s[n] !in s[..n];
        forall x ensures m'[x] <= 1 {
          assert m[x] <= 1;
        }
      }
      if forall x :: m'[x] <= 1 {
        forall x ensures m[x] <= 1 {
          assert m'[x] <= 1;
        }
        assert m'[s[n]] <= 1;
        assert s[n] !in m;
        assert s[n] !in s[..n];
      }
    }
  }

  ghost predicate BenchDiffers(squad: seq<Entry>)
  {
    forall i, j :: 0 <= i < j < |squad| && !squad[i].starter && !squad[j].starter ==>
      squad[i].benchOrder != squad[j].benchOrder
  }

  ghost predicate BenchOrdered(squad: seq<Entry>)
  {
    forall i :: 0 <= i < |squad| && !squad[i].starter ==> squad[i].benchOrder.Some?
  }

  lemma {:induction false} BenchOrdersKnown(squad: seq<Entry>)
    requires BenchOrdered(squad)
    ensures forall i :: 0 <= i < |Filter(IsBench, squad)| ==> Filter(IsBench, squad)[i].benchOrder.Some?
  {
    forall i | 0 <= i < |Filter(IsBench, squad)| ensures Filter(IsBench, squad)[i].benchOrder.Some? {
      FilterMembers(IsBench, squad, Filter(IsBench, squad)[i]);
    }
  }

  /** The bench orders of a squad, in squad order. */
  ghost function OrdersOf(squad: seq<Entry>): seq<int>
    requires BenchOrdered(squad)
  {
    BenchOrdersKnown(squad);
    BenchOrders(Filter(IsBench, squad))
  }

  lemma OrdersOfLast(squad: seq<Entry>)
    requires BenchOrdered(squad) && squad != []
    ensures var n := |squad| - 1;
      OrdersOf(squad) == OrdersOf(squad[..n]) + if squad[n].starter then [] else [squad[n].benchOrder.value]
  {
    BenchOrdersKnown(squad);
    BenchOrdersKnown(squad[..|squad| - 1]);
  }

  lemma BenchedLast(squad: seq<Entry>, k: int)
    requires squad != []
    ensures var e := squad[|squad| - 1];
      Benched(squad, k) <==> Benched(squad[..|squad| - 1], k) || (!e.starter && e.benchOrder == Some(k))
  {
    var n := |squad| - 1;
    if Benched(squad[..n], k) {
      var i :| 0 <= i < n && !squad[..n][i].starter && squad[..n][i].benchOrder == Some(k);
      assert squad[i].benchOrder == Some(k);
    }
    if Benched(squad, k) && !Benched(squad[..n], k) {
      var i :| 0 <= i < |squad| && !squad[i].starter && squad[i].benchOrder == Some(k);
      assert i == n;
    }
  }

  lemma {:induction false} OrdersAreBenched(squad: seq<Entry>, k: int)
    requires BenchOrdered(squad)
    ensures k in OrdersOf(squad) <==> Benched(squad, k)
  {
    if squad != [] {
      OrdersOfLast(squad);
      BenchedLast(squad, k);
      OrdersAreBenched(squad[..|squad| - 1], k);
    }
  }

  lemma {:induction false} OrdersDiffer(squad: seq<Entry>)
    requires BenchOrdered(squad)
    ensures Distinct(OrdersOf(squad)) <==> BenchDiffers(squad)
  {
    if squad != [] {
      var n := |squad| - 1;
      var front := squad[..n];
      OrdersOfLast(squad);
      OrdersDiffer(front);
      if !squad[n].starter {
        var o := squad[n].benchOrder.value;
        OrdersAreBenched(front, o);
        DistinctSnoc(OrdersOf(front), o);
        assert BenchDiffers(squad) <==> BenchDiffers(front) && !Benched(front, o);
      } else {
        assert OrdersOf(squad) == OrdersOf(front);
        assert BenchDiffers(squad) <==> BenchDiffers(front);
      }
    }
  }

  lemma DistinctSnoc<T>(s: seq<T>, x: T)
    ensures Distinct(s + [x]) <==> Distinct(s) && x !in s
  {
    if Distinct(s + [x]) {
      forall i, j | 0 <= i < j < |s| ensures s[i] != s[j] {
        assert (s + [x])[i] != (s + [x])[j];
      }
      forall i | 0 <= i < |s| ensures s[i] != x {
        assert (s + [x])[i] != (s + [x])[|s|];
      }
    }
  }

  lemma SplitByStart(squad: seq<Entry>)
    ensures (forall e :: e in Filter(IsBench, squad) ==> e.benchOrder.Some?) <==> BenchOrdered(squad)
    ensures (forall e :: e in Filter(IsStarter, squad) ==> e.benchOrder.None?) <==>
      forall i :: 0 <= i < |squad| && squad[i].starter ==> squad[i].benchOrder.None?
  {
    forall e
      ensures e in Filter(IsStarter, squad) <==> e in squad && e.starter
      ensures e in Filter(IsBench, squad) <==> e in squad && !e.starter
    {
      FilterMembers(IsStarter, squad, e);
      FilterMembers(IsBench, squad, e);
    }
  }

  /** The code's three bench checks are the declared numbering. */
  lemma BenchChecked(squad: seq<Entry>, size: nat)
    ensures Numbered(Filter(IsBench, squad), size) && !HasOrder(Filter(IsStarter, squad)) <==>
      BenchNumbered(squad, size)
  {
    SplitByStart(squad);
    if BenchOrdered(squad) {
      SortedIsRange(OrdersOf(squad), size);
      OrdersDiffer(squad);
      forall k ensures k in OrdersOf(squad) <==> Benched(squad, k) {
        OrdersAreBenched(squad, k);
      }
      forall i | 0 <= i < |squad| && !squad[i].starter ensures Benched(squad, squad[i].benchOrder.value) {
      }
    }
  }

  lemma CountsChecked(c: Competition, squad: seq<Entry>)
    ensures PositionsMeet(c.positionRules, Positions(squad)) <==>
      forall p: string :: |Filter(AtPosition(p), squad)| == Required(c.positionRules, p)
    ensures OverQuota(c, Clubs(squad)) <==>
      !(forall k: Id :: |Filter(AtClub(k), squad)| <= c.maxPlayersPerTeam)
  {
    var ms := multiset(Positions(squad));
    forall p: string ensures ms[p] == |Filter(AtPosition(p), squad)| {
      PositionCount(squad, p);
    }
    assert forall p :: p in Positions(squad) <==> p in ms;
    forall k: Id ensures multiset(Clubs(squad))[k] == |Filter(AtClub(k), squad)| {
      ClubCount(squad, k);
    }
    assert forall k :: k in Clubs(squad) <==> k in multiset(Clubs(squad));
  }

  lemma RepeatsChecked(squad: seq<Entry>)
    ensures Repeats(Ids(squad)) <==> !DistinctPlayers(squad)
  {
    var ids := Ids(squad);
    SetOfSeq(ids);
    if Distinct(ids) {
      forall i, j | 0 <= i < j < |squad| ensures squad[i].id != squad[j].id {
        assert ids[i] != ids[j];
      }
    } else {
      var i, j :| 0 <= i < j < |ids| && ids[i] == ids[j];
      assert squad[i].id == squad[j].id;
    }
  }

  lemma MembersChecked(id: Id, squad: seq<Entry>)
    ensures HasForeign(id, squad) <==> !(forall i :: 0 <= i < |squad| ==> squad[i].player.competition == id)
    ensures HasUnselectable(squad) <==> !AllSelectable(squad)
  {
  }

  lemma LegalIsAccepted(id: Id, c: Competition, squad: seq<Entry>, budget: real)
    requires ValidSquad(id, c, squad, budget)
    ensures ValidateSelections(id, c, squad, budget).None?
  {
    hide Repeats, HasForeign, HasUnselectable, PositionsMeet, OverQuota, Numbered, HasOrder, Filter;
    hide DistinctPlayers, AllSelectable, Captaincy, BenchNumbered, Ids, Positions, Clubs, SumOf;
    RepeatsChecked(squad);
    MembersChecked(id, squad);
    CountsChecked(c, squad);
    CaptaincyChecked(squad);
    BenchChecked(squad, c.benchSize);
  }

  lemma AcceptedIsLegal(id: Id, c: Competition, squad: seq<Entry>, budget: real)
    requires ValidateSelections(id, c, squad, budget).None?
    ensures ValidSquad(id, c, squad, budget)
  {
    hide Repeats, HasForeign, HasUnselectable, PositionsMeet, OverQuota, Numbered, HasOrder, Filter;
    hide DistinctPlayers, AllSelectable, Captaincy, BenchNumbered, Ids, Positions, Clubs, SumOf;
    RepeatsChecked(squad);
    MembersChecked(id, squad);
    CountsChecked(c, squad);
    CaptaincyChecked(squad);
    BenchChecked(squad, c.benchSize);
  }

  /** The check accepts exactly the legal squads. */
  lemma ValidateAcceptsLegal(id: Id, c: Competition, squad: seq<Entry>, budget: real)
    ensures ValidateSelections(id, c, squad, budget).None? <==> ValidSquad(id, c, squad, budget)
  {
    if ValidSquad(id, c, squad, budget) {
      LegalIsAccepted(id, c, squad, budget);
    }
    if ValidateSelections(id, c, squad, budget).None? {
      AcceptedIsLegal(id, c, squad, budget);
    }
  }

  // The shape of a squad does not depend on the order of its rows.

  lemma CountPermutes(p: Entry -> bool, a: seq<Entry>, b: seq<Entry>)
    requires multiset(a) == multiset(b)
    ensures |Filter(p, a)| == |Filter(p, b)|
    ensures |Filter(p, a)| == 1 ==> Filter(p, a) == Filter(p, b)
  {
    FilterPermutes(p, a, b);
    SameLength(Filter(p, a), Filter(p, b));
    if |Filter(p, a)| == 1 {
      var j := Occurs(Filter(p, a), Filter(p, a)[0], Filter(p, b));
    }
  }

  lemma CaptaincyPermutes(a: seq<Entry>, b: seq<Entry>)
    requires multiset(a) == multiset(b) && DistinctPlayers(a) && DistinctPlayers(b) && Captaincy(a)
    ensures Captaincy(b)
  {
    CaptaincyChecked(a);
    CaptaincyChecked(b);
    FilterPermutes(IsStarter, a, b);
    CountPermutes(IsCaptain, Filter(IsStarter, a), Filter(IsStarter, b));
    CountPermutes(IsVice, Filter(IsStarter, a), Filter(IsStarter, b));
  }

  lemma BenchPermutes(a: seq<Entry>, b: seq<Entry>, size: nat)
    requires multiset(a) == multiset(b) && DistinctPlayers(b) && BenchNumbered(a, size)
    ensures BenchNumbered(b, size)
  {
    forall i | 0 <= i < |b|
      ensures if b[i].starter then b[i].benchOrder == None
        else b[i].benchOrder.Some? && 1 <= b[i].benchOrder.value <= size
    {
      var k := Occurs(b, b[i], a);
    }
    forall i, j | 0 <= i < j < |b| && !b[i].starter && !b[j].starter ensures b[i].benchOrder != b[j].benchOrder {
      var k := Occurs(b, b[i], a);
      var l := Occurs(b, b[j], a);
      assert b[i].id != b[j].id;
      if k < l {
        assert a[k].benchOrder != a[l].benchOrder;
      } else {
        assert a[l].benchOrder != a[k].benchOrder;
      }
    }
    forall n | 1 <= n <= size ensures Benched(b, n) {
      assert Benched(a, n);
      var i :| 0 <= i < |a| && !a[i].starter && a[i].benchOrder == Some(n);
      var k := Occurs(a, a[i], b);
    }
  }

  lemma ShapePermutes(id: Id, c: Competition, a: seq<Entry>, b: seq<Entry>)
    requires multiset(a) == multiset(b) && DistinctPlayers(b) && SquadShape(id, c, a)
    ensures SquadShape(id, c, b)
  {
    SameLength(a, b);
    forall i | 0 <= i < |b| ensures b[i].player.competition == id {
      var k := Occurs(b, b[i], a);
    }
    forall p: string ensures |Filter(AtPosition(p), b)| == Required(c.positionRules, p) {
      CountPermutes(AtPosition(p), a, b);
    }
    forall k: Id ensures |Filter(AtClub(k), b)| <= c.maxPlayersPerTeam {
      CountPermutes(AtClub(k), a, b);
    }
    CountPermutes(IsStarter, a, b);
    CountPermutes(IsBench, a, b);
    CaptaincyPermutes(a, b);
    BenchPermutes(a, b, c.benchSize);
    FilterPermutes(IsStarter, a, b);
    forall p | p in c.formationRules ensures FormationMet(c, Filter(IsStarter, b), p) {
      assert FormationMet(c, Filter(IsStarter, a), p);
      CountPermutes(AtPosition(p), Filter(IsStarter, a), Filter(IsStarter, b));
    }
  }

  // Nor does it depend on prices and availability.

  /** The whole check does not depend on the order of the rows. */
  lemma LegalPermutes(id: Id, c: Competition, a: seq<Entry>, b: seq<Entry>, budget: real)
    requires multiset(a) == multiset(b)
    ensures ValidateSelections(id, c, a, budget).None? <==> ValidateSelections(id, c, b, budget).None?
  {
    hide ValidateSelections;
    ValidateAcceptsLegal(id, c, a, budget);
    ValidateAcceptsLegal(id, c, b, budget);
    if ValidSquad(id, c, a, budget) {
      ValidPermutes(id, c, a, b, budget);
    }
    if ValidSquad(id, c, b, budget) {
      ValidPermutes(id, c, b, a, budget);
    }
  }

  lemma ShapeIsDistinct(id: Id, c: Competition, squad: seq<Entry>)
    requires SquadShape(id, c, squad)
    ensures DistinctPlayers(squad)
  {
  }

  lemma DistinctPermutes(a: seq<Entry>, b: seq<Entry>)
    requires multiset(a) == multiset(b) && DistinctPlayers(a)
    ensures DistinctPlayers(b)
  {
    assert Distinct(a);
    DistinctCount(a);
    DistinctCount(b);
    forall i, j | 0 <= i < j < |b| ensures b[i].id != b[j].id {
      var x := Occurs(b, b[i], a);
      var y := Occurs(b, b[j], a);
    }
  }

  lemma ValidPermutes(id: Id, c: Competition, a: seq<Entry>, b: seq<Entry>, budget: real)
    requires multiset(a) == multiset(b) && ValidSquad(id, c, a, budget)
    ensures ValidSquad(id, c, b, budget)
  {
    hide SquadShape;
    ShapeIsDistinct(id, c, a);
    DistinctPermutes(a, b);
    ShapePermutes(id, c, a, b);
    SumPermutation(Price, a, b);
    forall i | 0 <= i < |b|
      ensures b[i].player.eligible && (b[i].player.availability == Available || b[i].player.availability == Doubtful)
    {
      var k := Occurs(b, b[i], a);
    }
  }

  ghost predicate SameButMarket(a: seq<Entry>, b: seq<Entry>)
  {
    && |a| == |b|
    && forall i :: 0 <= i < |a| ==>
      && a[i] == b[i].(player := a[i].player)
      && a[i].player == b[i].player.(price := a[i].player.price, eligible := a[i].player.eligible,
           availability := a[i].player.availability)
  }

  lemma {:induction false} CountReads(p: Entry -> bool, a: seq<Entry>, b: seq<Entry>)
    requires |a| == |b| && forall i :: 0 <= i < |a| ==> (p(a[i]) <==> p(b[i]))
    ensures |Filter(p, a)| == |Filter(p, b)|
  {
    if a != [] {
      var n := |a| - 1;
      CountReads(p, a[..n], b[..n]);
    }
  }

  function StartsAt(position: string): Entry -> bool
  {
    (e: Entry) => e.starter && e.player.position == position
  }

  lemma ShapeReads(id: Id, c: Competition, a: seq<Entry>, b: seq<Entry>)
    requires SquadShape(id, c, a) && SameButMarket(a, b)
    ensures SquadShape(id, c, b)
  {
    forall p: string ensures |Filter(AtPosition(p), b)| == Required(c.positionRules, p) {
      CountReads(AtPosition(p), a, b);
    }
    forall k: Id ensures |Filter(AtClub(k), b)| <= c.maxPlayersPerTeam {
      CountReads(AtClub(k), a, b);
    }
    CountReads(IsStarter, a, b);
    CountReads(IsBench, a, b);
    forall p | p in c.formationRules ensures FormationMet(c, Filter(IsStarter, b), p) {
      assert FormationMet(c, Filter(IsStarter, a), p);
      FilterTwice(IsStarter, AtPosition(p), StartsAt(p), a);
      FilterTwice(IsStarter, AtPosition(p), StartsAt(p), b);
      CountReads(StartsAt(p), a, b);
    }
    assert BenchNumbered(b, c.benchSize) by {
      forall n | 1 <= n <= c.benchSize ensures Benched(b, n) {
        assert Benched(a, n);
      }
    }
    assert Captaincy(b) by {
      var x, y :| 0 <= x < |a| && 0 <= y < |a| && x != y && Leads(a, x, y);
      assert Leads(b, x, y);
    }
  }

  // The competition's own consistency check.

  ghost function Total(rules: map<string, int>): int
  {
    if rules == map[] then 0
    else
      var p :| p in rules;
      rules[p] + Total(rules - {p})
  }

  lemma {:induction false} TotalTakesOut(rules: map<string, int>, p: string)
    requires p in rules
    ensures Total(rules) == rules[p] + Total(rules - {p})
    decreases |rules|
  {
    var q :| q in rules && Total(rules) == rules[q] + Total(rules - {q});
    if q != p {
      TotalTakesOut(rules - {q}, p);
      TotalTakesOut(rules - {p}, q);
      assert rules - {q} - {p} == rules - {p} - {q};
    }
  }

  /** The part of `FantasyCompetition.clean` that concerns the squad. */
  ghost predicate CleanSquadRules(c: Competition)
  {
    && c.squadSize > 0 && c.startingLineupSize > 0 && c.initialBudget > 0.0
    && c.maxPlayersPerTeam > 0 && c.captainMultiplier > 0.0
    && c.startingLineupSize + c.benchSize == c.squadSize
    && Total(c.positionRules) == c.squadSize
  }

  lemma {:induction false} PositionsAddUp(rules: map<string, int>, squad: seq<Entry>)
    requires forall p: string :: |Filter(AtPosition(p), squad)| == Required(rules, p)
    ensures Total(rules) == |squad|
  {
    if squad == [] {
      AllZero(rules);
    } else {
      var n := |squad| - 1;
      var q := squad[n].player.position;
      assert |Filter(AtPosition(q), squad)| >= 1;
      assert q in rules;
      var rules' := rules[q := rules[q] - 1];
      forall p: string ensures |Filter(AtPosition(p), squad[..n])| == Required(rules', p) {
        assert |Filter(AtPosition(p), squad)| == Required(rules, p);
      }
      PositionsAddUp(rules', squad[..n]);
      TotalTakesOut(rules, q);
      TotalTakesOut(rules', q);
      assert rules - {q} == rules' - {q};
    }
  }

  lemma {:induction false} AllZero(rules: map<string, int>)
    requires forall p: string :: 0 == Required(rules, p)
    ensures Total(rules) == 0
    decreases |rules|
  {
    if rules != map[] {
      var p :| p in rules && Total(rules) == rules[p] + Total(rules - {p});
      assert Required(rules, p) == 0;
      forall q: string ensures 0 == Required(rules - {p}, q) {
        assert Required(rules, q) == 0;
      }
      AllZero(rules - {p});
    }
  }

  /** In a clean competition the positional rules alone fix the squad size, and so one of the lineup sizes. */
  lemma PositionsFixSquadSize(c: Competition, squad: seq<Entry>)
    requires CleanSquadRules(c)
    requires PositionsMeet(c.positionRules, Positions(squad))
    ensures |squad| == c.squadSize
    ensures |Filter(IsStarter, squad)| == c.startingLineupSize <==> |Filter(IsBench, squad)| == c.benchSize
  {
    CountsChecked(c, squad);
    PositionsAddUp(c.positionRules, squad);
    StartersAndBench(squad);
  }

  lemma {:induction false} StartersAndBench(squad: seq<Entry>)
    ensures |Filter(IsStarter, squad)| + |Filter(IsBench, squad)| == |squad|
  {
    if squad != [] {
      StartersAndBench(squad[..|squad| - 1]);
    }
  }
}
