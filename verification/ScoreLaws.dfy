/** What the numbers a scoring leaves mean: decomposition, captaincy, row order and corrections. */
module ScoreLaws {
  import opened Sequences
  import opened FantasyModel
  import opened Scoring

  // Sums with one interesting term.

  lemma {:induction false} SumZero<T>(f: T -> real, s: seq<T>)
    requires forall i :: 0 <= i < |s| ==> f(s[i]) == 0.0
    ensures SumOf(f, s) == 0.0
  {
    if s != [] {
      SumZero(f, s[..|s| - 1]);
    }
  }

  lemma SumSingle<T>(f: T -> real, s: seq<T>, i: nat)
    requires i < |s| && forall j :: 0 <= j < |s| && j != i ==> f(s[j]) == 0.0
    ensures SumOf(f, s) == f(s[i])
  {
    SumSplit(f, s, i);
    SumZero(f, s[..i]);
    SumZero(f, s[i+1..]);
  }

  // Decomposition of a team score.

  function FinalPoints(d: Detail): real { d.finalPoints }

  /** `x` for the selection of player `p`, nothing for the others. */
  function OnlyFor(p: Id, x: real): Selection -> real
  {
    (s: Selection) => if s.item.player == p then x else 0.0
  }

  lemma SumOnlyFor(s: seq<Selection>, p: Id, x: real)
    requires DistinctMembers(s)
    ensures SumOf(OnlyFor(p, x), s) == if Holds(s, p) then x else 0.0
  {
    if Holds(s, p) {
      var i :| 0 <= i < |s| && s[i].item.player == p;
      SumSingle(OnlyFor(p, x), s, i);
    } else {
      SumZero(OnlyFor(p, x), s);
    }
  }

  lemma {:induction false} DistinctFilter(p: Selection -> bool, s: seq<Selection>)
    requires DistinctMembers(s)
    ensures DistinctMembers(Filter(p, s))
  {
    if s != [] {
      var n := |s| - 1;
      DistinctFilter(p, s[..n]);
      var r := Filter(p, s[..n]);
      forall i | 0 <= i < |r| ensures r[i].item.player != s[n].item.player {
        FilterMembers(p, s[..n], r[i]);
      }
    }
  }

  lemma {:induction false} SumOfFinals(players: map<Id, Player>, records: map<Id, PointRecord>, c: Competition,
                                       captain: Option<Id>, extra: Selection -> real, starters: seq<Selection>)
    requires forall s :: s in starters ==>
      extra(s) == if captain == Some(s.item.player) then Bonus(records, c, s.item.player) else 0.0
    ensures SumOf(FinalPoints, Details(players, records, c, captain, starters))
      == SumOf(SelectionPoints(records), starters) + SumOf(extra, starters)
  {
    if starters != [] {
      var n := |starters| - 1;
      SumOfFinals(players, records, c, captain, extra, starters[..n]);
      assert Details(players, records, c, captain, starters)[..n] == Details(players, records, c, captain, starters[..n]);
      assert starters[n] in starters;
    }
  }

  lemma ChosenStarts(w: World, g: Id, c: Competition, starters: seq<Selection>)
    requires g in w.gameweeks
    ensures var choice := EffectiveCaptain(w, g, c, starters);
      choice.captain.Some? ==> Holds(starters, choice.captain.value)
  {
    var captain, vice := First(Captains, starters), First(Vices, starters);
    if captain.Some? {
      var i :| 0 <= i < |starters| && starters[i] == captain.value;
    }
    if vice.Some? {
      var i :| 0 <= i < |starters| && starters[i] == vice.value;
    }
  }

  /** A team score is the sum of its breakdown less the penalty; the captain's share is counted once. */
  lemma ScoreDecomposes(w: World, g: Id, t: Id)
    requires Enters(w, t, g) && DistinctMembers(w.teams[t].selections)
    ensures var s := TeamScoreOf(w, g, t);
      && SumOf(FinalPoints, s.details) == s.playerPoints + s.captainBonus
      && s.totalPoints == SumOf(FinalPoints, s.details) - s.transferPenalty
      && (forall i, j :: 0 <= i < j < |s.details| ==> !(s.details[i].captain && s.details[j].captain))
      && (s.effectiveCaptain.Some? <==> exists i :: 0 <= i < |s.details| && s.details[i].captain)
      && (s.effectiveCaptain.None? ==> s.captainBonus == 0.0)
  {
    var c, records, starters := CompetitionOf(w, g), At(w.points, g), Starters(w, t);
    var captain := EffectiveCaptain(w, g, c, starters).captain;
    DistinctFilter(Starts, w.teams[t].selections);
    ChosenStarts(w, g, c, starters);
    var p := if captain.Some? then captain.value else 0;
    var x := if captain.Some? then Bonus(records, c, p) else 0.0;
    SumOnlyFor(starters, p, x);
    SumOfFinals(w.players, records, c, captain, OnlyFor(p, x), starters);
    if captain.Some? {
      var i :| 0 <= i < |starters| && starters[i].item.player == p;
      assert Details(w.players, records, c, captain, starters)[i].captain;
    }
  }

  // Captaincy.

  /** `c` is the one starter with the captain's mark, `v` the one with the vice-captain's. */
  ghost predicate Marks(starters: seq<Selection>, c: Selection, v: Selection)
  {
    && c in starters && c.item.captain && v in starters && v.item.vice
    && (forall s :: s in starters && s.item.captain ==> s == c)
    && (forall s :: s in starters && s.item.vice ==> s == v)
  }

  /** The vice-captain leads exactly when the rule is on, the captain was absent and the vice-captain was not. */
  lemma FallbackExactly(w: World, g: Id, comp: Competition, starters: seq<Selection>, c: Selection, v: Selection)
    requires g in w.gameweeks && Marks(starters, c, v)
    ensures var choice := EffectiveCaptain(w, g, comp, starters);
      && (choice.fallback <==> comp.viceCaptainFallback && !Plays(w, g, c) && Plays(w, g, v))
      && choice.captain == Some(if choice.fallback then v.item.player else c.item.player)
  {
  }

  /** `i` is the first row that satisfies `p`. */
  ghost predicate FirstAt(p: Selection -> bool, s: seq<Selection>, i: int)
  {
    0 <= i < |s| && p(s[i]) && forall j :: 0 <= j < i ==> !p(s[j])
  }

  ghost predicate Nowhere(p: Selection -> bool, s: seq<Selection>)
  {
    forall j :: 0 <= j < |s| ==> !p(s[j])
  }

  /** Who leads any list of starters, said by rows: nobody without a captain; the vice-captain exactly when the rule
      is on, the captain was absent and the vice-captain was not; the captain otherwise. */
  ghost predicate RightChoice(w: World, g: Id, comp: Competition, s: seq<Selection>, leader: Option<Id>, fallback: bool)
    requires g in w.gameweeks
  {
    && (Nowhere(Captains, s) ==> leader.None? && !fallback)
    && (forall c :: FirstAt(Captains, s, c) && Nowhere(Vices, s) ==> leader == Some(s[c].item.player) && !fallback)
    && (forall c, v :: FirstAt(Captains, s, c) && FirstAt(Vices, s, v) ==>
      && (fallback <==> comp.viceCaptainFallback && !Plays(w, g, s[c]) && Plays(w, g, s[v]))
      && leader == Some(if fallback then s[v].item.player else s[c].item.player))
  }

  lemma {:induction false} FirstFound(p: Selection -> bool, s: seq<Selection>, i: int)
    requires FirstAt(p, s, i)
    ensures First(p, s) == Some(s[i])
  {
    if i > 0 {
      FirstFound(p, s[1..], i - 1);
    }
  }

  lemma FirstOrNowhere(p: Selection -> bool, s: seq<Selection>) returns (i: int)
    ensures FirstAt(p, s, i) || (i == |s| && Nowhere(p, s) && First(p, s) == None)
  {
    i := 0;
    while i < |s| && !p(s[i])
      invariant 0 <= i <= |s| && forall j :: 0 <= j < i ==> !p(s[j])
    {
      i := i + 1;
    }
    if First(p, s).Some? {
      var k :| 0 <= k < |s| && s[k] == First(p, s).value;
    }
  }

  /** This determines the choice, and it is the one the scoring makes. */
  lemma ChoiceDetermined(w: World, g: Id, comp: Competition, s: seq<Selection>, leader: Option<Id>, fallback: bool)
    requires g in w.gameweeks
    ensures RightChoice(w, g, comp, s, leader, fallback) <==> Choice(leader, fallback) == EffectiveCaptain(w, g, comp, s)
  {
    hide Plays, First;
    var c := FirstOrNowhere(Captains, s);
    var v := FirstOrNowhere(Vices, s);
    forall i | FirstAt(Captains, s, i) ensures First(Captains, s) == Some(s[i]) && i == c {
      FirstFound(Captains, s, i);
    }
    forall i | FirstAt(Vices, s, i) ensures First(Vices, s) == Some(s[i]) && i == v {
      FirstFound(Vices, s, i);
    }
  }

  // Row order.

  lemma SameMembers<T>(a: seq<T>, b: seq<T>, x: T)
    requires multiset(a) == multiset(b)
    ensures x in a <==> x in b
  {
    assert x in a <==> x in multiset(a);
    assert x in b <==> x in multiset(b);
  }

  lemma DetailsWithout(players: map<Id, Player>, records: map<Id, PointRecord>, c: Competition, captain: Option<Id>,
                       s: seq<Selection>, i: nat)
    requires i < |s|
    ensures var d := Details(players, records, c, captain, s);
      && Details(players, records, c, captain, s[..i] + s[i + 1..]) == d[..i] + d[i + 1..]
      && d[i] == DetailOf(players, records, c, captain, s[i])
  {
    hide DetailOf;
  }

  lemma {:induction false} DetailsPermute(players: map<Id, Player>, records: map<Id, PointRecord>, c: Competition,
                                          captain: Option<Id>, a: seq<Selection>, b: seq<Selection>)
    requires multiset(a) == multiset(b)
    ensures multiset(Details(players, records, c, captain, a)) == multiset(Details(players, records, c, captain, b))
  {
    hide DetailOf, Details;
    SameLength(a, b);
    if a != [] {
      var j := Occurs(a, a[0], b);
      RemoveSame(a, 0, b, j);
      DetailsPermute(players, records, c, captain, a[..0] + a[1..], b[..j] + b[j + 1..]);
      DetailsWithout(players, records, c, captain, a, 0);
      DetailsWithout(players, records, c, captain, b, j);
      RestoreSame(Details(players, records, c, captain, a), 0, Details(players, records, c, captain, b), j);
    }
  }

  /** The order in which a team's selections are read changes no total and not the choice of captain, and only
      arranges the lines of the breakdown. */
  lemma SelectionOrderFree(w: World, g: Id, t: Id, shuffled: seq<Selection>, c: Selection, v: Selection)
    requires Enters(w, t, g) && multiset(shuffled) == multiset(w.teams[t].selections)
    requires Marks(Starters(w, t), c, v)
    ensures SameScore(w, w.(teams := w.teams[t := w.teams[t].(selections := shuffled)]), g, t)
  {
    hide Plays, Details;
    var w' := w.(teams := w.teams[t := w.teams[t].(selections := shuffled)]);
    var comp := CompetitionOf(w, g);
    var before, after := Starters(w, t), Starters(w', t);
    FilterPermutes(Starts, w.teams[t].selections, shuffled);
    forall s ensures s in before <==> s in after {
      SameMembers(before, after, s);
    }
    forall s ensures Plays(w', g, s) == Plays(w, g, s) {
      SquadUnread(w, t, shuffled, g, s);
    }
    FallbackExactly(w, g, comp, before, c, v);
    FallbackExactly(w', g, comp, after, c, v);
    SumPermutation(SelectionPoints(At(w.points, g)), before, after);
    DetailsPermute(w.players, At(w.points, g), comp, EffectiveCaptain(w, g, comp, before).captain, before, after);
  }

  lemma SquadUnread(w: World, t: Id, squad: seq<Selection>, g: Id, s: Selection)
    requires g in w.gameweeks && t in w.teams
    ensures Plays(w.(teams := w.teams[t := w.teams[t].(selections := squad)]), g, s) == Plays(w, g, s)
  {
  }

  /** The same totals and captain, and the same lines in some order. */
  ghost predicate SameScore(w: World, v: World, g: Id, t: Id)
  {
    && Enters(w, t, g) && Enters(v, t, g)
    && TeamScoreOf(v, g, t).(details := []) == TeamScoreOf(w, g, t).(details := [])
    && multiset(TeamScoreOf(v, g, t).details) == multiset(TeamScoreOf(w, g, t).details)
  }

  /** Nor does the order of the statistics change a player's points. */
  lemma StatisticOrderFree(w: World, g: Id, p: Id, shuffled: seq<Statistic>)
    requires g in w.gameweeks && p in w.players && multiset(shuffled) == multiset(w.stats)
    ensures Base(w.(stats := shuffled), g, p) == Base(w, g, p)
    ensures PlayerRecord(w.(stats := shuffled), g, p).total == PlayerRecord(w, g, p).total
  {
    var counted := Counted(w.gameweeks[g].fixtures, w.players[p].participant);
    FilterPermutes(counted, w.stats, shuffled);
    SumPermutation(RowPoints(RuleTable(w.rules, w.gameweeks[g].competition)),
      Filter(counted, w.stats), Filter(counted, shuffled));
  }

  // Rules.

  /** No two applicable rules of a competition have the same upper-cased type. */
  ghost predicate KindsDistinct(rules: seq<ScoringRule>, competition: Id)
  {
    forall x, y :: x in rules && y in rules && Applies(x, competition) && Applies(y, competition) ==>
      (Upper(x.kind) == Upper(y.kind) ==> x == y)
  }

  ghost predicate Names(rule: ScoringRule, competition: Id, kind: string)
  {
    Applies(rule, competition) && Upper(rule.kind) == kind
  }

  /** What the rule dictionary holds for a type: the points of the rule that names it. */
  lemma {:induction false} TableLookup(rules: seq<ScoringRule>, competition: Id, kind: string)
    requires KindsDistinct(rules, competition)
    ensures kind in RuleTable(rules, competition) <==> exists r :: r in rules && Names(r, competition, kind)
    ensures forall r :: r in rules && Names(r, competition, kind) ==>
      kind in RuleTable(rules, competition) && RuleTable(rules, competition)[kind] == r.points
  {
    hide Upper, Applies;
    if rules != [] {
      var n := |rules| - 1;
      assert rules == rules[..n] + [rules[n]];
      assert forall r :: r in rules <==> r in rules[..n] || r == rules[n];
      TableLookup(rules[..n], competition, kind);
    }
  }

  /** The order of the rule rows does not matter either, as long as their types differ. */
  lemma RuleOrderFree(rules: seq<ScoringRule>, shuffled: seq<ScoringRule>, competition: Id)
    requires KindsDistinct(rules, competition) && multiset(rules) == multiset(shuffled)
    ensures RuleTable(rules, competition) == RuleTable(shuffled, competition)
  {
    hide RuleTable, Names;
    forall r ensures r in rules <==> r in shuffled {
      SameMembers(rules, shuffled, r);
    }
    var a, b := RuleTable(rules, competition), RuleTable(shuffled, competition);
    forall kind
      ensures kind in a <==> kind in b
      ensures kind in a ==> a[kind] == b[kind]
    {
      TableLookup(rules, competition, kind);
      TableLookup(shuffled, competition, kind);
    }
  }

  // Corrections.

  /** A corrected player's total is the latest corrected value, whatever the statistics say. */
  lemma CorrectedTotal(w: World, g: Id, p: Id)
    requires g in w.gameweeks && p in w.players
    ensures PlayerRecord(w, g, p).total ==
      match Latest(w.corrections, g, p) case None => Base(w, g, p) case Some(c) => c.newValue
  {
  }

  /** The latest correction is one of the record's own, and none of them comes after it. */
  lemma {:induction false} LatestIsLast(cs: seq<Correction>, g: Id, p: Id)
    ensures Latest(cs, g, p).None? <==> forall i :: 0 <= i < |cs| ==> !About(cs[i], g, p)
    ensures Latest(cs, g, p).Some? ==>
      && Latest(cs, g, p).value in cs && About(Latest(cs, g, p).value, g, p)
      && forall i :: 0 <= i < |cs| && About(cs[i], g, p) ==> !Later(Latest(cs, g, p).value, cs[i])
  {
    if cs != [] {
      LatestIsLast(cs[..|cs| - 1], g, p);
    }
  }

  /** How one more correction changes the latest one. */
  lemma LatestAppend(cs: seq<Correction>, c: Correction, g: Id, p: Id)
    ensures Latest(cs + [c], g, p) ==
      if About(c, g, p) && (Latest(cs, g, p).None? || Later(Latest(cs, g, p).value, c)) then Some(c)
      else Latest(cs, g, p)
  {
    assert (cs + [c])[..|cs|] == cs;
  }

  lemma BonusMoves(x: real, d: real, m: real)
    ensures d + (x + d) * (m - 1.0) - x * (m - 1.0) == m * d
  {
    assert (x + d) * (m - 1.0) == x * (m - 1.0) + d * (m - 1.0);
  }

  lemma StartersMove(a: map<Id, PointRecord>, b: map<Id, PointRecord>, starters: seq<Selection>, p: Id, delta: real)
    requires DistinctMembers(starters)
    requires forall q :: PointsOf(b, q) == PointsOf(a, q) + if q == p then delta else 0.0
    ensures SumOf(SelectionPoints(b), starters)
      == SumOf(SelectionPoints(a), starters) + if Holds(starters, p) then delta else 0.0
  {
    SumLinear(SelectionPoints(a), SelectionPoints(b), OnlyFor(p, delta), starters);
    SumOnlyFor(starters, p, delta);
  }

  lemma CaptainMoves(a: map<Id, PointRecord>, b: map<Id, PointRecord>, c: Competition, captain: Option<Id>,
                     p: Id, delta: real)
    requires forall q :: PointsOf(b, q) == PointsOf(a, q) + if q == p then delta else 0.0
    ensures CaptainBonus(b, c, captain) - CaptainBonus(a, c, captain)
      == if captain == Some(p) then c.captainMultiplier * delta - delta else 0.0
  {
    BonusMoves(PointsOf(a, p), delta, c.captainMultiplier);
  }

  /** What `delta` more points for player `p` are worth to a team. */
  function Worth(starters: seq<Selection>, captain: Option<Id>, multiplier: real, p: Id, delta: real): real
  {
    if captain == Some(p) then multiplier * delta
    else if exists s :: s in starters && s.item.player == p then delta
    else 0.0
  }

  /** The points of a team before the transfer penalty. */
  function Gross(records: map<Id, PointRecord>, c: Competition, captain: Option<Id>, starters: seq<Selection>): real
  {
    SumOf(SelectionPoints(records), starters) + CaptainBonus(records, c, captain)
  }

  lemma GrossMoves(a: map<Id, PointRecord>, b: map<Id, PointRecord>, c: Competition, captain: Option<Id>,
                   starters: seq<Selection>, p: Id, delta: real)
    requires DistinctMembers(starters) && (captain.Some? ==> Holds(starters, captain.value))
    requires forall q :: PointsOf(b, q) == PointsOf(a, q) + if q == p then delta else 0.0
    ensures Gross(b, c, captain, starters)
      == Gross(a, c, captain, starters) + Worth(starters, captain, c.captainMultiplier, p, delta)
  {
    hide SumOf, CaptainBonus;
    StartersMove(a, b, starters, p, delta);
    CaptainMoves(a, b, c, captain, p, delta);
    assert Holds(starters, p) <==> exists s :: s in starters && s.item.player == p;
  }

  lemma ScoreIsGross(w: World, g: Id, t: Id)
    requires Enters(w, t, g)
    ensures var x, c := TeamScoreOf(w, g, t), CompetitionOf(w, g);
      x.totalPoints == Gross(At(w.points, g), c, x.effectiveCaptain, Starters(w, t)) - StateOf(w, t, g, c).penalty as real
  {
  }

  lemma SameChoice(a: World, b: World, g: Id, t: Id)
    requires SameField(a, b) && Enters(a, t, g)
    ensures TeamScoreOf(a, g, t).effectiveCaptain == TeamScoreOf(b, g, t).effectiveCaptain
    ensures TeamScoreOf(a, g, t).fallback == TeamScoreOf(b, g, t).fallback
    ensures TeamScoreOf(a, g, t).effectiveCaptain.Some? ==>
      Holds(Starters(a, t), TeamScoreOf(a, g, t).effectiveCaptain.value)
  {
    ChoiceReads(a, b, g, CompetitionOf(a, g), Starters(a, t));
    ChosenStarts(a, g, CompetitionOf(a, g), Starters(a, t));
  }

  /** Changing one player's points by `delta` moves a team by nothing, by `delta`, or by `delta` times the multiplier. */
  lemma OnePlayerMoves(a: World, b: World, g: Id, t: Id, p: Id, delta: real)
    requires SameField(a, b) && Enters(a, t, g)
    requires DistinctMembers(a.teams[t].selections)
    requires StateOf(a, t, g, CompetitionOf(a, g)) == StateOf(b, t, g, CompetitionOf(b, g))
    requires forall q :: PointsOf(At(b.points, g), q) == PointsOf(At(a.points, g), q) + if q == p then delta else 0.0
    ensures TeamScoreOf(b, g, t).effectiveCaptain == TeamScoreOf(a, g, t).effectiveCaptain
    ensures TeamScoreOf(b, g, t).fallback == TeamScoreOf(a, g, t).fallback
    ensures TeamScoreOf(b, g, t).totalPoints - TeamScoreOf(a, g, t).totalPoints ==
      Worth(Starters(a, t), TeamScoreOf(a, g, t).effectiveCaptain, CompetitionOf(a, g).captainMultiplier, p, delta)
  {
    ScoreIsGross(a, g, t);
    ScoreIsGross(b, g, t);
    SameChoice(a, b, g, t);
    DistinctFilter(Starts, a.teams[t].selections);
    GrossMoves(At(a.points, g), At(b.points, g), CompetitionOf(a, g), TeamScoreOf(a, g, t).effectiveCaptain,
      Starters(a, t), p, delta);
  }
}
