/** What every number of a point record and of a team's breakdown is made of, said column by column. */
module PointsLaws {
  import opened Sequences
  import opened FantasyModel
  import opened SquadRules
  import opened Scoring
  import opened ScoreLaws
  import opened Season
  import opened CorrectionLaws

  // Which rule prices a statistic.

  predicate CaseTwin(a: char, b: char)
  {
    'a' <= a <= 'z' && b as int == a as int - 32
  }

  /** The two words differ in the case of ASCII letters at most. */
  predicate SameWord(a: string, b: string)
  {
    |a| == |b| && forall i :: 0 <= i < |a| ==> a[i] == b[i] || CaseTwin(a[i], b[i]) || CaseTwin(b[i], a[i])
  }

  lemma UpperMeans(a: string, b: string)
    ensures Upper(a) == Upper(b) <==> SameWord(a, b)
  {
    forall x: char, y: char ensures UpperChar(x) == UpperChar(y) <==> x == y || CaseTwin(x, y) || CaseTwin(y, x) {
      assert x == y <==> x as int == y as int;
    }
    if Upper(a) == Upper(b) {
      assert |Upper(a)| == |a| && |Upper(b)| == |b|;
      forall i | 0 <= i < |a| ensures a[i] == b[i] || CaseTwin(a[i], b[i]) || CaseTwin(b[i], a[i]) {
        assert Upper(a)[i] == UpperChar(a[i]) && Upper(b)[i] == UpperChar(b[i]);
      }
    }
  }

  /** Rule `k` is enabled, unconditional and of the competition, its type is the given one, and no later such rule has
      that type too. */
  ghost predicate PricedBy(rules: seq<ScoringRule>, competition: Id, kind: string, k: int)
  {
    && 0 <= k < |rules| && InForce(rules[k], competition) && SameWord(rules[k].kind, kind)
    && forall m :: k < m < |rules| && InForce(rules[m], competition) ==> !SameWord(rules[m].kind, kind)
  }

  predicate InForce(r: ScoringRule, competition: Id)
  {
    r.enabled && r.unconditional && r.competition == competition
  }

  lemma {:induction false} TableMeans(rules: seq<ScoringRule>, competition: Id, kind: string)
    ensures Upper(kind) in RuleTable(rules, competition) <==> exists k :: PricedBy(rules, competition, kind, k)
    ensures forall k :: PricedBy(rules, competition, kind, k) ==>
      Upper(kind) in RuleTable(rules, competition) && RuleTable(rules, competition)[Upper(kind)] == rules[k].points
  {
    hide Upper, SameWord;
    if rules != [] {
      var n := |rules| - 1;
      TableMeans(rules[..n], competition, kind);
      UpperMeans(rules[n].kind, kind);
      if InForce(rules[n], competition) && SameWord(rules[n].kind, kind) {
        assert PricedBy(rules, competition, kind, n);
      } else {
        forall k ensures PricedBy(rules, competition, kind, k) <==> PricedBy(rules[..n], competition, kind, k) {
          assert forall m :: 0 <= m < n ==> rules[..n][m] == rules[m];
        }
      }
    }
  }

  // Point records.

  /** Statistic `j` is of the player and in a fixture of the gameweek. */
  ghost predicate CountsFor(w: World, g: Id, p: Id, j: int)
    requires g in w.gameweeks && p in w.players
  {
    && 0 <= j < |w.stats| && w.stats[j].fixture in w.gameweeks[g].fixtures
    && w.stats[j].participant == w.players[p].participant
  }

  ghost predicate Priced(w: World, g: Id, kind: string, k: int)
    requires g in w.gameweeks
  {
    PricedBy(w.rules, w.gameweeks[g].competition, kind, k)
  }

  /** The line is that of statistic `j`, at the points of rule `k`. */
  ghost predicate Explains(w: World, g: Id, p: Id, line: BreakdownLine, j: int, k: int)
    requires g in w.gameweeks && p in w.players
  {
    && CountsFor(w, g, p, j) && Priced(w, g, w.stats[j].kind, k)
    && line.kind == w.stats[j].kind && line.value == w.stats[j].value
    && line.points == w.stats[j].value * w.rules[k].points
  }

  /** The rows a rule names, as positions. */
  ghost function Naming(w: World, g: Id, p: Id): set<int>
    requires g in w.gameweeks && p in w.players
  {
    set j | 0 <= j < |w.stats| && CountsFor(w, g, p, j) && exists k :: Priced(w, g, w.stats[j].kind, k)
  }

  function InTable(table: map<string, real>): Statistic -> bool
  {
    (s: Statistic) => Upper(s.kind) in table
  }

  function LinePoints(line: BreakdownLine): real { line.points }

  lemma {:induction false} BreakdownAdds(table: map<string, real>, rows: seq<Statistic>)
    ensures SumOf(RowPoints(table), rows) == SumOf(LinePoints, Breakdown(table, rows))
    ensures |Breakdown(table, rows)| == |Filter(InTable(table), rows)|
  {
    hide Upper;
    if rows != [] {
      var n := |rows| - 1;
      BreakdownAdds(table, rows[..n]);
      var b := Breakdown(table, rows[..n]);
      if Upper(rows[n].kind) in table {
        SumConcat(LinePoints, b, [Line(table, rows[n])]);
        SumOne(LinePoints, Line(table, rows[n]));
      } else {
        assert b + [] == b;
      }
    }
  }

  /** `x` is the line of statistic `s`. */
  ghost predicate LineOf(table: map<string, real>, s: Statistic, x: BreakdownLine)
  {
    Upper(s.kind) in table && x == BreakdownLine(s.kind, s.value, s.value * table[Upper(s.kind)])
  }

  lemma {:induction false} BreakdownLines(table: map<string, real>, rows: seq<Statistic>, x: BreakdownLine)
    ensures x in Breakdown(table, rows) <==> exists s :: s in rows && LineOf(table, s, x)
  {
    hide Upper;
    if rows != [] {
      var n := |rows| - 1;
      BreakdownLines(table, rows[..n], x);
      LastLine(table, rows, x);
      assert rows == rows[..n] + [rows[n]];
      if exists s :: s in rows && LineOf(table, s, x) {
        var s :| s in rows && LineOf(table, s, x);
        assert s in rows[..n] || s == rows[n];
      }
    }
  }

  lemma LastLine(table: map<string, real>, rows: seq<Statistic>, x: BreakdownLine)
    requires rows != []
    ensures var n := |rows| - 1;
      x in Breakdown(table, rows) <==> x in Breakdown(table, rows[..n]) || LineOf(table, rows[n], x)
  {
    hide Upper;
  }

  lemma PricedMeans(w: World, g: Id, kind: string)
    requires g in w.gameweeks
    ensures var table := RuleTable(w.rules, w.gameweeks[g].competition);
      && (Upper(kind) in table <==> exists k :: Priced(w, g, kind, k))
      && (forall k :: Priced(w, g, kind, k) ==>
           0 <= k < |w.rules| && Upper(kind) in table && table[Upper(kind)] == w.rules[k].points)
  {
    hide Upper, RuleTable, SameWord;
    TableMeans(w.rules, w.gameweeks[g].competition, kind);
    if k :| PricedBy(w.rules, w.gameweeks[g].competition, kind, k) {
      assert Priced(w, g, kind, k);
    }
    if k :| Priced(w, g, kind, k) {
      assert PricedBy(w.rules, w.gameweeks[g].competition, kind, k);
    }
  }

  /** The base points are the sum of the lines of the breakdown. */
  lemma BaseIsBreakdown(w: World, g: Id, p: Id)
    requires g in w.gameweeks && p in w.players
    ensures PlayerRecord(w, g, p).base == SumOf((line: BreakdownLine) => line.points, PlayerRecord(w, g, p).breakdown)
  {
    var r := PlayerRecord(w, g, p);
    BreakdownAdds(RuleTable(w.rules, w.gameweeks[g].competition), StatisticsOf(w, g, p));
    SumAgrees(LinePoints, (line: BreakdownLine) => line.points, r.breakdown);
  }

  /** The lines of the breakdown are those of the player's statistics in the gameweek's fixtures that a rule names, each
      with its value times the points of that rule. */
  lemma LineExplained(w: World, g: Id, p: Id, line: BreakdownLine)
    requires g in w.gameweeks && p in w.players
    ensures line in PlayerRecord(w, g, p).breakdown <==> exists j, k :: Explains(w, g, p, line, j, k)
  {
    hide Upper, RuleTable, Filter, Priced;
    var table, rows := RuleTable(w.rules, w.gameweeks[g].competition), StatisticsOf(w, g, p);
    var counted := Counted(w.gameweeks[g].fixtures, w.players[p].participant);
    BreakdownLines(table, rows, line);
    if line in PlayerRecord(w, g, p).breakdown {
      var s :| s in rows && Upper(s.kind) in table
        && line == BreakdownLine(s.kind, s.value, s.value * table[Upper(s.kind)]);
      FilterMembers(counted, w.stats, s);
      PricedMeans(w, g, s.kind);
      var j :| 0 <= j < |w.stats| && w.stats[j] == s;
      var k :| Priced(w, g, s.kind, k);
      assert Explains(w, g, p, line, j, k);
    }
    if exists j, k :: Explains(w, g, p, line, j, k) {
      var j, k :| Explains(w, g, p, line, j, k);
      FilterMembers(counted, w.stats, w.stats[j]);
      PricedMeans(w, g, w.stats[j].kind);
    }
  }

  /** There is one line for each of these statistics. */
  lemma LinesCounted(w: World, g: Id, p: Id)
    requires g in w.gameweeks && p in w.players
    ensures |PlayerRecord(w, g, p).breakdown| == |Naming(w, g, p)|
  {
    hide Upper, RuleTable, Priced;
    var table, rows := RuleTable(w.rules, w.gameweeks[g].competition), StatisticsOf(w, g, p);
    var counted := Counted(w.gameweeks[g].fixtures, w.players[p].participant);
    var both := (s: Statistic) => counted(s) && InTable(table)(s);
    BreakdownAdds(table, rows);
    FilterTwice(counted, InTable(table), both, w.stats);
    FilterPlaces(both, w.stats);
    forall j ensures j in Places(both, w.stats) <==> j in Naming(w, g, p) {
      if 0 <= j < |w.stats| {
        PricedMeans(w, g, w.stats[j].kind);
      }
    }
    assert Places(both, w.stats) == Naming(w, g, p);
  }

  /** A record is marked available when there is any statistic of the player, named by a rule or not, and its total is
      the corrected value, or the base without a correction. */
  lemma RecordColumns(w: World, g: Id, p: Id)
    requires g in w.gameweeks && p in w.players
    ensures var r := PlayerRecord(w, g, p);
      && (r.available <==> exists j :: CountsFor(w, g, p, j))
      && r.total == r.base + r.correction
      && ((forall c :: c in w.corrections ==> !(c.gameweek == g && c.player == p)) ==> r.total == r.base)
      && ((exists c :: c in w.corrections && c.gameweek == g && c.player == p) ==>
           exists c :: LastWord(w.corrections, g, p, c) && r.total == c.newValue)
  {
    hide RuleTable, Breakdown, SumOf;
    var r, rows := PlayerRecord(w, g, p), StatisticsOf(w, g, p);
    var counted := Counted(w.gameweeks[g].fixtures, w.players[p].participant);
    if rows != [] {
      FilterMembers(counted, w.stats, rows[0]);
      var j :| 0 <= j < |w.stats| && w.stats[j] == rows[0];
      assert CountsFor(w, g, p, j);
    }
    if j :| CountsFor(w, g, p, j) {
      FilterMembers(counted, w.stats, w.stats[j]);
    }
    LatestIsLast(w.corrections, g, p);
    if Latest(w.corrections, g, p).Some? {
      assert LastWord(w.corrections, g, p, Latest(w.corrections, g, p).value);
    }
  }

  /** No correction of the record is newer, nor as new with a larger identifier. */
  ghost predicate LastWord(cs: seq<Correction>, g: Id, p: Id, c: Correction)
  {
    && c in cs && c.gameweek == g && c.player == p
    && forall i :: 0 <= i < |cs| && cs[i].gameweek == g && cs[i].player == p ==>
      cs[i].createdAt < c.createdAt || (cs[i].createdAt == c.createdAt && cs[i].id <= c.id)
  }

  // Editing a statistic.

  lemma Difference(x: real, y: real, c: real)
    ensures y * c - x * c == (y - x) * c
  {
  }

  lemma {:induction false} EditMovesSum(f: Statistic -> real, p: Statistic -> bool, s: seq<Statistic>, i: nat, x: Statistic)
    requires i < |s| && p(s[i]) == p(x)
    ensures SumOf(f, Filter(p, s[i := x])) == SumOf(f, Filter(p, s)) + if p(x) then f(x) - f(s[i]) else 0.0
  {
    var n := |s| - 1;
    if i == n {
      assert s[i := x][..n] == s[..n];
      SumSnoc(f, Filter(p, s[..n]), s[n]);
      SumSnoc(f, Filter(p, s[..n]), x);
      assert Filter(p, s[..n]) + [] == Filter(p, s[..n]);
    } else {
      EditMovesSum(f, p, s[..n], i, x);
      assert s[i := x][..n] == s[..n][i := x];
      SumSnoc(f, Filter(p, s[..n]), s[n]);
      SumSnoc(f, Filter(p, s[..n][i := x]), s[n]);
      assert Filter(p, s[..n]) + [] == Filter(p, s[..n]);
      assert Filter(p, s[..n][i := x]) + [] == Filter(p, s[..n][i := x]);
    }
  }

  lemma SumSnoc<T>(f: T -> real, s: seq<T>, x: T)
    ensures SumOf(f, s + [x]) == SumOf(f, s) + f(x)
  {
    assert (s + [x])[..|s|] == s;
  }

  lemma RowMoves(table: map<string, real>, row: Statistic, y: real)
    ensures RowPoints(table)(row.(value := y)) - RowPoints(table)(row) ==
      if Upper(row.kind) in table then (y - row.value) * table[Upper(row.kind)] else 0.0
  {
    hide Upper;
    if Upper(row.kind) in table {
      Difference(row.value, y, table[Upper(row.kind)]);
    }
  }

  /** Editing a statistic from x to y moves the base points by (y - x) times the points of the rule that names it, and by
      nothing when it does not count or no rule names it. */
  lemma EditMovesBase(w: World, g: Id, p: Id, i: nat, y: real)
    requires g in w.gameweeks && p in w.players && i < |w.stats|
    ensures var v, x := w.(stats := w.stats[i := w.stats[i].(value := y)]), w.stats[i].value;
      var before, after := PlayerRecord(w, g, p).base, PlayerRecord(v, g, p).base;
      && (forall k :: CountsFor(w, g, p, i) && Priced(w, g, w.stats[i].kind, k) ==>
           after == before + (y - x) * w.rules[k].points)
      && (!CountsFor(w, g, p, i) || !(exists k :: Priced(w, g, w.stats[i].kind, k)) ==> after == before)
  {
    hide Upper, RuleTable, Priced, Breakdown, RowPoints, SumOf;
    var table := RuleTable(w.rules, w.gameweeks[g].competition);
    var counted := Counted(w.gameweeks[g].fixtures, w.players[p].participant);
    var row, x := w.stats[i].(value := y), w.stats[i].value;
    EditMovesSum(RowPoints(table), counted, w.stats, i, row);
    PricedMeans(w, g, row.kind);
    RowMoves(table, w.stats[i], y);
  }

  /** So the correction of a statistic moves the stored base points of a gameweek that was up to date. */
  lemma EditMovesStoredBase(w: World, g: Id, p: Id, i: nat, y: real)
    requires FreshlyScored(w, g) && InPool(w, g, p) && i < |w.stats| && y >= 0.0 && CountsFor(w, g, p, i)
    ensures var v := AfterStatisticEdit(w, i, y);
      && p in At(w.points, g) && p in At(v.points, g)
      && (forall k :: Priced(w, g, w.stats[i].kind, k) ==>
           At(v.points, g)[p].base == At(w.points, g)[p].base + (y - w.stats[i].value) * w.rules[k].points)
      && (!(exists k :: Priced(w, g, w.stats[i].kind, k)) ==> At(v.points, g)[p].base == At(w.points, g)[p].base)
  {
    hide ScoreSet, PlayerRecord, Priced, At;
    var u := w.(stats := w.stats[i := w.stats[i].(value := y)]);
    assert w.gameweeks[g].fixtures * {w.stats[i].fixture} != {} by {
      assert w.stats[i].fixture in w.gameweeks[g].fixtures * {w.stats[i].fixture};
    }
    EditMovesBase(w, g, p, i, y);
    ScoreRecords(u, Holding(w, {w.stats[i].fixture}), g, p);
  }

  // A team's breakdown.

  /** Line `d` is that of row `s`: what is stored for its player, doubled, tripled and so on for the leader. */
  ghost predicate Shows(w: World, g: Id, c: Competition, leader: Option<Id>, s: Selection, d: Detail)
  {
    var p := s.item.player;
    && d.player == p
    && (d.captain <==> leader == Some(p))
    && (p in w.players ==> d.position == w.players[p].position)
    && (p !in At(w.points, g) ==> d.base == 0.0 && d.correction == 0.0 && d.finalPoints == 0.0 && !d.available)
    && (p in At(w.points, g) ==>
         var r := At(w.points, g)[p];
         && d.base == r.base && d.correction == r.correction && d.available == r.available
         && d.finalPoints == (if leader == Some(p) then c.captainMultiplier * r.total else r.total)
         && d.captainBonus == d.finalPoints - r.total)
  }

  lemma LeaderCounts(x: real, m: real)
    ensures x + x * (m - 1.0) == m * x
  {
    assert x * (m - 1.0) == x * m - x;
  }

  lemma LineShows(w: World, g: Id, c: Competition, leader: Option<Id>, s: Selection)
    ensures Shows(w, g, c, leader, s, DetailOf(w.players, At(w.points, g), c, leader, s))
  {
    LeaderCounts(PointsOf(At(w.points, g), s.item.player), c.captainMultiplier);
  }

  /** The breakdown of a score has one line for each starter, in their order, with the captain's points multiplied; the
      penalty is that of the team's accounting row, or nothing without one. */
  lemma ScoreExplained(w: World, g: Id, t: Id) returns (rows: seq<Selection>)
    requires Enters(w, t, g)
    ensures var s, c := TeamScoreOf(w, g, t), w.competitions[w.gameweeks[g].competition];
      && |rows| == |s.details|
      && (forall i :: 0 <= i < |rows| ==> Shows(w, g, c, s.effectiveCaptain, rows[i], s.details[i]))
      && (forall x :: x in rows <==> x in w.teams[t].selections && x.item.starter)
      && |rows| == |Places((x: Selection) => x.item.starter, w.teams[t].selections)|
      && s.transferPenalty == (if t in At(w.states, g) then At(w.states, g)[t].penalty as real else 0.0)
      && s.totalPoints == s.playerPoints + s.captainBonus - s.transferPenalty
  {
    hide EffectiveCaptain, SumOf, Plays;
    rows := Starters(w, t);
    var s, c := TeamScoreOf(w, g, t), CompetitionOf(w, g);
    forall i | 0 <= i < |rows| ensures Shows(w, g, c, s.effectiveCaptain, rows[i], s.details[i]) {
      LineShows(w, g, c, s.effectiveCaptain, rows[i]);
    }
    forall x ensures x in rows <==> x in w.teams[t].selections && x.item.starter {
      FilterMembers(Starts, w.teams[t].selections, x);
    }
    FilterPlaces(Starts, w.teams[t].selections);
    assert Places(Starts, w.teams[t].selections) == Places((x: Selection) => x.item.starter, w.teams[t].selections);
  }

  // Taking part.

  /** Taking part is having a statistic or a lineup row in a fixture of the gameweek. */
  lemma TookPart(w: World, g: Id, s: Selection)
    requires g in w.gameweeks && s.item.player in w.players
    ensures Plays(w, g, s) <==>
      || (exists j :: CountsFor(w, g, s.item.player, j))
      || (exists f :: f in w.gameweeks[g].fixtures && (f, w.players[s.item.player].participant) in w.appearances)
  {
    var q, fixtures := w.players[s.item.player].participant, w.gameweeks[g].fixtures;
    if exists x :: x in w.stats && x.fixture in fixtures && x.participant == q {
      var x :| x in w.stats && x.fixture in fixtures && x.participant == q;
      var j :| 0 <= j < |w.stats| && w.stats[j] == x;
      assert CountsFor(w, g, s.item.player, j);
    }
  }
}
