/** The transfer log explains every squad, every budget and every penalty. */
module TransferLedger {
  import opened Sequences
  import opened FantasyModel
  import opened Scoring
  import opened Season

  // Replaying a log.

  /** One transfer row on a ledger; `None` when the row contradicts it. */
  function Apply(l: Ledger, row: Transfer): Option<Ledger>
  {
    if row.playerOut in l.holdings && l.holdings[row.playerOut] == row.priceOut
      && (row.playerIn !in l.holdings || row.playerIn == row.playerOut)
    then Some(Ledger(l.budget + row.priceOut - row.priceIn, (l.holdings - {row.playerOut})[row.playerIn := row.priceIn]))
    else None
  }

  function Replay(l: Ledger, log: seq<Transfer>): Option<Ledger>
  {
    if log == [] then Some(l)
    else
      var before := Replay(l, log[..|log| - 1]);
      if before.None? then None else Apply(before.value, log[|log| - 1])
  }

  function ByTeam(t: Id): Transfer -> bool { (row: Transfer) => row.team == t }

  /** The transfer rows of one team, oldest first. */
  function LogOf(transfers: seq<Transfer>, t: Id): seq<Transfer>
  {
    Filter(ByTeam(t), transfers)
  }

  /** Replaying the team's rows from its creation gives exactly its budget and the prices it paid. */
  ghost predicate LedgerSound(w: World, t: Id)
    requires t in w.teams
  {
    && t in w.founding
    && Replay(w.founding[t], LogOf(w.transfers, t))
      == Some(Ledger(w.teams[t].budgetRemaining, Holdings(w.teams[t].selections)))
  }

  lemma {:induction false} HoldingsLookup(s: seq<Selection>, p: Id)
    requires DistinctMembers(s)
    ensures p in Holdings(s) <==> Holds(s, p)
    ensures forall i :: 0 <= i < |s| && s[i].item.player == p ==> p in Holdings(s) && Holdings(s)[p] == s[i].purchasePrice
  {
    if s != [] {
      var n := |s| - 1;
      HoldingsLookup(s[..n], p);
      assert forall i :: 0 <= i < n ==> s[..n][i] == s[i];
      if Holds(s[..n], p) {
        var i :| 0 <= i < n && s[..n][i].item.player == p;
        assert s[i].item.player == p;
      }
    }
  }

  /** Exchanging one member for a new one exchanges its price. */
  lemma HoldingsExchange(s: seq<Selection>, i: nat, x: Selection)
    requires i < |s| && DistinctMembers(s) && DistinctMembers(s[i := x])
    ensures Holdings(s[i := x]) == (Holdings(s) - {s[i].item.player})[x.item.player := x.purchasePrice]
  {
    var a, b := Holdings(s[i := x]), (Holdings(s) - {s[i].item.player})[x.item.player := x.purchasePrice];
    forall p: Id
      ensures p in a <==> p in b
      ensures p in a ==> a[p] == b[p]
    {
      HoldingsLookup(s, p);
      HoldingsLookup(s[i := x], p);
      if Holds(s, p) {
        var j :| 0 <= j < |s| && s[j].item.player == p;
        assert j != i ==> s[i := x][j] == s[j];
      }
      if Holds(s[i := x], p) {
        var j :| 0 <= j < |s| && s[i := x][j].item.player == p;
        assert j != i ==> s[i := x][j] == s[j];
      }
      assert s[i := x][i] == x;
    }
  }

  lemma LogAppend(transfers: seq<Transfer>, row: Transfer, t: Id)
    ensures LogOf(transfers + [row], t) == LogOf(transfers, t) + if row.team == t then [row] else []
  {
    assert (transfers + [row])[..|transfers|] == transfers;
  }

  lemma ReplayAppend(l: Ledger, log: seq<Transfer>, row: Transfer)
    ensures Replay(l, log + [row]) ==
      if Replay(l, log).None? then None else Apply(Replay(l, log).value, row)
  {
    assert (log + [row])[..|log|] == log;
  }

  // What a replay says about prices.

  /** `j` is the last row of `log` that brought player `p` in. */
  ghost predicate LastPurchase(log: seq<Transfer>, j: nat, p: Id)
  {
    && j < |log| && log[j].playerIn == p
    && forall k :: j < k < |log| ==> log[k].playerIn != p
  }

  lemma {:induction false} HeldPrice(l: Ledger, log: seq<Transfer>, p: Id)
    requires Replay(l, log).Some? && p in Replay(l, log).value.holdings
    ensures (exists j: nat :: LastPurchase(log, j, p) && log[j].priceIn == Replay(l, log).value.holdings[p])
      || ((forall k :: 0 <= k < |log| ==> log[k].playerIn != p)
        && p in l.holdings && l.holdings[p] == Replay(l, log).value.holdings[p])
  {
    if log != [] {
      var n := |log| - 1;
      if log[n].playerIn == p {
        assert LastPurchase(log, n, p);
      } else {
        HeldPrice(l, log[..n], p);
        if j: nat :| LastPurchase(log[..n], j, p) && log[..n][j].priceIn == Replay(l, log).value.holdings[p] {
          assert LastPurchase(log, j, p);
        }
      }
    }
  }

  lemma {:induction false} ReplayPrefix(l: Ledger, log: seq<Transfer>, i: nat)
    requires i < |log| && Replay(l, log).Some?
    ensures Replay(l, log[..i]).Some? && Apply(Replay(l, log[..i]).value, log[i]).Some?
  {
    var n := |log| - 1;
    if i < n {
      ReplayPrefix(l, log[..n], i);
      assert log[..n][..i] == log[..i];
    }
  }

  /** Every player is sold at the price of its last purchase, or at its creation price if there was none. */
  lemma PriceOutIsLastPrice(l: Ledger, log: seq<Transfer>, i: nat)
    requires i < |log| && Replay(l, log).Some?
    ensures (exists j: nat :: j < i && LastPurchase(log[..i], j, log[i].playerOut) && log[j].priceIn == log[i].priceOut)
      || ((forall k :: 0 <= k < i ==> log[k].playerIn != log[i].playerOut)
        && log[i].playerOut in l.holdings && l.holdings[log[i].playerOut] == log[i].priceOut)
  {
    ReplayPrefix(l, log, i);
    HeldPrice(l, log[..i], log[i].playerOut);
  }

  function BudgetFlow(row: Transfer): real { row.priceOut - row.priceIn }

  /** The budget is the creation budget plus everything the transfers earned and cost. */
  lemma {:induction false} BudgetIsFlow(l: Ledger, log: seq<Transfer>)
    requires Replay(l, log).Some?
    ensures Replay(l, log).value.budget == l.budget + SumOf(BudgetFlow, log)
  {
    if log != [] {
      BudgetIsFlow(l, log[..|log| - 1]);
    }
  }

  // Penalties.

  function ByTeamGameweek(t: Id, g: Id): Transfer -> bool
  {
    (row: Transfer) => row.team == t && row.gameweek == g
  }

  function PenaltyOf(row: Transfer): real { row.penalty as real }

  function Moves(w: World, t: Id, g: Id): seq<Transfer>
  {
    Filter(ByTeamGameweek(t, g), w.transfers)
  }

  function Excess(used: nat, free: nat): nat
  {
    if used > free then used - free else 0
  }

  /** The accounting row of a team and gameweek is a closed form of how many transfers there were. */
  ghost predicate AccountSound(w: World, t: Id, g: Id)
    requires Enters(w, t, g)
  {
    var c := CompetitionOf(w, g);
    var s := StateOf(w, t, g, c);
    && s.free == c.freeTransfersPerGameweek
    && s.used == |Moves(w, t, g)|
    && s.penalty == c.transferPenalty * Excess(s.used, s.free)
    && s.penalty as real == SumOf(PenaltyOf, Moves(w, t, g))
  }

  lemma MovesAppend(w: World, v: World, row: Transfer, t: Id, g: Id)
    requires v.transfers == w.transfers + [row]
    ensures Moves(v, t, g) == Moves(w, t, g) + if row.team == t && row.gameweek == g then [row] else []
  {
    assert v.transfers[..|w.transfers|] == w.transfers;
  }

  lemma OneMoreCharge(penalty: int, used: nat, free: nat)
    ensures penalty * Excess(used + 1, free) == penalty * Excess(used, free) + if free > used then 0 else penalty
  {
    assert Excess(used + 1, free) == Excess(used, free) + if free > used then 0 else 1;
    if free <= used {
      assert penalty * (Excess(used, free) + 1) == penalty * Excess(used, free) + penalty;
    }
  }
}
