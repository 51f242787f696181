/** Greedy price-time matching, stated on a plain map of live orders.

    Order ids are issued in arrival order, so "earliest arrival" is "lowest id" here. The books,
    which keep their own arrival counters, are tied to this module in MatchingLoop. */
module PriceTime {
  import opened Contracts

  datatype Order = Order(client: int, user: int, symbol: int, side: int, price: int, remaining: int, createdAt: int)

  type Orders = map<int, Order>

  /** One execution, as both order books report it. */
  datatype Trade = Trade(buyId: int, sellId: int, price: int, qty: int)

  datatype Matched = Matched(trades: seq<Trade>, live: Orders)

  ghost predicate Open(live: Orders) {
    forall id :: id in live ==> live[id].remaining > 0 && (live[id].side == BUY || live[id].side == SELL)
  }

  predicate Crosses(taker: Order, maker: Order) {
    if taker.side == BUY then maker.price <= taker.price else taker.price <= maker.price
  }

  /** A resting order the taker may trade with. */
  predicate Candidate(live: Orders, t: int, id: int)
    requires t in live
  {
    && id in live
    && live[id].symbol == live[t].symbol
    && live[id].side == Opposite(live[t].side)
    && Crosses(live[t], live[id])
  }

  /** Order `a` has priority over order `b` of the same side: better price, or same price and earlier. */
  predicate Ahead(live: Orders, a: int, b: int)
    requires a in live && b in live
  {
    if live[a].side == BUY then
      live[a].price > live[b].price || (live[a].price == live[b].price && a < b)
    else
      live[a].price < live[b].price || (live[a].price == live[b].price && a < b)
  }

  ghost predicate IsBest(live: Orders, t: int, id: int)
    requires t in live
  {
    && Candidate(live, t, id)
    && forall c :: Candidate(live, t, c) && c != id ==> Ahead(live, id, c)
  }

  ghost function Candidates(live: Orders, t: int): set<int>
    requires t in live
  {
    set id | id in live && Candidate(live, t, id)
  }

  lemma Member<T>(s: set<T>) returns (x: T)
    requires s != {}
    ensures x in s
  {
    x :| x in s;
  }

  lemma FirstOf(live: Orders, side: int, ids: set<int>) returns (best: int)
    requires ids != {}
    requires forall id :: id in ids ==> id in live && live[id].side == side
    ensures best in ids && forall c :: c in ids && c != best ==> Ahead(live, best, c)
    decreases ids
  {
    var x := Member(ids);
    if ids == {x} {
      best := x;
    } else {
      var rest := ids - {x};
      assert ids == rest + {x};
      var b := FirstOf(live, side, rest);
      best := if Ahead(live, x, b) then x else b;
      forall c | c in ids && c != best ensures Ahead(live, best, c) {
        assert c == x || c in rest;
      }
    }
  }

  lemma BestExists(live: Orders, t: int)
    requires t in live && Candidates(live, t) != {}
    ensures exists id :: IsBest(live, t, id)
  {
    var b := FirstOf(live, Opposite(live[t].side), Candidates(live, t));
    assert IsBest(live, t, b);
  }

  /** The best candidate is unique, so choosing one is a definition. */
  ghost function Best(live: Orders, t: int): (id: int)
    requires t in live && Candidates(live, t) != {}
    ensures IsBest(live, t, id)
  {
    BestExists(live, t);
    var id :| IsBest(live, t, id);
    id
  }

  function Reduce(live: Orders, id: int, qty: int): (r: Orders)
    requires id in live
  {
    if live[id].remaining <= qty then live - {id}
    else live[id := live[id].(remaining := live[id].remaining - qty)]
  }

  /** Both sides of an execution lose `qty`; an exhausted order leaves. */
  function Execute(live: Orders, buy: int, sell: int, qty: int): Orders
    requires buy in live && sell in live && buy != sell
  {
    Reduce(Reduce(live, buy, qty), sell, qty)
  }

  function TradeOf(live: Orders, t: int, m: int): Trade
    requires t in live && m in live
  {
    var qty := Min(live[t].remaining, live[m].remaining);
    if live[t].side == BUY then Trade(t, m, live[m].price, qty) else Trade(m, t, live[m].price, qty)
  }

  function AfterTrade(live: Orders, t: int, m: int): Orders
    requires t in live && m in live && t != m
  {
    var trade := TradeOf(live, t, m);
    Execute(live, trade.buyId, trade.sellId, trade.qty)
  }

  lemma AfterTradeFacts(live: Orders, t: int, m: int)
    requires Open(live) && t in live && Candidate(live, t, m)
    ensures t != m && Open(AfterTrade(live, t, m)) && |AfterTrade(live, t, m)| < |live|
    ensures AfterTrade(live, t, m).Keys <= live.Keys
    ensures forall id :: id in live && id != t && id != m ==>
      id in AfterTrade(live, t, m) && AfterTrade(live, t, m)[id] == live[id]
    ensures var q := Min(live[t].remaining, live[m].remaining);
      && (t in AfterTrade(live, t, m) <==> live[t].remaining > q)
      && (t in AfterTrade(live, t, m) ==> AfterTrade(live, t, m)[t] == live[t].(remaining := live[t].remaining - q))
      && (m in AfterTrade(live, t, m) <==> live[m].remaining > q)
      && (m in AfterTrade(live, t, m) ==> AfterTrade(live, t, m)[m] == live[m].(remaining := live[m].remaining - q))
  {
    var trade := TradeOf(live, t, m);
    var one := Reduce(live, trade.buyId, trade.qty);
    ReduceFacts(live, trade.buyId, trade.qty);
    ReduceFacts(one, trade.sellId, trade.qty);
  }

  lemma ReduceFacts(live: Orders, id: int, qty: int)
    requires id in live
    ensures Reduce(live, id, qty).Keys == if live[id].remaining <= qty then live.Keys - {id} else live.Keys
    ensures |Reduce(live, id, qty)| == if live[id].remaining <= qty then |live| - 1 else |live|
  {
    assert live[id := live[id].(remaining := live[id].remaining - qty)].Keys == live.Keys;
    CardinalityKeys(live);
    CardinalityKeys(Reduce(live, id, qty));
  }

  lemma CardinalityKeys<T, U>(m: map<T, U>)
    ensures |m| == |m.Keys|
  {
  }

  /** The greedy walk: trade with the best candidate until the taker or the candidates run out. */
  ghost function Greedy(live: Orders, t: int): Matched
    requires Open(live)
    decreases |live|
  {
    if t !in live || Candidates(live, t) == {} then Matched([], live)
    else
      var m := Best(live, t);
      AfterTradeFacts(live, t, m);
      var rest := Greedy(AfterTrade(live, t, m), t);
      Matched([TradeOf(live, t, m)] + rest.trades, rest.live)
  }

  // ---- what the walk means, stated without the walk -----------------------------------------

  function MakerOf(trade: Trade, t: int): int {
    if trade.buyId == t then trade.sellId else trade.buyId
  }

  function Filled(trades: seq<Trade>): int {
    if trades == [] then 0 else Filled(trades[..|trades| - 1]) + trades[|trades| - 1].qty
  }

  /** Execution `k` is between the taker and a resting candidate, at the candidate's price, for as
      much as both still have. */
  ghost predicate Fair(live: Orders, t: int, trades: seq<Trade>, k: nat)
    requires t in live && k < |trades|
  {
    var m := MakerOf(trades[k], t);
    && Candidate(live, t, m)
    && trades[k].qty == Min(live[t].remaining - Filled(trades[..k]), live[m].remaining) > 0
    && trades[k] == (if live[t].side == BUY then Trade(t, m, live[m].price, trades[k].qty)
                     else Trade(m, t, live[m].price, trades[k].qty))
  }

  ghost predicate TradedBefore(t: int, trades: seq<Trade>, k: nat, c: int)
    requires k <= |trades|
  {
    exists j :: 0 <= j < k && MakerOf(trades[j], t) == c
  }

  ghost predicate InOrder(live: Orders, t: int, trades: seq<Trade>, j: nat, k: nat)
    requires t in live && j < k < |trades|
  {
    && Fair(live, t, trades, j)
    && Fair(live, t, trades, k)
    && Ahead(live, MakerOf(trades[j], t), MakerOf(trades[k], t))
  }

  ghost predicate NothingSkipped(live: Orders, t: int, trades: seq<Trade>, k: nat)
    requires t in live && k < |trades| && Fair(live, t, trades, k)
  {
    forall c :: Candidate(live, t, c) && Ahead(live, c, MakerOf(trades[k], t)) ==> TradedBefore(t, trades, k, c)
  }

  /** Price-time priority: makers are taken strictly in priority order, nothing ahead of a traded
      maker is skipped, and the list ends only when the taker is filled or nothing is left. */
  ghost predicate PriceTimePriority(live: Orders, t: int, trades: seq<Trade>)
    requires t in live
  {
    && (forall k: nat :: k < |trades| ==> Fair(live, t, trades, k) && NothingSkipped(live, t, trades, k))
    && (forall j: nat, k: nat :: j < k < |trades| ==> InOrder(live, t, trades, j, k))
    && (Filled(trades) == live[t].remaining
        || forall c :: Candidate(live, t, c) ==> TradedBefore(t, trades, |trades|, c))
  }

  lemma FilledPrepend(first: Trade, rest: seq<Trade>)
    ensures Filled([first] + rest) == first.qty + Filled(rest)
  {
    if rest != [] {
      FilledPrepend(first, rest[..|rest| - 1]);
      assert ([first] + rest)[..|rest|] == [first] + rest[..|rest| - 1];
    } else {
      assert ([first] + rest)[..0] == [];
    }
  }

  lemma NoCandidates(live: Orders, t: int)
    requires t in live && Candidates(live, t) == {}
    ensures forall c :: !Candidate(live, t, c)
  {
    assert forall c :: c in Candidates(live, t) <==> Candidate(live, t, c);
  }

  /** One execution of the walk, and the rest of it. */
  lemma WalkOn(live: Orders, t: int) returns (m: int)
    requires Open(live) && t in live && Candidates(live, t) != {}
    ensures m in live && IsBest(live, t, m) && t != m
    ensures var after := AfterTrade(live, t, m);
      && Open(after) && |after| < |live|
      && Greedy(live, t) == Matched([TradeOf(live, t, m)] + Greedy(after, t).trades, Greedy(after, t).live)
      && (t in after ==> TookBest(live, after, t, m, TradeOf(live, t, m)))
      && (t !in after ==> Greedy(after, t) == Matched([], after) && live[t].remaining <= live[m].remaining)
  {
    m := Best(live, t);
    AfterTradeFacts(live, t, m);
    hide AfterTrade;
  }

  lemma NothingToTrade(live: Orders, t: int)
    requires Open(live) && t in live && Candidates(live, t) == {}
    ensures Greedy(live, t) == Matched([], live) && PriceTimePriority(live, t, [])
  {
    NoCandidates(live, t);
  }

  /** The greedy walk realises price-time priority. */
  lemma {:induction false} GreedyHasPriority(live: Orders, t: int)
    requires Open(live) && t in live
    ensures PriceTimePriority(live, t, Greedy(live, t).trades)
    decreases |live|
  {
    hide AfterTrade, IsBest, TookBest, PriceTimePriority, Open, Greedy, Candidates;
    if Candidates(live, t) == {} {
      NothingToTrade(live, t);
    } else {
      var m := WalkOn(live, t);
      var after := AfterTrade(live, t, m);
      if t in after {
        GreedyHasPriority(after, t);
        PrependBest(live, after, t, m, TradeOf(live, t, m), Greedy(after, t).trades);
      } else {
        TakerFilled(live, t, m);
        assert [TradeOf(live, t, m)] + [] == [TradeOf(live, t, m)];
      }
    }
  }

  lemma TakerFilled(live: Orders, t: int, m: int)
    requires Open(live) && t in live && IsBest(live, t, m)
    requires live[t].remaining <= live[m].remaining
    ensures PriceTimePriority(live, t, [TradeOf(live, t, m)])
  {
    var trades := [TradeOf(live, t, m)];
    assert trades[..0] == [];
    assert Fair(live, t, trades, 0);
    assert Filled(trades) == trades[0].qty;
  }

  /** The taker, still unfilled, has taken the whole of its best candidate `m`. */
  ghost predicate TookBest(live: Orders, after: Orders, t: int, m: int, trade: Trade) {
    && t in live && t in after && IsBest(live, t, m) && m !in after && t != m
    && trade == TradeOf(live, t, m) && trade.qty == live[m].remaining > 0
    && after[t] == live[t].(remaining := live[t].remaining - trade.qty) && after[t].remaining > 0
    && (forall id :: id != m && id != t ==> (id in live <==> id in after))
    && (forall id :: id in after && id != t ==> live[id] == after[id])
  }

  lemma CandidatesAfter(live: Orders, after: Orders, t: int, m: int, trade: Trade)
    requires TookBest(live, after, t, m, trade)
    ensures forall c :: Candidate(live, t, c) <==> Candidate(after, t, c) || c == m
    ensures forall c :: Candidate(after, t, c) ==> after[c] == live[c] && c != t && c != m
    ensures forall c, d :: Candidate(after, t, c) && Candidate(after, t, d) ==>
      (Ahead(live, c, d) <==> Ahead(after, c, d))
    ensures MakerOf(trade, t) == m
  {
  }

  lemma PrependBest(live: Orders, after: Orders, t: int, m: int, trade: Trade, rest: seq<Trade>)
    requires TookBest(live, after, t, m, trade) && PriceTimePriority(after, t, rest)
    ensures PriceTimePriority(live, t, [trade] + rest)
  {
    var trades := [trade] + rest;
    CandidatesAfter(live, after, t, m, trade);
    assert forall k: nat :: 0 < k < |trades| ==> trades[k] == rest[k - 1];
    forall k: nat | k < |trades| ensures Fair(live, t, trades, k) {
      FairShift(live, after, t, m, trade, rest, k);
    }
    forall j: nat, k: nat | j < k < |trades| ensures InOrder(live, t, trades, j, k) {
      assert Fair(live, t, trades, j) && Fair(live, t, trades, k) && Fair(after, t, rest, k - 1);
      if j > 0 { assert InOrder(after, t, rest, j - 1, k - 1); }
    }
    forall k: nat | k < |trades| ensures NothingSkipped(live, t, trades, k) {
      assert Fair(live, t, trades, k);
      forall c | Candidate(live, t, c) && Ahead(live, c, MakerOf(trades[k], t))
        ensures TradedBefore(t, trades, k, c)
      {
        if k > 0 {
          assert NothingSkipped(after, t, rest, k - 1);
          TradedShift(t, m, trade, rest, k, c);
        }
      }
    }
    FilledPrepend(trade, rest);
    if Filled(trades) != live[t].remaining {
      forall c | Candidate(live, t, c) ensures TradedBefore(t, trades, |trades|, c) {
        TradedShift(t, m, trade, rest, |trades|, c);
      }
    }
  }

  lemma FairShift(live: Orders, after: Orders, t: int, m: int, trade: Trade, rest: seq<Trade>, k: nat)
    requires TookBest(live, after, t, m, trade)
    requires k <= |rest| && (k > 0 ==> Fair(after, t, rest, k - 1))
    ensures Fair(live, t, [trade] + rest, k)
  {
    var trades := [trade] + rest;
    CandidatesAfter(live, after, t, m, trade);
    if k > 0 {
      assert trades[..k] == [trade] + rest[..k - 1];
      FilledPrepend(trade, rest[..k - 1]);
    } else {
      assert trades[..0] == [];
    }
  }

  lemma TradedShift(t: int, m: int, trade: Trade, rest: seq<Trade>, k: nat, c: int)
    requires 0 < k <= |rest| + 1 && MakerOf(trade, t) == m
    requires c == m || TradedBefore(t, rest, k - 1, c)
    ensures TradedBefore(t, [trade] + rest, k, c)
  {
    var trades := [trade] + rest;
    if c == m {
      assert MakerOf(trades[0], t) == c;
    } else {
      var j :| 0 <= j < k - 1 && MakerOf(rest[j], t) == c;
      assert MakerOf(trades[j + 1], t) == c;
    }
  }

  /** Price-time priority leaves no choice: it has exactly one list of executions. */
  lemma {:induction false} PriorityIsUnique(live: Orders, t: int, a: seq<Trade>, b: seq<Trade>)
    requires t in live && PriceTimePriority(live, t, a) && PriceTimePriority(live, t, b)
    ensures a == b
  {
    CommonPrefix(live, t, a, b, |a|);
    CommonPrefix(live, t, b, a, |b|);
    assert a == a[..|a|] == b[..|a|];
  }

  lemma {:induction false} CommonPrefix(live: Orders, t: int, a: seq<Trade>, b: seq<Trade>, n: nat)
    requires t in live && PriceTimePriority(live, t, a) && PriceTimePriority(live, t, b)
    requires n <= |a|
    ensures n <= |b| && a[..n] == b[..n]
  {
    if n > 0 {
      var k := n - 1;
      CommonPrefix(live, t, a, b, k);
      SameNext(live, t, a, b, k);
      assert a[..n] == a[..k] + [a[k]] && b[..n] == b[..k] + [b[k]];
    }
  }

  lemma SameNext(live: Orders, t: int, a: seq<Trade>, b: seq<Trade>, k: nat)
    requires t in live && PriceTimePriority(live, t, a) && PriceTimePriority(live, t, b)
    requires k < |a| && k <= |b| && a[..k] == b[..k]
    ensures k < |b| && a[k] == b[k]
  {
    NotTradedBefore(live, t, a, b, k);
    assert Fair(live, t, a, k);
    assert b[..|b|] == b;
    assert k < |b|;
    NotTradedBefore(live, t, b, a, k);
    assert Fair(live, t, b, k) && NothingSkipped(live, t, a, k) && NothingSkipped(live, t, b, k);
  }

  lemma NotTradedBefore(live: Orders, t: int, a: seq<Trade>, b: seq<Trade>, k: nat)
    requires t in live && PriceTimePriority(live, t, a)
    requires k < |a| && k <= |b| && a[..k] == b[..k]
    ensures !TradedBefore(t, b, k, MakerOf(a[k], t))
  {
    forall j: nat | j < k ensures MakerOf(b[j], t) != MakerOf(a[k], t) {
      assert a[j] == a[..k][j] == b[..k][j] == b[j];
      assert InOrder(live, t, a, j, k);
    }
  }

  // ---- what the walk keeps -------------------------------------------------------------------

  /** No resting buy is priced at or above a resting sell of the same symbol, `skip` aside. */
  ghost predicate UncrossedBut(live: Orders, skip: Option<int>) {
    forall b, a :: b in live && a in live && live[b].side == BUY && live[a].side == SELL
                   && live[b].symbol == live[a].symbol && skip != Some(b) && skip != Some(a)
                   ==> live[b].price < live[a].price
  }

  ghost predicate Uncrossed(live: Orders) {
    UncrossedBut(live, None)
  }

  /** `after` is `live` with some orders smaller or gone, and the orders in `same` untouched. */
  ghost predicate Shrinks(live: Orders, after: Orders) {
    && after.Keys <= live.Keys
    && (forall id :: id in after ==> 0 < after[id].remaining <= live[id].remaining)
    && (forall id :: id in after ==> after[id] == live[id].(remaining := after[id].remaining))
  }

  ghost predicate LeavesOthers(live: Orders, after: Orders, t: int)
    requires t in live
  {
    forall id :: id in live && id != t && !Candidate(live, t, id) ==> id in after && after[id] == live[id]
  }

  /** Nothing but the taker and its candidates changes, and the book ends uncrossed. */
  lemma {:induction false} GreedyKeeps(live: Orders, t: int)
    requires Open(live) && t in live && UncrossedBut(live, Some(t))
    ensures Shrinks(live, Greedy(live, t).live)
    ensures LeavesOthers(live, Greedy(live, t).live, t)
    ensures Uncrossed(Greedy(live, t).live)
    decreases |live|
  {
    if Candidates(live, t) == {} {
      NoCandidates(live, t);
      forall b, a | b in live && a in live && live[b].side == BUY && live[a].side == SELL
                    && live[b].symbol == live[a].symbol
        ensures live[b].price < live[a].price
      {
        assert !Candidate(live, t, a) && !Candidate(live, t, b);
      }
    } else {
      var m := Best(live, t);
      AfterTradeFacts(live, t, m);
      var after := AfterTrade(live, t, m);
      TradeShrinks(live, t, m);
      if t in after {
        GreedyKeeps(after, t);
      }
    }
  }

  lemma TradeShrinks(live: Orders, t: int, m: int)
    requires Open(live) && t in live && Candidate(live, t, m)
    ensures Shrinks(live, AfterTrade(live, t, m)) && LeavesOthers(live, AfterTrade(live, t, m), t)
    ensures UncrossedBut(live, Some(t)) ==> UncrossedBut(AfterTrade(live, t, m), Some(t))
  {
    AfterTradeFacts(live, t, m);
  }
}
