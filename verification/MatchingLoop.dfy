/** What the books' `match` loop computes, and why it is the greedy walk of PriceTime.

    A book knows one symbol and keeps its own arrival counters. While the best bid reaches the best
    ask it executes the two front orders, at the price of whichever arrived first. */
module MatchingLoop {
  import opened Contracts
  import opened PriceTime

  type Arrivals = map<int, nat>

  /** Every order has its own arrival number. */
  ghost predicate Ranked(orders: Orders, arrivals: Arrivals) {
    && orders.Keys <= arrivals.Keys
    && forall i, j :: i in orders && j in orders && i != j ==> arrivals[i] != arrivals[j]
  }

  predicate Better(orders: Orders, arrivals: Arrivals, a: int, b: int)
    requires a in orders && b in orders && orders.Keys <= arrivals.Keys
  {
    if orders[a].price == orders[b].price then arrivals[a] < arrivals[b]
    else if orders[a].side == BUY then orders[a].price > orders[b].price
    else orders[a].price < orders[b].price
  }

  ghost predicate Top(orders: Orders, arrivals: Arrivals, side: int, id: int)
    requires orders.Keys <= arrivals.Keys
  {
    && id in orders && orders[id].side == side
    && forall j :: j in orders && orders[j].side == side && j != id ==> Better(orders, arrivals, id, j)
  }

  ghost predicate CrossedTops(orders: Orders, arrivals: Arrivals, b: int, a: int)
    requires orders.Keys <= arrivals.Keys
  {
    && Top(orders, arrivals, BUY, b)
    && Top(orders, arrivals, SELL, a)
    && orders[b].price >= orders[a].price
  }

  function Execution(orders: Orders, arrivals: Arrivals, b: int, a: int): Trade
    requires b in orders && a in orders && orders.Keys <= arrivals.Keys
  {
    Trade(b, a, if arrivals[b] < arrivals[a] then orders[b].price else orders[a].price,
          Min(orders[b].remaining, orders[a].remaining))
  }

  lemma ExecuteFacts(orders: Orders, b: int, a: int, qty: int)
    requires Open(orders) && b in orders && a in orders && b != a
    requires qty == Min(orders[b].remaining, orders[a].remaining)
    ensures var after := Execute(orders, b, a, qty);
      && Open(after) && |after| < |orders| && after.Keys <= orders.Keys
      && (forall id :: id in after ==> after[id] == orders[id].(remaining := after[id].remaining))
      && (forall id :: id in orders && id != b && id != a ==> id in after && after[id] == orders[id])
  {
    ReduceFacts(orders, b, qty);
    ReduceFacts(Reduce(orders, b, qty), a, qty);
  }

  ghost function MatchAll(orders: Orders, arrivals: Arrivals): Matched
    requires Open(orders) && Ranked(orders, arrivals)
    decreases |orders|
  {
    if exists b, a :: CrossedTops(orders, arrivals, b, a) then
      var b, a :| CrossedTops(orders, arrivals, b, a);
      var trade := Execution(orders, arrivals, b, a);
      ExecuteFacts(orders, b, a, trade.qty);
      var rest := MatchAll(Execute(orders, b, a, trade.qty), arrivals);
      Matched([trade] + rest.trades, rest.live)
    else Matched([], orders)
  }

  /** The tops are unique, so one round of the loop is determined. */
  lemma MatchAllStep(orders: Orders, arrivals: Arrivals, b: int, a: int)
    requires Open(orders) && Ranked(orders, arrivals) && CrossedTops(orders, arrivals, b, a)
    ensures b in orders && a in orders && b != a
    ensures var trade := Execution(orders, arrivals, b, a);
      var after := Execute(orders, b, a, trade.qty);
      && Open(after) && Ranked(after, arrivals) && |after| < |orders|
      && MatchAll(orders, arrivals).trades == [trade] + MatchAll(after, arrivals).trades
      && MatchAll(orders, arrivals).live == MatchAll(after, arrivals).live
  {
    ExecuteFacts(orders, b, a, Execution(orders, arrivals, b, a).qty);
    forall b', a' | CrossedTops(orders, arrivals, b', a') ensures b' == b && a' == a {
    }
  }

  lemma {:induction false} MatchAllShrinks(orders: Orders, arrivals: Arrivals)
    requires Open(orders) && Ranked(orders, arrivals)
    ensures MatchAll(orders, arrivals).live.Keys <= orders.Keys
    decreases |orders|
  {
    if exists b, a :: CrossedTops(orders, arrivals, b, a) {
      var b, a :| CrossedTops(orders, arrivals, b, a);
      MatchAllStep(orders, arrivals, b, a);
      var trade := Execution(orders, arrivals, b, a);
      ExecuteFacts(orders, b, a, trade.qty);
      MatchAllShrinks(Execute(orders, b, a, trade.qty), arrivals);
    }
  }

  /** The loop has executed `done` and is left with `orders`; together they make up `all`. */
  ghost predicate Progress(all: Matched, done: seq<Trade>, orders: Orders, arrivals: Arrivals) {
    && Open(orders) && Ranked(orders, arrivals)
    && all.trades == done + MatchAll(orders, arrivals).trades
    && all.live == MatchAll(orders, arrivals).live
  }

  lemma ProgressStarts(orders: Orders, arrivals: Arrivals)
    requires Open(orders) && Ranked(orders, arrivals)
    ensures Progress(MatchAll(orders, arrivals), [], orders, arrivals)
  {
  }

  lemma ProgressContinues(all: Matched, done: seq<Trade>, orders: Orders, arrivals: Arrivals, b: int, a: int)
    requires Progress(all, done, orders, arrivals) && CrossedTops(orders, arrivals, b, a)
    ensures b in orders && a in orders && b != a
    ensures var trade := Execution(orders, arrivals, b, a); var after := Execute(orders, b, a, trade.qty);
      Progress(all, done + [trade], after, arrivals) && |after| < |orders|
  {
    MatchAllStep(orders, arrivals, b, a);
  }

  lemma ProgressEnds(all: Matched, done: seq<Trade>, orders: Orders, arrivals: Arrivals)
    requires Progress(all, done, orders, arrivals) && forall b, a :: !CrossedTops(orders, arrivals, b, a)
    ensures all == Matched(done, orders)
  {
  }

  // ---- one book against the whole engine -----------------------------------------------------

  ghost function OfSymbol(live: Orders, symbol: int): Orders {
    map id | id in live && live[id].symbol == symbol :: live[id]
  }

  /** Later ids arrived later. */
  ghost predicate IdsInArrivalOrder(orders: Orders, arrivals: Arrivals) {
    && orders.Keys <= arrivals.Keys
    && forall i, j :: i in orders && j in orders && i < j ==> arrivals[i] < arrivals[j]
  }

  lemma OfSymbolExecute(live: Orders, symbol: int, b: int, a: int, qty: int)
    requires b in live && a in live && b != a && live[b].symbol == symbol && live[a].symbol == symbol
    ensures Execute(OfSymbol(live, symbol), b, a, qty) == OfSymbol(Execute(live, b, a, qty), symbol)
  {
    OfSymbolReduce(live, symbol, b, qty);
    OfSymbolReduce(Reduce(live, b, qty), symbol, a, qty);
  }

  lemma OfSymbolReduce(live: Orders, symbol: int, id: int, qty: int)
    requires id in live && live[id].symbol == symbol
    ensures Reduce(OfSymbol(live, symbol), id, qty) == OfSymbol(Reduce(live, id, qty), symbol)
  {
  }

  /** The taker and its best candidate are exactly the two tops the loop executes. */
  lemma BestIsTop(live: Orders, t: int, symbol: int, arrivals: Arrivals)
    requires Open(live) && t in live && live[t].symbol == symbol && UncrossedBut(live, Some(t))
    requires IdsInArrivalOrder(OfSymbol(live, symbol), arrivals)
    requires forall id :: id in OfSymbol(live, symbol) ==> id <= t
    requires Candidates(live, t) != {}
    ensures var m := Best(live, t); var trade := TradeOf(live, t, m);
      && CrossedTops(OfSymbol(live, symbol), arrivals, trade.buyId, trade.sellId)
      && trade == Execution(OfSymbol(live, symbol), arrivals, trade.buyId, trade.sellId)
  {
    var orders := OfSymbol(live, symbol);
    var m := Best(live, t);
    forall j | j in orders && orders[j].side == orders[m].side && j != m
      ensures Better(orders, arrivals, m, j)
    {
      if Candidate(live, t, j) { assert Ahead(live, m, j); }
    }
  }

  lemma NoCandidatesNoCross(live: Orders, t: int, symbol: int, arrivals: Arrivals)
    requires UncrossedBut(live, Some(t)) && OfSymbol(live, symbol).Keys <= arrivals.Keys
    requires t in live ==> Candidates(live, t) == {}
    ensures !exists b, a :: CrossedTops(OfSymbol(live, symbol), arrivals, b, a)
  {
    forall b, a ensures !CrossedTops(OfSymbol(live, symbol), arrivals, b, a) {
      if t in live {
        NoCandidates(live, t);
        assert !Candidate(live, t, a) && !Candidate(live, t, b);
      }
    }
  }

  /** On a book that only the newest order crosses, the loop is the greedy walk. */
  lemma {:induction false} MatchAllIsGreedy(live: Orders, t: int, symbol: int, arrivals: Arrivals)
    requires Open(live) && UncrossedBut(live, Some(t)) && (t in live ==> live[t].symbol == symbol)
    requires IdsInArrivalOrder(OfSymbol(live, symbol), arrivals)
    requires forall id :: id in OfSymbol(live, symbol) ==> id <= t
    ensures Ranked(OfSymbol(live, symbol), arrivals)
    ensures MatchAll(OfSymbol(live, symbol), arrivals).trades == Greedy(live, t).trades
    ensures MatchAll(OfSymbol(live, symbol), arrivals).live == OfSymbol(Greedy(live, t).live, symbol)
    decreases |live|
  {
    if t !in live || Candidates(live, t) == {} {
      NoCandidatesNoCross(live, t, symbol, arrivals);
    } else {
      var m := Best(live, t);
      var trade := TradeOf(live, t, m);
      AfterTradeFacts(live, t, m);
      TradeShrinks(live, t, m);
      BestIsTop(live, t, symbol, arrivals);
      MatchAllStep(OfSymbol(live, symbol), arrivals, trade.buyId, trade.sellId);
      OfSymbolExecute(live, symbol, trade.buyId, trade.sellId, trade.qty);
      MatchAllIsGreedy(AfterTrade(live, t, m), t, symbol, arrivals);
    }
  }
}
