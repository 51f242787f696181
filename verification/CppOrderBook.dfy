/** The C++ order book: sorted price maps, an order map and arrival counters, changed in place. */
module CppOrderBook {
  import opened Contracts
  import opened PriceTime
  import opened MatchingLoop
  import opened PriceLevels

  class OrderBook {
    var bids: Levels
    var asks: Levels
    var ordersById: Orders
    var arrivalSequence: Arrivals
    var nextArrival: nat

    ghost predicate Indexed()
      reads this
    {
      Consistent(bids, asks, ordersById, arrivalSequence, nextArrival)
    }

    ghost predicate Valid()
      reads this
    {
      Indexed() && Open(ordersById)
    }

    constructor ()
      ensures Valid() && ordersById == map[] && nextArrival == 0
    {
      bids, asks, ordersById, arrivalSequence, nextArrival := map[], map[], map[], map[], 0;
    }

    /** `ok` is false where the source throws: the id is already in the book. */
    method AddOrder(id: int, order: Order) returns (ok: bool)
      requires Valid()
      requires order.remaining > 0 && (order.side == BUY || order.side == SELL)
      modifies this
      ensures Valid()
      ensures ok == (id !in old(ordersById))
      ensures !ok ==> unchanged(this)
      ensures ok ==> ordersById == old(ordersById)[id := order]
      ensures ok ==>
        arrivalSequence == old(arrivalSequence)[id := old(nextArrival)] && nextArrival == old(nextArrival) + 1
    {
      if id in ordersById {
        return false;
      }
      hide Consistent;
      AddKeepsConsistent(bids, asks, ordersById, arrivalSequence, nextArrival, id, order);
      ordersById := ordersById[id := order];
      arrivalSequence := arrivalSequence[id := nextArrival];
      nextArrival := nextArrival + 1;
      if order.side == BUY {
        bids := Enqueue(bids, order.price, id);
      } else {
        asks := Enqueue(asks, order.price, id);
      }
      return true;
    }

    method RemoveOrder(id: int) returns (removed: Option<Order>)
      requires Indexed()
      modifies this
      ensures Indexed()
      ensures removed == (if id in old(ordersById) then Some(old(ordersById)[id]) else None)
      ensures ordersById == old(ordersById) - {id} && arrivalSequence == old(arrivalSequence) - {id}
      ensures nextArrival == old(nextArrival)
    {
      if id !in ordersById {
        assert ordersById == ordersById - {id} && arrivalSequence == arrivalSequence - {id};
        return None;
      }
      RemoveKeepsConsistent(bids, asks, ordersById, arrivalSequence, nextArrival, id);
      hide Consistent;
      var order := ordersById[id];
      if order.side == BUY {
        bids := Dequeue(bids, order.price, id);
      } else {
        asks := Dequeue(asks, order.price, id);
      }
      ordersById := ordersById - {id};
      arrivalSequence := arrivalSequence - {id};
      return Some(order);
    }

    method BestBid() returns (p: Option<int>)
      ensures if bids == map[] then p == None else p.Some? && BestPrice(bids, BUY, p.value)
    {
      if bids == map[] {
        return None;
      }
      BestPriceExists(bids, BUY);
      var q :| q in bids && BestPrice(bids, BUY, q);
      return Some(q);
    }

    method BestAsk() returns (p: Option<int>)
      ensures if asks == map[] then p == None else p.Some? && BestPrice(asks, SELL, p.value)
    {
      if asks == map[] {
        return None;
      }
      BestPriceExists(asks, SELL);
      var q :| q in asks && BestPrice(asks, SELL, q);
      return Some(q);
    }

    /** Take `qty` from both orders, and drop whichever is exhausted. */
    method Settle(b: int, a: int, qty: int)
      requires Valid() && b in ordersById && a in ordersById && b != a
      requires qty == Min(ordersById[b].remaining, ordersById[a].remaining)
      modifies this
      ensures Valid()
      ensures ordersById == Execute(old(ordersById), b, a, qty)
      ensures nextArrival == old(nextArrival)
      ensures Within(arrivalSequence, old(arrivalSequence))
    {
      SettledIsExecuted(ordersById, b, a, qty);
      WithinItself(arrivalSequence);
      hide Consistent, Within, Execute, Open, Dropped, Less;
      Reduce(b, qty);
      Reduce(a, qty);
      DropIfExhausted(b, old(arrivalSequence));
      DropIfExhausted(a, old(arrivalSequence));
    }

    method Reduce(id: int, qty: int)
      requires Indexed() && id in ordersById
      modifies this`ordersById
      ensures Indexed() && ordersById == Less(old(ordersById), id, qty)
    {
      var less := Less(ordersById, id, qty);
      ResizeKeepsConsistent(bids, asks, ordersById, less, arrivalSequence, nextArrival);
      hide Consistent;
      ordersById := less;
    }

    method DropIfExhausted(id: int, ghost since: Arrivals)
      requires Indexed() && Within(arrivalSequence, since)
      modifies this
      ensures Indexed() && nextArrival == old(nextArrival) && Within(arrivalSequence, since)
      ensures ordersById == Dropped(old(ordersById), id)
    {
      if id in ordersById && ordersById[id].remaining == 0 {
        hide Consistent;
        WithinRemove(arrivalSequence, since, id);
        hide Within;
        var _ := RemoveOrder(id);
      }
    }

    method Match() returns (trades: seq<Trade>)
      requires Valid()
      modifies this
      ensures Valid()
      ensures trades == MatchAll(old(ordersById), old(arrivalSequence)).trades
      ensures ordersById == MatchAll(old(ordersById), old(arrivalSequence)).live
      ensures nextArrival == old(nextArrival)
      ensures Within(arrivalSequence, old(arrivalSequence))
    {
      ghost var arrivals := arrivalSequence;
      MatchingRound(bids, asks, ordersById, arrivalSequence, nextArrival, arrivals);
      ghost var all := MatchAll(ordersById, arrivals);
      ProgressStarts(ordersById, arrivals);
      WithinItself(arrivals);
      hide Consistent, Open, BestPrice, Within, Execute, CrossedTops, Progress, MatchAll;
      trades := [];
      while true
        invariant Valid() && nextArrival == old(nextArrival)
        invariant Within(arrivalSequence, arrivals) && Progress(all, trades, ordersById, arrivals)
        decreases |ordersById|
      {
        MatchingRound(bids, asks, ordersById, arrivalSequence, nextArrival, arrivals);
        var bidPrice := BestBid();
        var askPrice := BestAsk();
        if bidPrice == None || askPrice == None || bidPrice.value < askPrice.value {
          ProgressEnds(all, trades, ordersById, arrivals);
          return;
        }
        var b := bids[bidPrice.value][0];
        var a := asks[askPrice.value][0];
        ProgressContinues(all, trades, ordersById, arrivals, b, a);
        var trade := Execution(ordersById, arrivalSequence, b, a);
        SameExecution(ordersById, arrivalSequence, arrivals, b, a);
        trades := trades + [trade];
        ghost var before := arrivalSequence;
        Settle(b, a, trade.qty);
        WithinTransitive(arrivalSequence, before, arrivals);
      }
    }
  }
}
