/** The Python reference book. Its queues hold the order objects themselves, and a match reduces
    those objects in place, so everyone holding a reference sees the new quantity. */
module NaiveModel {
  import opened Contracts
  import opened PriceTime
  import opened MatchingLoop
  import opened PriceLevels

  class ModelOrder {
    const id: int
    const terms: Order
    var remaining: int

    constructor (id: int, terms: Order)
      ensures this.id == id && this.terms == terms && remaining == terms.remaining
    {
      this.id, this.terms := id, terms;
      remaining := terms.remaining;
    }

    function Now(): Order
      reads this
    {
      terms.(remaining := remaining)
    }
  }

  type Queues = map<int, seq<ModelOrder>>
  type Book = map<int, ModelOrder>

  /** The queue of objects is the queue of ids, looked up. */
  ghost predicate MirrorsQueue(q: seq<ModelOrder>, ids: seq<int>, byId: Book) {
    |q| == |ids| && forall i :: 0 <= i < |ids| ==> ids[i] in byId && q[i] == byId[ids[i]]
  }

  ghost predicate Mirrors(queues: Queues, levels: Levels, byId: Book) {
    queues.Keys == levels.Keys && forall p :: p in levels ==> MirrorsQueue(queues[p], levels[p], byId)
  }

  ghost predicate Identified(byId: Book) {
    forall id :: id in byId ==> byId[id].id == id
  }

  function Append(queues: Queues, price: int, o: ModelOrder): Queues {
    queues[price := (if price in queues then queues[price] else []) + [o]]
  }

  function EraseOrder(q: seq<ModelOrder>, o: ModelOrder): seq<ModelOrder> {
    if q == [] then []
    else if q[0] == o then q[1..]
    else [q[0]] + EraseOrder(q[1..], o)
  }

  function Discard(queues: Queues, price: int, o: ModelOrder): Queues {
    if price !in queues then queues
    else
      var q := EraseOrder(queues[price], o);
      if q == [] then queues - {price} else queues[price := q]
  }

  lemma {:induction false} EraseMirrors(q: seq<ModelOrder>, ids: seq<int>, byId: Book, id: int)
    requires MirrorsQueue(q, ids, byId) && Identified(byId) && id in byId
    ensures MirrorsQueue(EraseOrder(q, byId[id]), Erase(ids, id), byId)
  {
    if q != [] {
      EraseMirrors(q[1..], ids[1..], byId, id);
    }
  }

  lemma MirrorsOthers(queues: Queues, levels: Levels, byId: Book, byId': Book)
    requires Mirrors(queues, levels, byId)
    requires forall p, i :: p in levels && 0 <= i < |levels[p]| && levels[p][i] in byId ==>
      levels[p][i] in byId' && byId'[levels[p][i]] == byId[levels[p][i]]
    ensures Mirrors(queues, levels, byId')
  {
    forall p | p in levels ensures MirrorsQueue(queues[p], levels[p], byId') {
      assert MirrorsQueue(queues[p], levels[p], byId);
    }
  }

  lemma AppendMirrors(queues: Queues, levels: Levels, byId: Book, o: ModelOrder)
    requires Mirrors(queues, levels, byId) && o.id !in byId
    ensures Mirrors(Append(queues, o.terms.price, o), Enqueue(levels, o.terms.price, o.id), byId[o.id := o])
    ensures Mirrors(queues, levels, byId[o.id := o])
  {
    MirrorsOthers(queues, levels, byId, byId[o.id := o]);
  }

  lemma DiscardMirrors(queues: Queues, levels: Levels, byId: Book, id: int, price: int)
    requires Mirrors(queues, levels, byId) && Identified(byId) && id in byId && price in levels
    ensures Mirrors(Discard(queues, price, byId[id]), Dequeue(levels, price, id), byId)
  {
    EraseMirrors(queues[price], levels[price], byId, id);
    assert Erase(levels[price], id) == [] <==> EraseOrder(queues[price], byId[id]) == [];
  }

  /** An id that no level mentions may be dropped. */
  lemma DropMirrors(queues: Queues, levels: Levels, byId: Book, id: int, side: int, orders: Orders, arrivals: Arrivals)
    requires Mirrors(queues, levels, byId) && Indexes(levels, side, orders, arrivals) && id !in orders
    ensures Mirrors(queues, levels, byId - {id})
  {
    forall p | p in levels ensures MirrorsQueue(queues[p], levels[p], byId - {id}) {
      assert MirrorsQueue(queues[p], levels[p], byId) && Level(levels[p], p, side, orders, arrivals);
      forall i | 0 <= i < |levels[p]| ensures levels[p][i] != id {
        var x := levels[p][i];
        assert x in levels[p];
      }
    }
  }

  /** The orders as they stand now. */
  ghost function ViewOf(byId: Book): Orders
    reads set id | id in byId :: byId[id]
  {
    map id | id in byId :: byId[id].Now()
  }

  ghost predicate Owned(byId: Book, repr: set<ModelOrder>) {
    forall id :: id in byId ==> byId[id] in repr
  }

  /** The objects are where the ids say. */
  ghost predicate Shape(bids: Queues, asks: Queues, byId: Book, bidIds: Levels, askIds: Levels) {
    Identified(byId) && Mirrors(bids, bidIds, byId) && Mirrors(asks, askIds, byId)
  }

  lemma ViewInsert(byId: Book, o: ModelOrder)
    ensures ViewOf(byId[o.id := o]) == ViewOf(byId)[o.id := o.Now()]
  {
  }

  lemma ViewRemove(byId: Book, id: int)
    ensures ViewOf(byId - {id}) == ViewOf(byId) - {id}
  {
  }

  lemma ShapeInsert(bids: Queues, asks: Queues, byId: Book, bidIds: Levels, askIds: Levels, o: ModelOrder)
    requires Shape(bids, asks, byId, bidIds, askIds) && o.id !in byId
    ensures o.terms.side == BUY ==> Shape(Append(bids, o.terms.price, o), asks, byId[o.id := o],
                                          Enqueue(bidIds, o.terms.price, o.id), askIds)
    ensures o.terms.side != BUY ==> Shape(bids, Append(asks, o.terms.price, o), byId[o.id := o],
                                          bidIds, Enqueue(askIds, o.terms.price, o.id))
  {
    AppendMirrors(bids, bidIds, byId, o);
    AppendMirrors(asks, askIds, byId, o);
  }

  lemma ShapeRemove(bids: Queues, asks: Queues, byId: Book, bidIds: Levels, askIds: Levels, id: int,
                    orders: Orders, arrivals: Arrivals, next: nat)
    requires Shape(bids, asks, byId, bidIds, askIds) && id in byId
    requires Consistent(bidIds, askIds, orders, arrivals, next) && id in orders
    ensures orders[id].side == BUY ==> Shape(Discard(bids, orders[id].price, byId[id]), asks, byId - {id},
                                             Dequeue(bidIds, orders[id].price, id), askIds)
    ensures orders[id].side != BUY ==> Shape(bids, Discard(asks, orders[id].price, byId[id]), byId - {id},
                                             bidIds, Dequeue(askIds, orders[id].price, id))
  {
    RemoveKeepsConsistent(bidIds, askIds, orders, arrivals, next, id);
    var price := orders[id].price;
    if orders[id].side == BUY {
      DiscardMirrors(bids, bidIds, byId, id, price);
      DropMirrors(Discard(bids, price, byId[id]), Dequeue(bidIds, price, id), byId, id, BUY, orders - {id},
        arrivals - {id});
      DropMirrors(asks, askIds, byId, id, SELL, orders - {id}, arrivals - {id});
    } else {
      DiscardMirrors(asks, askIds, byId, id, price);
      DropMirrors(bids, bidIds, byId, id, BUY, orders - {id}, arrivals - {id});
      DropMirrors(Discard(asks, price, byId[id]), Dequeue(askIds, price, id), byId, id, SELL, orders - {id},
        arrivals - {id});
    }
  }

  class OrderBook {
    var bids: Queues
    var asks: Queues
    var ordersById: Book
    var arrivalSequence: Arrivals
    var nextArrival: nat
    ghost var bidIds: Levels
    ghost var askIds: Levels
    ghost var repr: set<ModelOrder>

    ghost predicate Indexed()
      reads this, repr
    {
      && Owned(ordersById, repr)
      && Shape(bids, asks, ordersById, bidIds, askIds)
      && Consistent(bidIds, askIds, ViewOf(ordersById), arrivalSequence, nextArrival)
    }

    ghost predicate Valid()
      reads this, repr
    {
      Indexed() && Open(ViewOf(ordersById))
    }

    constructor ()
      ensures Valid() && ordersById == map[] && repr == {} && nextArrival == 0
    {
      bids, asks, ordersById, arrivalSequence, nextArrival := map[], map[], map[], map[], 0;
      bidIds, askIds, repr := map[], map[], {};
    }

    /** `ok` is false where the source raises: the id is already in the book. */
    method AddOrder(o: ModelOrder) returns (ok: bool)
      requires Valid() && o.remaining > 0 && (o.terms.side == BUY || o.terms.side == SELL)
      modifies this
      ensures Valid() && ok == (o.id !in old(ordersById))
      ensures !ok ==> unchanged(this)
      ensures ok ==> repr == old(repr) + {o} && ordersById == old(ordersById)[o.id := o]
      ensures ok ==> ViewOf(ordersById) == old(ViewOf(ordersById))[o.id := o.Now()]
      ensures ok ==> arrivalSequence == old(arrivalSequence)[o.id := old(nextArrival)]
    {
      hide Shape, Consistent, ViewOf, Open;
      if o.id in ordersById {
        return false;
      }
      KeysOfView(ordersById);
      ViewInsert(ordersById, o);
      AddKeepsConsistent(bidIds, askIds, ViewOf(ordersById), arrivalSequence, nextArrival, o.id, o.Now());
      ShapeInsert(bids, asks, ordersById, bidIds, askIds, o);
      StaysOpen(ViewOf(ordersById), o.id, o.Now());
      ordersById := ordersById[o.id := o];
      arrivalSequence := arrivalSequence[o.id := nextArrival];
      nextArrival := nextArrival + 1;
      repr := repr + {o};
      if o.terms.side == BUY {
        bids := Append(bids, o.terms.price, o);
        bidIds := Enqueue(bidIds, o.terms.price, o.id);
      } else {
        asks := Append(asks, o.terms.price, o);
        askIds := Enqueue(askIds, o.terms.price, o.id);
      }
      return true;
    }

    method RemoveOrder(id: int) returns (removed: Option<ModelOrder>)
      requires Indexed()
      modifies this
      ensures Indexed() && repr == old(repr)
      ensures removed == if id in old(ordersById) then Some(old(ordersById)[id]) else None
      ensures ordersById == old(ordersById) - {id} && arrivalSequence == old(arrivalSequence) - {id}
      ensures ViewOf(ordersById) == old(ViewOf(ordersById)) - {id}
    {
      hide Shape, Consistent, ViewOf;
      KeysOfView(ordersById);
      ViewRemove(ordersById, id);
      if id !in ordersById {
        ConsistentFacts(bidIds, askIds, ViewOf(ordersById), arrivalSequence, nextArrival);
        assert ordersById == ordersById - {id} && arrivalSequence == arrivalSequence - {id};
        return None;
      }
      var order := ordersById[id];
      TermsOfView(ordersById, id);
      RemoveKeepsConsistent(bidIds, askIds, ViewOf(ordersById), arrivalSequence, nextArrival, id);
      ShapeRemove(bids, asks, ordersById, bidIds, askIds, id, ViewOf(ordersById), arrivalSequence, nextArrival);
      SideOfView(ViewOf(ordersById), id, bidIds, askIds, arrivalSequence, nextArrival);
      ordersById := ordersById - {id};
      arrivalSequence := arrivalSequence - {id};
      if order.terms.side == BUY {
        bids := Discard(bids, order.terms.price, order);
        bidIds := Dequeue(bidIds, order.terms.price, id);
      } else {
        asks := Discard(asks, order.terms.price, order);
        askIds := Dequeue(askIds, order.terms.price, id);
      }
      return Some(order);
    }

    method BestBid() returns (p: Option<int>)
      requires Mirrors(bids, bidIds, ordersById)
      ensures if bidIds == map[] then p == None else p.Some? && BestPrice(bidIds, BUY, p.value)
    {
      if bids == map[] {
        assert bidIds.Keys == {};
        return None;
      }
      assert bidIds != map[];
      BestPriceExists(bidIds, BUY);
      var q :| q in bids && forall p :: p in bids ==> p <= q;
      return Some(q);
    }

    method BestAsk() returns (p: Option<int>)
      requires Mirrors(asks, askIds, ordersById)
      ensures if askIds == map[] then p == None else p.Some? && BestPrice(askIds, SELL, p.value)
    {
      if asks == map[] {
        assert askIds.Keys == {};
        return None;
      }
      assert askIds != map[];
      BestPriceExists(askIds, SELL);
      var q :| q in asks && forall p :: p in asks ==> q <= p;
      return Some(q);
    }

    /** `Order.reduce`, seen through the book. */
    method Reduce(id: int, qty: int)
      requires Indexed() && id in ordersById
      modifies ordersById[id]
      ensures Indexed() && ViewOf(ordersById) == Less(old(ViewOf(ordersById)), id, qty)
    {
      hide Consistent, Shape;
      var o := ordersById[id];
      ghost var view := ViewOf(ordersById);
      KeysOfView(ordersById);
      forall i | i in ordersById ensures view[i] == ordersById[i].Now() { TermsOfView(ordersById, i); }
      ResizeKeepsConsistent(bidIds, askIds, view, Less(view, id, qty), arrivalSequence, nextArrival);
      IdentifiedBy(bids, asks, ordersById, bidIds, askIds);
      o.remaining := o.remaining - qty;
      KeysOfView(ordersById);
      forall i | i in ordersById ensures ViewOf(ordersById)[i] == Less(view, id, qty)[i] {
        assert i != id ==> ordersById[i] != o;
      }
      assert ViewOf(ordersById) == Less(view, id, qty);
    }

    method DropIfExhausted(id: int, ghost since: Arrivals, ghost start: Book)
      requires Indexed() && Within(arrivalSequence, since) && Spent(start, ordersById)
      modifies this
      ensures Indexed() && repr == old(repr) && Within(arrivalSequence, since) && Spent(start, ordersById)
      ensures ViewOf(ordersById) == Dropped(old(ViewOf(ordersById)), id)
    {
      hide Consistent, Shape, ViewOf;
      KeysOfView(ordersById);
      if id in ordersById {
        TermsOfView(ordersById, id);
        if ordersById[id].remaining == 0 {
          WithinRemove(arrivalSequence, since, id);
          hide Within;
          var _ := RemoveOrder(id);
        }
      }
    }

    method Settle(b: int, a: int, qty: int, ghost since: Arrivals, ghost start: Book)
      requires Valid() && b in ordersById && a in ordersById && b != a
      requires qty == Min(ordersById[b].remaining, ordersById[a].remaining)
      requires Within(arrivalSequence, since) && Identified(start) && Spent(start, ordersById)
      modifies this, ordersById[b], ordersById[a]
      ensures Valid() && repr == old(repr)
      ensures ViewOf(ordersById) == Execute(old(ViewOf(ordersById)), b, a, qty)
      ensures Within(arrivalSequence, since) && Spent(start, ordersById)
    {
      hide Consistent, Shape, ViewOf, Within, Execute, Open, Dropped, Less;
      KeysOfView(ordersById);
      TermsOfView(ordersById, b);
      TermsOfView(ordersById, a);
      IdentifiedBy(bids, asks, ordersById, bidIds, askIds);
      SettledIsExecuted(ViewOf(ordersById), b, a, qty);
      Reduce(b, qty);
      Reduce(a, qty);
      assert Spent(start, ordersById);
      DropIfExhausted(b, since, start);
      DropIfExhausted(a, since, start);
    }

    method Match() returns (trades: seq<Trade>)
      requires Valid()
      modifies this, repr
      ensures Valid() && repr == old(repr)
      ensures Ranked(old(ViewOf(ordersById)), old(arrivalSequence))
      ensures Matched(trades, ViewOf(ordersById)) == MatchAll(old(ViewOf(ordersById)), old(arrivalSequence))
      ensures Within(arrivalSequence, old(arrivalSequence))
      ensures Spent(old(ordersById), ordersById)
    {
      hide Consistent, Shape, ViewOf, Open, BestPrice, Within, Execute, CrossedTops, Progress, MatchAll, Owned;
      ghost var since, start := arrivalSequence, ordersById;
      MatchingRound(bidIds, askIds, ViewOf(ordersById), arrivalSequence, nextArrival, since);
      ghost var all := MatchAll(ViewOf(ordersById), since);
      ProgressStarts(ViewOf(ordersById), since);
      WithinItself(since);
      IdentifiedBy(bids, asks, ordersById, bidIds, askIds);
      trades := [];
      while true
        invariant Valid() && repr == old(repr)
        invariant Within(arrivalSequence, since) && Progress(all, trades, ViewOf(ordersById), since)
        invariant Identified(start) && Spent(start, ordersById)
        decreases |ViewOf(ordersById)|
      {
        var b, a := CrossingFronts(since);
        if b == None || a == None {
          ProgressEnds(all, trades, ViewOf(ordersById), since);
          return;
        }
        ProgressContinues(all, trades, ViewOf(ordersById), since, b.value, a.value);
        var trade := ExecutionNow(b.value, a.value, since);
        trades := trades + [trade];
        OwnedBy(ordersById, repr, b.value);
        OwnedBy(ordersById, repr, a.value);
        Settle(b.value, a.value, trade.qty, since, start);
      }
    }

    /** The orders the next round would execute, if the fronts of the best levels cross. */
    method CrossingFronts(ghost since: Arrivals) returns (b: Option<int>, a: Option<int>)
      requires Valid() && Within(arrivalSequence, since)
      ensures Ranked(ViewOf(ordersById), since)
      ensures if b.Some? && a.Some? then CrossedTops(ViewOf(ordersById), since, b.value, a.value)
              else forall x, y :: !CrossedTops(ViewOf(ordersById), since, x, y)
    {
      hide Consistent, ViewOf, Open, BestPrice, Within, CrossedTops;
      MatchingRound(bidIds, askIds, ViewOf(ordersById), arrivalSequence, nextArrival, since);
      var bidPrice := BestBid();
      var askPrice := BestAsk();
      if bidPrice == None || askPrice == None || bidPrice.value < askPrice.value {
        return None, None;
      }
      assert MirrorsQueue(bids[bidPrice.value], bidIds[bidPrice.value], ordersById);
      assert MirrorsQueue(asks[askPrice.value], askIds[askPrice.value], ordersById);
      return Some(bids[bidPrice.value][0].id), Some(asks[askPrice.value][0].id);
    }

    method ExecutionNow(b: int, a: int, ghost since: Arrivals) returns (trade: Trade)
      requires Valid() && Within(arrivalSequence, since)
      requires b in ViewOf(ordersById) && a in ViewOf(ordersById)
      ensures b in ordersById && a in ordersById && ViewOf(ordersById).Keys <= since.Keys
      ensures trade == Execution(ViewOf(ordersById), since, b, a)
      ensures trade.qty == Min(ordersById[b].remaining, ordersById[a].remaining)
    {
      hide Consistent, Shape, Open, Within;
      ConsistentFacts(bidIds, askIds, ViewOf(ordersById), arrivalSequence, nextArrival);
      SameExecution(ViewOf(ordersById), arrivalSequence, since, b, a);
      var bid, ask := ordersById[b], ordersById[a];
      var qty := Min(bid.remaining, ask.remaining);
      var maker := if arrivalSequence[b] < arrivalSequence[a] then bid else ask;
      trade := Trade(b, a, maker.terms.price, qty);
    }
  }

  /** Every order of `start` is still in the book, or has nothing left. */
  ghost predicate Spent(start: Book, byId: Book)
    reads set id | id in start :: start[id]
  {
    forall id :: id in start ==> if id in byId then byId[id] == start[id] else start[id].remaining == 0
  }

  lemma IdentifiedBy(bids: Queues, asks: Queues, byId: Book, bidIds: Levels, askIds: Levels)
    requires Shape(bids, asks, byId, bidIds, askIds)
    ensures Identified(byId)
  {
  }

  lemma OwnedBy(byId: Book, repr: set<ModelOrder>, id: int)
    requires Owned(byId, repr) && id in byId
    ensures byId[id] in repr
  {
  }

  lemma KeysOfView(byId: Book)
    ensures ViewOf(byId).Keys == byId.Keys
  {
  }

  lemma TermsOfView(byId: Book, id: int)
    requires id in byId
    ensures id in ViewOf(byId) && ViewOf(byId)[id] == byId[id].Now()
  {
  }

  lemma SideOfView(orders: Orders, id: int, bidIds: Levels, askIds: Levels, arrivals: Arrivals, next: nat)
    requires Consistent(bidIds, askIds, orders, arrivals, next) && id in orders
    ensures orders[id].side == BUY || orders[id].side == SELL
  {
  }

  lemma StaysOpen(orders: Orders, id: int, o: Order)
    requires Open(orders) && o.remaining > 0 && (o.side == BUY || o.side == SELL)
    ensures Open(orders[id := o])
  {
  }
}
