/** One side of a book: a queue of order ids per price, oldest first, no queue empty. */
module PriceLevels {
  import opened Contracts
  import opened PriceTime
  import opened MatchingLoop

  type Levels = map<int, seq<int>>

  ghost predicate Ascending(q: seq<int>, arrivals: Arrivals) {
    && (forall i :: 0 <= i < |q| ==> q[i] in arrivals)
    && (forall i, j :: 0 <= i < j < |q| ==> arrivals[q[i]] < arrivals[q[j]])
  }

  ghost predicate Level(q: seq<int>, price: int, side: int, orders: Orders, arrivals: Arrivals) {
    && q != [] && Ascending(q, arrivals)
    && (forall id :: id in q ==> id in orders && orders[id].side == side && orders[id].price == price)
  }

  /** The levels hold exactly the orders of `side`, each once, under its own price, in arrival order. */
  ghost predicate Indexes(levels: Levels, side: int, orders: Orders, arrivals: Arrivals) {
    && orders.Keys <= arrivals.Keys
    && (forall p :: p in levels ==> Level(levels[p], p, side, orders, arrivals))
    && (forall id :: id in orders && orders[id].side == side ==>
          orders[id].price in levels && id in levels[orders[id].price])
  }

  function Enqueue(levels: Levels, price: int, id: int): Levels {
    levels[price := (if price in levels then levels[price] else []) + [id]]
  }

  /** `std::find` then `erase`; `deque.remove` in the Python book. */
  function Erase(q: seq<int>, id: int): (r: seq<int>)
    ensures forall x :: x in r ==> x in q
    ensures forall x :: x in q && x != id ==> x in r
  {
    if q == [] then []
    else if q[0] == id then q[1..]
    else [q[0]] + Erase(q[1..], id)
  }

  function Dequeue(levels: Levels, price: int, id: int): Levels {
    if price !in levels then levels
    else
      var q := Erase(levels[price], id);
      if q == [] then levels - {price} else levels[price := q]
  }

  lemma AscendingTail(q: seq<int>, arrivals: Arrivals)
    requires Ascending(q, arrivals) && q != []
    ensures Ascending(q[1..], arrivals)
    ensures forall x :: x in q[1..] ==> x in arrivals && arrivals[q[0]] < arrivals[x]
  {
    forall x | x in q[1..] ensures x in arrivals && arrivals[q[0]] < arrivals[x] {
      var i :| 0 <= i < |q[1..]| && q[1..][i] == x;
      assert q[i + 1] == x;
    }
  }

  lemma AscendingCons(head: int, tail: seq<int>, arrivals: Arrivals)
    requires Ascending(tail, arrivals) && head in arrivals
    requires forall x :: x in tail ==> x in arrivals && arrivals[head] < arrivals[x]
    ensures Ascending([head] + tail, arrivals)
  {
    forall i | 0 <= i < |tail| ensures arrivals[head] < arrivals[tail[i]] {
      var x := tail[i];
      assert x in tail;
    }
  }

  lemma {:induction false} EraseAscending(q: seq<int>, id: int, arrivals: Arrivals)
    requires Ascending(q, arrivals)
    ensures Ascending(Erase(q, id), arrivals) && id !in Erase(q, id)
  {
    if q != [] {
      AscendingTail(q, arrivals);
      if q[0] != id {
        EraseAscending(q[1..], id, arrivals);
        AscendingCons(q[0], Erase(q[1..], id), arrivals);
      }
    }
  }

  lemma LevelKept(q: seq<int>, price: int, side: int, orders: Orders, a: Arrivals, orders': Orders, b: Arrivals)
    requires Level(q, price, side, orders, a)
    requires forall id :: id in q ==> id in orders' && orders'[id].side == side && orders'[id].price == price
    requires forall id :: id in q ==> id in b && b[id] == a[id]
    ensures Level(q, price, side, orders', b)
  {
    forall i | 0 <= i < |q| ensures q[i] in b && b[q[i]] == a[q[i]] {
      var id := q[i];
      assert id in q;
    }
  }

  lemma EnqueueIndexes(levels: Levels, side: int, orders: Orders, arrivals: Arrivals, id: int, o: Order, n: nat)
    requires Indexes(levels, side, orders, arrivals) && id !in orders && o.side == side
    requires arrivals.Keys == orders.Keys && forall i :: i in arrivals ==> arrivals[i] < n
    ensures Indexes(Enqueue(levels, o.price, id), side, orders[id := o], arrivals[id := n])
  {
    var after := Enqueue(levels, o.price, id);
    forall p | p in after ensures Level(after[p], p, side, orders[id := o], arrivals[id := n]) {
      if p in levels {
        LevelKept(levels[p], p, side, orders, arrivals, orders[id := o], arrivals[id := n]);
      }
      if p == o.price {
        LevelAppended(if p in levels then levels[p] else [], p, side, orders[id := o], arrivals[id := n], id);
      }
    }
  }

  lemma LevelAppended(q: seq<int>, price: int, side: int, orders: Orders, arrivals: Arrivals, id: int)
    requires q == [] || Level(q, price, side, orders, arrivals)
    requires id in orders && orders[id].side == side && orders[id].price == price
    requires id in arrivals && forall i :: i in q && i in arrivals ==> arrivals[i] < arrivals[id]
    ensures Level(q + [id], price, side, orders, arrivals)
  {
    forall i | 0 <= i < |q| ensures q[i] in arrivals && arrivals[q[i]] < arrivals[id] {
      var x := q[i];
      assert x in q;
    }
  }

  lemma OtherSideIndexes(levels: Levels, side: int, orders: Orders, arrivals: Arrivals, id: int, o: Order, n: nat)
    requires Indexes(levels, side, orders, arrivals) && id !in orders && o.side != side
    ensures Indexes(levels, side, orders[id := o], arrivals[id := n])
  {
    forall p | p in levels ensures Level(levels[p], p, side, orders[id := o], arrivals[id := n]) {
      LevelKept(levels[p], p, side, orders, arrivals, orders[id := o], arrivals[id := n]);
    }
  }

  lemma DequeueIndexes(levels: Levels, side: int, orders: Orders, arrivals: Arrivals, id: int)
    requires Indexes(levels, side, orders, arrivals) && id in orders && orders[id].side == side
    ensures Indexes(Dequeue(levels, orders[id].price, id), side, orders - {id}, arrivals - {id})
  {
    var price := orders[id].price;
    var after := Dequeue(levels, price, id);
    EraseAscending(levels[price], id, arrivals);
    forall p | p in after ensures Level(after[p], p, side, orders - {id}, arrivals - {id}) {
      assert Level(levels[p], p, side, orders, arrivals);
      assert Level(after[p], p, side, orders, arrivals);
      assert id !in after[p];
      LevelKept(after[p], p, side, orders, arrivals, orders - {id}, arrivals - {id});
    }
  }

  lemma OtherSideShrinks(levels: Levels, side: int, orders: Orders, arrivals: Arrivals, id: int)
    requires Indexes(levels, side, orders, arrivals) && id in orders && orders[id].side != side
    ensures Indexes(levels, side, orders - {id}, arrivals - {id})
  {
    forall p | p in levels ensures Level(levels[p], p, side, orders - {id}, arrivals - {id}) {
      assert Level(levels[p], p, side, orders, arrivals);
      LevelKept(levels[p], p, side, orders, arrivals, orders - {id}, arrivals - {id});
    }
  }

  /** Only an order's side and price matter to the levels. */
  lemma ResizedIndexes(levels: Levels, side: int, orders: Orders, resized: Orders, arrivals: Arrivals)
    requires Indexes(levels, side, orders, arrivals) && resized.Keys == orders.Keys
    requires forall id :: id in orders ==> resized[id].side == orders[id].side && resized[id].price == orders[id].price
    ensures Indexes(levels, side, resized, arrivals)
  {
    forall p | p in levels ensures Level(levels[p], p, side, resized, arrivals) {
      assert Level(levels[p], p, side, orders, arrivals);
    }
  }

  lemma SameArrivals(levels: Levels, side: int, orders: Orders, a: Arrivals, b: Arrivals)
    requires Indexes(levels, side, orders, a) && orders.Keys <= b.Keys
    requires forall id :: id in orders ==> a[id] == b[id]
    ensures Indexes(levels, side, orders, b)
  {
    forall p | p in levels ensures Level(levels[p], p, side, orders, b) {
      LevelKept(levels[p], p, side, orders, a, orders, b);
    }
  }

  /** `a` is an older numbering `b` of which only some orders are left. */
  ghost predicate Within(a: Arrivals, b: Arrivals) {
    forall id :: id in a ==> id in b && b[id] == a[id]
  }

  lemma WithinItself(a: Arrivals)
    ensures Within(a, a)
  {
  }

  lemma WithinRemove(a: Arrivals, b: Arrivals, id: int)
    requires Within(a, b)
    ensures Within(a - {id}, b)
  {
  }

  lemma WithinTransitive(a: Arrivals, b: Arrivals, c: Arrivals)
    requires Within(a, b) && Within(b, c)
    ensures Within(a, c)
  {
  }

  // ---- the whole book ------------------------------------------------------------------------

  /** Every redundant index of a book agrees with its order map. */
  ghost predicate Consistent(bids: Levels, asks: Levels, orders: Orders, arrivals: Arrivals, next: nat) {
    && arrivals.Keys == orders.Keys
    && (forall id :: id in arrivals ==> arrivals[id] < next)
    && Ranked(orders, arrivals)
    && (forall id :: id in orders ==> orders[id].side == BUY || orders[id].side == SELL)
    && Indexes(bids, BUY, orders, arrivals)
    && Indexes(asks, SELL, orders, arrivals)
  }

  lemma ConsistentFacts(bids: Levels, asks: Levels, orders: Orders, arrivals: Arrivals, next: nat)
    requires Consistent(bids, asks, orders, arrivals, next)
    ensures arrivals.Keys == orders.Keys && Ranked(orders, arrivals)
    ensures forall id :: id in arrivals ==> arrivals[id] < next
  {
  }

  lemma AddKeepsConsistent(bids: Levels, asks: Levels, orders: Orders, arrivals: Arrivals, next: nat, id: int, o: Order)
    requires Consistent(bids, asks, orders, arrivals, next) && id !in orders && (o.side == BUY || o.side == SELL)
    ensures Consistent(if o.side == BUY then Enqueue(bids, o.price, id) else bids,
                       if o.side == SELL then Enqueue(asks, o.price, id) else asks,
                       orders[id := o], arrivals[id := next], next + 1)
  {
    hide Indexes;
    if o.side == BUY {
      EnqueueIndexes(bids, BUY, orders, arrivals, id, o, next);
      OtherSideIndexes(asks, SELL, orders, arrivals, id, o, next);
    } else {
      EnqueueIndexes(asks, SELL, orders, arrivals, id, o, next);
      OtherSideIndexes(bids, BUY, orders, arrivals, id, o, next);
    }
  }

  lemma RemoveKeepsConsistent(bids: Levels, asks: Levels, orders: Orders, arrivals: Arrivals, next: nat, id: int)
    requires Consistent(bids, asks, orders, arrivals, next) && id in orders
    ensures Consistent(if orders[id].side == BUY then Dequeue(bids, orders[id].price, id) else bids,
                       if orders[id].side == SELL then Dequeue(asks, orders[id].price, id) else asks,
                       orders - {id}, arrivals - {id}, next)
  {
    hide Indexes;
    if orders[id].side == BUY {
      DequeueIndexes(bids, BUY, orders, arrivals, id);
      OtherSideShrinks(asks, SELL, orders, arrivals, id);
    } else {
      DequeueIndexes(asks, SELL, orders, arrivals, id);
      OtherSideShrinks(bids, BUY, orders, arrivals, id);
    }
  }

  lemma ResizeKeepsConsistent(bids: Levels, asks: Levels, orders: Orders, resized: Orders, arrivals: Arrivals,
                              next: nat)
    requires Consistent(bids, asks, orders, arrivals, next) && resized.Keys == orders.Keys
    requires forall id :: id in orders ==> resized[id].side == orders[id].side && resized[id].price == orders[id].price
    ensures Consistent(bids, asks, resized, arrivals, next)
  {
    hide Indexes;
    ResizedIndexes(bids, BUY, orders, resized, arrivals);
    ResizedIndexes(asks, SELL, orders, resized, arrivals);
  }

  // ---- the best price ------------------------------------------------------------------------

  predicate AtLeastAsGood(side: int, p: int, q: int) {
    if side == BUY then p >= q else p <= q
  }

  /** `begin()` of the sorted map; `max` or `min` over the dict. */
  predicate BestPrice(levels: Levels, side: int, p: int) {
    p in levels && forall q :: q in levels ==> AtLeastAsGood(side, p, q)
  }

  lemma BestPriceExists(levels: Levels, side: int)
    requires levels != map[]
    ensures exists p :: BestPrice(levels, side, p)
  {
    assert levels.Keys != {};
    var p := BestOf(levels.Keys, side);
    assert BestPrice(levels, side, p);
  }

  lemma BestOf(prices: set<int>, side: int) returns (p: int)
    requires prices != {}
    ensures p in prices && forall q :: q in prices ==> AtLeastAsGood(side, p, q)
    decreases |prices|
  {
    p := Member(prices);
    if prices != {p} {
      var rest := prices - {p};
      assert prices == rest + {p};
      var q := BestOf(rest, side);
      p := if AtLeastAsGood(side, p, q) then p else q;
    }
  }

  /** The front of the best level is the order the matching loop must take. */
  lemma FrontIsTop(levels: Levels, side: int, orders: Orders, arrivals: Arrivals, p: int)
    requires side == BUY || side == SELL
    requires Indexes(levels, side, orders, arrivals) && BestPrice(levels, side, p)
    ensures Top(orders, arrivals, side, levels[p][0]) && orders[levels[p][0]].price == p
  {
    var front := levels[p][0];
    forall j | j in orders && orders[j].side == side && j != front
      ensures Better(orders, arrivals, front, j)
    {
      var q := levels[orders[j].price];
      var k :| 0 <= k < |q| && q[k] == j;
      assert AtLeastAsGood(side, p, orders[j].price);
    }
  }

  /** One round of the matching loop, seen from the indexes: the fronts of the best levels are what
      the loop must execute, and if they do not cross nothing does. `since` is the
      numbering when the loop began. */
  lemma MatchingRound(bids: Levels, asks: Levels, orders: Orders, arrivals: Arrivals, next: nat, since: Arrivals)
    requires Consistent(bids, asks, orders, arrivals, next)
    requires Within(arrivals, since)
    ensures Ranked(orders, since) && orders.Keys == arrivals.Keys
    ensures forall p :: p in bids ==> bids[p] != []
    ensures forall p :: p in asks ==> asks[p] != []
    ensures forall p, q :: BestPrice(bids, BUY, p) && BestPrice(asks, SELL, q) ==>
      if p < q then forall b, a :: !CrossedTops(orders, since, b, a)
      else CrossedTops(orders, since, bids[p][0], asks[q][0])
    ensures bids == map[] || asks == map[] ==> forall b, a :: !CrossedTops(orders, since, b, a)
  {
    assert forall id :: id in orders ==> id in since;
    SameArrivals(bids, BUY, orders, arrivals, since);
    SameArrivals(asks, SELL, orders, arrivals, since);
    forall p, q | BestPrice(bids, BUY, p) && BestPrice(asks, SELL, q)
      ensures if p < q then forall b, a :: !CrossedTops(orders, since, b, a)
              else CrossedTops(orders, since, bids[p][0], asks[q][0])
    {
      FrontIsTop(bids, BUY, orders, since, p);
      FrontIsTop(asks, SELL, orders, since, q);
      if p < q {
        forall b, a ensures !CrossedTops(orders, since, b, a) {
          if b in orders && a in orders && orders[b].side == BUY && orders[a].side == SELL {
            assert AtLeastAsGood(BUY, p, orders[b].price) && AtLeastAsGood(SELL, q, orders[a].price);
          }
        }
      }
    }
  }

  // ---- one execution, as the books perform it ------------------------------------------------

  function Dropped(orders: Orders, id: int): Orders {
    if id in orders && orders[id].remaining == 0 then orders - {id} else orders
  }

  function Less(orders: Orders, id: int, qty: int): Orders
    requires id in orders
  {
    orders[id := orders[id].(remaining := orders[id].remaining - qty)]
  }

  /** Reducing both orders and then dropping the exhausted ones is one execution. */
  lemma SettledIsExecuted(orders: Orders, b: int, a: int, qty: int)
    requires Open(orders) && b in orders && a in orders && b != a
    requires qty == Min(orders[b].remaining, orders[a].remaining)
    ensures a in Less(orders, b, qty)
    ensures Dropped(Dropped(Less(Less(orders, b, qty), a, qty), b), a) == Execute(orders, b, a, qty)
    ensures Open(Execute(orders, b, a, qty))
  {
    ExecuteFacts(orders, b, a, qty);
  }

  lemma SameExecution(orders: Orders, arrivals: Arrivals, since: Arrivals, b: int, a: int)
    requires b in orders && a in orders && arrivals.Keys == orders.Keys && Within(arrivals, since)
    ensures orders.Keys <= since.Keys && Execution(orders, arrivals, b, a) == Execution(orders, since, b, a)
  {
    assert forall id :: id in orders ==> id in since;
  }
}
