/** The fan-out book: one symbol's resting orders, and the price levels summed from them on read. */
module MarketBooks {
  import opened Contracts
  import opened PriceTime
  import opened EngineSpec
  import opened MapSums
  import opened OrderViews

  datatype RestingOrder = RestingOrder(side: int, price: int, remaining: int)

  type Resting = map<int, RestingOrder>

  datatype Level = Level(price: int, qty: int)

  function RestingOf(o: Order): RestingOrder {
    RestingOrder(o.side, o.price, o.remaining)
  }

  // ---- the book as a fold ------------------------------------------------------------------------

  function Reduced(orders: Resting, id: int, qty: int): Resting {
    if id !in orders then orders
    else if orders[id].remaining - qty <= 0 then orders - {id}
    else orders[id := orders[id].(remaining := orders[id].remaining - qty)]
  }

  /** What one record does to the book of its symbol. */
  function BookAfter(orders: Resting, r: Outbound): Resting {
    match r
    case OrderAccepted(_, id, _, _, price, qty, _, side, _) => orders[id := RestingOrder(side, price, qty)]
    case Fill(_, maker, taker, _, _, _, qty, _, _) => Reduced(Reduced(orders, maker, qty), taker, qty)
    case OrderCancelled(_, id, _, _, _, _, _) => orders - {id}
    case _ => orders
  }

  function SymbolOf(r: Outbound): Option<int> {
    match r
    case OrderAccepted(_, _, _, _, _, _, symbol, _, _) => Some(symbol)
    case Fill(_, _, _, _, _, _, _, symbol, _) => Some(symbol)
    case OrderCancelled(_, _, _, _, _, symbol, _) => Some(symbol)
    case _ => None
  }

  /** Every symbol's orders; a symbol's book is created when it is first seen. */
  function BooksAfter(books: map<int, Resting>, r: Outbound): map<int, Resting> {
    var symbol := SymbolOf(r);
    if symbol == None then books
    else books[symbol.value := BookAfter(if symbol.value in books then books[symbol.value] else map[], r)]
  }

  function BooksOf(rs: seq<Outbound>): map<int, Resting> {
    if rs == [] then map[] else BooksAfter(BooksOf(rs[..|rs| - 1]), rs[|rs| - 1])
  }

  // ---- the book is the engine's ------------------------------------------------------------------

  /** One symbol's part of the orders everyone agrees on. */
  function PartOf(v: Orders, symbol: int): Resting {
    map id | id in v && v[id].symbol == symbol :: RestingOf(v[id])
  }

  ghost predicate Shows(books: map<int, Resting>, v: Orders) {
    && (forall s :: s in books ==> books[s] == PartOf(v, s))
    && (forall id :: id in v ==> v[id].symbol in books)
  }

  lemma PartAccepted(v: Orders, id: int, o: Order, symbol: int)
    requires id !in v
    ensures PartOf(v[id := o], symbol)
            == if o.symbol == symbol then PartOf(v, symbol)[id := RestingOf(o)] else PartOf(v, symbol)
  {
  }

  lemma PartDropped(v: Orders, id: int, qty: int, symbol: int)
    requires id in v
    ensures PartOf(Drop(v, id, qty), symbol)
            == if v[id].symbol == symbol then Reduced(PartOf(v, symbol), id, qty) else PartOf(v, symbol)
  {
  }

  lemma PartRemoved(v: Orders, id: int, symbol: int)
    requires id in v
    ensures PartOf(v - {id}, symbol) == if v[id].symbol == symbol then PartOf(v, symbol) - {id} else PartOf(v, symbol)
  {
  }

  /** A record changes its own symbol's part, as the book does, and no other. */
  lemma PartStep(v: Orders, r: Outbound, symbol: int)
    requires Sane(v, r)
    ensures PartOf(Next(v, r), symbol)
            == if SymbolOf(r) == Some(symbol) then BookAfter(PartOf(v, symbol), r) else PartOf(v, symbol)
  {
    hide PartOf, Drop, Reduced;
    match r
    case OrderAccepted(_, id, _, _, _, _, _, _, _) => PartAccepted(v, id, AcceptedOrder(r), symbol);
    case OrderCancelled(_, id, _, _, _, _, _) => PartRemoved(v, id, symbol);
    case Fill(_, maker, taker, _, _, _, qty, _, _) =>
      TakerKept(v, maker, taker, qty);
      PartDropped(v, maker, qty, symbol);
      PartDropped(Drop(v, maker, qty), taker, qty, symbol);
    case _ =>
  }

  lemma TakerKept(v: Orders, maker: int, taker: int, qty: int)
    requires maker in v && taker in v && maker != taker
    ensures taker in Drop(v, maker, qty) && Drop(v, maker, qty)[taker] == v[taker]
  {
  }

  /** Nobody's orders have a symbol the record does not mention, unless they had it before. */
  lemma SymbolsKept(v: Orders, r: Outbound)
    ensures forall id :: id in Next(v, r) ==>
      (id in v && Next(v, r)[id].symbol == v[id].symbol) || SymbolOf(r) == Some(Next(v, r)[id].symbol)
  {
  }

  lemma ShowsStep(books: map<int, Resting>, v: Orders, r: Outbound)
    requires Shows(books, v) && Sane(v, r)
    ensures Shows(BooksAfter(books, r), Next(v, r))
  {
    var after := BooksAfter(books, r);
    hide BookAfter, Sane, Next;
    SymbolsKept(v, r);
    forall s | s in after ensures after[s] == PartOf(Next(v, r), s) {
      PartStep(v, r, s);
      if s !in books { NoPart(v, s); }
    }
  }

  lemma NoPart(v: Orders, symbol: int)
    requires forall id :: id in v ==> v[id].symbol != symbol
    ensures PartOf(v, symbol) == map[]
  {
    forall id ensures id !in PartOf(v, symbol) {}
  }

  lemma {:induction false} BooksShow(rs: seq<Outbound>)
    requires SaneAll(map[], rs)
    ensures Shows(BooksOf(rs), Fold(map[], rs))
    decreases |rs|
  {
    hide Sane, Shows, Next, BooksAfter;
    if rs == [] {
      assert Shows(map[], map[]) by { NothingShown(); }
    } else {
      var n := |rs| - 1;
      SanePrefix(map[], rs, n);
      BooksShow(rs[..n]);
      assert SaneAt(map[], rs, n);
      ShowsStep(BooksOf(rs[..n]), Fold(map[], rs[..n]), rs[n]);
    }
  }

  lemma NothingShown()
    ensures Shows(map[], map[])
  {
  }

  /** After the outputs of any inbound records, each book is that symbol's part of the engine's orders. */
  lemma MarketAgrees(d: Dialect, grant: int, rs: seq<Inbound>)
    ensures Good(Fresh(grant)) && Shows(BooksOf(Run(d, Fresh(grant), rs).out), Run(d, Fresh(grant), rs).engine.live)
  {
    RunFolds(d, Fresh(grant), rs);
    BooksShow(Run(d, Fresh(grant), rs).out);
  }

  // ---- levels ------------------------------------------------------------------------------------

  function Quantity(): RestingOrder -> int {
    (o: RestingOrder) => o.remaining
  }

  /** The orders of one side at one price. */
  ghost function AtPrice(orders: Resting, side: int, price: int): Resting {
    map id | id in orders && orders[id].side == side && orders[id].price == price && orders[id].remaining > 0 ::
      orders[id]
  }

  ghost function DepthAt(orders: Resting, side: int, price: int): int {
    Sum(AtPrice(orders, side, price), Quantity())
  }

  ghost predicate Quoted(orders: Resting, side: int, price: int) {
    exists id :: id in orders && orders[id].side == side && orders[id].price == price && orders[id].remaining > 0
  }

  /** `a` is more aggressive than `b` on this side. */
  predicate MoreAggressive(side: int, a: int, b: int) {
    if side == BUY then a > b else a < b
  }

  /** Exactly the best `depth` prices with resting quantity, best first, each with its whole quantity. */
  ghost predicate Tops(orders: Resting, side: int, depth: nat, levels: seq<Level>) {
    && (forall i, j :: 0 <= i < j < |levels| ==> MoreAggressive(side, levels[i].price, levels[j].price))
    && (forall i :: 0 <= i < |levels| ==>
          Quoted(orders, side, levels[i].price) && levels[i].qty == DepthAt(orders, side, levels[i].price) > 0)
    && |levels| <= depth
    && (forall p :: Quoted(orders, side, p) ==>
          Listed(levels, p) || (|levels| == depth && WorseThanAll(side, p, levels)))
  }

  ghost predicate Listed(levels: seq<Level>, price: int) {
    exists i :: 0 <= i < |levels| && levels[i].price == price
  }

  ghost predicate WorseThanAll(side: int, price: int, levels: seq<Level>) {
    forall i :: 0 <= i < |levels| ==> MoreAggressive(side, levels[i].price, price)
  }

  /** Totals by price over some of the orders. */
  ghost predicate Totals(totals: map<int, int>, orders: Resting, side: int) {
    forall p :: TotalAt(totals, orders, side, p)
  }

  ghost predicate TotalAt(totals: map<int, int>, orders: Resting, side: int, p: int) {
    (p in totals <==> Quoted(orders, side, p)) && (p in totals ==> totals[p] == DepthAt(orders, side, p))
  }

  function Kept(orders: Resting, ids: set<int>): Resting {
    map id | id in orders && id in ids :: orders[id]
  }

  function AddTotal(totals: map<int, int>, o: RestingOrder, side: int): map<int, int> {
    if o.side == side && o.remaining > 0
    then totals[o.price := (if o.price in totals then totals[o.price] else 0) + o.remaining] else totals
  }

  /** Counting one more order. */
  lemma TotalsStep(totals: map<int, int>, orders: Resting, side: int, id: int, o: RestingOrder)
    requires Totals(totals, orders, side) && id !in orders
    ensures Totals(AddTotal(totals, o, side), orders[id := o], side)
  {
    var more, after := orders[id := o], AddTotal(totals, o, side);
    forall p ensures TotalAt(after, more, side, p) {
      assert TotalAt(totals, orders, side, p);
      QuotedMore(orders, side, p, id, o);
      DepthMore(orders, side, p, id, o);
      if !Quoted(orders, side, p) { NotQuoted(orders, side, p); }
    }
  }

  lemma QuotedMore(orders: Resting, side: int, p: int, id: int, o: RestingOrder)
    requires id !in orders
    ensures Quoted(orders[id := o], side, p)
      <==> Quoted(orders, side, p) || (o.side == side && o.price == p && o.remaining > 0)
  {
    var more := orders[id := o];
    if Quoted(orders, side, p) {
      var i :| i in orders && orders[i].side == side && orders[i].price == p && orders[i].remaining > 0;
      assert i in more && more[i] == orders[i];
    }
    if o.side == side && o.price == p && o.remaining > 0 { assert id in more && more[id] == o; }
  }

  lemma DepthMore(orders: Resting, side: int, p: int, id: int, o: RestingOrder)
    requires id !in orders
    ensures DepthAt(orders[id := o], side, p)
            == DepthAt(orders, side, p) + if o.side == side && o.price == p && o.remaining > 0 then o.remaining else 0
  {
    var before, after := AtPrice(orders, side, p), AtPrice(orders[id := o], side, p);
    if o.side == side && o.price == p && o.remaining > 0 {
      assert after == before[id := o];
      SumUpdate(before, id, o, Quantity());
    } else {
      assert after == before;
    }
  }

  lemma NotQuoted(orders: Resting, side: int, p: int)
    requires !Quoted(orders, side, p)
    ensures DepthAt(orders, side, p) == 0
  {
    forall id ensures id !in AtPrice(orders, side, p) {}
    assert AtPrice(orders, side, p) == map[];
  }

  lemma DepthPositive(orders: Resting, side: int, p: int)
    requires Quoted(orders, side, p)
    ensures DepthAt(orders, side, p) > 0
  {
    var id :| id in orders && orders[id].side == side && orders[id].price == p && orders[id].remaining > 0;
    var at := AtPrice(orders, side, p);
    assert forall i :: i in at ==> Quantity()(at[i]) >= 0;
    SumAtLeast(at, id, Quantity());
  }

  /** Two symbols' levels: the bids and asks of an uncrossed book do not meet. */
  lemma TopsDoNotCross(live: Orders, symbol: int, depth: nat, bids: seq<Level>, asks: seq<Level>)
    requires Uncrossed(live)
    requires Tops(PartOf(live, symbol), BUY, depth, bids) && Tops(PartOf(live, symbol), SELL, depth, asks)
    ensures bids != [] && asks != [] ==> bids[0].price < asks[0].price
  {
    if bids != [] && asks != [] {
      var part := PartOf(live, symbol);
      assert Quoted(part, BUY, bids[0].price) && Quoted(part, SELL, asks[0].price);
      var b :| b in part && part[b].side == BUY && part[b].price == bids[0].price && part[b].remaining > 0;
      var a :| a in part && part[a].side == SELL && part[a].price == asks[0].price && part[a].remaining > 0;
      assert b in live && a in live;
    }
  }

  // ---- the object --------------------------------------------------------------------------------

  class Book {
    const symbol: int
    var orders: Resting

    constructor (symbol: int)
      ensures this.symbol == symbol && orders == map[]
    {
      this.symbol, orders := symbol, map[];
    }

    method AcceptOrder(id: int, side: int, price: int, qty: int)
      modifies this
      ensures orders == old(orders)[id := RestingOrder(side, price, qty)]
    {
      orders := orders[id := RestingOrder(side, price, qty)];
    }

    /** Silent on an unknown id. */
    method FillOrder(id: int, qty: int)
      modifies this
      ensures orders == Reduced(old(orders), id, qty)
    {
      if id !in orders {
        return;
      }
      orders := orders[id := orders[id].(remaining := orders[id].remaining - qty)];
      if orders[id].remaining <= 0 {
        orders := orders - {id};
      }
    }

    method CancelOrder(id: int)
      modifies this
      ensures orders == old(orders) - {id}
    {
      orders := orders - {id};
    }

    /** Sum each price's quantity over the orders, whatever order they come in. */
    method SumLevels(side: int) returns (totals: map<int, int>)
      ensures Totals(totals, orders, side)
    {
      totals := map[];
      var todo := orders.Keys;
      NoTotals(side);
      assert Kept(orders, orders.Keys - todo) == map[];
      hide Totals;
      while todo != {}
        invariant todo <= orders.Keys && Totals(totals, Kept(orders, orders.Keys - todo), side)
        decreases todo
      {
        ghost var _ := Member(todo);
        var id :| id in todo;
        TotalsStep(totals, Kept(orders, orders.Keys - todo), side, id, orders[id]);
        KeepOne(orders, todo, id);
        totals := AddTotal(totals, orders[id], side);
        todo := todo - {id};
      }
      assert Kept(orders, orders.Keys - {}) == orders;
    }

    /** Top `depth` price levels of one side. */
    method Levels(side: int, depth: nat) returns (levels: seq<Level>)
      requires side == BUY || side == SELL
      ensures Tops(orders, side, depth, levels)
    {
      var totals := SumLevels(side);
      levels := [];
      var rest := totals.Keys;
      TopsStart(totals, orders, side, depth);
      hide Totals, TopsSoFar, Tops;
      while rest != {} && |levels| < depth
        invariant TopsSoFar(totals, orders, side, levels, rest) && |levels| <= depth
        decreases rest
      {
        var p := BestOf(side, rest);
        TopsGrow(totals, orders, side, levels, rest, p);
        RestIsTotalled(totals, orders, side, levels, rest, p);
        levels := levels + [Level(p, totals[p])];
        rest := rest - {p};
      }
      TopsEnd(totals, orders, side, depth, levels, rest);
    }
  }

  lemma NoTotals(side: int)
    ensures Totals(map[], map[], side)
  {
    forall p ensures TotalAt(map[], map[], side, p) {}
  }

  lemma KeepOne(orders: Resting, todo: set<int>, id: int)
    requires id in todo && todo <= orders.Keys
    ensures id in orders && id !in Kept(orders, orders.Keys - todo)
    ensures Kept(orders, orders.Keys - (todo - {id})) == Kept(orders, orders.Keys - todo)[id := orders[id]]
  {
    assert forall i :: i in todo ==> i in orders;
  }

  method BestOf(side: int, prices: set<int>) returns (best: int)
    requires prices != {} && (side == BUY || side == SELL)
    ensures best in prices && forall p :: p in prices && p != best ==> MoreAggressive(side, best, p)
  {
    ghost var _ := Member(prices);
    best :| best in prices;
    var todo := prices - {best};
    while todo != {}
      invariant best in prices && todo <= prices
      invariant forall p :: p in prices && p !in todo && p != best ==> MoreAggressive(side, best, p)
      decreases todo
    {
      ghost var _ := Member(todo);
      var p :| p in todo;
      if MoreAggressive(side, p, best) { best := p; }
      todo := todo - {p};
    }
  }

  /** `levels` is the best of the totals so far, and `rest` the prices still to come. */
  ghost predicate TopsSoFar(totals: map<int, int>, orders: Resting, side: int, levels: seq<Level>, rest: set<int>) {
    && Totals(totals, orders, side)
    && (forall i, j :: 0 <= i < j < |levels| ==> MoreAggressive(side, levels[i].price, levels[j].price))
    && (forall i :: 0 <= i < |levels| ==> levels[i].price in totals && levels[i].qty == totals[levels[i].price])
    && (forall p :: p in rest ==> p in totals && WorseThanAll(side, p, levels))
    && (forall p :: p in totals ==> p in rest || Listed(levels, p))
  }

  lemma TopsStart(totals: map<int, int>, orders: Resting, side: int, depth: nat)
    requires Totals(totals, orders, side)
    ensures TopsSoFar(totals, orders, side, [], totals.Keys)
  {
  }

  lemma RestIsTotalled(totals: map<int, int>, orders: Resting, side: int, levels: seq<Level>, rest: set<int>, p: int)
    requires TopsSoFar(totals, orders, side, levels, rest) && p in rest
    ensures p in totals
  {
  }

  lemma TopsGrow(totals: map<int, int>, orders: Resting, side: int, levels: seq<Level>, rest: set<int>, best: int)
    requires TopsSoFar(totals, orders, side, levels, rest) && best in rest
    requires forall p :: p in rest && p != best ==> MoreAggressive(side, best, p)
    ensures best in totals && TopsSoFar(totals, orders, side, levels + [Level(best, totals[best])], rest - {best})
  {
    hide Totals;
    var more := levels + [Level(best, totals[best])];
    assert more[|levels|].price == best && WorseThanAll(side, best, levels);
    forall p | p in rest - {best} ensures p in totals && WorseThanAll(side, p, more) {
      assert WorseThanAll(side, p, levels);
    }
    forall p | p in totals ensures p in rest - {best} || Listed(more, p) {
      if Listed(levels, p) {
        var i :| 0 <= i < |levels| && levels[i].price == p;
        assert more[i].price == p;
      }
    }
  }

  lemma TopsEnd(totals: map<int, int>, orders: Resting, side: int, depth: nat, levels: seq<Level>, rest: set<int>)
    requires TopsSoFar(totals, orders, side, levels, rest) && |levels| <= depth && (rest == {} || |levels| == depth)
    ensures Tops(orders, side, depth, levels)
  {
    hide DepthAt, Quoted;
    forall i | 0 <= i < |levels|
      ensures Quoted(orders, side, levels[i].price) && levels[i].qty == DepthAt(orders, side, levels[i].price) > 0
    {
      assert TotalAt(totals, orders, side, levels[i].price);
      DepthPositive(orders, side, levels[i].price);
    }
    forall p | Quoted(orders, side, p)
      ensures Listed(levels, p) || (|levels| == depth && WorseThanAll(side, p, levels))
    {
      assert TotalAt(totals, orders, side, p);
    }
  }
}
