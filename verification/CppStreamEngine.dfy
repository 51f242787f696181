/** The C++ stream engine: one order book per symbol, a table of live orders and a client-id index. */
module CppStreamEngine {
  import opened Contracts
  import opened PriceTime
  import opened MatchingLoop
  import opened EngineSpec
  import opened Snapshots
  import opened Bookkeeping
  import opened PriceLevels
  import opened SubmitSteps
  import opened CppOrderBook

  datatype LiveOrder = LiveOrder(client: int, user: int, symbol: int, side: int, price: int)

  function LiveOf(o: Order): LiveOrder {
    LiveOrder(o.client, o.user, o.symbol, o.side, o.price)
  }

  /** The table records every order of `orders`. */
  ghost predicate Tabled(live: map<int, LiveOrder>, orders: Orders) {
    live.Keys == orders.Keys && forall id :: id in live ==> live[id] == LiveOf(orders[id])
  }

  lemma TabledInsert(live: map<int, LiveOrder>, orders: Orders, id: int, o: Order)
    requires Tabled(live, orders)
    ensures Tabled(live[id := LiveOf(o)], orders[id := o])
  {
  }

  lemma TabledRemove(live: map<int, LiveOrder>, orders: Orders, id: int)
    requires Tabled(live, orders)
    ensures Tabled(live - {id}, orders - {id})
  {
  }

  /** A match changes only remaining quantities, which the table does not record. */
  lemma TabledShrunk(live: map<int, LiveOrder>, orders: Orders, after: Orders, kept: Orders)
    requires Tabled(live, kept) && kept.Keys == after.Keys && Shrinks(orders, after)
    requires forall id :: id in kept ==> id in orders && kept[id] == orders[id]
    ensures Tabled(live, after)
  {
    assert forall id :: id in kept <==> id in after;
  }

  /** The book holds exactly the orders of one symbol, queued in the order of their ids. */
  ghost predicate Shows(b: OrderBook, symbol: int, orders: Orders)
    reads b
  {
    && b.Valid()
    && b.ordersById == OfSymbol(orders, symbol)
    && IdsInArrivalOrder(b.ordersById, b.arrivalSequence)
  }

  lemma ShowsSame(b: OrderBook, symbol: int, orders: Orders, after: Orders)
    requires Shows(b, symbol, orders) && OfSymbol(after, symbol) == OfSymbol(orders, symbol)
    ensures Shows(b, symbol, after)
  {
  }

  lemma EmptyBookShows(b: OrderBook, symbol: int, orders: Orders)
    requires b.Valid() && b.ordersById == map[]
    requires forall id :: id in orders ==> orders[id].symbol != symbol
    ensures Shows(b, symbol, orders)
  {
    assert forall id :: id !in OfSymbol(orders, symbol);
  }

  class StreamEngine {
    const grant: int
    var next: int
    var books: map<int, OrderBook>
    var live: map<int, LiveOrder>
    var clientToOrder: map<ClientKey, int>
    ghost var state: Engine
    ghost var repr: set<OrderBook>

    ghost predicate BooksShow(orders: Orders)
      reads `books, `repr, repr
    {
      && (forall s, t :: s in books && t in books && s != t ==> books[s] != books[t])
      && (forall s :: s in books ==> books[s] in repr && Shows(books[s], s, orders))
      && (forall id :: id in orders ==> orders[id].symbol in books)
    }

    lemma Showing(symbol: int, orders: Orders)
      requires BooksShow(orders) && symbol in books
      ensures books[symbol].ordersById == OfSymbol(orders, symbol)
    {
    }

    lemma KeysTabled(id: int)
      requires Represents() && id in state.live
      ensures id in live
    {
    }

    /** The fields represent the abstract engine. */
    ghost predicate Represents()
      reads this, repr
    {
      && state.next == next && state.grant == grant && state.index == clientToOrder
      && Tabled(live, state.live)
      && BooksShow(state.live)
    }

    ghost predicate Valid()
      reads this, repr
    {
      Represents() && Good(state)
    }

    constructor (grant: int)
      ensures Valid() && state == Fresh(grant) && books == map[] && repr == {}
    {
      this.grant := grant;
      next, books, live, clientToOrder := 1, map[], map[], map[];
      state, repr := Fresh(grant), {};
    }

    /** `books_[symbol]` creates an empty book on first use. */
    method BookFor(symbol: int, ghost orders: Orders) returns (b: OrderBook)
      requires BooksShow(orders)
      modifies this`books, this`repr
      ensures BooksShow(orders) && symbol in books && books[symbol] == b
      ensures fresh(repr - old(repr)) && old(repr) <= repr
    {
      if symbol !in books {
        b := new OrderBook();
        EmptyBookShows(b, symbol, orders);
        books := books[symbol := b];
        repr := repr + {b};
      }
      b := books[symbol];
    }

    /** Give the order an id, record it, and match it in its symbol's book. */
    method EnterAndMatch(r: Inbound, ghost n: Entry) returns (id: int, trades: seq<Trade>)
      requires r.SubmitOrder? && Passes(r) && Valid() && n == Entered(state, r)
      modifies this, repr
      ensures state == old(state) && id == n.id && next == id + 1 && trades == n.trades
      ensures clientToOrder == n.index && Tabled(live, n.arrived)
      ensures r.symbol in books && BooksShow(n.matched) && fresh(repr - old(repr))
    {
      hide Good, Greedy, Shows, Passes, Open;
      TabledInsert(live, state.live, next, OrderFrom(r));
      hide Tabled;
      id := next;
      next := next + 1;
      clientToOrder := clientToOrder[(r.user, r.client) := id];
      live := live[id := LiveOrder(r.client, r.user, r.symbol, r.side, r.price)];
      var b := BookFor(r.symbol, state.live);
      trades := MatchIn(b, r, id, n);
    }

    method MatchIn(b: OrderBook, r: Inbound, id: int, ghost n: Entry) returns (trades: seq<Trade>)
      requires r.SubmitOrder? && Passes(r) && Good(state) && n == Entered(state, r)
      requires BooksShow(state.live) && r.symbol in books && books[r.symbol] == b && id == n.id
      modifies b
      ensures trades == n.trades && BooksShow(n.matched)
    {
      hide Open, UncrossedBut, IndexSound;
      ArrivalIsOpen(state, r);
      trades := MatchInOne(b, r, id, state);
      GreedyKeeps(n.arrived, id);
      forall s | s in books ensures Shows(books[s], s, n.matched) {
        if s != r.symbol {
          assert Shows(books[s], s, state.live);
          OthersKeepTheirBook(state, r, s);
        }
      }
    }

    /** The fill records of one submit, in execution order. */
    method FillRecords(r: Inbound, id: int, trades: seq<Trade>, ghost arrived: Orders) returns (out: seq<Outbound>)
      requires r.SubmitOrder? && Tabled(live, arrived) && Involves(trades, arrived, id) && arrived[id].side == r.side
      ensures forall k :: 0 <= k < |trades| ==> InvolvesOne(trades[k], arrived, id)
      ensures out == FillsFrom(r, id, arrived, trades)
    {
      out := [];
      for k := 0 to |trades|
        invariant |out| == k && forall j :: 0 <= j < k ==>
          MakerOf(trades[j], id) in arrived && out[j] == FillFrom(r, id, arrived, trades[j])
      {
        var trade := trades[k];
        assert InvolvesOne(trade, arrived, id);
        var buy, sell := live[trade.buyId], live[trade.sellId];
        var makerId, maker, taker := if trade.buyId == id then trade.sellId else trade.buyId,
            if trade.buyId == id then sell else buy, if trade.buyId == id then buy else sell;
        out := out + [Fill(r.ts, makerId, id, maker.user, taker.user, trade.price, trade.qty, maker.symbol,
          taker.side)];
      }
    }

    method ForgetIfFilled(symbol: int, id: int, ghost index: map<ClientKey, int>, ghost arrived: Orders,
                          ghost matched: Orders, ghost seen: set<int>)
      requires symbol in books && books[symbol].ordersById == OfSymbol(matched, symbol)
      requires id in arrived && (id in matched ==> matched[id].symbol == symbol)
      requires Tabled(live, Remembered(arrived, matched, seen))
      requires clientToOrder == Prune(index, arrived, Remembered(arrived, matched, seen))
      modifies this`live, this`clientToOrder
      ensures Tabled(live, Remembered(arrived, matched, seen + {id}))
      ensures clientToOrder == Prune(index, arrived, Remembered(arrived, matched, seen + {id}))
    {
      ForgetOne(index, arrived, matched, seen, id);
      hide Prune;
      if id in books[symbol].ordersById {
        return;
      }
      if id !in live {
        return;
      }
      TabledRemove(live, Remembered(arrived, matched, seen), id);
      clientToOrder := clientToOrder - {(live[id].user, live[id].client)};
      live := live - {id};
    }

    /** Forget every traded order that is no longer in the book. */
    method ForgetTraded(symbol: int, id: int, trades: seq<Trade>, ghost index: map<ClientKey, int>,
                        ghost arrived: Orders, ghost matched: Orders)
      requires symbol in books && books[symbol].ordersById == OfSymbol(matched, symbol)
      requires Shrinks(arrived, matched) && Involves(trades, arrived, id) && arrived[id].symbol == symbol
      requires Tabled(live, arrived) && clientToOrder == index
      modifies this`live, this`clientToOrder
      ensures Tabled(live, Remembered(arrived, matched, Traded(trades)))
      ensures clientToOrder == Prune(index, arrived, Remembered(arrived, matched, Traded(trades)))
    {
      PruneNothing(index, arrived, matched);
      ghost var seen: set<int> := {};
      hide Tabled, Prune, Remembered;
      for k := 0 to |trades|
        invariant seen == Traded(trades[..k])
        invariant Tabled(live, Remembered(arrived, matched, seen))
        invariant clientToOrder == Prune(index, arrived, Remembered(arrived, matched, seen))
      {
        var trade := trades[k];
        assert InvolvesOne(trade, arrived, id);
        ForgetIfFilled(symbol, trade.buyId, index, arrived, matched, seen);
        ForgetIfFilled(symbol, trade.sellId, index, arrived, matched, seen + {trade.buyId});
        seen := seen + {trade.buyId} + {trade.sellId};
        assert trades[..k + 1] == trades[..k] + [trade];
        forall i ensures i in seen <==> i in Traded(trades[..k + 1]) { TradedAppend(trades[..k], trade, i); }
      }
      assert trades[..|trades|] == trades;
    }

    /** Take one order out of its book. */
    method RemoveFromBook(symbol: int, id: int, ghost orders: Orders)
      requires BooksShow(orders) && symbol in books && id in orders && orders[id].symbol == symbol
      modifies books[symbol]
      ensures BooksShow(orders - {id})
    {
      var b := books[symbol];
      ghost var before, arrivals := b.ordersById, b.arrivalSequence;
      assert Shows(b, symbol, orders);
      RemoveFromOne(b, symbol, id, orders);
      forall s | s in books ensures Shows(books[s], s, orders - {id}) {
        if s != symbol {
          assert Shows(books[s], s, orders);
          OfSymbolRemove(orders, id, s);
        }
      }
    }

    /** An immediate-or-cancel remainder never rests. */
    method ExpireRemainder(r: Inbound, id: int, ghost n: Entry) returns (out: seq<Outbound>)
      requires Tracks(n, r) && id == n.id
      requires Tabled(live, n.matched) && clientToOrder == Prune(n.index, n.arrived, n.matched)
      requires BooksShow(n.matched) && r.symbol in books
      modifies this`live, this`clientToOrder, repr
      ensures Tabled(live, Left(n, r)) && clientToOrder == Prune(n.index, n.arrived, Left(n, r))
      ensures BooksShow(Left(n, r)) && out == Expired(n, r)
    {
      out := [];
      if r.tif == IOC && id in live {
        var b := books[r.symbol];
        assert Shows(b, r.symbol, n.matched);
        hide Shows, IndexSound;
        if id in b.ordersById && b.ordersById[id].remaining > 0 {
          var remaining := b.ordersById[id].remaining;
          TabledRemove(live, n.matched, id);
          PruneOne(n.index, n.arrived, n.matched, id);
          RemoveFromBook(r.symbol, id, n.matched);
          out := [OrderCancelled(r.ts, id, live[id].client, live[id].user, remaining, live[id].symbol, IOC_EXPIRED)];
          clientToOrder := clientToOrder - {(r.user, r.client)};
          live := live - {id};
        }
      }
    }

    /** Report the order and its fills, and forget what the match removed. */
    method ReportAndForget(r: Inbound, id: int, trades: seq<Trade>, ghost n: Entry) returns (out: seq<Outbound>)
      requires Tracks(n, r) && id == n.id && trades == n.trades
      requires forall k :: 0 <= k < |n.trades| ==> MakerOf(n.trades[k], n.id) in n.arrived
      requires clientToOrder == n.index && Tabled(live, n.arrived)
      requires r.symbol in books && BooksShow(n.matched)
      modifies this`live, this`clientToOrder
      ensures Tabled(live, n.matched) && clientToOrder == Prune(n.index, n.arrived, n.matched)
      ensures out == Report(n, r)
    {
      hide BooksShow, Tabled, Prune, Remembered, Shrinks, Involves, Traded, Open, FillsFrom;
      out := [OrderAccepted(r.ts, id, r.client, r.user, r.price, r.qty, r.symbol, r.side, r.tif)];
      var fills := FillRecords(r, id, trades, n.arrived);
      out := out + fills;
      Showing(r.symbol, n.matched);
      ForgetTraded(r.symbol, id, trades, n.index, n.arrived, n.matched);
      ghost var kept := Remembered(n.arrived, n.matched, Traded(trades));
      RememberedIsKept(n.arrived, n.matched, Traded(trades));
      TabledShrunk(live, n.arrived, n.matched, kept);
      PruneSameKeys(n.index, n.arrived, kept, n.matched);
    }

    method Accept(r: Inbound) returns (out: seq<Outbound>)
      requires Valid() && r.SubmitOrder? && Passes(r)
      modifies this, repr
      ensures Valid() && fresh(repr - old(repr))
      ensures Step(state, out) == EngineSpec.Submit(Cpp, old(state), r)
    {
      hide BooksShow, Tracks, Good, Tabled, Prune, Entered, Left, Expired, Report, Passes, EngineSpec.Submit;
      ghost var step, n := EngineSpec.Submit(Cpp, state, r), Entered(state, r);
      EnteredFacts(Cpp, state, r);
      var id, trades := EnterAndMatch(r, n);
      out := ReportAndForget(r, id, trades, n);
      var expired := ExpireRemainder(r, id, n);
      out := out + expired;
      state := step.engine;
    }

    method Submit(r: Inbound) returns (out: seq<Outbound>)
      requires Valid() && r.SubmitOrder?
      modifies this, repr
      ensures Valid() && fresh(repr - old(repr))
      ensures Step(state, out) == EngineSpec.Submit(Cpp, old(state), r)
    {
      hide Good;
      if r.price <= 0 {
        return [OrderRejected(r.ts, r.client, r.user, r.symbol, INVALID_PRICE)];
      }
      if r.qty <= 0 {
        return [OrderRejected(r.ts, r.client, r.user, r.symbol, INVALID_QUANTITY)];
      }
      if r.side != BUY && r.side != SELL {
        return [OrderRejected(r.ts, r.client, r.user, r.symbol, INVALID_SIDE)];
      }
      if r.tif != GTC && r.tif != IOC {
        return [OrderRejected(r.ts, r.client, r.user, r.symbol, INVALID_TIF)];
      }
      out := Accept(r);
    }

    method Cancel(r: Inbound) returns (out: seq<Outbound>)
      requires Valid() && r.CancelOrder?
      modifies this, repr
      ensures Valid() && repr == old(repr)
      ensures Step(state, out) == EngineSpec.Cancel(old(state), r)
    {
      hide BooksShow, Tabled;
      CancelKeepsGood(state, r);
      hide Uncrossed, Open;
      var key := (r.user, r.target);
      if key !in clientToOrder {
        return [OrderRejected(r.ts, r.client, r.user, 0, UNKNOWN_ORDER)];
      }
      ghost var step := EngineSpec.Cancel(state, r);
      KeysTabled(clientToOrder[key]);
      var id := clientToOrder[key];
      var order, remaining := TakeOut(id);
      clientToOrder := clientToOrder - {key};
      state := step.engine;
      out := [OrderCancelled(r.ts, id, order.client, order.user, remaining, order.symbol, USER_REQUESTED)];
    }

    /** Drop a live order from its book and from the table. */
    method TakeOut(id: int) returns (order: LiveOrder, remaining: int)
      requires Valid() && id in live
      modifies this`live, repr
      ensures Tabled(live, state.live - {id}) && BooksShow(state.live - {id})
      ensures order == LiveOf(state.live[id]) && remaining == state.live[id].remaining
    {
      order := live[id];
      var b := books[order.symbol];
      Showing(order.symbol, state.live);
      remaining := b.ordersById[id].remaining;
      hide Shows, Good, OfSymbol;
      TabledRemove(live, state.live, id);
      RemoveFromBook(order.symbol, id, state.live);
      live := live - {id};
    }

    /** One record in, its outbound records out: exactly the abstract engine's step. */
    method Apply(r: Inbound) returns (out: seq<Outbound>)
      requires Valid()
      modifies this, repr
      ensures Valid() && fresh(repr - old(repr))
      ensures Step(state, out) == EngineSpec.Apply(Cpp, old(state), r)
    {
      match r
      case SubmitOrder(_, _, _, _, _, _, _, _) => out := Submit(r);
      case CancelOrder(_, _, _, _) => out := Cancel(r);
      case CreateAccount(ts, client, user) => out := [AccountCreated(ts, client, user, grant)];
      case CreditCash(ts, client, user, amount) => out := [CashCredited(ts, client, user, amount)];
      case ConfigureReplay(ts, client, rate, hi, lo) => out := [ReplayConfigured(ts, client, rate, hi, lo)];
      case Unrecognised(_) => out := [];
    }

    /** Every live order in ascending id, as the ordered map iterates. */
    method TakeSnapshot() returns (s: Snapshot)
      requires Valid()
      ensures s == Take(state)
    {
      hide Represents, Good, Row, AscendingIds;
      SameKeys();
      var rest, rows := live.Keys, [];
      ghost var ids: seq<int> := [];
      NoIds();
      while rest != {}
        invariant Listing(ids, rest, state.live.Keys)
        invariant (forall k :: 0 <= k < |ids| ==> ids[k] in state.live) && rows == Rows(state, ids)
        decreases rest
      {
        ghost var least := LeastOf(rest);
        var id :| id in rest && forall j :: j in rest ==> id <= j;
        ListingGrows(ids, id, rest, state.live.Keys);
        var row := RowFor(id);
        assert Rows(state, ids + [id]) == Rows(state, ids) + [Row(state, id)];
        rows := rows + [row];
        ids := ids + [id];
        rest := rest - {id};
      }
      ListingEnds(ids, state.live.Keys);
      s := Snapshot(next, rows);
    }

    lemma SameKeys()
      requires Represents()
      ensures live.Keys == state.live.Keys && next == state.next
    {
    }

    method RowFor(id: int) returns (row: SnapshotOrder)
      requires Valid() && id in state.live
      ensures row == Row(state, id)
    {
      hide Good;
      var o := live[id];
      var b := books[o.symbol];
      assert Shows(b, o.symbol, state.live);
      var resting := b.ordersById[id];
      var key := (o.user, o.client);
      row := SnapshotOrder(id, o.client, o.user, o.symbol, o.side,
                           key in clientToOrder && clientToOrder[key] == id,
                           o.price, resting.remaining, resting.createdAt);
    }

    /** The fields hold what has been restored so far, the next id aside. */
    ghost predicate Loaded(e: Engine)
      reads `live, `clientToOrder, `books, `repr, repr
    {
      Tabled(live, e.live) && clientToOrder == e.index && BooksShow(e.live)
    }

    /** Add one restored order to its book, behind everything already there. */
    method ReAdd(id: int, o: Order, ghost orders: Orders)
      requires BooksShow(orders) && NoneFrom(orders, id)
      requires o.remaining > 0 && (o.side == BUY || o.side == SELL)
      modifies this`books, this`repr, repr
      ensures BooksShow(orders[id := o]) && fresh(repr - old(repr))
    {
      hide Shows;
      var b := BookFor(o.symbol, orders);
      ReAddToOne(b, id, o, orders);
      forall s | s in books ensures Shows(books[s], s, orders[id := o]) {
        if s != o.symbol {
          OfSymbolInsert(orders, id, o, s);
          ShowsSame(books[s], s, orders, orders[id := o]);
        }
      }
    }

    method LoadRow(row: SnapshotOrder, ghost e: Engine)
      requires Loaded(e) && NoneFrom(e.live, row.orderId)
      requires row.remaining > 0 && (row.side == BUY || row.side == SELL)
      modifies this`live, this`clientToOrder, this`books, this`repr, repr
      ensures Loaded(Load(e, row)) && fresh(repr - old(repr))
    {
      hide Tabled, BooksShow, NoneFrom;
      TabledInsert(live, e.live, row.orderId, OrderOf(row));
      live := live[row.orderId := LiveOrder(row.client, row.user, row.symbol, row.side, row.price)];
      if row.indexed {
        clientToOrder := clientToOrder[(row.user, row.client) := row.orderId];
      }
      ReAdd(row.orderId, OrderOf(row), e.live);
    }

    /** Load a snapshot into an engine that has applied nothing; `ok` is false where the source throws. */
    method Restore(s: Snapshot) returns (ok: bool)
      requires Valid()
      modifies this, repr
      ensures ok == (old(next) == 1 && old(live) == map[] && old(books) == map[] && Acceptable(s))
      ensures ok ==> Represents() && state == Restored(grant, s.next, s.orders) && fresh(repr - old(repr))
    {
      if next != 1 || live != map[] || books != map[] {
        return false;
      }
      var previous := 0;
      NothingRestored(state);
      hide Good, Loaded, Load, Restored, NoneFrom;
      StartLoading(s);
      for k := 0 to |s.orders|
        invariant forall i: nat :: i < k ==> AcceptableRow(s, i)
        invariant previous == if k == 0 then 0 else s.orders[k - 1].orderId
        invariant Loaded(Restored(grant, s.next, s.orders[..k]))
        invariant NoneFrom(Restored(grant, s.next, s.orders[..k]).live, previous + 1)
        invariant fresh(repr - old(repr))
      {
        var row := s.orders[k];
        if !AcceptableRow(s, k) {
          return false;
        }
        ghost var before := Restored(grant, s.next, s.orders[..k]);
        RestoredOne(grant, s.next, s.orders, k);
        LoadKeepsOrder(before, row, previous);
        LoadRow(row, before);
        previous := row.orderId;
      }
      assert s.orders[..|s.orders|] == s.orders;
      next := s.next;
      state := Restored(grant, s.next, s.orders);
      RestoredNext(grant, s.next, s.orders);
      FinishLoading();
      return true;
    }

    lemma StartLoading(s: Snapshot)
      requires live == map[] && clientToOrder == map[] && books == map[]
      ensures Loaded(Restored(grant, s.next, s.orders[..0]))
      ensures NoneFrom(Restored(grant, s.next, s.orders[..0]).live, 1)
    {
    }

    lemma FinishLoading()
      requires Loaded(state) && state.next == next && state.grant == grant
      ensures Represents()
    {
    }
  }

  method ReAddToOne(b: OrderBook, id: int, o: Order, ghost orders: Orders)
    requires Shows(b, o.symbol, orders) && NoneFrom(orders, id)
    requires o.remaining > 0 && (o.side == BUY || o.side == SELL)
    modifies b
    ensures Shows(b, o.symbol, orders[id := o])
  {
    hide Consistent, Open, Ranked;
    ConsistentFacts(b.bids, b.asks, b.ordersById, b.arrivalSequence, b.nextArrival);
    ArrivalIsOfSymbol(orders, id, o, b.ordersById, b.arrivalSequence, b.nextArrival);
    hide IdsInArrivalOrder, OfSymbol;
    var _ := b.AddOrder(id, o);
  }

  method RemoveFromOne(b: OrderBook, symbol: int, id: int, ghost orders: Orders)
    requires Shows(b, symbol, orders) && id in orders && orders[id].symbol == symbol
    modifies b
    ensures Shows(b, symbol, orders - {id})
  {
    ghost var before, arrivals := b.ordersById, b.arrivalSequence;
    ConsistentFacts(b.bids, b.asks, b.ordersById, b.arrivalSequence, b.nextArrival);
    OfSymbolRemove(orders, id, symbol);
    hide Consistent, OfSymbol, IdsInArrivalOrder;
    var _ := b.RemoveOrder(id);
    WithinItself(arrivals);
    WithinRemove(arrivals, arrivals, id);
    ConsistentFacts(b.bids, b.asks, b.ordersById, b.arrivalSequence, b.nextArrival);
    StillInArrivalOrder(before, arrivals, b.ordersById, b.arrivalSequence);
  }

  method MatchInOne(b: OrderBook, r: Inbound, id: int, ghost e: Engine) returns (trades: seq<Trade>)
    requires Good(e) && r.SubmitOrder? && Passes(r) && id == e.next
    requires Shows(b, r.symbol, e.live)
    modifies b
    ensures Open(e.live[id := OrderFrom(r)])
    ensures trades == Greedy(e.live[id := OrderFrom(r)], id).trades
    ensures Shows(b, r.symbol, Greedy(e.live[id := OrderFrom(r)], id).live)
  {
    ghost var arrived := e.live[id := OrderFrom(r)];
    ArrivalIsOpen(e, r);
    hide Consistent, Open, UncrossedBut, Within, Ranked, IndexSound;
    ConsistentFacts(b.bids, b.asks, b.ordersById, b.arrivalSequence, b.nextArrival);
    ArrivalIsOfSymbol(e.live, id, OrderFrom(r), b.ordersById, b.arrivalSequence, b.nextArrival);
    hide IdsInArrivalOrder, OfSymbol;
    var ok := b.AddOrder(id, OrderFrom(r));
    ghost var orders, arrivals := b.ordersById, b.arrivalSequence;
    MatchAllIsGreedy(arrived, id, r.symbol, arrivals);
    hide MatchAll;
    trades := b.Match();
    ConsistentFacts(b.bids, b.asks, b.ordersById, b.arrivalSequence, b.nextArrival);
    MatchAllShrinks(orders, arrivals);
    StillInArrivalOrder(orders, arrivals, b.ordersById, b.arrivalSequence);
  }
}
