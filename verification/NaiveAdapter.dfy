/** The Python matcher around the reference book. Its table and its index hold records that refer to
    the very order objects the books reduce. */
module NaiveAdapter {
  import opened Contracts
  import opened PriceTime
  import opened MatchingLoop
  import opened EngineSpec
  import opened Snapshots
  import opened Bookkeeping
  import opened PriceLevels
  import opened SubmitSteps
  import opened NaiveModel

  datatype Live = Live(id: int, client: int, user: int, symbol: int, side: int, price: int, qty: int, order: ModelOrder)

  type Table = map<int, Live>

  /** The record and its order object describe `o`, the quantity left aside. */
  ghost predicate Describes(l: Live, id: int, o: Order) {
    && l.id == id && l.order.id == id
    && l.order.terms.(remaining := o.remaining) == o
    && l.client == o.client && l.user == o.user && l.symbol == o.symbol && l.side == o.side && l.price == o.price
  }

  ghost predicate Recorded(table: Table, orders: Orders) {
    table.Keys == orders.Keys && forall id :: id in table ==> Describes(table[id], id, orders[id])
  }

  /** The client index names the same orders as `index`, by the records of `table`. */
  ghost predicate IndexRecorded(live: map<ClientKey, Live>, index: map<ClientKey, int>, table: Table) {
    && live.Keys == index.Keys
    && forall k :: k in live ==> index[k] in table && live[k] == table[index[k]]
  }

  /** The book shows one symbol's orders, and its objects are the ones the table refers to. */
  ghost predicate Shows(b: OrderBook, symbol: int, orders: Orders, table: Table)
    reads b, b.repr
  {
    && b.Valid()
    && ViewOf(b.ordersById) == OfSymbol(orders, symbol)
    && IdsInArrivalOrder(OfSymbol(orders, symbol), b.arrivalSequence)
    && SameObjects(b.ordersById, table)
  }

  ghost predicate SameObjects(byId: Book, table: Table) {
    forall id :: id in byId ==> id in table && byId[id] == table[id].order
  }

  lemma ShowsSame(b: OrderBook, symbol: int, orders: Orders, after: Orders, table: Table, table': Table)
    requires Shows(b, symbol, orders, table) && OfSymbol(after, symbol) == OfSymbol(orders, symbol)
    requires forall id :: id in OfSymbol(orders, symbol) && id in table ==> id in table' && table'[id] == table[id]
    ensures Shows(b, symbol, after, table')
  {
    KeysOfView(b.ordersById);
  }

  lemma EmptyBookShows(b: OrderBook, symbol: int, orders: Orders, table: Table)
    requires b.Valid() && b.ordersById == map[]
    requires forall id :: id in orders ==> orders[id].symbol != symbol
    ensures Shows(b, symbol, orders, table)
  {
    assert forall id :: id !in OfSymbol(orders, symbol);
    assert ViewOf(b.ordersById) == OfSymbol(orders, symbol);
  }

  class NaiveMatcher {
    const grant: int
    var next: int
    var books: map<int, OrderBook>
    var live: map<ClientKey, Live>
    var byOrderId: Table
    ghost var state: Engine
    ghost var repr: set<OrderBook>
    ghost var objects: set<ModelOrder>

    ghost predicate BooksShow(orders: Orders, table: Table)
      reads `books, `repr, `objects, repr, objects
    {
      && (forall s :: s in books ==> books[s] in repr && books[s].repr <= objects)
      && (forall s, t :: s in books && t in books && s != t ==>
            books[s] != books[t] && books[s].repr !! books[t].repr)
      && (forall s :: s in books ==> Shows(books[s], s, orders, table))
      && (forall id :: id in orders ==> orders[id].symbol in books)
    }

    ghost predicate Represents()
      reads this, repr, objects
    {
      && state.next == next && state.grant == grant
      && Recorded(byOrderId, state.live)
      && IndexRecorded(live, state.index, byOrderId)
      && BooksShow(state.live, byOrderId)
    }

    ghost predicate Valid()
      reads this, repr, objects
    {
      Represents() && Good(state)
    }

    constructor (grant: int)
      ensures Valid() && state == Fresh(grant) && repr == {} && objects == {}
      ensures next == 1 && books == map[] && live == map[] && byOrderId == map[] && this.grant == grant
    {
      this.grant := grant;
      next, books, live, byOrderId := 1, map[], map[], map[];
      state, repr, objects := Fresh(grant), {}, {};
    }

    /** `book` creates an empty book on first use. */
    method BookFor(symbol: int, ghost orders: Orders, ghost table: Table) returns (b: OrderBook)
      requires BooksShow(orders, table)
      modifies this`books, this`repr
      ensures BooksShow(orders, table) && symbol in books && books[symbol] == b
      ensures fresh(repr - old(repr))
    {
      hide Shows;
      if symbol !in books {
        b := new OrderBook();
        EmptyBookShows(b, symbol, orders, table);
        books := books[symbol := b];
        repr := repr + {b};
      }
      b := books[symbol];
    }

    /** Put a new record's order into its symbol's book. */
    method AddToBook(l: Live, o: Order, ghost orders: Orders, ghost table: Table)
      requires BooksShow(orders, table) && (forall i :: i in orders ==> i < l.id)
      requires Describes(l, l.id, o) && l.order.remaining == o.remaining > 0 && (o.side == BUY || o.side == SELL)
      requires l.order !in objects
      modifies this`books, this`repr, this`objects, repr
      ensures BooksShow(orders[l.id := o], table[l.id := l]) && o.symbol in books
      ensures fresh(repr - old(repr)) && objects == old(objects) + {l.order}
      ensures NoneAfter(OfSymbol(orders[l.id := o], o.symbol), l.id)
    {
      hide Shows, Describes, NoneAfter;
      var b := BookFor(o.symbol, orders, table);
      ShowsSame(b, o.symbol, orders, orders, table, table[l.id := l]);
      SymbolOf(l, o);
      QueueIn(b, o.symbol, l, o, orders, table[l.id := l]);
      objects := objects + {l.order};
      forall s | s in books ensures Shows(books[s], s, orders[l.id := o], table[l.id := l]) {
        if s != o.symbol {
          OfSymbolInsert(orders, l.id, o, s);
          ShowsSame(books[s], s, orders, orders[l.id := o], table, table[l.id := l]);
        }
      }
    }

    /** Match the book of the order that just arrived. */
    method MatchBook(symbol: int, t: int, ghost arrived: Orders, ghost table: Table) returns (trades: seq<Trade>)
      requires BooksShow(arrived, table) && symbol in books
      requires Open(arrived) && t in arrived && UncrossedBut(arrived, Some(t)) && arrived[t].symbol == symbol
      requires NoneAfter(OfSymbol(arrived, symbol), t)
      modifies repr, objects
      ensures trades == Greedy(arrived, t).trades && BooksShow(Greedy(arrived, t).live, table)
      ensures CurrentOf(OfSymbol(arrived, symbol), OfSymbol(Greedy(arrived, t).live, symbol), table)
    {
      hide Shows, Open, UncrossedBut, NoneAfter, CurrentOf;
      GreedyKeeps(arrived, t);
      trades := MatchOne(books[symbol], symbol, t, arrived, table);
      ghost var left := Greedy(arrived, t).live;
      forall s | s in books ensures Shows(books[s], s, left, table) {
        if s != symbol {
          OthersUnmatched(arrived, t, s);
          ShowsSame(books[s], s, arrived, left, table, table);
        }
      }
    }

    /** Give the order an id, record it, and match it in its symbol's book. */
    method EnterAndMatch(r: Inbound, ghost n: Entry) returns (l: Live, trades: seq<Trade>)
      requires r.SubmitOrder? && Passes(r) && Valid() && n == Entered(state, r)
      modifies this, repr, objects
      ensures state == old(state) && l.id == n.id && next == l.id + 1 && trades == n.trades
      ensures Describes(l, l.id, OrderFrom(r)) && l.id in byOrderId && byOrderId[l.id] == l
      ensures Recorded(byOrderId, n.arrived) && IndexRecorded(live, n.index, byOrderId)
      ensures r.symbol in books && BooksShow(n.matched, byOrderId)
      ensures CurrentOf(OfSymbol(n.arrived, r.symbol), OfSymbol(n.matched, r.symbol), byOrderId)
      ensures fresh(repr - old(repr)) && fresh(objects - old(objects))
    {
      hide BooksShow, Recorded, IndexRecorded, Describes, Open, Uncrossed, IndexSound, UncrossedBut, CurrentOf,
        NoneAfter, Greedy;
      ArrivalIsOpen(state, r);
      var id := next;
      next := next + 1;
      var o := new ModelOrder(id, OrderFrom(r));
      l := Live(id, r.client, r.user, r.symbol, r.side, r.price, r.qty, o);
      NewRecord(l, id, r, byOrderId, live, state);
      AddToBook(l, OrderFrom(r), state.live, byOrderId);
      live := live[(r.user, r.client) := l];
      byOrderId := byOrderId[id := l];
      trades := MatchBook(r.symbol, id, n.arrived, byOrderId);
    }

    method Forget(l: Live)
      modifies this`live, this`byOrderId
      ensures live == old(live) - {(l.user, l.client)} && byOrderId == old(byOrderId) - {l.id}
    {
      live := live - {(l.user, l.client)};
      byOrderId := byOrderId - {l.id};
    }

    /** What the table and index hold while the departed orders of `seen` are being forgotten. */
    ghost predicate Forgetting(n: Entry, all: Table, seen: set<int>)
      reads `byOrderId, `live
    {
      var left := Remembered(n.arrived, n.matched, seen);
      && byOrderId.Keys == left.Keys && (forall id :: id in byOrderId ==> id in all && byOrderId[id] == all[id])
      && IndexRecorded(live, Prune(n.index, n.arrived, left), all)
    }

    method ForgetDeparted(l: Live, ghost n: Entry, ghost all: Table, ghost seen: set<int>)
      requires Forgetting(n, all, seen) && l.id in byOrderId && l.id in n.arrived && l.id !in n.matched
      requires Describes(l, l.id, n.arrived[l.id])
      modifies this`live, this`byOrderId
      ensures Forgetting(n, all, seen + {l.id})
    {
      ForgetOne(n.index, n.arrived, n.matched, seen, l.id);
      hide Prune, Remembered;
      Forget(l);
    }

    /** The fills in execution order; an exhausted maker is forgotten as its fill is reported. */
    method FillsAndForget(r: Inbound, l: Live, trades: seq<Trade>, ghost n: Entry, ghost all: Table)
      returns (out: seq<Outbound>)
      requires Tracks(n, r) && l.id == n.id && trades == n.trades && all == byOrderId && MakersOnce(n)
      requires Recorded(all, n.arrived) && IndexRecorded(live, n.index, all)
      requires CurrentOf(OfSymbol(n.arrived, r.symbol), OfSymbol(n.matched, r.symbol), all)
      modifies this`live, this`byOrderId
      ensures n.id in n.arrived && forall k :: 0 <= k < |n.trades| ==> MakerOf(n.trades[k], n.id) in n.arrived
      ensures Forgetting(n, all, Makers(trades, l.id)) && out == FillsFrom(r, n.id, n.arrived, n.trades)
      ensures CurrentOf(OfSymbol(n.arrived, r.symbol), OfSymbol(n.matched, r.symbol), all)
    {
      hide Forgetting, Recorded, Prune, Remembered, IndexRecorded, CurrentOf, Makers, Shrinks, Open, Tracks,
        ReportedAs, MakersOnce, FillsFrom;
      StartForgetting(n);
      TakerArrived(n, r);
      assert trades[..0] == [];
      out := [];
      for k := 0 to |trades|
        invariant Forgetting(n, all, Makers(trades[..k], l.id))
        invariant |out| == k && forall j :: 0 <= j < k ==> ReportedAs(out[j], r, n, j)
        invariant CurrentOf(OfSymbol(n.arrived, r.symbol), OfSymbol(n.matched, r.symbol), all)
      {
        var fill := OneFill(r, l, k, trades, n, all);
        out := out + [fill];
      }
      assert trades[..|trades|] == trades;
      ReportsAreFills(out, r, n);
    }

    method OneFill(r: Inbound, l: Live, k: nat, trades: seq<Trade>, ghost n: Entry, ghost all: Table)
      returns (fill: Outbound)
      requires Tracks(n, r) && l.id == n.id && trades == n.trades && k < |trades| && MakersOnce(n)
      requires Recorded(all, n.arrived) && Forgetting(n, all, Makers(trades[..k], l.id))
      requires CurrentOf(OfSymbol(n.arrived, r.symbol), OfSymbol(n.matched, r.symbol), all)
      modifies this`live, this`byOrderId
      ensures Forgetting(n, all, Makers(trades[..k + 1], l.id)) && ReportedAs(fill, r, n, k)
      ensures CurrentOf(OfSymbol(n.arrived, r.symbol), OfSymbol(n.matched, r.symbol), all)
    {
      hide Forgetting, Recorded, Prune, Remembered, IndexRecorded, Makers, Shrinks, Open, MakersOnce;
      var makerId := if trades[k].buyId == l.id then trades[k].sellId else trades[k].buyId;
      MakerFacts(n, r, all, k, Makers(trades[..k], l.id));
      var maker, taker := byOrderId[makerId], byOrderId[l.id];
      MakersAppend(trades, k, l.id);
      fill := Fill(r.ts, makerId, l.id, maker.user, taker.user, trades[k].price, trades[k].qty, maker.symbol, r.side);
      if maker.order.remaining == 0 {
        ForgetDeparted(maker, n, all, Makers(trades[..k], l.id));
      } else {
        NothingToForget(n, all, Makers(trades[..k], l.id), makerId);
      }
    }

    lemma StartForgetting(n: Entry)
      requires Recorded(byOrderId, n.arrived) && IndexRecorded(live, n.index, byOrderId)
      ensures Forgetting(n, byOrderId, Makers([], n.id))
    {
      PruneNothing(n.index, n.arrived, n.matched);
      assert Makers([], n.id) == {};
    }

    lemma MakerFacts(n: Entry, r: Inbound, all: Table, k: nat, seen: set<int>)
      requires Tracks(n, r) && k < |n.trades| && MakersOnce(n) && seen == Makers(n.trades[..k], n.id)
      requires Recorded(all, n.arrived) && Forgetting(n, all, seen)
      requires CurrentOf(OfSymbol(n.arrived, r.symbol), OfSymbol(n.matched, r.symbol), all)
      ensures var m := MakerOf(n.trades[k], n.id);
        && m in n.arrived && m in byOrderId && n.id in byOrderId && n.id in n.arrived
        && Describes(byOrderId[m], m, n.arrived[m]) && Describes(byOrderId[n.id], n.id, n.arrived[n.id])
        && (byOrderId[m].order.remaining == 0 <==> m !in n.matched)
    {
      var m := MakerOf(n.trades[k], n.id);
      assert InvolvesOne(n.trades[k], n.arrived, n.id);
      TakerNotSeen(n, k);
      hide Prune, IndexRecorded;
      assert m in OfSymbol(n.arrived, r.symbol);
      assert m in n.matched ==> m in OfSymbol(n.matched, r.symbol);
    }

    lemma NothingToForget(n: Entry, all: Table, seen: set<int>, id: int)
      requires Forgetting(n, all, seen) && id in n.arrived && id in n.matched
      ensures Forgetting(n, all, seen + {id})
    {
      ForgetOne(n.index, n.arrived, n.matched, seen, id);
    }

    /** Take one order out of its book. */
    method RemoveFromBook(symbol: int, id: int, ghost orders: Orders, ghost table: Table)
      requires BooksShow(orders, table) && symbol in books && id in orders && orders[id].symbol == symbol
      modifies books[symbol]
      ensures BooksShow(orders - {id}, table)
    {
      hide Shows;
      RemoveFromOne(books[symbol], symbol, id, orders, table);
      forall s | s in books ensures Shows(books[s], s, orders - {id}, table) {
        if s != symbol {
          OfSymbolRemove(orders, id, s);
          ShowsSame(books[s], s, orders, orders - {id}, table, table);
        }
      }
    }

    lemma BookIn(symbol: int, orders: Orders, table: Table)
      requires BooksShow(orders, table) && symbol in books
      ensures books[symbol] in repr && books[symbol].repr <= objects
    {
    }

    /** The taker either rests, or has nothing left, or expires. */
    method Conclude(r: Inbound, l: Live, ghost n: Entry, ghost all: Table) returns (out: seq<Outbound>)
      requires Tracks(n, r) && l.id == n.id && l.id in all && all[l.id] == l
      requires Recorded(all, n.arrived) && Forgetting(n, all, Makers(n.trades, n.id)) && MakersOnce(n)
      requires CurrentOf(OfSymbol(n.arrived, r.symbol), OfSymbol(n.matched, r.symbol), all)
      requires BooksShow(n.matched, all) && r.symbol in books
      modifies this`live, this`byOrderId, repr
      ensures Forgotten(n, r, all) && BooksShow(Left(n, r), all) && out == Expired(n, r)
    {
      hide Forgetting, Recorded, Prune, Remembered, IndexRecorded, CurrentOf, Makers, BooksShow, LeftOver;
      out := [];
      var remaining := l.order.remaining;
      ghost var seen := Makers(n.trades, n.id);
      TakerFacts(n, r, all, seen);
      if r.tif == IOC && remaining > 0 {
        NothingToForget(n, all, seen, l.id);
        AllSeen(n, r, all);
        BookIn(r.symbol, n.matched, all);
        RemoveFromBook(r.symbol, l.id, n.matched, all);
        ExpiredForgotten(n, r, all, byOrderId, live);
        Forget(l);
        out := [OrderCancelled(r.ts, l.id, r.client, r.user, remaining, r.symbol, IOC_EXPIRED)];
      } else if remaining == 0 {
        ForgetDeparted(l, n, all, seen);
        AllSeen(n, r, all);
      } else {
        NothingToForget(n, all, seen, l.id);
        AllSeen(n, r, all);
      }
    }

    lemma TakerFacts(n: Entry, r: Inbound, all: Table, seen: set<int>)
      requires Tracks(n, r) && MakersOnce(n) && seen == Makers(n.trades, n.id)
      requires Recorded(all, n.arrived) && Forgetting(n, all, seen)
      requires CurrentOf(OfSymbol(n.arrived, r.symbol), OfSymbol(n.matched, r.symbol), all)
      ensures n.id in n.arrived && n.arrived[n.id] == OrderFrom(r) && n.id in byOrderId && n.id in all
      ensures byOrderId[n.id] == all[n.id] && Describes(all[n.id], n.id, OrderFrom(r))
      ensures all[n.id].order.remaining == if n.id in n.matched then n.matched[n.id].remaining else 0
      ensures n.id in n.matched ==> n.matched[n.id].remaining > 0 && n.matched[n.id].symbol == r.symbol
    {
      hide Prune, IndexRecorded, Makers;
      assert n.trades[..|n.trades|] == n.trades;
      TakerNotSeen(n, |n.trades|);
      assert n.id in OfSymbol(n.arrived, r.symbol);
      assert n.id in n.matched ==> n.id in OfSymbol(n.matched, r.symbol);
    }

    lemma AllSeen(n: Entry, r: Inbound, all: Table)
      requires Tracks(n, r) && Forgetting(n, all, Makers(n.trades, n.id) + {n.id})
      ensures LeftOver(byOrderId, live, n.matched, Prune(n.index, n.arrived, n.matched), all)
    {
      MakersAndTakerForgotten(n.arrived, n.matched, n.trades, n.id);
      PruneSameKeys(n.index, n.arrived, Remembered(n.arrived, n.matched, Makers(n.trades, n.id) + {n.id}), n.matched);
    }

    /** With the bookkeeping done, the fields represent what is left. */
    lemma Settled(left: Orders, arrived: Orders, index: map<ClientKey, int>, all: Table)
      requires LeftOver(byOrderId, live, left, index, all) && Recorded(all, arrived) && Shrinks(arrived, left)
      requires IndexSound(left, index) && BooksShow(left, all)
      ensures Recorded(byOrderId, left) && IndexRecorded(live, index, byOrderId) && BooksShow(left, byOrderId)
    {
      LeftOverRecords(byOrderId, live, arrived, left, index, all);
      forall s | s in books ensures Shows(books[s], s, left, byOrderId) {
        ShowsSame(books[s], s, left, left, all, byOrderId);
      }
    }

    method Accept(r: Inbound) returns (out: seq<Outbound>)
      requires Valid() && r.SubmitOrder? && Passes(r)
      modifies this, repr, objects
      ensures Valid() && fresh(repr - old(repr)) && fresh(objects - old(objects))
      ensures Step(state, out) == EngineSpec.Submit(Naive, old(state), r)
    {
      hide BooksShow, Tracks, Good, Recorded, IndexRecorded, Prune, Entered, Left, Expired, Passes,
        EngineSpec.Submit, CurrentOf, Forgetting, LeftOver, MakersOnce, Makers;
      ghost var step, n := EngineSpec.Submit(Naive, state, r), Entered(state, r);
      EnteredFacts(Naive, state, r);
      MakersTradeOnce(state, r);
      var l, trades := EnterAndMatch(r, n);
      ghost var all := byOrderId;
      var fills := FillsAndForget(r, l, trades, n, all);
      var expired := Conclude(r, l, n, all);
      out := [OrderAccepted(r.ts, l.id, r.client, r.user, r.price, r.qty, r.symbol, r.side, r.tif)] + fills + expired;
      LeftShrinks(n, r, step.engine);
      Settled(Left(n, r), n.arrived, Prune(n.index, n.arrived, Left(n, r)), all);
      state := step.engine;
    }

    method Submit(r: Inbound) returns (out: seq<Outbound>)
      requires Valid() && r.SubmitOrder?
      modifies this, repr, objects
      ensures Valid() && fresh(repr - old(repr)) && fresh(objects - old(objects))
      ensures Step(state, out) == EngineSpec.Submit(Naive, old(state), r)
    {
      hide Good;
      var reason := RejectReason(Naive, r);
      if reason.Some? {
        return [OrderRejected(r.ts, r.client, r.user, r.symbol, reason.value)];
      }
      out := Accept(r);
    }

    method Cancel(r: Inbound) returns (out: seq<Outbound>)
      requires Valid() && r.CancelOrder?
      modifies this, repr, objects
      ensures Valid() && repr == old(repr) && objects == old(objects)
      ensures Step(state, out) == EngineSpec.Cancel(old(state), r)
    {
      hide BooksShow, Recorded, IndexRecorded, Describes;
      CancelKeepsGood(state, r);
      hide Uncrossed, Open, IndexSound;
      var key := (r.user, r.target);
      SameKeys();
      if key !in live {
        return [OrderRejected(r.ts, r.client, r.user, 0, UNKNOWN_ORDER)];
      }
      ghost var step := EngineSpec.Cancel(state, r);
      var l := live[key];
      FoundRecord(key);
      var remaining := l.order.remaining;
      RemoveFromBook(l.symbol, l.id, state.live, byOrderId);
      ForgetRemoved(l, key);
      Forget(l);
      state := step.engine;
      out := [OrderCancelled(r.ts, l.id, l.client, r.user, remaining, l.symbol, USER_REQUESTED)];
    }

    lemma SameKeys()
      requires Valid()
      ensures live.Keys == state.index.Keys && byOrderId.Keys == state.live.Keys && next == state.next
    {
    }

    /** The record a client id reaches describes the order the abstract engine reaches. */
    lemma FoundRecord(key: ClientKey)
      requires Valid() && key in live
      ensures var l := live[key]; var id := state.index[key];
        && l.id == id && l.user == key.0 && l.client == key.1
        && l.client == state.live[id].client && l.symbol == state.live[id].symbol
        && l.order.remaining == state.live[id].remaining
        && l.symbol in books && books[l.symbol] in repr
    {
      Resting(state.index[key]);
    }

    /** A recorded order still rests with its object's quantity. */
    lemma Resting(id: int)
      requires Valid() && id in state.live
      ensures id in byOrderId && Describes(byOrderId[id], id, state.live[id])
      ensures byOrderId[id].order.remaining == state.live[id].remaining
      ensures state.live[id].symbol in books && books[state.live[id].symbol] in repr
    {
      hide Good;
      var b := books[state.live[id].symbol];
      assert Shows(b, state.live[id].symbol, state.live, byOrderId);
      assert id in OfSymbol(state.live, state.live[id].symbol);
      KeysOfView(b.ordersById);
      TermsOfView(b.ordersById, id);
    }

    lemma ForgetRemoved(l: Live, key: ClientKey)
      requires Recorded(byOrderId, state.live) && IndexRecorded(live, state.index, byOrderId)
      requires IndexSound(state.live, state.index) && key in live && live[key] == l
      requires l.id == state.index[key] && BooksShow(state.live - {l.id}, byOrderId)
      ensures Recorded(byOrderId - {l.id}, state.live - {l.id})
      ensures IndexRecorded(live - {key}, state.index - {key}, byOrderId - {l.id})
      ensures BooksShow(state.live - {l.id}, byOrderId - {l.id})
    {
      forall s | s in books ensures Shows(books[s], s, state.live - {l.id}, byOrderId - {l.id}) {
        ShowsSame(books[s], s, state.live - {l.id}, state.live - {l.id}, byOrderId, byOrderId - {l.id});
      }
    }

    /** One record in, its outbound records out: exactly the abstract engine's step. */
    method Apply(r: Inbound) returns (out: seq<Outbound>)
      requires Valid()
      modifies this, repr, objects
      ensures Valid() && fresh(repr - old(repr)) && fresh(objects - old(objects))
      ensures Step(state, out) == EngineSpec.Apply(Naive, old(state), r)
    {
      match r
      case SubmitOrder(_, _, _, _, _, _, _, _) => out := Submit(r);
      case CancelOrder(_, _, _, _) => out := Cancel(r);
      case CreateAccount(ts, client, user) => out := [AccountCreated(ts, client, user, grant)];
      case CreditCash(ts, client, user, amount) => out := [CashCredited(ts, client, user, amount)];
      case ConfigureReplay(ts, client, rate, hi, lo) => out := [ReplayConfigured(ts, client, rate, hi, lo)];
      case Unrecognised(_) => out := [];
    }

    /** Every live order, in ascending id as the packing sorts them. */
    method TakeSnapshot() returns (s: Snapshot)
      requires Valid()
      ensures s == Take(state)
    {
      hide Represents, Good, Row, AscendingIds;
      SameKeys();
      var rest, rows := byOrderId.Keys, [];
      ghost var ids: seq<int> := [];
      NoIds();
      while rest != {}
        invariant Listing(ids, rest, state.live.Keys)
        invariant (forall k :: 0 <= k < |ids| ==> ids[k] in state.live) && rows == Rows(state, ids)
        decreases rest
      {
        ghost var least := LeastOf(rest);
        var id :| id in rest && forall j :: j in rest ==> id <= j;
        ListingGrows(ids, id, rest, state.live.Keys);
        var row := RowFor(id);
        assert Rows(state, ids + [id]) == Rows(state, ids) + [Row(state, id)];
        rows := rows + [row];
        ids := ids + [id];
        rest := rest - {id};
      }
      ListingEnds(ids, state.live.Keys);
      s := Snapshot(next, rows);
    }

    method RowFor(id: int) returns (row: SnapshotOrder)
      requires Valid() && id in state.live
      ensures row == Row(state, id)
    {
      hide Good, BooksShow;
      Resting(id);
      var l := byOrderId[id];
      var key := (l.user, l.client);
      OwnsKey(id);
      row := SnapshotOrder(l.id, l.client, l.user, l.symbol, l.side, key in live && live[key] == l,
                           l.price, l.order.remaining, l.order.terms.createdAt);
    }

    /** The index holds this very record exactly when the abstract index names this order. */
    lemma OwnsKey(id: int)
      requires Represents() && id in byOrderId
      ensures var l := byOrderId[id]; var key := (l.user, l.client);
        (key in live && live[key] == l) == (key in state.index && state.index[key] == id)
    {
    }

    ghost predicate Loaded(e: Engine)
      reads `byOrderId, `live, `books, `repr, `objects, repr, objects
    {
      Recorded(byOrderId, e.live) && IndexRecorded(live, e.index, byOrderId) && BooksShow(e.live, byOrderId)
    }

    method LoadRow(row: SnapshotOrder, ghost e: Engine)
      requires Loaded(e) && NoneFrom(e.live, row.orderId)
      requires row.remaining > 0 && (row.side == BUY || row.side == SELL)
      modifies this`live, this`byOrderId, this`books, this`repr, this`objects, repr
      ensures Loaded(Load(e, row)) && fresh(repr - old(repr)) && fresh(objects - old(objects))
    {
      hide BooksShow, Recorded, IndexRecorded, Describes;
      var o := new ModelOrder(row.orderId, OrderOf(row));
      var l := Live(row.orderId, row.client, row.user, row.symbol, row.side, row.price, row.remaining, o);
      RestoredRecord(l, row, e, byOrderId, live);
      AddToBook(l, OrderOf(row), e.live, byOrderId);
      byOrderId := byOrderId[row.orderId := l];
      if row.indexed {
        live := live[(row.user, row.client) := l];
      }
    }

    /** A new matcher from a snapshot; `ok` is false where the source raises. */
    static method Restore(s: Snapshot, grant: int) returns (ok: bool, m: NaiveMatcher)
      ensures ok == Acceptable(s)
      ensures ok ==> fresh(m) && fresh(m.repr) && fresh(m.objects)
      ensures ok ==> m.Represents() && m.grant == grant && m.state == Restored(grant, s.next, s.orders)
    {
      m := new NaiveMatcher(grant);
      ok := m.LoadAll(s);
    }

    method LoadAll(s: Snapshot) returns (ok: bool)
      requires next == 1 && live == map[] && byOrderId == map[] && books == map[] && repr == {} && objects == {}
      modifies this
      ensures ok == Acceptable(s)
      ensures ok ==> fresh(repr) && fresh(objects)
      ensures ok ==> Represents() && state == Restored(grant, s.next, s.orders)
    {
      var previous := 0;
      hide Good, Loaded, Load, Restored, NoneFrom;
      StartLoading(s);
      for k := 0 to |s.orders|
        invariant forall i: nat :: i < k ==> AcceptableRow(s, i)
        invariant previous == if k == 0 then 0 else s.orders[k - 1].orderId
        invariant Loaded(Restored(grant, s.next, s.orders[..k]))
        invariant NoneFrom(Restored(grant, s.next, s.orders[..k]).live, previous + 1)
        invariant fresh(repr) && fresh(objects)
      {
        var row := s.orders[k];
        if !AcceptableRow(s, k) {
          return false;
        }
        ghost var before := Restored(grant, s.next, s.orders[..k]);
        RestoredOne(grant, s.next, s.orders, k);
        LoadKeepsOrder(before, row, previous);
        LoadRow(row, before);
        previous := row.orderId;
      }
      assert s.orders[..|s.orders|] == s.orders;
      next := s.next;
      state := Restored(grant, s.next, s.orders);
      RestoredNext(grant, s.next, s.orders);
      FinishLoading();
      return true;
    }

    lemma StartLoading(s: Snapshot)
      requires live == map[] && byOrderId == map[] && books == map[]
      ensures Loaded(Restored(grant, s.next, s.orders[..0]))
      ensures NoneFrom(Restored(grant, s.next, s.orders[..0]).live, 1)
    {
    }

    lemma FinishLoading()
      requires Loaded(state) && state.next == next && state.grant == grant
      ensures Represents()
    {
    }

    /** Table and index hold exactly what is left. */
    ghost predicate Forgotten(n: Entry, r: Inbound, all: Table)
      reads `byOrderId, `live
    {
      r.SubmitOrder? && LeftOver(byOrderId, live, Left(n, r), Prune(n.index, n.arrived, Left(n, r)), all)
    }
  }

  ghost predicate LeftOver(table: Table, live: map<ClientKey, Live>, left: Orders, index: map<ClientKey, int>,
                           all: Table)
  {
    && table.Keys == left.Keys && (forall id :: id in table ==> id in all && table[id] == all[id])
    && IndexRecorded(live, index, all)
  }

  lemma ExpiredForgotten(n: Entry, r: Inbound, all: Table, table: Table, live: map<ClientKey, Live>)
    requires r.SubmitOrder? && n.id in n.arrived && n.arrived[n.id] == OrderFrom(r) && n.id in n.matched
    requires n.id in all && Describes(all[n.id], n.id, OrderFrom(r))
    requires LeftOver(table, live, n.matched, Prune(n.index, n.arrived, n.matched), all)
    ensures LeftOver(table - {n.id}, live - {(all[n.id].user, all[n.id].client)}, n.matched - {n.id},
                     Prune(n.index, n.arrived, n.matched - {n.id}), all)
  {
    PruneOne(n.index, n.arrived, n.matched, n.id);
  }

  /** Once the leftovers are known to be a sound engine, they describe it. */
  lemma LeftOverRecords(table: Table, live: map<ClientKey, Live>, arrived: Orders, left: Orders,
                        index: map<ClientKey, int>, all: Table)
    requires LeftOver(table, live, left, index, all) && Recorded(all, arrived) && Shrinks(arrived, left)
    requires IndexSound(left, index)
    ensures Recorded(table, left) && IndexRecorded(live, index, table)
  {
    assert forall id :: id in table <==> id in left;
    forall k | k in live ensures index[k] in table && live[k] == table[index[k]] {
      var i := index[k];
      assert i in left && i in table && table[i] == all[i];
    }
  }

  method RemoveFromOne(b: OrderBook, symbol: int, id: int, ghost orders: Orders, ghost table: Table)
    requires Shows(b, symbol, orders, table) && id in orders && orders[id].symbol == symbol
    modifies b
    ensures b.repr == old(b.repr) && Shows(b, symbol, orders - {id}, table)
  {
    hide Consistent, OfSymbol, IdsInArrivalOrder, ViewOf, NaiveModel.Shape;
    ghost var before, arrivals := OfSymbol(orders, symbol), b.arrivalSequence;
    ConsistentFacts(b.bidIds, b.askIds, ViewOf(b.ordersById), b.arrivalSequence, b.nextArrival);
    OfSymbolRemove(orders, id, symbol);
    var _ := b.RemoveOrder(id);
    WithinItself(arrivals);
    WithinRemove(arrivals, arrivals, id);
    ConsistentFacts(b.bidIds, b.askIds, ViewOf(b.ordersById), b.arrivalSequence, b.nextArrival);
    StillInArrivalOrder(before, arrivals, ViewOf(b.ordersById), b.arrivalSequence);
    OpenWithout(before, id);
  }

  lemma OpenWithout(orders: Orders, id: int)
    requires Open(orders)
    ensures Open(orders - {id})
  {
  }

  /** The record describes the maker and taker of fill `k`. */
  ghost predicate ReportedAs(f: Outbound, r: Inbound, n: Entry, k: nat) {
    && r.SubmitOrder? && k < |n.trades| && n.id in n.arrived && MakerOf(n.trades[k], n.id) in n.arrived
    && f == FillFrom(r, n.id, n.arrived, n.trades[k])
  }

  lemma ReportsAreFills(out: seq<Outbound>, r: Inbound, n: Entry)
    requires r.SubmitOrder? && n.id in n.arrived && |out| == |n.trades|
    requires forall k :: 0 <= k < |out| ==> ReportedAs(out[k], r, n, k)
    ensures forall k :: 0 <= k < |n.trades| ==> MakerOf(n.trades[k], n.id) in n.arrived
    ensures out == FillsFrom(r, n.id, n.arrived, n.trades)
  {
    forall k | 0 <= k < |out|
      ensures MakerOf(n.trades[k], n.id) in n.arrived && out[k] == FillFrom(r, n.id, n.arrived, n.trades[k])
    {
      assert ReportedAs(out[k], r, n, k);
    }
  }

  ghost predicate MakersOnce(n: Entry) {
    forall k :: 0 <= k < |n.trades| ==>
      MakerOf(n.trades[k], n.id) !in Makers(n.trades[..k], n.id) && MakerOf(n.trades[k], n.id) != n.id
  }

  lemma TakerArrived(n: Entry, r: Inbound)
    requires Tracks(n, r)
    ensures r.SubmitOrder? && n.id in n.arrived
  {
  }

  lemma TakerNotSeen(n: Entry, k: nat)
    requires MakersOnce(n) && k <= |n.trades|
    ensures n.id !in Makers(n.trades[..k], n.id)
  {
    forall j | 0 <= j < k ensures MakerOf(n.trades[..k][j], n.id) != n.id {
      assert n.trades[..k][j] == n.trades[j];
    }
  }

  lemma MakersTradeOnce(e: Engine, r: Inbound)
    requires Good(e) && r.SubmitOrder? && Passes(r)
    ensures MakersOnce(Entered(e, r))
  {
    ArrivalIsOpen(e, r);
    MakersAreDistinct(e.live[e.next := OrderFrom(r)], e.next);
    var n := Entered(e, r);
    assert n.trades == Greedy(e.live[e.next := OrderFrom(r)], e.next).trades;
    forall k | 0 <= k < |n.trades|
      ensures MakerOf(n.trades[k], n.id) !in Makers(n.trades[..k], n.id) && MakerOf(n.trades[k], n.id) != n.id
    {
    }
  }

  lemma LeftShrinks(n: Entry, r: Inbound, e: Engine)
    requires Tracks(n, r) && Good(e) && e.live == Left(n, r)
    ensures Shrinks(n.arrived, Left(n, r)) && IndexSound(e.live, e.index)
  {
  }

  lemma RestoredRecord(l: Live, row: SnapshotOrder, e: Engine, table: Table, live: map<ClientKey, Live>)
    requires Recorded(table, e.live) && IndexRecorded(live, e.index, table) && NoneFrom(e.live, row.orderId)
    requires l == Live(row.orderId, row.client, row.user, row.symbol, row.side, row.price, row.remaining, l.order)
    requires l.order.id == row.orderId && l.order.terms == OrderOf(row)
    ensures Describes(l, row.orderId, OrderOf(row)) && (forall i :: i in e.live ==> i < l.id)
    ensures Recorded(table[l.id := l], Load(e, row).live)
    ensures IndexRecorded(if row.indexed then live[(row.user, row.client) := l] else live, Load(e, row).index,
                          table[l.id := l])
  {
  }

  lemma NewRecord(l: Live, id: int, r: Inbound, table: Table, live: map<ClientKey, Live>, e: Engine)
    requires r.SubmitOrder? && Good(e) && id == e.next && Recorded(table, e.live) && IndexRecorded(live, e.index, table)
    requires l == Live(id, r.client, r.user, r.symbol, r.side, r.price, r.qty, l.order)
    requires l.order.id == id && l.order.terms == OrderFrom(r)
    ensures Describes(l, id, OrderFrom(r))
    ensures Recorded(table[id := l], e.live[id := OrderFrom(r)])
    ensures IndexRecorded(live[Key(OrderFrom(r)) := l], e.index[Key(OrderFrom(r)) := id], table[id := l])
    ensures forall i :: i in e.live ==> i < id
  {
  }

  lemma SymbolOf(l: Live, o: Order)
    requires Describes(l, l.id, o)
    ensures l.order.id == l.id && l.order.terms.side == o.side
  {
  }

  lemma OthersUnmatched(arrived: Orders, t: int, symbol: int)
    requires Open(arrived) && t in arrived && UncrossedBut(arrived, Some(t)) && arrived[t].symbol != symbol
    ensures OfSymbol(Greedy(arrived, t).live, symbol) == OfSymbol(arrived, symbol)
  {
    GreedyKeeps(arrived, t);
    var left := Greedy(arrived, t).live;
    forall id ensures id in OfSymbol(left, symbol) <==> id in OfSymbol(arrived, symbol) {}
    forall id | id in OfSymbol(left, symbol) ensures left[id] == arrived[id] {}
  }

  /** Every order of one symbol rests with what `matched` says, or has nothing left. */
  ghost predicate CurrentOf(arrived: Orders, matched: Orders, table: Table)
    reads set id | id in arrived && id in table :: table[id].order
  {
    forall id :: id in arrived && id in table ==>
      table[id].order.remaining == if id in matched then matched[id].remaining else 0
  }

  lemma CurrentAfterMatch(arrived: Orders, matched: Orders, start: Book, byId: Book, table: Table)
    requires SameObjects(start, table) && start.Keys == arrived.Keys
    requires ViewOf(byId) == matched && matched.Keys <= arrived.Keys && Spent(start, byId)
    ensures SameObjects(byId, table) && CurrentOf(arrived, matched, table)
  {
    KeysOfView(byId);
    forall id | id in byId ensures id in table && byId[id] == table[id].order { assert id in matched; }
    forall id | id in matched ensures matched[id].remaining == byId[id].remaining { TermsOfView(byId, id); }
  }

  ghost predicate NoneAfter(orders: Orders, id: int) {
    forall i :: i in orders ==> i <= id
  }

  /** Queue the order object in one book. */
  method QueueIn(b: OrderBook, symbol: int, l: Live, o: Order, ghost orders: Orders, ghost table: Table)
    requires Shows(b, symbol, orders, table) && (forall i :: i in orders ==> i < l.id)
    requires Describes(l, l.id, o) && l.order.remaining == o.remaining > 0 && o.symbol == symbol
    requires o.side == BUY || o.side == SELL
    requires l.id in table && table[l.id] == l
    modifies b
    ensures b.repr == old(b.repr) + {l.order}
    ensures Shows(b, symbol, orders[l.id := o], table)
    ensures NoneAfter(OfSymbol(orders[l.id := o], symbol), l.id)
  {
    hide Consistent, Open, Ranked, ViewOf, NaiveModel.Shape;
    KeysOfView(b.ordersById);
    ConsistentFacts(b.bidIds, b.askIds, ViewOf(b.ordersById), b.arrivalSequence, b.nextArrival);
    ArrivalIsOfSymbol(orders, l.id, o, ViewOf(b.ordersById), b.arrivalSequence, b.nextArrival);
    hide IdsInArrivalOrder, OfSymbol;
    var _ := b.AddOrder(l.order);
  }

  /** Match one book that only the order `t` may cross. */
  method MatchOne(b: OrderBook, symbol: int, t: int, ghost arrived: Orders, ghost table: Table)
    returns (trades: seq<Trade>)
    requires Shows(b, symbol, arrived, table) && Open(arrived) && t in arrived && UncrossedBut(arrived, Some(t))
    requires arrived[t].symbol == symbol && NoneAfter(OfSymbol(arrived, symbol), t)
    modifies b, b.repr
    ensures b.repr == old(b.repr) && trades == Greedy(arrived, t).trades
    ensures Shows(b, symbol, Greedy(arrived, t).live, table)
    ensures CurrentOf(OfSymbol(arrived, symbol), OfSymbol(Greedy(arrived, t).live, symbol), table)
  {
    hide Consistent, Open, UncrossedBut, Within, Ranked, ViewOf, NaiveModel.Shape, IdsInArrivalOrder, OfSymbol,
      MatchAll, Greedy, Spent;
    ghost var before, arrivals, start := ViewOf(b.ordersById), b.arrivalSequence, b.ordersById;
    KeysOfView(start);
    MatchAllIsGreedy(arrived, t, symbol, arrivals);
    trades := b.Match();
    MatchAllShrinks(before, arrivals);
    ConsistentFacts(b.bidIds, b.askIds, ViewOf(b.ordersById), b.arrivalSequence, b.nextArrival);
    StillInArrivalOrder(before, arrivals, ViewOf(b.ordersById), b.arrivalSequence);
    CurrentAfterMatch(before, ViewOf(b.ordersById), start, b.ordersById, table);
  }
}
