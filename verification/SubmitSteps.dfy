/** The stages of one submit, named so that both engines can be checked against the same ones. */
module SubmitSteps {
  import opened Contracts
  import opened PriceTime
  import opened MatchingLoop
  import opened EngineSpec
  import opened Snapshots
  import opened Bookkeeping
  import opened PriceLevels

  lemma OthersKeepTheirBook(e: Engine, r: Inbound, symbol: int)
    requires Good(e) && r.SubmitOrder? && Passes(r) && symbol != r.symbol
    ensures var arrived := e.live[e.next := OrderFrom(r)];
      Open(arrived) && OfSymbol(Greedy(arrived, e.next).live, symbol) == OfSymbol(e.live, symbol)
  {
    ArrivalIsOpen(e, r);
    var arrived := e.live[e.next := OrderFrom(r)];
    GreedyKeeps(arrived, e.next);
    var left := Greedy(arrived, e.next).live;
    forall id ensures id in OfSymbol(left, symbol) <==> id in OfSymbol(e.live, symbol) {}
    forall id | id in OfSymbol(left, symbol) ensures left[id] == e.live[id] {}
  }

  /** The newest order joins its symbol's book at the back of its queue. */
  lemma ArrivalIsOfSymbol(live: Orders, id: int, o: Order, before: Orders, a: Arrivals, n: nat)
    requires forall i :: i in live ==> i < id
    requires before == OfSymbol(live, o.symbol) && IdsInArrivalOrder(before, a)
    requires a.Keys == before.Keys && forall i :: i in a ==> a[i] < n
    ensures id !in before
    ensures var after := OfSymbol(live[id := o], o.symbol);
      && before[id := o] == after
      && IdsInArrivalOrder(after, a[id := n])
      && forall i :: i in after ==> i <= id
  {
    var after := OfSymbol(live[id := o], o.symbol);
    forall i ensures i in before[id := o] <==> i in after {}
  }

  lemma OfSymbolInsert(live: Orders, id: int, o: Order, symbol: int)
    requires id !in live && o.symbol != symbol
    ensures OfSymbol(live[id := o], symbol) == OfSymbol(live, symbol)
  {
  }

  lemma StillInArrivalOrder(before: Orders, a: Arrivals, after: Orders, b: Arrivals)
    requires IdsInArrivalOrder(before, a) && after.Keys <= before.Keys
    requires Within(b, a) && b.Keys == after.Keys
    ensures IdsInArrivalOrder(after, b)
  {
    assert forall id :: id in after ==> id in before;
  }

  /** The engine's orders with the newcomer, what the match makes of them, and the index in between. */
  datatype Entry = Entry(id: int, arrived: Orders, trades: seq<Trade>, matched: Orders, index: map<ClientKey, int>)

  ghost function Entered(e: Engine, r: Inbound): Entry
    requires Good(e) && r.SubmitOrder? && Passes(r)
  {
    ArrivalIsOpen(e, r);
    var arrived := e.live[e.next := OrderFrom(r)];
    var m := Greedy(arrived, e.next);
    Entry(e.next, arrived, m.trades, m.live, e.index[Key(OrderFrom(r)) := e.next])
  }

  /** What the bookkeeping after a match may rely on. */
  ghost predicate Tracks(n: Entry, r: Inbound) {
    && r.SubmitOrder? && Shrinks(n.arrived, n.matched) && Open(n.matched)
    && Involves(n.trades, n.arrived, n.id)
    && n.arrived[n.id] == OrderFrom(r)
    && Remembered(n.arrived, n.matched, Traded(n.trades)).Keys == n.matched.Keys
  }

  function Report(n: Entry, r: Inbound): seq<Outbound>
    requires r.SubmitOrder? && n.id in n.arrived
    requires forall k :: 0 <= k < |n.trades| ==> MakerOf(n.trades[k], n.id) in n.arrived
  {
    [OrderAccepted(r.ts, n.id, r.client, r.user, r.price, r.qty, r.symbol, r.side, r.tif)]
    + FillsFrom(r, n.id, n.arrived, n.trades)
  }

  function Expired(n: Entry, r: Inbound): seq<Outbound>
    requires r.SubmitOrder?
  {
    if r.tif == IOC && n.id in n.matched
    then [OrderCancelled(r.ts, n.id, r.client, r.user, n.matched[n.id].remaining, r.symbol, IOC_EXPIRED)]
    else []
  }

  function Left(n: Entry, r: Inbound): Orders
    requires r.SubmitOrder?
  {
    if r.tif == IOC && n.id in n.matched then n.matched - {n.id} else n.matched
  }

  lemma StaysOpen(arrived: Orders, matched: Orders)
    requires Open(arrived) && Shrinks(arrived, matched)
    ensures Open(matched)
  {
  }

  lemma EnteredFacts(d: Dialect, e: Engine, r: Inbound)
    requires Good(e) && r.SubmitOrder? && Passes(r)
    ensures var n := Entered(e, r);
      && n.id == e.next && Tracks(n, r)
      && (forall k :: 0 <= k < |n.trades| ==> MakerOf(n.trades[k], n.id) in n.arrived)
      && Good(Submit(d, e, r).engine)
      && Submit(d, e, r) == Step(
           Engine(e.next + 1, Left(n, r), Prune(n.index, n.arrived, Left(n, r)), e.grant),
           Report(n, r) + Expired(n, r))
  {
    hide Greedy, Prune, FillsFrom, Shrinks, Traded, Remembered, Uncrossed;
    SubmitKeepsGood(d, e, r);
    ArrivalIsOpen(e, r);
    var arrived := e.live[e.next := OrderFrom(r)];
    GreedyKeeps(arrived, e.next);
    StaysOpen(arrived, Greedy(arrived, e.next).live);
    TradesInvolveTaker(arrived, e.next);
    AllForgotten(arrived, e.next);
    MakersAreLive(arrived, e.next);
  }

  lemma OfSymbolRemove(orders: Orders, id: int, symbol: int)
    requires id in orders
    ensures OfSymbol(orders - {id}, symbol) == OfSymbol(orders, symbol) - {id}
    ensures orders[id].symbol != symbol ==> OfSymbol(orders - {id}, symbol) == OfSymbol(orders, symbol)
  {
  }

  lemma NothingRestored(e: Engine)
    requires Good(e) && e.live == map[]
    ensures e.index == map[]
  {
    assert forall k :: k !in e.index;
  }

  ghost predicate NoneFrom(orders: Orders, id: int) {
    forall i :: i in orders ==> i < id
  }

  lemma LoadKeepsOrder(e: Engine, row: SnapshotOrder, previous: int)
    requires NoneFrom(e.live, previous + 1) && previous < row.orderId
    ensures NoneFrom(e.live, row.orderId) && NoneFrom(Load(e, row).live, row.orderId + 1)
  {
  }

  lemma {:induction false} RestoredNext(grant: int, next: int, rows: seq<SnapshotOrder>)
    ensures Restored(grant, next, rows).next == next && Restored(grant, next, rows).grant == grant
    decreases |rows|
  {
    if rows != [] { RestoredNext(grant, next, rows[..|rows| - 1]); }
  }

  /** `ids` lists, in order, the members of `all` that are no longer in `rest`. */
  ghost predicate Listing(ids: seq<int>, rest: set<int>, all: set<int>) {
    && AscendingIds(ids) && (forall x, y :: x in ids && y in rest ==> x < y)
    && (forall x :: x in all <==> x in ids || x in rest)
  }

  lemma NoIds()
    ensures forall all: set<int> :: Listing([], all, all)
  {
  }

  lemma ListingGrows(ids: seq<int>, id: int, rest: set<int>, all: set<int>)
    requires Listing(ids, rest, all) && id in rest && forall j :: j in rest ==> id <= j
    ensures id in all && Listing(ids + [id], rest - {id}, all)
  {
    forall i | 0 <= i < |ids| ensures ids[i] < id {
      var x := ids[i];
      assert x in ids;
    }
  }

  lemma ListingEnds(ids: seq<int>, all: set<int>)
    requires Listing(ids, {}, all)
    ensures ids == Sorted(all)
  {
    ListsUnique(ids, Sorted(all), all);
  }
}
