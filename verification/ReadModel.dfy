/** The ledger's database tables as a projection of the ledger, written in full or only where touched. */
module ReadModel {
  import opened Contracts
  import opened MapSums
  import opened LedgerModel

  /** `fees` is absent until the first flush. */
  datatype Tables = Tables(accounts: map<int, int>, positions: map<PositionKey, int>, orders: map<int, OpenOrder>,
                           fees: Option<int>)

  datatype Dirty = Dirty(accounts: set<int>, positions: set<PositionKey>, orders: set<int>)

  const CLEAN := Dirty({}, {}, {})

  /** The full projection: every balance, every non-zero position, every open order, the fees. */
  function Projection(b: Books): Tables {
    Tables(b.cash, HeldAmong(b.positions, b.positions.Keys), b.open, Some(b.fees))
  }

  function HeldAmong(positions: map<PositionKey, int>, keys: set<PositionKey>): map<PositionKey, int> {
    map k | k in keys && Get(positions, k) != 0 :: Get(positions, k)
  }

  // ---- what a record touches -------------------------------------------------------------------

  function Touched(r: Outbound): Dirty {
    match r
    case AccountCreated(_, _, user, _) => Dirty({user}, {}, {})
    case CashCredited(_, _, user, _) => Dirty({user}, {}, {})
    case OrderAccepted(_, id, _, _, _, _, _, _, _) => Dirty({}, {}, {id})
    case OrderCancelled(_, id, _, _, _, _, _) => Dirty({}, {}, {id})
    case Fill(_, maker, taker, _, _, _, _, symbol, _) =>
      Dirty({BuyerOf(r), SellerOf(r)}, {(BuyerOf(r), symbol), (SellerOf(r), symbol)}, {maker, taker})
    case _ => CLEAN
  }

  function Both(a: Dirty, b: Dirty): Dirty {
    Dirty(a.accounts + b.accounts, a.positions + b.positions, a.orders + b.orders)
  }

  // ---- one flush -------------------------------------------------------------------------------

  /** Insert a balance, or update the one that is there. */
  function UpsertAccounts(rows: map<int, int>, cash: map<int, int>, keys: set<int>): map<int, int>
    requires keys <= cash.Keys
  {
    rows + (map u | u in keys :: cash[u])
  }

  /** Delete the keys' rows and insert those that are not zero. */
  function ReplacePositions(rows: map<PositionKey, int>, positions: map<PositionKey, int>, keys: set<PositionKey>)
    : map<PositionKey, int>
  {
    (rows - keys) + HeldAmong(positions, keys)
  }

  /** An existing row keeps everything but its remaining quantity. */
  function UpsertedOrder(rows: map<int, OpenOrder>, id: int, o: OpenOrder): OpenOrder {
    if id in rows then rows[id].(remaining := o.remaining) else o
  }

  /** Delete the keys' rows the ledger no longer holds and upsert those it does. */
  function UpsertOrders(rows: map<int, OpenOrder>, open: map<int, OpenOrder>, keys: set<int>): map<int, OpenOrder> {
    map id | id in rows.Keys + open.Keys && (if id in keys then id in open else id in rows) ::
      if id in keys then UpsertedOrder(rows, id, open[id]) else rows[id]
  }

  function Flushed(t: Tables, b: Books, dirty: Dirty, full: bool): Tables
    requires dirty.accounts <= b.cash.Keys
  {
    if full then
      Tables(UpsertAccounts(t.accounts, b.cash, b.cash.Keys), HeldAmong(b.positions, b.positions.Keys), b.open,
        Some(b.fees))
    else
      Tables(UpsertAccounts(t.accounts, b.cash, dirty.accounts),
        ReplacePositions(t.positions, b.positions, dirty.positions),
             UpsertOrders(t.orders, b.open, dirty.orders), Some(b.fees))
  }

  // ---- when writing the touched rows is enough -------------------------------------------------

  /** Two records of the same order, the quantity left aside. */
  predicate SameTerms(a: OpenOrder, b: OpenOrder) {
    a.(remaining := b.remaining) == b
  }

  /** The tables differ from the projection only in rows that are dirty. */
  ghost predicate Covers(t: Tables, b: Books, dirty: Dirty) {
    && dirty.accounts <= b.cash.Keys && t.accounts.Keys <= b.cash.Keys
    && (forall u :: u in b.cash && u !in dirty.accounts ==> u in t.accounts && t.accounts[u] == b.cash[u])
    && (forall k :: k !in dirty.positions ==> Get(t.positions, k) == Get(b.positions, k))
    && (forall k :: k in t.positions && k !in dirty.positions ==> t.positions[k] != 0)
    && (forall id :: id !in dirty.orders ==>
          (id in t.orders <==> id in b.open) && (id in b.open ==> t.orders[id] == b.open[id]))
    && (forall id :: id in t.orders && id in b.open ==> SameTerms(t.orders[id], b.open[id]))
  }

  /** Writing only the dirty rows gives the full projection. */
  lemma IncrementalIsFull(t: Tables, b: Books, dirty: Dirty)
    requires Covers(t, b, dirty)
    ensures Flushed(t, b, dirty, false) == Projection(b)
    ensures Covers(Projection(b), b, CLEAN)
  {
    AccountsFlushed(t, b, dirty);
    PositionsFlushed(t, b, dirty);
    OrdersFlushed(t, b, dirty);
    ProjectionCovers(b);
  }

  lemma AccountsFlushed(t: Tables, b: Books, dirty: Dirty)
    requires Covers(t, b, dirty)
    ensures UpsertAccounts(t.accounts, b.cash, dirty.accounts) == b.cash
  {
    var after := UpsertAccounts(t.accounts, b.cash, dirty.accounts);
    assert forall u :: u in t.accounts ==> u in b.cash;
    assert forall u :: u in dirty.accounts ==> u in b.cash;
    forall u ensures u in after <==> u in b.cash {}
    forall u | u in after ensures after[u] == b.cash[u] {}
  }

  lemma PositionsFlushed(t: Tables, b: Books, dirty: Dirty)
    requires Covers(t, b, dirty)
    ensures ReplacePositions(t.positions, b.positions, dirty.positions) == HeldAmong(b.positions, b.positions.Keys)
  {
    var after, held := ReplacePositions(t.positions, b.positions, dirty.positions),
      HeldAmong(b.positions, b.positions.Keys);
    forall k ensures k in after <==> k in held {
      if k !in dirty.positions { assert Get(t.positions, k) == Get(b.positions, k); }
    }
    forall k | k in held ensures after[k] == held[k] {
      if k !in dirty.positions { assert Get(t.positions, k) == Get(b.positions, k); }
    }
  }

  lemma OrdersFlushed(t: Tables, b: Books, dirty: Dirty)
    requires Covers(t, b, dirty)
    ensures UpsertOrders(t.orders, b.open, dirty.orders) == b.open
  {
    var after := UpsertOrders(t.orders, b.open, dirty.orders);
    forall id ensures id in after <==> id in b.open {}
    forall id | id in after ensures after[id] == b.open[id] {}
  }

  lemma ProjectionCovers(b: Books)
    ensures Covers(Projection(b), b, CLEAN)
  {
    var t := Projection(b);
    forall k ensures Get(t.positions, k) == Get(b.positions, k) {}
  }

  /** A full flush gives the projection, whatever was there, exactly when no account row is a stranger's. */
  lemma FullIsProjection(t: Tables, b: Books, dirty: Dirty)
    requires dirty.accounts <= b.cash.Keys
    ensures Flushed(t, b, dirty, true) == Projection(b) <==> t.accounts.Keys <= b.cash.Keys
  {
    var after := UpsertAccounts(t.accounts, b.cash, b.cash.Keys);
    assert after.Keys == t.accounts.Keys + b.cash.Keys;
    if t.accounts.Keys <= b.cash.Keys {
      assert forall u :: u in t.accounts.Keys ==> u in b.cash.Keys;
      assert after == b.cash;
    }
  }

  /** The same tables over account rows that were there before. */
  function Over(rows: map<int, int>, t: Tables): Tables {
    t.(accounts := rows + t.accounts)
  }

  /** A flush leaves such rows alone but for the users it writes. */
  lemma FlushOver(rows: map<int, int>, t: Tables, b: Books, dirty: Dirty, full: bool)
    requires dirty.accounts <= b.cash.Keys
    ensures Flushed(Over(rows, t), b, dirty, full) == Over(rows, Flushed(t, b, dirty, full))
  {
    var keys := if full then b.cash.Keys else dirty.accounts;
    var more := map u | u in keys :: b.cash[u];
    assert (rows + t.accounts) + more == rows + (t.accounts + more);
  }

  // ---- applying a record keeps the tables covered ----------------------------------------------

  lemma CoversCash(t: Tables, b: Books, dirty: Dirty, r: Outbound)
    requires Covers(t, b, dirty)
    ensures var b' := ApplyOne(b, r); var dirty' := Both(dirty, Touched(r));
      && dirty'.accounts <= b'.cash.Keys && t.accounts.Keys <= b'.cash.Keys && b.cash.Keys <= b'.cash.Keys
      && (forall u :: u in b'.cash && u !in dirty'.accounts ==> u in t.accounts && t.accounts[u] == b'.cash[u])
  {
  }

  lemma CoversPositions(t: Tables, b: Books, dirty: Dirty, r: Outbound)
    requires Covers(t, b, dirty)
    ensures var b' := ApplyOne(b, r); var dirty' := Both(dirty, Touched(r));
      && (forall k :: k !in dirty'.positions ==> Get(t.positions, k) == Get(b'.positions, k))
      && (forall k :: k in t.positions && k !in dirty'.positions ==> t.positions[k] != 0)
  {
  }

  lemma CoversOrders(t: Tables, b: Books, dirty: Dirty, r: Outbound)
    requires Covers(t, b, dirty) && (r.OrderAccepted? ==> r.orderId !in t.orders)
    ensures var b' := ApplyOne(b, r); var dirty' := Both(dirty, Touched(r));
      && (forall id :: id !in dirty'.orders ==>
            (id in t.orders <==> id in b'.open) && (id in b'.open ==> t.orders[id] == b'.open[id]))
      && (forall id :: id in t.orders && id in b'.open ==> SameTerms(t.orders[id], b'.open[id]))
  {
    LessenTerms(b.open);
  }

  lemma LessenTerms(open: map<int, OpenOrder>)
    ensures forall id, qty, i :: i in Lessen(open, id, qty) ==>
      i in open && SameTerms(open[i], Lessen(open, id, qty)[i])
  {
  }

  lemma CoversStep(t: Tables, b: Books, dirty: Dirty, r: Outbound)
    requires Covers(t, b, dirty) && (r.OrderAccepted? ==> r.orderId !in t.orders)
    ensures Covers(t, ApplyOne(b, r), Both(dirty, Touched(r)))
  {
    CoversCash(t, b, dirty, r);
    CoversPositions(t, b, dirty, r);
    CoversOrders(t, b, dirty, r);
    hide ApplyOne, Touched, Both, SameTerms;
  }
}
