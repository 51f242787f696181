/** The gateway's risk state: what each account has settled and what its orders have committed. */
module RiskModel {
  import opened Contracts
  import opened PriceTime
  import opened EngineSpec
  import opened MapSums
  import opened LedgerModel

  datatype Reservation = Reservation(user: int, client: int, symbol: int, side: int, price: int, qty: int)

  datatype Risk = Risk(settled: map<int, int>, reserved: map<int, int>, positions: map<PositionKey, int>,
                       reservedQty: map<PositionKey, int>, pending: map<ClientKey, Reservation>,
                       open: map<int, Reservation>)

  const FRESH := Risk(map[], map[], map[], map[], map[], map[])

  /** The worst fee on one unit, rounded up. */
  function FeePerUnit(price: int): int {
    -(-price * TAKER_FEE_BPS / BPS_DENOMINATOR)
  }

  /** The cash a buy commits: linear in the quantity, so partial fills release exactly what was reserved. */
  function BuyCost(price: int, qty: int): int {
    qty * (price + FeePerUnit(price))
  }

  function ClientOf(r: Reservation): ClientKey {
    (r.user, r.client)
  }

  function SymbolOf(r: Reservation): PositionKey {
    (r.user, r.symbol)
  }

  // ---- operations ------------------------------------------------------------------------------

  function Commit(k: Risk, r: Reservation): Risk {
    if r.side == BUY then k.(reserved := Add(k.reserved, r.user, BuyCost(r.price, r.qty)))
    else k.(reservedQty := Add(k.reservedQty, SymbolOf(r), r.qty))
  }

  /** Give back what `qty` of an order had committed, at the price the reservation was taken at. */
  function Release(k: Risk, r: Reservation, qty: int): Risk {
    if r.side == BUY then
      k.(reserved := k.reserved[r.user := Max(0, Get(k.reserved, r.user) - BuyCost(r.price, qty))])
    else
      k.(reservedQty := k.reservedQty[SymbolOf(r) := Max(0, Get(k.reservedQty, SymbolOf(r)) - qty)])
  }

  function RejectReasonFor(k: Risk, makers: set<int>, r: Reservation): Option<int> {
    if r.side == BUY then
      if Get(k.settled, r.user) - Get(k.reserved, r.user) < BuyCost(r.price, r.qty) then Some(INSUFFICIENT_CASH)
      else None
    else if r.user in makers then None
    else if Get(k.positions, SymbolOf(r)) - Get(k.reservedQty, SymbolOf(r)) < r.qty then Some(INSUFFICIENT_POSITION)
    else None
  }

  function Reserve(k: Risk, r: Reservation): Risk {
    var c := Commit(k, r);
    c.(pending := c.pending[ClientOf(r) := r])
  }

  /** `_abandon` when the pending entry is the request's own. */
  function Abandon(k: Risk, r: Reservation): Risk {
    Release(k.(pending := k.pending - {ClientOf(r)}), r, r.qty)
  }

  function ReservationOf(r: Outbound): Reservation
    requires r.OrderAccepted?
  {
    Reservation(r.user, r.client, r.symbol, r.side, r.price, r.qty)
  }

  /** An acceptance adopts the pending reservation, or commits anew when there is none. */
  function Accept(k: Risk, r: Outbound): Risk
    requires r.OrderAccepted?
  {
    var key := (r.user, r.client);
    if key in k.pending then
      k.(pending := k.pending - {key}, open := k.open[r.orderId := k.pending[key]])
    else
      var c := Commit(k, ReservationOf(r));
      c.(open := c.open[r.orderId := ReservationOf(r)])
  }

  function ReleaseFill(k: Risk, id: int, qty: int): Risk {
    if id !in k.open then k
    else
      var r := k.open[id];
      var left := Max(0, r.qty - qty);
      var c := Release(k, r, qty);
      c.(open := if left == 0 then c.open - {id} else c.open[id := r.(qty := left)])
  }

  function ReleaseRemaining(k: Risk, id: int): Risk {
    if id !in k.open then k
    else Release(k.(open := k.open - {id}), k.open[id], k.open[id].qty)
  }

  function Settle(k: Risk, r: Outbound): Risk {
    k.(settled := CashAfter(k.settled, r), positions := PositionsAfter(k.positions, r))
  }

  function ApplyRecord(k: Risk, r: Outbound): Risk {
    match r
    case AccountCreated(_, _, _, _) => Settle(k, r)
    case CashCredited(_, _, _, _) => Settle(k, r)
    case OrderAccepted(_, _, _, _, _, _, _, _, _) => Accept(k, r)
    case Fill(_, maker, taker, _, _, _, qty, _, _) => ReleaseFill(ReleaseFill(Settle(k, r), maker, qty), taker, qty)
    case OrderCancelled(_, id, _, _, _, _, _) => ReleaseRemaining(k, id)
    case _ => k
  }

  function Replay(rs: seq<Outbound>): Risk {
    if rs == [] then FRESH else ApplyRecord(Replay(rs[..|rs| - 1]), rs[|rs| - 1])
  }

  // ---- commitments are the sum of the orders that made them ---------------------------------------

  function CashHeld(user: int): Reservation -> int {
    (r: Reservation) => if r.side == BUY && r.user == user then BuyCost(r.price, r.qty) else 0
  }

  function UnitsHeld(key: PositionKey): Reservation -> int {
    (r: Reservation) => if r.side != BUY && SymbolOf(r) == key then r.qty else 0
  }

  predicate Serious(r: Reservation) {
    r.price > 0 && r.qty > 0 && (r.side == BUY || r.side == SELL)
  }

  ghost predicate AllSerious(k: Risk) {
    && (forall c :: c in k.pending ==> Serious(k.pending[c]) && ClientOf(k.pending[c]) == c)
    && (forall id :: id in k.open ==> Serious(k.open[id]))
  }

  ghost predicate CashBacked(k: Risk, user: int) {
    Get(k.reserved, user) == Sum(k.pending, CashHeld(user)) + Sum(k.open, CashHeld(user))
  }

  ghost predicate UnitsBacked(k: Risk, key: PositionKey) {
    Get(k.reservedQty, key) == Sum(k.pending, UnitsHeld(key)) + Sum(k.open, UnitsHeld(key))
  }

  /** Every commitment is exactly what the pending and open orders account for. */
  ghost predicate Backed(k: Risk) {
    && AllSerious(k)
    && (forall user :: CashBacked(k, user))
    && (forall key :: UnitsBacked(k, key))
  }

  lemma CostIsPositive(price: int, qty: int)
    requires price > 0 && qty > 0
    ensures BuyCost(price, qty) > 0 && FeePerUnit(price) >= 0
  {
    assert price + FeePerUnit(price) > 0;
    Positive(qty, price + FeePerUnit(price));
  }

  lemma Positive(a: int, b: int)
    requires a > 0 && b > 0
    ensures a * b > 0
  {
  }

  lemma CostAdds(price: int, a: int, b: int)
    ensures BuyCost(price, a + b) == BuyCost(price, a) + BuyCost(price, b)
  {
    var unit := price + FeePerUnit(price);
    assert (a + b) * unit == a * unit + b * unit;
  }

  lemma HeldIsNonNegative(m: map<int, Reservation>, p: map<ClientKey, Reservation>, user: int, key: PositionKey)
    requires forall id :: id in m ==> Serious(m[id])
    requires forall c :: c in p ==> Serious(p[c])
    ensures Sum(m, CashHeld(user)) >= 0 && Sum(p, CashHeld(user)) >= 0
    ensures Sum(m, UnitsHeld(key)) >= 0 && Sum(p, UnitsHeld(key)) >= 0
  {
    forall id | id in m ensures CashHeld(user)(m[id]) >= 0 { CostIsPositive(m[id].price, m[id].qty); }
    forall c | c in p ensures CashHeld(user)(p[c]) >= 0 { CostIsPositive(p[c].price, p[c].qty); }
    assert forall id :: id in m ==> UnitsHeld(key)(m[id]) >= 0;
    assert forall c :: c in p ==> UnitsHeld(key)(p[c]) >= 0;
    SumNonNegative(m, CashHeld(user));
    SumNonNegative(p, CashHeld(user));
    SumNonNegative(m, UnitsHeld(key));
    SumNonNegative(p, UnitsHeld(key));
  }

  /** Backed commitments are never negative. */
  lemma BackedIsNonNegative(k: Risk, user: int, key: PositionKey)
    requires Backed(k)
    ensures Get(k.reserved, user) >= 0 && Get(k.reservedQty, key) >= 0
  {
    HeldIsNonNegative(k.open, k.pending, user, key);
    assert CashBacked(k, user) && UnitsBacked(k, key);
  }

  /** What one resting order holds is there to be given back. */
  lemma OpenIsCovered(k: Risk, id: int)
    requires Backed(k) && id in k.open
    ensures var r := k.open[id];
      && (r.side == BUY ==> Get(k.reserved, r.user) >= BuyCost(r.price, r.qty) > 0)
      && (r.side != BUY ==> Get(k.reservedQty, SymbolOf(r)) >= r.qty)
  {
    var r := k.open[id];
    HeldIsNonNegative(k.open - {id}, k.pending, r.user, SymbolOf(r));
    SumRemove(k.open, id, CashHeld(r.user));
    SumRemove(k.open, id, UnitsHeld(SymbolOf(r)));
    assert CashBacked(k, r.user) && UnitsBacked(k, SymbolOf(r));
    CostIsPositive(r.price, r.qty);
  }

  // ---- every record keeps them backed -------------------------------------------------------------

  /** The gateway's open orders are those of the records applied so far. */
  ghost predicate Mirrors(open: map<int, Reservation>, v: Orders) {
    open.Keys == v.Keys && forall id :: id in open ==> SameOrder(open[id], v[id])
  }

  predicate SameOrder(r: Reservation, o: Order) {
    && r.user == o.user && r.client == o.client && r.symbol == o.symbol && r.side == o.side && r.price == o.price
    && r.qty == o.remaining
  }

  /** The pending reservation, if there is one, was taken for this very order. */
  ghost predicate Adopts(k: Risk, r: Outbound)
    requires r.OrderAccepted?
  {
    (r.user, r.client) in k.pending ==> k.pending[(r.user, r.client)] == ReservationOf(r)
  }

  lemma CommitHolds(k: Risk, r: Reservation, user: int, key: PositionKey)
    ensures Get(Commit(k, r).reserved, user) == Get(k.reserved, user) + CashHeld(user)(r)
    ensures Get(Commit(k, r).reservedQty, key) == Get(k.reservedQty, key) + UnitsHeld(key)(r)
  {
    hide BuyCost;
    AddGets(k.reserved, r.user, BuyCost(r.price, r.qty), user);
    AddGets(k.reservedQty, SymbolOf(r), r.qty, key);
    hide Add, Get;
  }

  lemma AddGets<K>(m: map<K, int>, k: K, delta: int, other: K)
    ensures Get(Add(m, k, delta), other) == Get(m, other) + if other == k then delta else 0
  {
  }

  lemma ReserveKeepsBacked(k: Risk, r: Reservation)
    requires Backed(k) && Serious(r) && ClientOf(r) !in k.pending
    ensures Backed(Reserve(k, r))
  {
    var after := Reserve(k, r);
    hide Commit, BuyCost, CashHeld, UnitsHeld;
    assert after.open == k.open && after.pending == k.pending[ClientOf(r) := r] by { CommitKeepsOrders(k, r); }
    forall user ensures CashBacked(after, user) {
      assert CashBacked(k, user);
      CommitHolds(k, r, user, SymbolOf(r));
      SumUpdate(k.pending, ClientOf(r), r, CashHeld(user));
    }
    forall key ensures UnitsBacked(after, key) {
      assert UnitsBacked(k, key);
      CommitHolds(k, r, r.user, key);
      SumUpdate(k.pending, ClientOf(r), r, UnitsHeld(key));
    }
  }

  lemma CommitKeepsOrders(k: Risk, r: Reservation)
    ensures var c := Commit(k, r);
      c.open == k.open && c.pending == k.pending && c.settled == k.settled && c.positions == k.positions
  {
    hide BuyCost, Get, Add;
  }

  lemma AcceptKeepsBacked(k: Risk, r: Outbound)
    requires Backed(k) && r.OrderAccepted? && r.orderId !in k.open && Serious(ReservationOf(r)) && Adopts(k, r)
    ensures Backed(Accept(k, r)) && Accept(k, r).open == k.open[r.orderId := ReservationOf(r)]
    ensures Accept(k, r).pending == k.pending - {(r.user, r.client)}
  {
    var after, key, res := Accept(k, r), (r.user, r.client), ReservationOf(r);
    hide Commit, BuyCost, CashHeld, UnitsHeld;
    CommitKeepsOrders(k, res);
    forall user ensures CashBacked(after, user) {
      assert CashBacked(k, user);
      CommitHolds(k, res, user, (r.user, r.symbol));
      SumUpdate(k.open, r.orderId, res, CashHeld(user));
      if key in k.pending { SumRemove(k.pending, key, CashHeld(user)); }
    }
    forall unit ensures UnitsBacked(after, unit) {
      assert UnitsBacked(k, unit);
      CommitHolds(k, res, r.user, unit);
      SumUpdate(k.open, r.orderId, res, UnitsHeld(unit));
      if key in k.pending { SumRemove(k.pending, key, UnitsHeld(unit)); }
    }
    assert key !in k.pending ==> k.pending - {key} == k.pending;
  }

  /** Releasing what is covered takes exactly that off the totals. */
  lemma ReleaseHolds(k: Risk, r: Reservation, qty: int, user: int, key: PositionKey)
    requires r.side == BUY ==> Get(k.reserved, r.user) >= BuyCost(r.price, qty)
    requires r.side != BUY ==> Get(k.reservedQty, SymbolOf(r)) >= qty
    ensures Get(Release(k, r, qty).reserved, user) == Get(k.reserved, user) - CashHeld(user)(r.(qty := qty))
    ensures Get(Release(k, r, qty).reservedQty, key) == Get(k.reservedQty, key) - UnitsHeld(key)(r.(qty := qty))
  {
    hide BuyCost;
  }

  lemma ReleaseKeepsOrders(k: Risk, r: Reservation, qty: int)
    ensures var c := Release(k, r, qty);
      c.open == k.open && c.pending == k.pending && c.settled == k.settled && c.positions == k.positions
  {
    hide BuyCost, Get, Add;
  }

  lemma HeldSplits(r: Reservation, qty: int, user: int, key: PositionKey)
    ensures CashHeld(user)(r) == CashHeld(user)(r.(qty := qty)) + CashHeld(user)(r.(qty := r.qty - qty))
    ensures UnitsHeld(key)(r) == UnitsHeld(key)(r.(qty := qty)) + UnitsHeld(key)(r.(qty := r.qty - qty))
  {
    CostAdds(r.price, qty, r.qty - qty);
    assert qty + (r.qty - qty) == r.qty;
    hide BuyCost;
  }

  lemma PartIsCovered(k: Risk, id: int, qty: int)
    requires Backed(k) && id in k.open && 0 < qty <= k.open[id].qty
    ensures var r := k.open[id];
      && (r.side == BUY ==> Get(k.reserved, r.user) >= BuyCost(r.price, qty))
      && (r.side != BUY ==> Get(k.reservedQty, SymbolOf(r)) >= qty)
  {
    var r := k.open[id];
    OpenIsCovered(k, id);
    CostAdds(r.price, qty, r.qty - qty);
    if r.qty - qty > 0 { CostIsPositive(r.price, r.qty - qty); }
  }

  lemma FillKeepsBacked(k: Risk, id: int, qty: int)
    requires Backed(k) && id in k.open && 0 < qty <= k.open[id].qty
    ensures Backed(ReleaseFill(k, id, qty))
  {
    hide CashBacked, UnitsBacked, BuyCost;
    forall user ensures CashBacked(ReleaseFill(k, id, qty), user) { FillKeepsCash(k, id, qty, user); }
    forall key ensures UnitsBacked(ReleaseFill(k, id, qty), key) { FillKeepsUnits(k, id, qty, key); }
  }

  lemma FillKeepsCash(k: Risk, id: int, qty: int, user: int)
    requires Backed(k) && id in k.open && 0 < qty <= k.open[id].qty
    ensures CashBacked(ReleaseFill(k, id, qty), user)
  {
    hide Release, BuyCost, CashHeld, UnitsHeld, UnitsBacked, AllSerious;
    var r := k.open[id];
    PartIsCovered(k, id, qty);
    ReleaseKeepsOrders(k, r, qty);
    assert CashBacked(k, user);
    ReleaseHolds(k, r, qty, user, SymbolOf(r));
    HeldSplits(r, qty, user, SymbolOf(r));
    SumRemove(k.open, id, CashHeld(user));
    SumUpdate(k.open, id, r.(qty := r.qty - qty), CashHeld(user));
  }

  lemma FillKeepsUnits(k: Risk, id: int, qty: int, key: PositionKey)
    requires Backed(k) && id in k.open && 0 < qty <= k.open[id].qty
    ensures UnitsBacked(ReleaseFill(k, id, qty), key)
  {
    hide Release, BuyCost, CashHeld, UnitsHeld, CashBacked, AllSerious;
    var r := k.open[id];
    PartIsCovered(k, id, qty);
    ReleaseKeepsOrders(k, r, qty);
    assert UnitsBacked(k, key);
    ReleaseHolds(k, r, qty, r.user, key);
    HeldSplits(r, qty, r.user, key);
    SumRemove(k.open, id, UnitsHeld(key));
    SumUpdate(k.open, id, r.(qty := r.qty - qty), UnitsHeld(key));
  }

  lemma RemainingKeepsBacked(k: Risk, id: int)
    requires Backed(k) && id in k.open
    ensures Backed(ReleaseRemaining(k, id)) && ReleaseRemaining(k, id).open == k.open - {id}
  {
    var after, r := ReleaseRemaining(k, id), k.open[id];
    OpenIsCovered(k, id);
    var without := k.(open := k.open - {id});
    ReleaseKeepsOrders(without, r, r.qty);
    hide Release, BuyCost, CashHeld, UnitsHeld;
    assert r.(qty := r.qty) == r;
    forall user ensures CashBacked(after, user) {
      assert CashBacked(k, user);
      ReleaseHolds(without, r, r.qty, user, SymbolOf(r));
      SumRemove(k.open, id, CashHeld(user));
    }
    forall key ensures UnitsBacked(after, key) {
      assert UnitsBacked(k, key);
      ReleaseHolds(without, r, r.qty, r.user, key);
      SumRemove(k.open, id, UnitsHeld(key));
    }
  }

  lemma AbandonKeepsBacked(k: Risk, r: Reservation)
    requires Backed(k) && ClientOf(r) in k.pending && k.pending[ClientOf(r)] == r
    ensures Backed(Abandon(k, r))
  {
    var after, c := Abandon(k, r), ClientOf(r);
    PendingIsCovered(k, c);
    var without := k.(pending := k.pending - {c});
    ReleaseKeepsOrders(without, r, r.qty);
    hide Release, BuyCost, CashHeld, UnitsHeld;
    assert r.(qty := r.qty) == r;
    forall user ensures CashBacked(after, user) {
      assert CashBacked(k, user);
      ReleaseHolds(without, r, r.qty, user, SymbolOf(r));
      SumRemove(k.pending, c, CashHeld(user));
    }
    forall key ensures UnitsBacked(after, key) {
      assert UnitsBacked(k, key);
      ReleaseHolds(without, r, r.qty, r.user, key);
      SumRemove(k.pending, c, UnitsHeld(key));
    }
  }

  lemma PendingIsCovered(k: Risk, c: ClientKey)
    requires Backed(k) && c in k.pending
    ensures var r := k.pending[c];
      && (r.side == BUY ==> Get(k.reserved, r.user) >= BuyCost(r.price, r.qty) > 0)
      && (r.side != BUY ==> Get(k.reservedQty, SymbolOf(r)) >= r.qty)
  {
    var r := k.pending[c];
    HeldIsNonNegative(k.open, k.pending - {c}, r.user, SymbolOf(r));
    SumRemove(k.pending, c, CashHeld(r.user));
    SumRemove(k.pending, c, UnitsHeld(SymbolOf(r)));
    assert CashBacked(k, r.user) && UnitsBacked(k, SymbolOf(r));
    CostIsPositive(r.price, r.qty);
  }
}
