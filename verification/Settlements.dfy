/** What changes hands: the fees of a trade to the tick, the cash and units it moves in the ledger and in the
    gateway, and which orders the gateway's check lets through. */
module Settlements {
  import opened Contracts
  import opened MapSums
  import opened LedgerModel
  import opened RiskModel
  import opened RiskSteps

  /** `q` is `n / d`, rounded down. */
  predicate IsFloor(q: int, n: int, d: int) {
    q * d <= n < (q + 1) * d
  }

  /** `q` is `n / d`, rounded up. */
  predicate IsCeiling(q: int, n: int, d: int) {
    (q - 1) * d < n <= q * d
  }

  lemma FloorIsUnique(a: int, b: int, n: int, d: nat)
    requires d > 0 && IsFloor(a, n, d) && IsFloor(b, n, d)
    ensures a == b
  {
    if a < b { Grows(a + 1, b, d); }
    if b < a { Grows(b + 1, a, d); }
  }

  lemma Grows(a: int, b: int, d: nat)
    requires a <= b
    ensures a * d <= b * d
  {
  }

  // ---- fees --------------------------------------------------------------------------------------

  /** Of every trade the resting side pays two basis points and the arriving side ten, each rounded down once
      over the whole trade. */
  lemma FeesAreFloors(price: int, qty: int)
    requires price >= 0 && qty >= 0
    ensures var f := CalculateFees(price, qty);
      && f.notional == price * qty >= 0
      && IsFloor(f.makerFee, f.notional * 2, 10_000) && IsFloor(f.takerFee, f.notional * 10, 10_000)
      && f.totalFee == f.makerFee + f.takerFee
  {
    Product(price, qty);
  }

  /** A reservation provides for ten basis points on each unit, rounded up. */
  lemma FeeIsCeiling(price: int)
    ensures IsCeiling(FeePerUnit(price), price * 10, 10_000)
  {
  }

  // ---- what a fill moves -------------------------------------------------------------------------

  /** The cash a fill brings one user: the arriving side pays or receives the notional and pays its fee, the
      resting side the other way round with its own; a user on both sides pays both fees. */
  function CashMoved(r: Outbound, user: int, makerFee: int, takerFee: int): int
    requires r.Fill?
  {
    var notional := r.price * r.qty;
    (if user == r.takerUser then (if r.aggressor == BUY then -notional else notional) - takerFee else 0)
    + (if user == r.makerUser then (if r.aggressor == BUY then notional else -notional) - makerFee else 0)
  }

  /** The units it brings: they go to whoever bought. */
  function UnitsMoved(r: Outbound, key: PositionKey): int
    requires r.Fill?
  {
    (if key == (r.takerUser, r.symbol) then (if r.aggressor == BUY then r.qty else -r.qty) else 0)
    + (if key == (r.makerUser, r.symbol) then (if r.aggressor == BUY then -r.qty else r.qty) else 0)
  }

  /** A fill moves cash and units so and no other, in the ledger. */
  lemma LedgerSettles(b: Books, r: Outbound, user: int, key: PositionKey, makerFee: int, takerFee: int)
    requires r.Fill? && r.price >= 0 && r.qty >= 0
    requires IsFloor(makerFee, r.price * r.qty * 2, 10_000) && IsFloor(takerFee, r.price * r.qty * 10, 10_000)
    ensures var after := ApplyOne(b, r);
      && Get(after.cash, user) == Get(b.cash, user) + CashMoved(r, user, makerFee, takerFee)
      && Get(after.positions, key) == Get(b.positions, key) + UnitsMoved(r, key)
      && after.fees == b.fees + makerFee + takerFee && after.deposits == b.deposits
  {
    FeesAre(r, makerFee, takerFee);
    hide CalculateFees;
    FillMoves(FRESH.(settled := b.cash, positions := b.positions), r, user, key);
  }

  /** And in the gateway, whatever the fill releases there. */
  lemma GatewaySettles(k: Risk, r: Outbound, user: int, key: PositionKey, makerFee: int, takerFee: int)
    requires r.Fill? && r.price >= 0 && r.qty >= 0
    requires IsFloor(makerFee, r.price * r.qty * 2, 10_000) && IsFloor(takerFee, r.price * r.qty * 10, 10_000)
    ensures var after := ApplyRecord(k, r);
      && Get(after.settled, user) == Get(k.settled, user) + CashMoved(r, user, makerFee, takerFee)
      && Get(after.positions, key) == Get(k.positions, key) + UnitsMoved(r, key)
  {
    FeesAre(r, makerFee, takerFee);
    hide CalculateFees, ReleaseFill;
    FillMoves(k, r, user, key);
    ReleaseKeepsBalances(Settle(k, r), r.maker, r.qty);
    ReleaseKeepsBalances(ReleaseFill(Settle(k, r), r.maker, r.qty), r.taker, r.qty);
  }

  lemma FeesAre(r: Outbound, makerFee: int, takerFee: int)
    requires r.Fill? && r.price >= 0 && r.qty >= 0
    requires IsFloor(makerFee, r.price * r.qty * 2, 10_000) && IsFloor(takerFee, r.price * r.qty * 10, 10_000)
    ensures var f := CalculateFees(r.price, r.qty);
      f.notional == r.price * r.qty && f.makerFee == makerFee && f.takerFee == takerFee
        && f.totalFee == makerFee + takerFee
  {
    FeesAreFloors(r.price, r.qty);
    var f := CalculateFees(r.price, r.qty);
    hide CalculateFees, IsFloor;
    FloorIsUnique(f.makerFee, makerFee, r.price * r.qty * 2, 10_000);
    FloorIsUnique(f.takerFee, takerFee, r.price * r.qty * 10, 10_000);
  }

  lemma ReleaseKeepsBalances(k: Risk, id: int, qty: int)
    ensures var c := ReleaseFill(k, id, qty); c.settled == k.settled && c.positions == k.positions
  {
    if id in k.open { ReleaseKeepsOrders(k, k.open[id], qty); }
    hide Release;
  }

  // ---- which orders the check lets through --------------------------------------------------------

  /** The cash pays for every unit at the limit and for a fee on each that covers ten basis points. */
  predicate Affords(cash: int, price: int, qty: int, fee: int) {
    fee * 10_000 >= price * 10 && cash >= qty * (price + fee)
  }

  ghost predicate Affordable(cash: int, price: int, qty: int) {
    exists fee :: Affords(cash, price, qty, fee)
  }

  /** A buy passes exactly when the uncommitted cash affords it with some whole fee per unit. */
  lemma BuyCheckIsExact(k: Risk, makers: set<int>, r: Reservation)
    requires r.side == BUY && r.qty > 0
    ensures RejectReasonFor(k, makers, r) == None
            <==> Affordable(Get(k.settled, r.user) - Get(k.reserved, r.user), r.price, r.qty)
    ensures RejectReasonFor(k, makers, r) != None ==> RejectReasonFor(k, makers, r) == Some(INSUFFICIENT_CASH)
  {
    var cash, least := Get(k.settled, r.user) - Get(k.reserved, r.user), FeePerUnit(r.price);
    FeeIsCeiling(r.price);
    if fee :| Affords(cash, r.price, r.qty, fee) {
      ProductGrows(r.qty, r.price + least, r.price + fee);
    }
    if RejectReasonFor(k, makers, r) == None {
      assert Affords(cash, r.price, r.qty, least);
    }
  }

  lemma ProductGrows(qty: int, a: int, b: int)
    requires qty > 0 && a <= b
    ensures qty * a <= qty * b
  {
  }

  /** A sell passes exactly when the seller is a designated market maker or has the units uncommitted. */
  lemma SellCheckIsExact(k: Risk, makers: set<int>, r: Reservation)
    requires r.side != BUY
    ensures RejectReasonFor(k, makers, r) == None
            <==> r.user in makers || r.qty + Get(k.reservedQty, SymbolOf(r)) <= Get(k.positions, SymbolOf(r))
    ensures RejectReasonFor(k, makers, r) != None ==> RejectReasonFor(k, makers, r) == Some(INSUFFICIENT_POSITION)
  {
  }

  /** Either way it passes exactly the orders that can be reserved with everyone left covered. */
  lemma CheckIsExact(k: Risk, makers: set<int>, r: Reservation)
    requires Solvent(k, makers)
    ensures RejectReasonFor(k, makers, r) == None <==> Solvent(Reserve(k, r), makers)
  {
    var after := Reserve(k, r);
    if RejectReasonFor(k, makers, r) == None {
      ReserveKeepsSolvent(k, makers, r);
    } else {
      CommitKeepsOrders(k, r);
      hide BuyCost, Commit;
      CommitHolds(k, r, r.user, SymbolOf(r));
      assert r.side == BUY ==> !CashCovered(after, r.user);
      assert r.side != BUY ==> r.user !in makers && !UnitsCovered(after, SymbolOf(r));
    }
  }

  // ---- what the ledger remembers of an order -------------------------------------------------------

  /** The row is this acceptance's, but for what remains of it. */
  predicate RowOf(o: OpenOrder, a: Outbound, id: int) {
    && a.OrderAccepted? && a.orderId == id
    && o.client == a.client && o.user == a.user && o.symbol == a.symbol && o.side == a.side && o.price == a.price
    && o.qty == a.qty && o.tif == a.tif && o.createdAt == a.ts
  }

  ghost predicate Remembered(rs: seq<Outbound>, o: OpenOrder, id: int) {
    exists k :: 0 <= k < |rs| && RowOf(o, rs[k], id)
  }

  lemma LessenKeepsTerms(open: map<int, OpenOrder>, id: int, qty: int, i: int)
    ensures i in Lessen(open, id, qty) ==>
      i in open && Lessen(open, id, qty)[i] == open[i].(remaining := Lessen(open, id, qty)[i].remaining)
  {
  }

  lemma RememberedMore(rs: seq<Outbound>, r: Outbound, was: OpenOrder, o: OpenOrder, id: int)
    requires Remembered(rs, was, id) && o == was.(remaining := o.remaining)
    ensures Remembered(rs + [r], o, id)
  {
    var k :| 0 <= k < |rs| && RowOf(was, rs[k], id);
    assert RowOf(o, (rs + [r])[k], id);
  }

  /** Every open row has the original quantity, the time in force, the time and all other terms of an acceptance
      of that order. */
  lemma {:induction false} RowsAreAcceptances(rs: seq<Outbound>, id: int)
    ensures id in ApplyAll(EMPTY, rs).open ==> Remembered(rs, ApplyAll(EMPTY, rs).open[id], id)
    decreases |rs|
  {
    if rs != [] {
      var n, r := |rs| - 1, rs[|rs| - 1];
      RowsAreAcceptances(rs[..n], id);
      var before, after := ApplyAll(EMPTY, rs[..n]).open, ApplyAll(EMPTY, rs).open;
      assert rs == rs[..n] + [r];
      if id in after {
        if r.OrderAccepted? && r.orderId == id {
          assert RowOf(after[id], rs[n], id);
        } else {
          KeepsTerms(before, r, id);
          RememberedMore(rs[..n], r, before[id], after[id], id);
        }
      }
    }
  }

  lemma KeepsTerms(open: map<int, OpenOrder>, r: Outbound, id: int)
    requires id in OpenAfter(open, r) && !(r.OrderAccepted? && r.orderId == id)
    ensures id in open && OpenAfter(open, r)[id] == open[id].(remaining := OpenAfter(open, r)[id].remaining)
  {
    if r.Fill? {
      LessenKeepsTerms(open, r.maker, r.qty, id);
      LessenKeepsTerms(Lessen(open, r.maker, r.qty), r.taker, r.qty, id);
    } else if r.OrderCancelled? {
      LessenKeepsTerms(open, r.orderId, r.remaining, id);
    }
    hide Lessen;
  }
}
