/** What applying one outbound record does to the risk state: commitments stay backed, the open orders
    stay the stream's, and nobody is driven below what they have committed. */
module RiskSteps {
  import opened Contracts
  import opened PriceTime
  import opened MapSums
  import opened OrderViews
  import opened LedgerModel
  import opened RiskModel

  // ---- open orders -----------------------------------------------------------------------------

  lemma FillMirrors(k: Risk, v: Orders, id: int, qty: int)
    requires Mirrors(k.open, v) && id in v && 0 < qty <= v[id].remaining
    ensures Mirrors(ReleaseFill(k, id, qty).open, Drop(v, id, qty))
  {
    ReleaseKeepsOrders(k, k.open[id], qty);
    hide Release;
  }

  lemma SettleKeepsBacked(k: Risk, r: Outbound)
    requires Backed(k)
    ensures Backed(Settle(k, r)) && Settle(k, r).open == k.open
  {
    forall user ensures CashBacked(Settle(k, r), user) { assert CashBacked(k, user); }
    forall key ensures UnitsBacked(Settle(k, r), key) { assert UnitsBacked(k, key); }
  }

  /** Any record that makes sense to its reader keeps the commitments backed and the orders mirrored. */
  lemma RecordKeepsBacked(k: Risk, v: Orders, r: Outbound)
    requires Backed(k) && Mirrors(k.open, v) && Sane(v, r) && (r.OrderAccepted? ==> Adopts(k, r))
    ensures Backed(ApplyRecord(k, r)) && Mirrors(ApplyRecord(k, r).open, Next(v, r))
  {
    hide Backed;
    match r
    case OrderAccepted(_, _, _, _, _, _, _, _, _) =>
      AcceptKeepsBacked(k, r);
    case OrderCancelled(_, id, _, _, _, _, _) =>
      RemainingKeepsBacked(k, id);
    case Fill(_, maker, taker, _, _, _, qty, _, _) =>
      FillRecordKeepsBacked(k, v, r);
    case _ =>
      SettleKeepsBacked(k, r);
  }

  lemma FillRecordKeepsBacked(k: Risk, v: Orders, r: Outbound)
    requires Backed(k) && Mirrors(k.open, v) && r.Fill? && Sane(v, r)
    ensures Backed(ApplyRecord(k, r)) && Mirrors(ApplyRecord(k, r).open, Next(v, r))
  {
    hide Backed, ReleaseFill, Settle, Drop;
    SettleKeepsBacked(k, r);
    var settled := Settle(k, r);
    FillKeepsBacked(settled, r.maker, r.qty);
    FillMirrors(settled, v, r.maker, r.qty);
    TakerStays(v, r);
    FillKeepsBacked(ReleaseFill(settled, r.maker, r.qty), r.taker, r.qty);
    FillMirrors(ReleaseFill(settled, r.maker, r.qty), Drop(v, r.maker, r.qty), r.taker, r.qty);
  }

  lemma TakerStays(v: Orders, r: Outbound)
    requires r.Fill? && Sane(v, r)
    ensures var one := Drop(v, r.maker, r.qty); r.taker in one && one[r.taker] == v[r.taker]
  {
  }

  // ---- solvency --------------------------------------------------------------------------------

  /** Nobody has committed cash they have not got, and nobody but a market maker units. */
  ghost predicate Solvent(k: Risk, makers: set<int>) {
    && (forall user :: CashCovered(k, user))
    && (forall key: PositionKey :: key.0 !in makers ==> UnitsCovered(k, key))
  }

  ghost predicate CashCovered(k: Risk, user: int) {
    Get(k.settled, user) >= Get(k.reserved, user)
  }

  ghost predicate UnitsCovered(k: Risk, key: PositionKey) {
    Get(k.positions, key) >= Get(k.reservedQty, key)
  }

  /** A fill never costs the buyer more than its reservation held for that quantity. */
  lemma ChargeIsCovered(price: int, limit: int, qty: int)
    requires 0 < price <= limit && qty > 0
    ensures var f := CalculateFees(price, qty);
      f.notional + f.takerFee <= BuyCost(limit, qty) && f.notional + f.makerFee <= BuyCost(limit, qty)
  {
    var unit := FeePerUnit(limit);
    assert unit * BPS_DENOMINATOR >= limit * TAKER_FEE_BPS;
    ProductKeepsOrder(price, limit, qty);
    var notional := price * qty;
    FeeBound(notional, limit, qty, unit);
    assert notional * TAKER_FEE_BPS / BPS_DENOMINATOR <= qty * unit;
    assert qty * (limit + unit) == qty * limit + qty * unit;
  }

  lemma ProductKeepsOrder(a: int, b: int, c: int)
    requires 0 < a <= b && c > 0
    ensures 0 < a * c <= b * c
  {
  }

  lemma FeeBound(notional: int, limit: int, qty: int, unit: int)
    requires 0 < notional <= limit * qty && qty > 0 && unit * BPS_DENOMINATOR >= limit * TAKER_FEE_BPS
    ensures notional * TAKER_FEE_BPS / BPS_DENOMINATOR <= qty * unit
  {
    assert qty * (unit * BPS_DENOMINATOR) >= qty * (limit * TAKER_FEE_BPS);
    assert (qty * unit) * BPS_DENOMINATOR == qty * (unit * BPS_DENOMINATOR);
    assert qty * (limit * TAKER_FEE_BPS) == (limit * qty) * TAKER_FEE_BPS;
  }

  /** The buying order of a fill. */
  function BuyIdOf(r: Outbound): int
    requires r.Fill?
  {
    if r.aggressor == BUY then r.taker else r.maker
  }

  lemma ReleaseFillHolds(k: Risk, id: int, qty: int, user: int, key: PositionKey)
    requires Backed(k) && id in k.open && 0 < qty <= k.open[id].qty
    ensures var after := ReleaseFill(k, id, qty); var part := k.open[id].(qty := qty);
      && Get(after.reserved, user) == Get(k.reserved, user) - CashHeld(user)(part)
      && Get(after.reservedQty, key) == Get(k.reservedQty, key) - UnitsHeld(key)(part)
      && after.settled == k.settled && after.positions == k.positions
      && (forall i :: i in k.open && i != id ==> i in after.open && after.open[i] == k.open[i])
  {
    PartIsCovered(k, id, qty);
    ReleaseHolds(k, k.open[id], qty, user, key);
    ReleaseKeepsOrders(k, k.open[id], qty);
    hide Release, BuyCost, CashHeld, UnitsHeld;
  }

  /** What a fill does to one user's commitments: the buyer's cash and the seller's units come free. */
  lemma FillHolds(k: Risk, v: Orders, r: Outbound, user: int, key: PositionKey)
    requires Backed(k) && Mirrors(k.open, v) && r.Fill? && Sane(v, r)
    ensures var after := ApplyRecord(k, r); var buy := k.open[BuyIdOf(r)];
      && Get(after.reserved, user)
        == Get(k.reserved, user) - (if user == BuyerOf(r) then BuyCost(buy.price, r.qty) else 0)
      && Get(after.reservedQty, key) == Get(k.reservedQty, key) - (if key == (SellerOf(r), r.symbol) then r.qty else 0)
      && after.settled == CashAfter(k.settled, r) && after.positions == PositionsAfter(k.positions, r)
  {
    hide Backed, ReleaseFill, BuyCost, Next, Drop, CashAfter, PositionsAfter;
    SettleKeepsBacked(k, r);
    var settled := Settle(k, r);
    FillKeepsBacked(settled, r.maker, r.qty);
    ReleaseFillHolds(settled, r.maker, r.qty, user, key);
    ReleaseFillHolds(ReleaseFill(settled, r.maker, r.qty), r.taker, r.qty, user, key);
  }

  /** How a fill moves cash and inventory. */
  lemma FillMoves(k: Risk, r: Outbound, user: int, key: PositionKey)
    requires r.Fill?
    ensures Get(CashAfter(k.settled, r), user)
            == Get(k.settled, user) + (if user == BuyerOf(r) then BuyerDelta(r) else 0)
               + (if user == SellerOf(r) then SellerDelta(r) else 0)
    ensures Get(PositionsAfter(k.positions, r), key)
            == Get(k.positions, key) + (if key == (BuyerOf(r), r.symbol) then r.qty else 0)
               - (if key == (SellerOf(r), r.symbol) then r.qty else 0)
  {
    hide BuyerDelta, SellerDelta;
    AddGets(k.settled, BuyerOf(r), BuyerDelta(r), user);
    AddGets(Add(k.settled, BuyerOf(r), BuyerDelta(r)), SellerOf(r), SellerDelta(r), user);
    AddGets(k.positions, (BuyerOf(r), r.symbol), r.qty, key);
    AddGets(Add(k.positions, (BuyerOf(r), r.symbol), r.qty), (SellerOf(r), r.symbol), -r.qty, key);
    hide Add, Get;
  }

  /** The buyer is charged no more than its order held; the seller is paid. */
  lemma FillCharges(k: Risk, v: Orders, r: Outbound)
    requires Mirrors(k.open, v) && r.Fill? && Sane(v, r)
    ensures BuyIdOf(r) in k.open && -BuyerDelta(r) <= BuyCost(k.open[BuyIdOf(r)].price, r.qty)
    ensures SellerDelta(r) >= 0
  {
    hide BuyCost;
    ChargeIsCovered(r.price, k.open[BuyIdOf(r)].price, r.qty);
  }

  lemma FillKeepsSolvent(k: Risk, v: Orders, r: Outbound, makers: set<int>)
    requires Backed(k) && Mirrors(k.open, v) && r.Fill? && Sane(v, r) && Solvent(k, makers)
    ensures Solvent(ApplyRecord(k, r), makers)
  {
    var after := ApplyRecord(k, r);
    hide Backed, Sane, Mirrors, ApplyRecord, BuyerDelta, SellerDelta, BuyCost, CashAfter, PositionsAfter;
    FillCharges(k, v, r);
    forall user ensures CashCovered(after, user) {
      assert CashCovered(k, user);
      FillHolds(k, v, r, user, (user, r.symbol));
      FillMoves(k, r, user, (user, r.symbol));
    }
    forall key: PositionKey | key.0 !in makers ensures UnitsCovered(after, key) {
      assert UnitsCovered(k, key);
      FillHolds(k, v, r, key.0, key);
      FillMoves(k, r, key.0, key);
      QtyPositive(v, r);
    }
  }

  lemma QtyPositive(v: Orders, r: Outbound)
    requires r.Fill? && Sane(v, r)
    ensures r.qty > 0
  {
  }

  /** An acceptance that finds its reservation commits nothing new. */
  lemma AcceptKeepsSolvent(k: Risk, r: Outbound, makers: set<int>)
    requires r.OrderAccepted? && (r.user, r.client) in k.pending && Solvent(k, makers)
    ensures Solvent(ApplyRecord(k, r), makers)
  {
    var after := ApplyRecord(k, r);
    hide BuyCost, Commit;
    forall user ensures CashCovered(after, user) { assert CashCovered(k, user); }
    forall key: PositionKey | key.0 !in makers ensures UnitsCovered(after, key) { assert UnitsCovered(k, key); }
  }

  /** An acceptance that finds no reservation commits anew; everyone stays covered exactly when the check of
      a fresh submit would have let the order through. */
  lemma AdoptedLateIsSolvent(k: Risk, r: Outbound, makers: set<int>)
    requires r.OrderAccepted? && (r.user, r.client) !in k.pending && Solvent(k, makers)
    ensures Solvent(ApplyRecord(k, r), makers) <==> RejectReasonFor(k, makers, ReservationOf(r)) == None
  {
    var after, res := ApplyRecord(k, r), ReservationOf(r);
    CommitKeepsOrders(k, res);
    hide BuyCost, Commit;
    CommitHolds(k, res, r.user, SymbolOf(res));
    if RejectReasonFor(k, makers, res) == None {
      ReserveKeepsSolvent(k, makers, res);
      forall user ensures CashCovered(after, user) { assert CashCovered(Reserve(k, res), user); }
      forall key: PositionKey | key.0 !in makers ensures UnitsCovered(after, key) {
        assert UnitsCovered(Reserve(k, res), key);
      }
    } else {
      assert r.side == BUY ==> !CashCovered(after, r.user);
      assert r.side != BUY ==> r.user !in makers && !UnitsCovered(after, SymbolOf(res));
    }
  }

  /** Creating an account that has no cash yet, or crediting one, leaves everyone covered. */
  lemma DepositKeepsSolvent(k: Risk, r: Outbound, makers: set<int>)
    requires Solvent(k, makers) && (r.AccountCreated? || r.CashCredited?)
    requires r.AccountCreated? ==> r.user !in k.settled && r.cash >= 0
    requires r.CashCredited? ==> r.amount >= 0
    ensures Solvent(ApplyRecord(k, r), makers)
  {
    var after := ApplyRecord(k, r);
    forall user ensures CashCovered(after, user) { assert CashCovered(k, user); }
    forall key: PositionKey | key.0 !in makers ensures UnitsCovered(after, key) { assert UnitsCovered(k, key); }
  }

  /** Reserving what the check allows leaves everyone covered; this is what the check is for. */
  lemma ReserveKeepsSolvent(k: Risk, makers: set<int>, r: Reservation)
    requires Solvent(k, makers) && RejectReasonFor(k, makers, r) == None
    ensures Solvent(Reserve(k, r), makers)
  {
    var after := Reserve(k, r);
    CommitKeepsOrders(k, r);
    hide BuyCost, Commit;
    forall user ensures CashCovered(after, user) {
      assert CashCovered(k, user);
      CommitHolds(k, r, user, SymbolOf(r));
    }
    forall key: PositionKey | key.0 !in makers ensures UnitsCovered(after, key) {
      assert UnitsCovered(k, key);
      CommitHolds(k, r, r.user, key);
    }
  }

  // ---- whether or not the commitments are right ----------------------------------------------------

  ghost predicate CashNonNegative(k: Risk, user: int) {
    Get(k.reserved, user) >= 0
  }

  ghost predicate UnitsNonNegative(k: Risk, key: PositionKey) {
    Get(k.reservedQty, key) >= 0
  }

  /** What the accounting keeps even when something has been released twice. */
  ghost predicate Sensible(k: Risk) {
    && AllSerious(k)
    && (forall user :: CashNonNegative(k, user))
    && (forall key :: UnitsNonNegative(k, key))
  }

  lemma CommitIsSensible(k: Risk, r: Reservation)
    requires Sensible(k) && Serious(r)
    ensures Sensible(Commit(k, r))
  {
    CommitKeepsOrders(k, r);
    CostIsPositive(r.price, r.qty);
    hide Commit, BuyCost;
    var after := Commit(k, r);
    forall user ensures CashNonNegative(after, user) {
      assert CashNonNegative(k, user);
      CommitHolds(k, r, user, SymbolOf(r));
    }
    forall key ensures UnitsNonNegative(after, key) {
      assert UnitsNonNegative(k, key);
      CommitHolds(k, r, r.user, key);
    }
  }

  lemma ReleaseGets(k: Risk, r: Reservation, qty: int, user: int, key: PositionKey)
    ensures var c := Release(k, r, qty);
      && Get(c.reserved, user)
        == (if r.side == BUY && user == r.user then Max(0, Get(k.reserved, user) - BuyCost(r.price, qty))
            else Get(k.reserved, user))
      && Get(c.reservedQty, key)
        == (if r.side != BUY && key == SymbolOf(r) then Max(0, Get(k.reservedQty, key) - qty)
            else Get(k.reservedQty, key))
  {
    hide BuyCost;
  }

  lemma ReleaseIsSensible(k: Risk, r: Reservation, qty: int)
    requires Sensible(k)
    ensures Sensible(Release(k, r, qty))
  {
    ReleaseKeepsOrders(k, r, qty);
    hide Release, BuyCost, Get;
    var after := Release(k, r, qty);
    forall user ensures CashNonNegative(after, user) {
      assert CashNonNegative(k, user);
      ReleaseGets(k, r, qty, user, SymbolOf(r));
    }
    forall key ensures UnitsNonNegative(after, key) {
      assert UnitsNonNegative(k, key);
      ReleaseGets(k, r, qty, r.user, key);
    }
  }

  /** Only the orders differ, and they stay serious. */
  lemma OrdersStaySensible(k: Risk, k': Risk)
    requires Sensible(k) && AllSerious(k') && k'.reserved == k.reserved && k'.reservedQty == k.reservedQty
    ensures Sensible(k')
  {
    forall user ensures CashNonNegative(k', user) { assert CashNonNegative(k, user); }
    forall key ensures UnitsNonNegative(k', key) { assert UnitsNonNegative(k, key); }
  }

  lemma FillIsSensible(k: Risk, id: int, qty: int)
    requires Sensible(k) && qty > 0
    ensures Sensible(ReleaseFill(k, id, qty))
  {
    if id in k.open {
      ReleaseIsSensible(k, k.open[id], qty);
      ReleaseKeepsOrders(k, k.open[id], qty);
      hide Release;
      OrdersStaySensible(Release(k, k.open[id], qty), ReleaseFill(k, id, qty));
    }
  }

  lemma RecordIsSensible(k: Risk, v: Orders, r: Outbound)
    requires Sensible(k) && Sane(v, r)
    ensures Sensible(ApplyRecord(k, r))
  {
    hide Commit, Release, ReleaseFill, CashAfter, PositionsAfter;
    match r
    case OrderAccepted(_, _, _, _, _, _, _, _, _) =>
      AcceptIsSensible(k, r);
    case OrderCancelled(_, id, _, _, _, _, _) =>
      if id in k.open {
        var without := k.(open := k.open - {id});
        OrdersStaySensible(k, without);
        ReleaseIsSensible(without, k.open[id], k.open[id].qty);
      }
    case Fill(_, maker, taker, _, _, _, qty, _, _) =>
      OrdersStaySensible(k, Settle(k, r));
      FillIsSensible(Settle(k, r), maker, qty);
      FillIsSensible(ReleaseFill(Settle(k, r), maker, qty), taker, qty);
    case _ => OrdersStaySensible(k, Settle(k, r));
  }

  lemma AcceptIsSensible(k: Risk, r: Outbound)
    requires Sensible(k) && r.OrderAccepted? && Serious(ReservationOf(r))
    ensures Sensible(Accept(k, r))
  {
    var res := ReservationOf(r);
    if (r.user, r.client) in k.pending {
      OrdersStaySensible(k, Accept(k, r));
    } else {
      CommitIsSensible(k, res);
      CommitKeepsOrders(k, res);
      hide Commit;
      OrdersStaySensible(Commit(k, res), Accept(k, r));
    }
  }

  /** The open orders stay the stream's, unless an acceptance adopts another order's reservation. */
  lemma RecordMirrors(k: Risk, v: Orders, r: Outbound)
    requires AllSerious(k) && Mirrors(k.open, v) && Sane(v, r)
    ensures Mirrors(ApplyRecord(k, r).open, Next(v, r)) <==> (r.OrderAccepted? ==> Adopts(k, r))
  {
    match r
    case OrderAccepted(_, _, _, _, _, _, _, _, _) =>
      AcceptMirrors(k, v, r);
    case OrderCancelled(_, id, _, _, _, _, _) =>
      if id in k.open { ReleaseKeepsOrders(k.(open := k.open - {id}), k.open[id], k.open[id].qty); }
      hide Release;
    case Fill(_, maker, taker, _, _, _, qty, _, _) =>
      hide ReleaseFill, Drop, CashAfter, PositionsAfter;
      FillMirrors(Settle(k, r), v, maker, qty);
      TakerStays(v, r);
      FillMirrors(ReleaseFill(Settle(k, r), maker, qty), Drop(v, maker, qty), taker, qty);
    case _ =>
  }

  lemma AcceptMirrors(k: Risk, v: Orders, r: Outbound)
    requires AllSerious(k) && Mirrors(k.open, v) && r.OrderAccepted? && Sane(v, r)
    ensures Mirrors(Accept(k, r).open, Next(v, r)) <==> Adopts(k, r)
  {
    var after, key := Accept(k, r), (r.user, r.client);
    CommitKeepsOrders(k, ReservationOf(r));
    hide Commit;
    assert Next(v, r) == v[r.orderId := AcceptedOrder(r)];
    if key in k.pending { assert ClientOf(k.pending[key]) == key; }
    assert SameOrder(after.open[r.orderId], AcceptedOrder(r)) <==> Adopts(k, r);
  }

  // ---- solvency, whether or not the commitments are right ------------------------------------------

  /** Giving back can only help. */
  lemma ReleaseKeepsSolvent(k: Risk, makers: set<int>, r: Reservation, qty: int)
    requires Sensible(k) && Solvent(k, makers) && r.price > 0 && qty >= 0
    ensures Solvent(Release(k, r, qty), makers)
  {
    var after := Release(k, r, qty);
    ReleaseKeepsOrders(k, r, qty);
    if qty > 0 { CostIsPositive(r.price, qty); } else { NoCost(r.price); }
    hide Release, BuyCost, Get, AllSerious;
    forall user ensures CashCovered(after, user) {
      assert CashCovered(k, user) && CashNonNegative(k, user);
      ReleaseGets(k, r, qty, user, SymbolOf(r));
    }
    forall key: PositionKey | key.0 !in makers ensures UnitsCovered(after, key) {
      assert UnitsCovered(k, key) && UnitsNonNegative(k, key);
      ReleaseGets(k, r, qty, r.user, key);
    }
  }

  lemma NoCost(price: int)
    ensures BuyCost(price, 0) == 0
  {
  }

  /** Orders aside, nothing has changed. */
  lemma SameAmountsSolvent(k: Risk, k': Risk, makers: set<int>)
    requires k'.reserved == k.reserved && k'.reservedQty == k.reservedQty
    requires k'.settled == k.settled && k'.positions == k.positions
    ensures Solvent(k', makers) <==> Solvent(k, makers)
  {
    if Solvent(k, makers) {
      forall user ensures CashCovered(k', user) { assert CashCovered(k, user); }
      forall key: PositionKey | key.0 !in makers ensures UnitsCovered(k', key) { assert UnitsCovered(k, key); }
    }
    if Solvent(k', makers) {
      forall user ensures CashCovered(k, user) { assert CashCovered(k', user); }
      forall key: PositionKey | key.0 !in makers ensures UnitsCovered(k, key) { assert UnitsCovered(k', key); }
    }
  }

  lemma CancelKeepsSolvent(k: Risk, makers: set<int>, id: int)
    requires Sensible(k) && Solvent(k, makers)
    ensures Solvent(ReleaseRemaining(k, id), makers)
  {
    if id in k.open {
      var without := k.(open := k.open - {id});
      OrdersStaySensible(k, without);
      SameAmountsSolvent(k, without, makers);
      hide Release;
      ReleaseKeepsSolvent(without, makers, k.open[id], k.open[id].qty);
    }
  }

  lemma AbandonKeepsSolvent(k: Risk, makers: set<int>, r: Reservation)
    requires Sensible(k) && Solvent(k, makers) && r.price > 0 && r.qty >= 0
    ensures Solvent(Abandon(k, r), makers)
  {
    var without := k.(pending := k.pending - {ClientOf(r)});
    OrdersStaySensible(k, without);
    SameAmountsSolvent(k, without, makers);
    hide Release;
    ReleaseKeepsSolvent(without, makers, r, r.qty);
  }

  /** The fill takes the buyer's cash, or the inventory of a seller who may not be short, below zero. */
  predicate Overdraws(k: Risk, r: Outbound, makers: set<int>)
    requires r.Fill?
  {
    || Get(CashAfter(k.settled, r), BuyerOf(r)) < 0
    || (SellerOf(r) !in makers && Get(PositionsAfter(k.positions, r), (SellerOf(r), r.symbol)) < 0)
  }

  lemma FillGets(k: Risk, id: int, qty: int, user: int, key: PositionKey)
    requires id in k.open
    ensures var r := k.open[id]; var c := ReleaseFill(k, id, qty);
      && Get(c.reserved, user)
        == (if r.side == BUY && user == r.user then Max(0, Get(k.reserved, user) - BuyCost(r.price, qty))
            else Get(k.reserved, user))
      && Get(c.reservedQty, key)
        == (if r.side != BUY && key == SymbolOf(r) then Max(0, Get(k.reservedQty, key) - qty)
            else Get(k.reservedQty, key))
      && c.settled == k.settled && c.positions == k.positions
      && (forall i :: i in k.open && i != id ==> i in c.open && c.open[i] == k.open[i])
  {
    ReleaseGets(k, k.open[id], qty, user, key);
    ReleaseKeepsOrders(k, k.open[id], qty);
    hide Release, BuyCost, Get;
  }

  /** What a fill frees: at most what the buyer's order reserved for that quantity, and the seller's units. */
  lemma FillFrees(k: Risk, v: Orders, r: Outbound, user: int, key: PositionKey)
    requires Mirrors(k.open, v) && r.Fill? && Sane(v, r)
    ensures BuyIdOf(r) in k.open
    ensures var after := ApplyRecord(k, r); var cost := BuyCost(k.open[BuyIdOf(r)].price, r.qty);
      && Get(after.reserved, user)
        == (if user == BuyerOf(r) then Max(0, Get(k.reserved, user) - cost) else Get(k.reserved, user))
      && Get(after.reservedQty, key)
        == (if key == (SellerOf(r), r.symbol) then Max(0, Get(k.reservedQty, key) - r.qty) else Get(k.reservedQty, key))
      && after.settled == CashAfter(k.settled, r) && after.positions == PositionsAfter(k.positions, r)
  {
    hide ReleaseFill, BuyCost, Next, Drop, CashAfter, PositionsAfter, Get;
    var settled := Settle(k, r);
    FillGets(settled, r.maker, r.qty, user, key);
    FillGets(ReleaseFill(settled, r.maker, r.qty), r.taker, r.qty, user, key);
  }

  /** A fill leaves everyone covered exactly when it overdraws nobody. */
  lemma FillIsSolvent(k: Risk, v: Orders, r: Outbound, makers: set<int>)
    requires Sensible(k) && Mirrors(k.open, v) && r.Fill? && Sane(v, r) && Solvent(k, makers)
    ensures Solvent(ApplyRecord(k, r), makers) <==> !Overdraws(k, r, makers)
  {
    var after := ApplyRecord(k, r);
    hide AllSerious, Sane, Mirrors, ApplyRecord, BuyerDelta, SellerDelta, BuyCost, CashAfter, PositionsAfter, Get;
    FillCharges(k, v, r);
    QtyPositive(v, r);
    FillFrees(k, v, r, BuyerOf(r), (SellerOf(r), r.symbol));
    if Solvent(after, makers) {
      assert CashCovered(after, BuyerOf(r));
      assert SellerOf(r) !in makers ==> UnitsCovered(after, (SellerOf(r), r.symbol));
    }
    if !Overdraws(k, r, makers) {
      forall user ensures CashCovered(after, user) { FillCovers(k, v, r, makers, user, (user, r.symbol)); }
      forall key: PositionKey | key.0 !in makers ensures UnitsCovered(after, key) {
        FillCovers(k, v, r, makers, key.0, key);
      }
    }
  }

  lemma FillCovers(k: Risk, v: Orders, r: Outbound, makers: set<int>, user: int, key: PositionKey)
    requires Sensible(k) && Mirrors(k.open, v) && r.Fill? && Sane(v, r) && Solvent(k, makers)
    requires !Overdraws(k, r, makers)
    ensures CashCovered(ApplyRecord(k, r), user)
    ensures key.0 !in makers ==> UnitsCovered(ApplyRecord(k, r), key)
  {
    hide AllSerious, Sane, Mirrors, ApplyRecord, BuyerDelta, SellerDelta, BuyCost, CashAfter, PositionsAfter, Get;
    FillCharges(k, v, r);
    QtyPositive(v, r);
    FillFrees(k, v, r, user, key);
    FillMoves(k, r, user, key);
    assert CashCovered(k, user) && (key.0 !in makers ==> UnitsCovered(k, key));
  }
}
