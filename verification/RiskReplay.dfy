/** The risk state as a function of the stream: replays, dumps, loads, and why zero entries never matter. */
module RiskReplay {
  import opened Contracts
  import opened PriceTime
  import opened MapSums
  import opened OrderViews
  import opened LedgerModel
  import opened RiskModel
  import opened RiskSteps

  // ---- one record --------------------------------------------------------------------------------

  lemma PendingAfter(k: Risk, r: Outbound)
    ensures ApplyRecord(k, r).pending == if r.OrderAccepted? then k.pending - {(r.user, r.client)} else k.pending
    ensures ApplyRecord(k, r).settled == CashAfter(k.settled, r)
      && ApplyRecord(k, r).positions == PositionsAfter(k.positions, r)
  {
    hide BuyCost, CashAfter, PositionsAfter, Commit, Release, ReleaseFill;
    CashUnmoved(k, r);
    match r
    case OrderAccepted(_, _, _, _, _, _, _, _, _) =>
      CommitKeepsOrders(k, ReservationOf(r));
      assert (r.user, r.client) !in k.pending ==> k.pending - {(r.user, r.client)} == k.pending;
    case OrderCancelled(_, id, _, _, _, _, _) =>
      if id in k.open { ReleaseKeepsOrders(k.(open := k.open - {id}), k.open[id], k.open[id].qty); }
    case Fill(_, maker, taker, _, _, _, qty, _, _) =>
      FillKeepsRest(Settle(k, r), maker, qty);
      FillKeepsRest(ReleaseFill(Settle(k, r), maker, qty), taker, qty);
    case _ =>
  }

  lemma FillKeepsRest(k: Risk, id: int, qty: int)
    ensures var c := ReleaseFill(k, id, qty);
      c.pending == k.pending && c.settled == k.settled && c.positions == k.positions
  {
    hide Release;
    if id in k.open { ReleaseKeepsOrders(k, k.open[id], qty); }
  }

  lemma CashUnmoved(k: Risk, r: Outbound)
    ensures !r.AccountCreated? && !r.CashCredited? && !r.Fill? ==> CashAfter(k.settled, r) == k.settled
    ensures !r.Fill? ==> PositionsAfter(k.positions, r) == k.positions
  {
  }

  // ---- replays -----------------------------------------------------------------------------------

  lemma {:induction false} ReplaySound(rs: seq<Outbound>)
    requires SaneAll(map[], rs)
    ensures var k := Replay(rs);
      && Backed(k) && k.pending == map[] && Mirrors(k.open, Fold(map[], rs))
      && k.settled == ApplyAll(EMPTY, rs).cash && k.positions == ApplyAll(EMPTY, rs).positions
    decreases |rs|
  {
    hide Backed, ApplyRecord, CashAfter, PositionsAfter, Sane, Next;
    if rs == [] {
      FreshBacked();
    } else {
      var n := |rs| - 1;
      SanePrefix(map[], rs, n);
      ReplaySound(rs[..n]);
      assert SaneAt(map[], rs, n);
      RecordKeepsBacked(Replay(rs[..n]), Fold(map[], rs[..n]), rs[n]);
      PendingAfter(Replay(rs[..n]), rs[n]);
    }
  }

  lemma FreshBacked()
    ensures Backed(FRESH)
  {
    forall user ensures CashBacked(FRESH, user) {}
    forall key ensures UnitsBacked(FRESH, key) {}
  }

  /** Equal but for zero entries. */
  ghost predicate Equivalent(a: Risk, b: Risk) {
    && a.settled == b.settled && a.positions == b.positions && a.open == b.open && a.pending == b.pending
    && (forall user :: SameReserved(a, b, user)) && (forall key :: SameUnits(a, b, key))
  }

  ghost predicate SameReserved(a: Risk, b: Risk, user: int) {
    Get(a.reserved, user) == Get(b.reserved, user)
  }

  ghost predicate SameUnits(a: Risk, b: Risk, key: PositionKey) {
    Get(a.reservedQty, key) == Get(b.reservedQty, key)
  }

  lemma MirrorsUnique(a: map<int, Reservation>, b: map<int, Reservation>, v: Orders)
    requires Mirrors(a, v) && Mirrors(b, v)
    ensures a == b
  {
    assert forall id :: id in a <==> id in b;
    assert forall id :: id in a ==> a[id] == b[id];
  }

  /** The state without its reservations in flight. */
  function Settled(k: Risk, reserved: map<int, int>, reservedQty: map<PositionKey, int>): Risk {
    k.(reserved := reserved, reservedQty := reservedQty, pending := map[])
  }

  /** What `dump_state` writes: commitments less those of pending orders, without zero entries. */
  ghost function DumpedCash(k: Risk): map<int, int> {
    map u | u in k.reserved.Keys + (set c | c in k.pending :: k.pending[c].user)
            && Get(k.reserved, u) - Sum(k.pending, CashHeld(u)) != 0
      :: Get(k.reserved, u) - Sum(k.pending, CashHeld(u))
  }

  ghost function DumpedUnits(k: Risk): map<PositionKey, int> {
    map key | key in k.reservedQty.Keys + (set c | c in k.pending :: SymbolOf(k.pending[c]))
              && Get(k.reservedQty, key) - Sum(k.pending, UnitsHeld(key)) != 0
      :: Get(k.reservedQty, key) - Sum(k.pending, UnitsHeld(key))
  }

  /** The dump, as the state it describes. */
  ghost function Dump(k: Risk): Risk {
    Settled(k, DumpedCash(k), DumpedUnits(k))
  }

  /** `load_state`: cash commitments are recomputed from the resting buys. */
  ghost predicate Loads(k: Risk, dump: Risk) {
    && k.settled == dump.settled && k.positions == dump.positions && k.open == dump.open && k.pending == map[]
    && k.reservedQty == dump.reservedQty
    && forall user :: Get(k.reserved, user) == Sum(dump.open, CashHeld(user))
  }

  lemma DumpedCashIs(k: Risk, user: int)
    requires Backed(k)
    ensures Get(DumpedCash(k), user) == Sum(k.open, CashHeld(user))
    ensures user in DumpedCash(k) <==> Sum(k.open, CashHeld(user)) != 0
  {
    assert CashBacked(k, user);
    if user !in k.reserved.Keys + (set c | c in k.pending :: k.pending[c].user) {
      forall c | c in k.pending ensures CashHeld(user)(k.pending[c]) == 0 {}
      SumOfZeros(k.pending, CashHeld(user));
    }
  }

  lemma DumpedUnitsIs(k: Risk, key: PositionKey)
    requires Backed(k)
    ensures Get(DumpedUnits(k), key) == Sum(k.open, UnitsHeld(key))
    ensures key in DumpedUnits(k) <==> Sum(k.open, UnitsHeld(key)) != 0
  {
    assert UnitsBacked(k, key);
    if key !in k.reservedQty.Keys + (set c | c in k.pending :: SymbolOf(k.pending[c])) {
      forall c | c in k.pending ensures UnitsHeld(key)(k.pending[c]) == 0 {}
      SumOfZeros(k.pending, UnitsHeld(key));
    }
  }

  /** A dump depends on the resting orders alone. */
  lemma DumpsAgree(a: Risk, b: Risk)
    requires Backed(a) && Backed(b) && a.open == b.open && a.settled == b.settled && a.positions == b.positions
    ensures Dump(a) == Dump(b)
  {
    hide Backed, DumpedCash, DumpedUnits;
    forall user ensures user in DumpedCash(a) <==> user in DumpedCash(b) {
      DumpedCashIs(a, user);
      DumpedCashIs(b, user);
    }
    forall user | user in DumpedCash(a) ensures DumpedCash(a)[user] == DumpedCash(b)[user] {
      DumpedCashIs(a, user);
      DumpedCashIs(b, user);
    }
    forall key ensures key in DumpedUnits(a) <==> key in DumpedUnits(b) {
      DumpedUnitsIs(a, key);
      DumpedUnitsIs(b, key);
    }
    forall key | key in DumpedUnits(a) ensures DumpedUnits(a)[key] == DumpedUnits(b)[key] {
      DumpedUnitsIs(a, key);
      DumpedUnitsIs(b, key);
    }
    assert DumpedCash(a) == DumpedCash(b) && DumpedUnits(a) == DumpedUnits(b);
  }

  // ---- loading a dump and going on -----------------------------------------------------------------

  function ReplayFrom(k: Risk, rs: seq<Outbound>): Risk {
    if rs == [] then k else ApplyRecord(ReplayFrom(k, rs[..|rs| - 1]), rs[|rs| - 1])
  }

  lemma {:induction false} ReplaySplit(a: seq<Outbound>, b: seq<Outbound>)
    ensures Replay(a + b) == ReplayFrom(Replay(a), b)
    decreases |b|
  {
    hide ApplyRecord;
    if b == [] {
      assert a + b == a;
    } else {
      ReplaySplit(a, b[..|b| - 1]);
      assert (a + b)[..|a + b| - 1] == a + b[..|b| - 1];
    }
  }

  lemma CommitSame(a: Risk, b: Risk, r: Reservation)
    requires Equivalent(a, b)
    ensures Equivalent(Commit(a, r), Commit(b, r))
  {
    CommitKeepsOrders(a, r);
    CommitKeepsOrders(b, r);
    hide Commit, BuyCost, CashHeld, UnitsHeld;
    forall user ensures SameReserved(Commit(a, r), Commit(b, r), user) {
      assert SameReserved(a, b, user);
      CommitHolds(a, r, user, SymbolOf(r));
      CommitHolds(b, r, user, SymbolOf(r));
    }
    forall key ensures SameUnits(Commit(a, r), Commit(b, r), key) {
      assert SameUnits(a, b, key);
      CommitHolds(a, r, r.user, key);
      CommitHolds(b, r, r.user, key);
    }
  }

  lemma ReleaseSame(a: Risk, b: Risk, r: Reservation, qty: int)
    requires Equivalent(a, b)
    ensures Equivalent(Release(a, r, qty), Release(b, r, qty))
  {
    hide BuyCost, Release, Get;
    ReleaseKeepsOrders(a, r, qty);
    ReleaseKeepsOrders(b, r, qty);
    forall user ensures SameReserved(Release(a, r, qty), Release(b, r, qty), user) {
      assert SameReserved(a, b, user);
      ReleaseGets(a, r, qty, user, SymbolOf(r));
      ReleaseGets(b, r, qty, user, SymbolOf(r));
    }
    forall key ensures SameUnits(Release(a, r, qty), Release(b, r, qty), key) {
      assert SameUnits(a, b, key);
      ReleaseGets(a, r, qty, r.user, key);
      ReleaseGets(b, r, qty, r.user, key);
    }
  }

  /** Only the orders, balances and inventory of `a` and `b` change, and to the same. */
  lemma RestSame(a: Risk, b: Risk, a': Risk, b': Risk)
    requires Equivalent(a, b)
    requires a'.reserved == a.reserved && b'.reserved == b.reserved
    requires a'.reservedQty == a.reservedQty && b'.reservedQty == b.reservedQty
    requires a'.settled == b'.settled && a'.positions == b'.positions && a'.open == b'.open && a'.pending == b'.pending
    ensures Equivalent(a', b')
  {
    forall user ensures SameReserved(a', b', user) { assert SameReserved(a, b, user); }
    forall key ensures SameUnits(a', b', key) { assert SameUnits(a, b, key); }
  }

  lemma FillSame(a: Risk, b: Risk, id: int, qty: int)
    requires Equivalent(a, b)
    ensures Equivalent(ReleaseFill(a, id, qty), ReleaseFill(b, id, qty))
  {
    if id in a.open {
      ReleaseSame(a, b, a.open[id], qty);
      ReleaseKeepsOrders(a, a.open[id], qty);
      ReleaseKeepsOrders(b, a.open[id], qty);
      hide Release, Equivalent;
      RestSame(Release(a, a.open[id], qty), Release(b, a.open[id], qty), ReleaseFill(a, id, qty),
        ReleaseFill(b, id, qty));
    }
  }

  /** Zero entries never make a difference. */
  lemma StepSame(a: Risk, b: Risk, r: Outbound)
    requires Equivalent(a, b)
    ensures Equivalent(ApplyRecord(a, r), ApplyRecord(b, r))
  {
    hide BuyCost, Commit, Release, ReleaseFill, CashAfter, PositionsAfter, SameReserved, SameUnits;
    match r
    case OrderAccepted(_, _, _, _, _, _, _, _, _) =>
      var res := ReservationOf(r);
      CommitSame(a, b, res);
      CommitKeepsOrders(a, res);
      CommitKeepsOrders(b, res);
      if (r.user, r.client) in a.pending { RestSame(a, b, Accept(a, r), Accept(b, r)); }
      else { RestSame(Commit(a, res), Commit(b, res), Accept(a, r), Accept(b, r)); }
    case OrderCancelled(_, id, _, _, _, _, _) =>
      if id in a.open {
        var a', b' := a.(open := a.open - {id}), b.(open := b.open - {id});
        RestSame(a, b, a', b');
        ReleaseSame(a', b', a.open[id], a.open[id].qty);
      }
    case Fill(_, maker, taker, _, _, _, qty, _, _) =>
      RestSame(a, b, Settle(a, r), Settle(b, r));
      FillSame(Settle(a, r), Settle(b, r), maker, qty);
      FillSame(ReleaseFill(Settle(a, r), maker, qty), ReleaseFill(Settle(b, r), maker, qty), taker, qty);
    case _ =>
      RestSame(a, b, Settle(a, r), Settle(b, r));
  }

  lemma {:induction false} RunsSame(a: Risk, b: Risk, rs: seq<Outbound>)
    requires Equivalent(a, b)
    ensures Equivalent(ReplayFrom(a, rs), ReplayFrom(b, rs))
    decreases |rs|
  {
    hide ApplyRecord, Equivalent;
    if rs != [] {
      RunsSame(a, b, rs[..|rs| - 1]);
      StepSame(ReplayFrom(a, rs[..|rs| - 1]), ReplayFrom(b, rs[..|rs| - 1]), rs[|rs| - 1]);
    }
  }

  lemma NothingPending(k: Risk, user: int, key: PositionKey)
    ensures k.pending == map[] ==> Sum(k.pending, CashHeld(user)) == 0 && Sum(k.pending, UnitsHeld(key)) == 0
  {
  }

  // ---- giving back too late ------------------------------------------------------------------------

  /** What an order of this side and owner has to draw on. */
  function Drawn(k: Risk, r: Reservation): int {
    if r.side == BUY then Get(k.reserved, r.user) else Get(k.reservedQty, SymbolOf(r))
  }

  /** Releasing what a reservation holds by now, although the commitments no longer count it as pending: they
      stay backed exactly when that is nothing, or there is nothing left to free. */
  lemma AbandonAfterAcceptance(k: Risk, r: Reservation)
    requires Backed(k) && r.price > 0 && r.qty >= 0 && (r.side == BUY || r.side == SELL)
    ensures Backed(Release(k, r, r.qty)) <==> r.qty == 0 || Drawn(k, r) == 0
  {
    BackedIsNonNegative(k, r.user, SymbolOf(r));
    if r.qty > 0 { CostIsPositive(r.price, r.qty); } else { NoCost(r.price); }
    ReleaseKeepsOrders(k, r, r.qty);
    hide Backed, BuyCost, CashHeld, UnitsHeld, Release, Sum, Get;
    if r.qty == 0 || Drawn(k, r) == 0 { FreesNothing(k, r); } else { FreesTooMuch(k, r); }
  }

  lemma FreesNothing(k: Risk, r: Reservation)
    requires Backed(k) && (r.qty == 0 || Drawn(k, r) == 0) && r.qty >= 0
    requires BuyCost(r.price, r.qty) >= 0 && (r.qty == 0 ==> BuyCost(r.price, r.qty) == 0)
    ensures Backed(Release(k, r, r.qty))
  {
    var after := Release(k, r, r.qty);
    ReleaseKeepsOrders(k, r, r.qty);
    BackedIsNonNegative(k, r.user, SymbolOf(r));
    hide Release, BuyCost, CashHeld, UnitsHeld, Sum, Get;
    forall user ensures CashBacked(after, user) {
      assert CashBacked(k, user);
      ReleaseGets(k, r, r.qty, user, SymbolOf(r));
    }
    forall key ensures UnitsBacked(after, key) {
      assert UnitsBacked(k, key);
      ReleaseGets(k, r, r.qty, r.user, key);
    }
  }

  lemma FreesTooMuch(k: Risk, r: Reservation)
    requires Backed(k) && r.qty > 0 && BuyCost(r.price, r.qty) > 0 && Drawn(k, r) > 0
    ensures !Backed(Release(k, r, r.qty))
  {
    var after := Release(k, r, r.qty);
    ReleaseKeepsOrders(k, r, r.qty);
    hide Release, BuyCost, CashHeld, UnitsHeld, Sum, Get;
    ReleaseGets(k, r, r.qty, r.user, SymbolOf(r));
    assert CashBacked(k, r.user) && UnitsBacked(k, SymbolOf(r));
    assert r.side == BUY ==> !CashBacked(after, r.user);
    assert r.side != BUY ==> !UnitsBacked(after, SymbolOf(r));
  }

  // ---- restarting ----------------------------------------------------------------------------------

  ghost predicate CashHung(k: Risk, user: int) {
    Get(k.settled, user) < Sum(k.open, CashHeld(user))
  }

  ghost predicate UnitsHung(k: Risk, key: PositionKey) {
    Get(k.positions, key) < Sum(k.open, UnitsHeld(key))
  }

  /** Somebody's resting orders hold more than they own. */
  ghost predicate Overhung(k: Risk, makers: set<int>) {
    (exists user :: CashHung(k, user)) || (exists key: PositionKey :: key.0 !in makers && UnitsHung(k, key))
  }

  /** Replaying what has been applied leaves everyone covered exactly when no resting order is uncovered. */
  lemma ReplayIsSolvent(k: Risk, rs: seq<Outbound>, makers: set<int>)
    requires SaneAll(map[], rs) && Mirrors(k.open, Fold(map[], rs))
    requires k.settled == ApplyAll(EMPTY, rs).cash && k.positions == ApplyAll(EMPTY, rs).positions
    ensures Solvent(Replay(rs), makers) <==> !Overhung(k, makers)
  {
    ReplaySound(rs);
    var b := Replay(rs);
    MirrorsUnique(b.open, k.open, Fold(map[], rs));
    hide Mirrors, SaneAll, Fold, ApplyAll, CashHeld, UnitsHeld, AllSerious;
    forall user ensures CashCovered(b, user) <==> !CashHung(k, user) {
      assert CashBacked(b, user);
      NothingPending(b, user, (user, 0));
    }
    forall key ensures UnitsCovered(b, key) <==> !UnitsHung(k, key) {
      assert UnitsBacked(b, key);
      NothingPending(b, key.0, key);
    }
  }

  /** That cannot be while everyone is covered and the commitments are right. */
  lemma CoveredIsNotOverhung(k: Risk, makers: set<int>)
    requires Backed(k) && Solvent(k, makers)
    ensures !Overhung(k, makers)
  {
    hide CashHeld, UnitsHeld;
    forall user ensures !CashHung(k, user) {
      assert CashCovered(k, user) && CashBacked(k, user);
      HeldIsNonNegative(k.open, k.pending, user, (user, 0));
    }
    forall key: PositionKey | key.0 !in makers ensures !UnitsHung(k, key) {
      assert UnitsCovered(k, key) && UnitsBacked(k, key);
      HeldIsNonNegative(k.open, k.pending, key.0, key);
    }
  }

  // ---- when a dump is right --------------------------------------------------------------------------

  lemma DumpedGets(k: Risk, user: int, key: PositionKey)
    ensures Get(DumpedCash(k), user) == Get(k.reserved, user) - Sum(k.pending, CashHeld(user))
    ensures Get(DumpedUnits(k), key) == Get(k.reservedQty, key) - Sum(k.pending, UnitsHeld(key))
  {
    if user !in k.reserved.Keys + (set c | c in k.pending :: k.pending[c].user) {
      forall c | c in k.pending ensures CashHeld(user)(k.pending[c]) == 0 {}
      SumOfZeros(k.pending, CashHeld(user));
    }
    if key !in k.reservedQty.Keys + (set c | c in k.pending :: SymbolOf(k.pending[c])) {
      forall c | c in k.pending ensures UnitsHeld(key)(k.pending[c]) == 0 {}
      SumOfZeros(k.pending, UnitsHeld(key));
    }
  }

  lemma SameDumpIsBacked(k: Risk, b: Risk)
    requires AllSerious(k) && Backed(b) && b.pending == map[] && Dump(k) == Dump(b)
    ensures Backed(k)
  {
    hide CashHeld, UnitsHeld, DumpedCash, DumpedUnits, AllSerious, Get;
    forall user ensures CashBacked(k, user) {
      DumpedGets(k, user, (user, 0));
      DumpedGets(b, user, (user, 0));
      assert CashBacked(b, user);
    }
    forall key ensures UnitsBacked(k, key) {
      DumpedGets(k, key.0, key);
      DumpedGets(b, key.0, key);
      assert UnitsBacked(b, key);
    }
  }

  /** A live dump is the dump of a replay exactly when the commitments are backed and the open orders are the
      stream's. */
  lemma DumpIsExact(k: Risk, rs: seq<Outbound>)
    requires SaneAll(map[], rs) && AllSerious(k)
    requires k.settled == ApplyAll(EMPTY, rs).cash && k.positions == ApplyAll(EMPTY, rs).positions
    ensures Dump(k) == Dump(Replay(rs)) <==> Backed(k) && Mirrors(k.open, Fold(map[], rs))
  {
    hide SaneAll, Fold, ApplyAll, DumpedCash, DumpedUnits, AllSerious, Backed, Mirrors, Replay;
    ReplaySound(rs);
    var b := Replay(rs);
    if Backed(k) && Mirrors(k.open, Fold(map[], rs)) {
      MirrorsUnique(k.open, b.open, Fold(map[], rs));
      DumpsAgree(k, b);
    }
    if Dump(k) == Dump(b) { SameDumpIsBacked(k, b); }
  }

  lemma LoadedCash(loaded: Risk, live: Risk, b: Risk, user: int)
    requires Loads(loaded, Dump(live)) && Backed(b) && b.pending == map[] && b.open == live.open
    ensures SameReserved(loaded, b, user)
  {
    hide CashHeld, UnitsHeld, DumpedCash, DumpedUnits, AllSerious, Get;
    assert CashBacked(b, user);
    NothingPending(b, user, (user, 0));
  }

  lemma LoadedUnits(loaded: Risk, live: Risk, b: Risk, key: PositionKey)
    requires Loads(loaded, Dump(live)) && Backed(b) && b.pending == map[] && b.open == live.open
    ensures SameUnits(loaded, b, key) <==> UnitsBacked(live, key)
  {
    hide CashHeld, UnitsHeld, DumpedCash, DumpedUnits, AllSerious, Get;
    DumpedGets(live, key.0, key);
    assert UnitsBacked(b, key);
    NothingPending(b, key.0, key);
  }

  /** Loading recomputes the cash commitments, so a loaded dump is a replay exactly when the open orders are
      the stream's and the unit commitments are backed. */
  lemma LoadIsExact(loaded: Risk, live: Risk, rs: seq<Outbound>)
    requires SaneAll(map[], rs) && Loads(loaded, Dump(live))
    requires live.settled == ApplyAll(EMPTY, rs).cash && live.positions == ApplyAll(EMPTY, rs).positions
    ensures Equivalent(loaded, Replay(rs))
      <==> Mirrors(live.open, Fold(map[], rs)) && forall key :: UnitsBacked(live, key)
  {
    hide SaneAll, Fold, ApplyAll, DumpedCash, DumpedUnits, Backed, Mirrors, Replay, UnitsBacked, SameReserved,
      SameUnits;
    ReplaySound(rs);
    var b := Replay(rs);
    if Mirrors(live.open, Fold(map[], rs)) { MirrorsUnique(live.open, b.open, Fold(map[], rs)); }
    if live.open == b.open {
      forall user ensures SameReserved(loaded, b, user) { LoadedCash(loaded, live, b, user); }
      forall key ensures SameUnits(loaded, b, key) <==> UnitsBacked(live, key) { LoadedUnits(loaded, live, b, key); }
    }
  }
}
