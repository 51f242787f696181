/** The gateway's risk object: the same accounting, updated in place. A reservation is an object that the request, the
    pending table and then the open orders share. */
module RiskService {
  import opened Contracts
  import opened EngineSpec
  import opened MapSums
  import opened LedgerModel
  import opened RiskModel

  class Booking {
    const user: int
    const client: int
    const symbol: int
    const side: int
    const price: int
    var qty: int

    function Value(): Reservation
      reads this
    {
      Reservation(user, client, symbol, side, price, qty)
    }

    constructor (r: Reservation)
      ensures Value() == r
    {
      user, client, symbol, side, price, qty := r.user, r.client, r.symbol, r.side, r.price, r.qty;
    }
  }

  class RiskState {
    const makers: set<int>
    var settledCash: map<int, int>
    var reserved: map<int, int>
    var positions: map<PositionKey, int>
    var reservedQty: map<PositionKey, int>
    var pendingByClient: map<ClientKey, Booking>
    var openOrders: map<int, Booking>

    ghost function Bookings(): set<Booking>
      reads this
    {
      (set c | c in pendingByClient :: pendingByClient[c]) + (set id | id in openOrders :: openOrders[id])
    }

    /** No two entries are the same object. */
    ghost predicate Valid()
      reads this
    {
      && (forall c, d :: c in pendingByClient && d in pendingByClient && c != d ==>
            pendingByClient[c] != pendingByClient[d])
      && (forall i, j :: i in openOrders && j in openOrders && i != j ==> openOrders[i] != openOrders[j])
      && (forall c, i :: c in pendingByClient && i in openOrders ==> pendingByClient[c] != openOrders[i])
    }

    ghost function PendingValues(): map<ClientKey, Reservation>
      reads this`pendingByClient, set c | c in pendingByClient :: pendingByClient[c]
    {
      map c | c in pendingByClient :: pendingByClient[c].Value()
    }

    ghost function OpenValues(): map<int, Reservation>
      reads this`openOrders, set id | id in openOrders :: openOrders[id]
    {
      map id | id in openOrders :: openOrders[id].Value()
    }

    ghost function State(): Risk
      reads this, Bookings()
    {
      Risk(settledCash, reserved, positions, reservedQty, PendingValues(), OpenValues())
    }

    constructor (makers: set<int>)
      ensures Valid() && State() == FRESH && this.makers == makers
    {
      this.makers := makers;
      settledCash, reserved, positions, reservedQty := map[], map[], map[], map[];
      pendingByClient, openOrders := map[], map[];
    }

    function Reason(r: Reservation): Option<int>
      reads this
    {
      RejectReasonFor(Risk(settledCash, reserved, positions, reservedQty, map[], map[]), makers, r)
    }

    method CommitOrder(r: Reservation)
      modifies this`reserved, this`reservedQty
      ensures State() == Commit(old(State()), r)
    {
      hide BuyCost, PendingValues, OpenValues;
      if r.side == BUY {
        reserved := reserved[r.user := Get(reserved, r.user) + BuyCost(r.price, r.qty)];
      } else {
        reservedQty := reservedQty[SymbolOf(r) := Get(reservedQty, SymbolOf(r)) + r.qty];
      }
    }

    /** `reason` is what the source raises with; nothing changes then. Otherwise the caller and the pending table share
        the reservation. */
    method ReserveOrder(r: Reservation) returns (reason: Option<int>, booking: Booking?)
      requires Valid()
      modifies this`reserved, this`reservedQty, this`pendingByClient
      ensures Valid() && reason == RejectReasonFor(old(State()), makers, r)
      ensures State() == if reason == None then Reserve(old(State()), r) else old(State())
      ensures if reason == None then booking != null && fresh(booking) && ClientOf(r) in pendingByClient
                                     && pendingByClient[ClientOf(r)] == booking
              else booking == null
    {
      hide BuyCost, Commit, OpenValues, RejectReasonFor;
      CommitKeepsOrders(State(), r);
      reason := Reason(r);
      ChecksAlike(State(), makers, r);
      if reason.Some? {
        booking := null;
        return;
      }
      booking := new Booking(r);
      CommitOrder(r);
      ghost var k := State();
      pendingByClient := pendingByClient[ClientOf(r) := booking];
      assert State() == k.(pending := k.pending[ClientOf(r) := r]);
    }

    method ReleaseOrder(r: Reservation, qty: int)
      modifies this`reserved, this`reservedQty
      ensures State() == Release(old(State()), r, qty)
    {
      hide BuyCost, PendingValues, OpenValues;
      if r.side == BUY {
        reserved := reserved[r.user := Max(0, Get(reserved, r.user) - BuyCost(r.price, qty))];
        return;
      }
      reservedQty := reservedQty[SymbolOf(r) := Max(0, Get(reservedQty, SymbolOf(r)) - qty)];
    }

    /** `_abandon`: the entry goes if it is this very object, and what the object holds is released either way. */
    method AbandonOrder(booking: Booking)
      requires Valid()
      modifies this`reserved, this`reservedQty, this`pendingByClient
      ensures Valid()
      ensures var r := booking.Value();
        State() == if ClientOf(r) in old(pendingByClient) && old(pendingByClient)[ClientOf(r)] == booking
                   then Abandon(old(State()), r) else Release(old(State()), r, r.qty)
    {
      hide Release;
      var key := (booking.user, booking.client);
      if key in pendingByClient && pendingByClient[key] == booking {
        pendingByClient := pendingByClient - {key};
        assert State() == old(State()).(pending := old(State()).pending - {key});
      }
      ReleaseOrder(booking.Value(), booking.qty);
    }

    method ReleaseRemainder(id: int)
      requires Valid()
      modifies this`reserved, this`reservedQty, this`openOrders
      ensures Valid() && State() == ReleaseRemaining(old(State()), id)
    {
      hide Release;
      if id !in openOrders {
        return;
      }
      var r := openOrders[id];
      openOrders := openOrders - {id};
      assert State() == old(State()).(open := old(State()).open - {id});
      ReleaseOrder(r.Value(), r.qty);
    }

    /** The shared object's quantity comes down, whoever else holds it, and an exhausted order is retired. */
    method LowerOrder(id: int, qty: int)
      requires Valid() && id in openOrders
      modifies this`openOrders, openOrders[id]
      ensures Valid() && OpenValues() == FilledOpen(old(State()), id, qty) && PendingValues() == old(PendingValues())
      ensures old(openOrders[id]).qty == Max(0, old(openOrders[id].qty) - qty)
      ensures openOrders
        == if Max(0, old(openOrders[id].qty) - qty) == 0 then old(openOrders) - {id} else old(openOrders)
    {
      ghost var k := old(State());
      var r := openOrders[id];
      r.qty := Max(0, r.qty - qty);
      if r.qty == 0 {
        openOrders := openOrders - {id};
      }
      assert forall i :: i in openOrders && i != id ==> openOrders[i] != r;
      forall i | i in openOrders ensures openOrders[i].Value() == FilledOpen(k, id, qty)[i] {
        if i != id { assert openOrders[i].Value() == k.open[i]; }
      }
      assert OpenValues() == FilledOpen(k, id, qty);
      assert PendingValues() == k.pending;
    }

    method ReleaseFilled(id: int, qty: int)
      requires Valid()
      modifies this`reserved, this`reservedQty, this`openOrders, if id in openOrders then {openOrders[id]} else {}
      ensures Valid() && State() == ReleaseFill(old(State()), id, qty)
      ensures id in old(openOrders) ==> old(openOrders[id]).qty == Max(0, old(openOrders[id].qty) - qty)
      ensures forall i :: i in openOrders ==> i in old(openOrders) && openOrders[i] == old(openOrders[i])
      ensures forall i :: i in old(openOrders) && i != id ==> i in openOrders
    {
      if id !in openOrders {
        return;
      }
      var r := openOrders[id];
      FillSpelled(State(), id, qty);
      ReleaseKeepsOrders(State(), r.Value(), qty);
      hide Release, ReleaseFill, PendingValues, Valid;
      assert State().open[id] == r.Value();
      ReleaseOrder(r.Value(), qty);
      LowerOrder(id, qty);
    }

    /** The pending object becomes the open order's. */
    method AdoptOrder(record: Outbound)
      requires Valid() && record.OrderAccepted? && (record.user, record.client) in pendingByClient
      modifies this`openOrders, this`pendingByClient
      ensures Valid() && State() == Accept(old(State()), record)
      ensures record.orderId in openOrders
      ensures openOrders[record.orderId] == old(pendingByClient[(record.user, record.client)])
    {
      var key := (record.user, record.client);
      var r := pendingByClient[key];
      pendingByClient := pendingByClient - {key};
      openOrders := openOrders[record.orderId := r];
      ghost var k := old(State());
      assert State().open == k.open[record.orderId := k.pending[key]];
      assert State().pending == k.pending - {key};
      hide Commit;
    }

    /** Nothing is pending, so the order is booked anew and its commitment re-established. */
    method BookOrder(record: Outbound)
      requires Valid() && record.OrderAccepted? && (record.user, record.client) !in pendingByClient
      modifies this`reserved, this`reservedQty, this`openOrders
      ensures Valid() && State() == Accept(old(State()), record)
      ensures record.orderId in openOrders && fresh(openOrders[record.orderId])
    {
      hide BuyCost, Commit, PendingValues;
      ghost var before, res := State(), ReservationOf(record);
      CommitKeepsOrders(before, res);
      var r := new Booking(ReservationOf(record));
      CommitOrder(ReservationOf(record));
      ghost var k := State();
      assert k == Commit(before, res);
      openOrders := openOrders[record.orderId := r];
      assert OpenValues() == k.open[record.orderId := res];
      assert (record.user, record.client) !in before.pending by { NotPending(record); }
    }

    lemma NotPending(record: Outbound)
      requires record.OrderAccepted? && (record.user, record.client) !in pendingByClient
      ensures (record.user, record.client) !in PendingValues()
    {
    }

    method AcceptOrder(record: Outbound)
      requires Valid() && record.OrderAccepted?
      modifies this`reserved, this`reservedQty, this`openOrders, this`pendingByClient
      ensures Valid() && State() == Accept(old(State()), record)
      ensures record.orderId in openOrders
      ensures var key := (record.user, record.client);
        key in old(pendingByClient) ==> openOrders[record.orderId] == old(pendingByClient)[key]
    {
      hide Accept;
      if (record.user, record.client) in pendingByClient { AdoptOrder(record); } else { BookOrder(record); }
    }

    /** Cash and inventory move with the fill; then both sides give back what it had committed. */
    method SettleFill(record: Outbound)
      requires record.Fill?
      modifies this`settledCash, this`positions
      ensures State() == Settle(old(State()), record)
    {
      hide CalculateFees, PendingValues, OpenValues;
      var fees := CalculateFees(record.price, record.qty);
      var buyer, seller, buyerDelta, sellerDelta;
      if record.aggressor == BUY {
        buyer, seller := record.takerUser, record.makerUser;
        buyerDelta := -(fees.notional + fees.takerFee);
        sellerDelta := fees.notional - fees.makerFee;
      } else {
        buyer, seller := record.makerUser, record.takerUser;
        buyerDelta := -(fees.notional + fees.makerFee);
        sellerDelta := fees.notional - fees.takerFee;
      }
      settledCash := settledCash[buyer := Get(settledCash, buyer) + buyerDelta];
      settledCash := settledCash[seller := Get(settledCash, seller) + sellerDelta];
      positions := positions[(buyer, record.symbol) := Get(positions, (buyer, record.symbol)) + record.qty];
      positions := positions[(seller, record.symbol) := Get(positions, (seller, record.symbol)) - record.qty];
    }

    method ApplyFill(record: Outbound)
      requires Valid() && record.Fill?
      modifies this, set i | i in openOrders && (i == record.maker || i == record.taker) :: openOrders[i]
      ensures Valid() && State() == ApplyRecord(old(State()), record)
      ensures record.maker != record.taker ==>
        forall i :: i in old(openOrders) && (i == record.maker || i == record.taker) ==>
          old(openOrders[i]).qty == Max(0, old(openOrders[i].qty) - record.qty)
    {
      hide Settle, ReleaseFill;
      SettleFill(record);
      SettleKeepsOrders(old(State()), record);
      ReleaseFilled(record.maker, record.qty);
      ReleaseFilled(record.taker, record.qty);
    }

    /** One outbound record, exactly as the accounting functions say. */
    method Apply(record: Outbound)
      requires Valid()
      modifies this, Bookings()
      ensures Valid() && State() == ApplyRecord(old(State()), record)
    {
      hide BuyCost, CalculateFees, Release, Commit, BuyerDelta, SellerDelta, ReleaseFill;
      match record
      case AccountCreated(_, _, user, initial) => settledCash := settledCash[user := initial];
      case CashCredited(_, _, user, amount) => settledCash := settledCash[user := Get(settledCash, user) + amount];
      case OrderAccepted(_, _, _, _, _, _, _, _, _) => AcceptOrder(record);
      case Fill(_, _, _, _, _, _, _, _, _) => ApplyFill(record);
      case OrderCancelled(_, id, _, _, _, _, _) => ReleaseRemainder(id);
      case _ =>
    }
  }

  lemma ChecksAlike(k: Risk, makers: set<int>, r: Reservation)
    ensures RejectReasonFor(k.(pending := map[], open := map[]), makers, r) == RejectReasonFor(k, makers, r)
  {
  }

  /** The open orders once `qty` of one has been filled. */
  function FilledOpen(k: Risk, id: int, qty: int): map<int, Reservation>
    requires id in k.open
  {
    var left := Max(0, k.open[id].qty - qty);
    if left == 0 then k.open - {id} else k.open[id := k.open[id].(qty := left)]
  }

  lemma FillSpelled(k: Risk, id: int, qty: int)
    requires id in k.open
    ensures var after := ReleaseFill(k, id, qty);
      && after.open == FilledOpen(k, id, qty)
      && after.pending == k.pending && after.settled == k.settled && after.positions == k.positions
      && after.reserved == Release(k, k.open[id], qty).reserved
      && after.reservedQty == Release(k, k.open[id], qty).reservedQty
  {
    ReleaseKeepsOrders(k, k.open[id], qty);
    hide Release;
  }

  lemma SettleKeepsOrders(k: Risk, record: Outbound)
    ensures Settle(k, record).open == k.open && Settle(k, record).pending == k.pending
  {
  }
}
