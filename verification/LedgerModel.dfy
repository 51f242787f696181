/** The ledger: balances, positions, open orders and house fees as a fold of the outbound stream. */
module LedgerModel {
  import opened Contracts
  import opened PriceTime
  import opened EngineSpec
  import opened MapSums
  import opened OrderViews

  const MAKER_FEE_BPS := 2
  const TAKER_FEE_BPS := 10
  const BPS_DENOMINATOR := 10000

  type PositionKey = (int, int)

  datatype OpenOrder = OpenOrder(client: int, user: int, symbol: int, side: int, price: int, qty: int,
                                 remaining: int, tif: int, createdAt: int)

  datatype Books = Books(cash: map<int, int>, positions: map<PositionKey, int>, open: map<int, OpenOrder>,
                         fees: int, deposits: int)

  datatype FeeBreakdown = FeeBreakdown(notional: int, makerFee: int, takerFee: int, totalFee: int)

  function CalculateFees(price: int, qty: int): (f: FeeBreakdown)
    ensures price >= 0 && qty >= 0 ==> 0 <= f.makerFee <= f.takerFee <= f.notional
  {
    var notional := price * qty;
    var makerFee := notional * MAKER_FEE_BPS / BPS_DENOMINATOR;
    var takerFee := notional * TAKER_FEE_BPS / BPS_DENOMINATOR;
    assert price >= 0 && qty >= 0 ==> notional >= 0 by { if price >= 0 && qty >= 0 { Product(price, qty); } }
    FeeBreakdown(notional, makerFee, takerFee, makerFee + takerFee)
  }

  lemma Product(a: nat, b: nat)
    ensures a * b >= 0
  {
  }

  const EMPTY := Books(map[], map[], map[], 0, 0)

  // ---- a fill, from each side ------------------------------------------------------------------

  function BuyerOf(r: Outbound): int
    requires r.Fill?
  {
    if r.aggressor == BUY then r.takerUser else r.makerUser
  }

  function SellerOf(r: Outbound): int
    requires r.Fill?
  {
    if r.aggressor == BUY then r.makerUser else r.takerUser
  }

  function BuyerDelta(r: Outbound): int
    requires r.Fill?
  {
    var f := CalculateFees(r.price, r.qty);
    -(f.notional + if r.aggressor == BUY then f.takerFee else f.makerFee)
  }

  function SellerDelta(r: Outbound): int
    requires r.Fill?
  {
    var f := CalculateFees(r.price, r.qty);
    f.notional - if r.aggressor == BUY then f.makerFee else f.takerFee
  }

  function Add<K(==)>(m: map<K, int>, k: K, delta: int): map<K, int> {
    m[k := Get(m, k) + delta]
  }

  function CashAfter(cash: map<int, int>, r: Outbound): map<int, int> {
    match r
    case AccountCreated(_, _, user, initial) => cash[user := initial]
    case CashCredited(_, _, user, amount) => Add(cash, user, amount)
    case Fill(_, _, _, _, _, _, _, _, _) =>
      Add(Add(cash, BuyerOf(r), BuyerDelta(r)), SellerOf(r), SellerDelta(r))
    case _ => cash
  }

  function PositionsAfter(positions: map<PositionKey, int>, r: Outbound): map<PositionKey, int> {
    if r.Fill? then Add(Add(positions, (BuyerOf(r), r.symbol), r.qty), (SellerOf(r), r.symbol), -r.qty)
    else positions
  }

  /** Take `qty` off an order the ledger knows; an exhausted one is deleted. */
  function Lessen(open: map<int, OpenOrder>, id: int, qty: int): map<int, OpenOrder> {
    if id !in open then open
    else if open[id].remaining - qty <= 0 then open - {id}
    else open[id := open[id].(remaining := open[id].remaining - qty)]
  }

  function OpenAfter(open: map<int, OpenOrder>, r: Outbound): map<int, OpenOrder> {
    match r
    case OrderAccepted(ts, id, client, user, price, qty, symbol, side, tif) =>
      open[id := OpenOrder(client, user, symbol, side, price, qty, qty, tif, ts)]
    case OrderCancelled(_, id, _, _, remaining, _, _) => Lessen(open, id, remaining)
    case Fill(_, maker, taker, _, _, _, qty, _, _) => Lessen(Lessen(open, maker, qty), taker, qty)
    case _ => open
  }

  function FeesOf(r: Outbound): int {
    if r.Fill? then CalculateFees(r.price, r.qty).totalFee else 0
  }

  function DepositOf(r: Outbound): int {
    match r
    case AccountCreated(_, _, _, initial) => initial
    case CashCredited(_, _, _, amount) => amount
    case _ => 0
  }

  function ApplyOne(b: Books, r: Outbound): Books {
    Books(CashAfter(b.cash, r), PositionsAfter(b.positions, r), OpenAfter(b.open, r),
          b.fees + FeesOf(r), b.deposits + DepositOf(r))
  }

  function ApplyAll(b: Books, rs: seq<Outbound>): Books {
    if rs == [] then b else ApplyOne(ApplyAll(b, rs[..|rs| - 1]), rs[|rs| - 1])
  }

  // ---- cash is conserved -----------------------------------------------------------------------

  /** What an account creation writes over. */
  function Overwritten(b: Books, r: Outbound): int {
    if r.AccountCreated? then Get(b.cash, r.user) else 0
  }

  function OverwrittenIn(b: Books, rs: seq<Outbound>): int {
    if rs == [] then 0
    else OverwrittenIn(b, rs[..|rs| - 1]) + Overwritten(ApplyAll(b, rs[..|rs| - 1]), rs[|rs| - 1])
  }

  ghost function SystemCash(b: Books): int {
    Total(b.cash) + b.fees
  }

  /** Creating an account whose user already has a balance writes over it. */
  predicate Overwrites(b: Books, r: Outbound) {
    r.AccountCreated? && Get(b.cash, r.user) != 0
  }

  /** One record keeps cash and fees in step with the deposits unless it writes over a balance. */
  lemma RecordConserves(b: Books, r: Outbound)
    ensures SystemCash(ApplyOne(b, r)) - ApplyOne(b, r).deposits == SystemCash(b) - b.deposits <==> !Overwrites(b, r)
  {
    hide SystemCash, ApplyOne;
    CashStep(b, r);
  }

  lemma CashStep(b: Books, r: Outbound)
    ensures SystemCash(ApplyOne(b, r)) - ApplyOne(b, r).deposits
            == SystemCash(b) - b.deposits - Overwritten(b, r)
  {
    match r
    case AccountCreated(_, _, user, initial) => TotalUpdate(b.cash, user, initial);
    case CashCredited(_, _, user, amount) => TotalUpdate(b.cash, user, Get(b.cash, user) + amount);
    case Fill(_, _, _, _, _, _, _, _, _) =>
      hide CalculateFees;
      var one := Add(b.cash, BuyerOf(r), BuyerDelta(r));
      TotalUpdate(b.cash, BuyerOf(r), Get(b.cash, BuyerOf(r)) + BuyerDelta(r));
      TotalUpdate(one, SellerOf(r), Get(one, SellerOf(r)) + SellerDelta(r));
      FeesBalance(r);
    case _ =>
  }

  /** What a trade takes from its two sides is the house's fee. */
  lemma FeesBalance(r: Outbound)
    requires r.Fill?
    ensures BuyerDelta(r) + SellerDelta(r) + FeesOf(r) == 0
  {
  }

  /** User cash and house fees together are the deposits, less whatever creating an account wrote over. */
  lemma {:induction false} CashConserved(rs: seq<Outbound>)
    ensures SystemCash(ApplyAll(EMPTY, rs)) == ApplyAll(EMPTY, rs).deposits - OverwrittenIn(EMPTY, rs)
    ensures SystemCash(ApplyAll(EMPTY, rs)) == ApplyAll(EMPTY, rs).deposits <==> OverwrittenIn(EMPTY, rs) == 0
    decreases |rs|
  {
    if rs != [] {
      CashConserved(rs[..|rs| - 1]);
      CashStep(ApplyAll(EMPTY, rs[..|rs| - 1]), rs[|rs| - 1]);
    }
  }

  // ---- positions sum to zero -------------------------------------------------------------------

  ghost function OfOneSymbol(positions: map<PositionKey, int>, symbol: int): map<PositionKey, int> {
    map k | k in positions && k.1 == symbol :: positions[k]
  }

  lemma SymbolAdd(positions: map<PositionKey, int>, k: PositionKey, delta: int, symbol: int)
    ensures Total(OfOneSymbol(Add(positions, k, delta), symbol))
            == Total(OfOneSymbol(positions, symbol)) + if k.1 == symbol then delta else 0
  {
    var before, after := OfOneSymbol(positions, symbol), OfOneSymbol(Add(positions, k, delta), symbol);
    if k.1 == symbol {
      assert after == before[k := Get(positions, k) + delta];
      TotalUpdate(before, k, Get(positions, k) + delta);
    } else {
      assert after == before;
    }
  }

  /** Every share somebody holds, somebody else is short, self-trades included. */
  lemma {:induction false} PositionsBalance(rs: seq<Outbound>, symbol: int)
    ensures Total(OfOneSymbol(ApplyAll(EMPTY, rs).positions, symbol)) == 0
    decreases |rs|
  {
    if rs == [] {
      assert OfOneSymbol(map[], symbol) == map[];
    } else {
      var before, r := ApplyAll(EMPTY, rs[..|rs| - 1]), rs[|rs| - 1];
      PositionsBalance(rs[..|rs| - 1], symbol);
      if r.Fill? {
        SymbolAdd(before.positions, (BuyerOf(r), r.symbol), r.qty, symbol);
        SymbolAdd(Add(before.positions, (BuyerOf(r), r.symbol), r.qty), (SellerOf(r), r.symbol), -r.qty, symbol);
      }
    }
  }

  // ---- the open orders are the engine's --------------------------------------------------------

  function OrderOfRow(o: OpenOrder): Order {
    Order(o.client, o.user, o.symbol, o.side, o.price, o.remaining, o.createdAt)
  }

  /** What the ledger's open orders say about each order. */
  function Resting(open: map<int, OpenOrder>): Orders {
    map id | id in open :: OrderOfRow(open[id])
  }

  lemma RestingStep(open: map<int, OpenOrder>, r: Outbound)
    requires Sane(Resting(open), r)
    ensures Resting(OpenAfter(open, r)) == Next(Resting(open), r)
  {
    match r
    case Fill(_, maker, taker, _, _, _, qty, _, _) =>
      RestingLessen(open, maker, qty);
      RestingLessen(Lessen(open, maker, qty), taker, qty);
    case OrderCancelled(_, id, _, _, remaining, _, _) => RestingLessen(open, id, remaining);
    case _ =>
  }

  lemma RestingLessen(open: map<int, OpenOrder>, id: int, qty: int)
    ensures Resting(Lessen(open, id, qty)) == Drop(Resting(open), id, qty)
  {
  }

  lemma {:induction false} RestingFolds(rs: seq<Outbound>)
    requires SaneAll(map[], rs)
    ensures Resting(ApplyAll(EMPTY, rs).open) == Fold(map[], rs)
    decreases |rs|
  {
    if rs == [] {
      assert Resting(map[]) == map[];
    } else {
      var n := |rs| - 1;
      SanePrefix(map[], rs, n);
      RestingFolds(rs[..n]);
      assert SaneAt(map[], rs, n);
      RestingStep(ApplyAll(EMPTY, rs[..n]).open, rs[n]);
    }
  }

  /** After the outputs of any inbound records, the ledger's open orders are the engine's live orders. */
  lemma LedgerAgrees(d: Dialect, grant: int, rs: seq<Inbound>)
    ensures Good(Fresh(grant))
    ensures Resting(ApplyAll(EMPTY, Run(d, Fresh(grant), rs).out).open) == Run(d, Fresh(grant), rs).engine.live
  {
    RunFolds(d, Fresh(grant), rs);
    RestingFolds(Run(d, Fresh(grant), rs).out);
  }
}
