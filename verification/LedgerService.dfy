/** The ledger and its consumer as the objects they are: dictionaries updated in place, row by row flushes,
    and the flag that makes the flush after a failure rewrite everything. */
module LedgerService {
  import opened Contracts
  import opened PriceTime
  import opened MapSums
  import opened LedgerModel
  import opened ReadModel
  import opened LedgerRuns

  class Ledger {
    var cashBalances: map<int, int>
    var positions: map<PositionKey, int>
    var openOrders: map<int, OpenOrder>
    var houseFees: int
    var totalDeposits: int
    var dirtyAccounts: set<int>
    var dirtyPositions: set<PositionKey>
    var dirtyOrders: set<int>

    function State(): Books
      reads this
    {
      Books(cashBalances, positions, openOrders, houseFees, totalDeposits)
    }

    function DirtyRows(): Dirty
      reads this
    {
      Dirty(dirtyAccounts, dirtyPositions, dirtyOrders)
    }

    constructor ()
      ensures State() == EMPTY && DirtyRows() == CLEAN
    {
      cashBalances, positions, openOrders := map[], map[], map[];
      houseFees, totalDeposits := 0, 0;
      dirtyAccounts, dirtyPositions, dirtyOrders := {}, {}, {};
    }

    constructor Load(b: Books)
      ensures State() == b && DirtyRows() == CLEAN
    {
      cashBalances, positions, openOrders := b.cash, b.positions, b.open;
      houseFees, totalDeposits := b.fees, b.deposits;
      dirtyAccounts, dirtyPositions, dirtyOrders := {}, {}, {};
    }

    method AddCash(user: int, delta: int)
      modifies this`cashBalances
      ensures cashBalances == Add(old(cashBalances), user, delta)
    {
      cashBalances := cashBalances[user := Get(cashBalances, user) + delta];
    }

    method AddPosition(key: PositionKey, delta: int)
      modifies this`positions
      ensures positions == Add(old(positions), key, delta)
    {
      positions := positions[key := Get(positions, key) + delta];
    }

    /** Take `qty` off an order the ledger tracks, deleting it once nothing is left. */
    method ReduceOrder(id: int, qty: int)
      modifies this`openOrders
      ensures openOrders == Lessen(old(openOrders), id, qty)
    {
      if id in openOrders {
        var order := openOrders[id].(remaining := openOrders[id].remaining - qty);
        openOrders := openOrders[id := order];
        if order.remaining <= 0 {
          openOrders := openOrders - {id};
        }
      }
    }

    /** Cash and inventory move between the two sides, and the house takes its fee. */
    method SettleFill(r: Outbound) returns (buyer: int, seller: int)
      requires r.Fill?
      modifies this`houseFees, this`cashBalances, this`positions
      ensures buyer == BuyerOf(r) && seller == SellerOf(r)
      ensures houseFees == old(houseFees) + FeesOf(r)
      ensures cashBalances == CashAfter(old(cashBalances), r) && positions == PositionsAfter(old(positions), r)
    {
      hide CalculateFees, Add;
      var fees := CalculateFees(r.price, r.qty);
      houseFees := houseFees + fees.totalFee;
      var buyerDelta, sellerDelta;
      if r.aggressor == BUY {
        buyer, seller := r.takerUser, r.makerUser;
        buyerDelta := -(fees.notional + fees.takerFee);
        sellerDelta := fees.notional - fees.makerFee;
      } else {
        buyer, seller := r.makerUser, r.takerUser;
        buyerDelta := -(fees.notional + fees.makerFee);
        sellerDelta := fees.notional - fees.takerFee;
      }
      AddCash(buyer, buyerDelta);
      AddCash(seller, sellerDelta);
      AddPosition((buyer, r.symbol), r.qty);
      AddPosition((seller, r.symbol), -r.qty);
    }

    method ApplyFill(r: Outbound)
      requires r.Fill?
      modifies this
      ensures State() == ApplyOne(old(State()), r)
      ensures DirtyRows() == Both(old(DirtyRows()), Touched(r))
    {
      hide FeesOf, CashAfter, PositionsAfter, Lessen;
      var buyer, seller := SettleFill(r);
      dirtyAccounts := dirtyAccounts + {buyer, seller};
      dirtyOrders := dirtyOrders + {r.maker, r.taker};
      dirtyPositions := dirtyPositions + {(buyer, r.symbol), (seller, r.symbol)};
      ReduceOrder(r.maker, r.qty);
      ReduceOrder(r.taker, r.qty);
    }

    /** One record, applied in place: the fold's step, and exactly the rows it touched marked. */
    method Apply(r: Outbound)
      modifies this
      ensures State() == ApplyOne(old(State()), r)
      ensures DirtyRows() == Both(old(DirtyRows()), Touched(r))
    {
      match r
      case AccountCreated(_, _, user, initial) =>
        cashBalances := cashBalances[user := initial];
        dirtyAccounts := dirtyAccounts + {user};
        totalDeposits := totalDeposits + initial;
      case CashCredited(_, _, user, amount) =>
        AddCash(user, amount);
        dirtyAccounts := dirtyAccounts + {user};
        totalDeposits := totalDeposits + amount;
      case OrderAccepted(ts, id, client, user, price, qty, symbol, side, tif) =>
        dirtyOrders := dirtyOrders + {id};
        openOrders := openOrders[id := OpenOrder(client, user, symbol, side, price, qty, qty, tif, ts)];
      case OrderCancelled(_, id, _, _, remaining, _, _) =>
        dirtyOrders := dirtyOrders + {id};
        ReduceOrder(id, remaining);
      case Fill(_, _, _, _, _, _, _, _, _) =>
        ApplyFill(r);
      case _ =>
    }

    /** Hand over and clear the keys changed since the previous call. */
    method TakeDirty() returns (dirty: Dirty)
      modifies this`dirtyAccounts, this`dirtyPositions, this`dirtyOrders
      ensures dirty == old(DirtyRows()) && DirtyRows() == CLEAN
    {
      dirty := Dirty(dirtyAccounts, dirtyPositions, dirtyOrders);
      dirtyAccounts, dirtyPositions, dirtyOrders := {}, {}, {};
    }
  }

  // ---- row loops of one transaction --------------------------------------------------------------

  method WriteAccounts(rows: map<int, int>, cash: map<int, int>, keys: set<int>) returns (after: map<int, int>)
    requires keys <= cash.Keys
    ensures after == UpsertAccounts(rows, cash, keys)
  {
    after := rows;
    var todo := keys;
    assert forall u :: u in keys ==> u in cash;
    while todo != {}
      invariant todo <= keys && after == UpsertAccounts(rows, cash, keys - todo)
      decreases todo
    {
      ghost var _ := Member(todo);
      var u :| u in todo;
      after := after[u := cash[u]];
      todo := todo - {u};
    }
  }

  /** The DELETE of the touched keys, then the INSERT of those that are not back at zero. */
  method WritePositions(rows: map<PositionKey, int>, positions: map<PositionKey, int>, keys: set<PositionKey>)
      returns (after: map<PositionKey, int>)
    ensures after == ReplacePositions(rows, positions, keys)
  {
    after := rows - keys;
    var todo := keys;
    assert HeldAmong(positions, {}) == map[] && keys - todo == {};
    hide HeldAmong;
    while todo != {}
      invariant todo <= keys && after == (rows - keys) + HeldAmong(positions, keys - todo)
      decreases todo
    {
      ghost var _ := Member(todo);
      var k :| k in todo;
      OneHeld(rows - keys, positions, keys - todo, k);
      if Get(positions, k) != 0 {
        after := after[k := positions[k]];
      }
      assert keys - (todo - {k}) == keys - todo + {k};
      todo := todo - {k};
    }
    assert keys - {} == keys;
  }

  lemma OneHeld(base: map<PositionKey, int>, positions: map<PositionKey, int>, done: set<PositionKey>, k: PositionKey)
    ensures base + HeldAmong(positions, done + {k})
            == if Get(positions, k) != 0 then (base + HeldAmong(positions, done))[k := Get(positions, k)]
               else base + HeldAmong(positions, done)
  {
  }

  method WriteOrders(rows: map<int, OpenOrder>, open: map<int, OpenOrder>, keys: set<int>)
    returns (after: map<int, OpenOrder>)
    ensures after == UpsertOrders(rows, open, keys)
  {
    after := rows;
    var todo := keys;
    NoneUpserted(rows, open);
    while todo != {}
      invariant todo <= keys && after == UpsertOrders(rows, open, keys - todo)
      decreases todo
    {
      ghost var _ := Member(todo);
      var id :| id in todo;
      OneUpserted(rows, open, keys - todo, id);
      if id !in open {
        after := after - {id};
      } else if id in rows {
        after := after[id := rows[id].(remaining := open[id].remaining)];
      } else {
        after := after[id := open[id]];
      }
      todo := todo - {id};
      assert keys - todo == keys - (todo + {id}) + {id};
    }
    assert keys - {} == keys;
  }

  lemma NoneUpserted(rows: map<int, OpenOrder>, open: map<int, OpenOrder>)
    ensures UpsertOrders(rows, open, {}) == rows
  {
  }

  lemma OneUpserted(rows: map<int, OpenOrder>, open: map<int, OpenOrder>, done: set<int>, id: int)
    requires id !in done
    ensures UpsertOrders(rows, open, done + {id})
            == if id in open then UpsertOrders(rows, open, done)[id := UpsertedOrder(rows, id, open[id])]
               else UpsertOrders(rows, open, done) - {id}
  {
  }

  // ---- the consumer ----------------------------------------------------------------------------

  class LedgerConsumer {
    var ledger: Ledger
    var db: Tables
    var needsFullFlush: bool

    ghost predicate Valid()
      reads this, ledger
    {
      ledger.dirtyAccounts <= ledger.cashBalances.Keys
    }

    constructor (db: Tables)
      ensures Valid() && this.db == db && !needsFullFlush && ledger.State() == EMPTY && fresh(ledger)
    {
      ledger := new Ledger();
      this.db := db;
      needsFullFlush := false;
    }

    /** One transaction. `outcome` is the store's: it may roll back, or commit and lose the answer; `ok` is
        false where the source sees an exception. */
    method FlushToDb(full: bool, outcome: Outcome) returns (ok: bool)
      requires Valid()
      modifies this`db, ledger`dirtyAccounts, ledger`dirtyPositions, ledger`dirtyOrders
      ensures Valid() && ledger.State() == old(ledger.State()) && ledger.DirtyRows() == CLEAN
      ensures old(ledger.DirtyRows()).accounts <= ledger.State().cash.Keys
      ensures db == FlushedTo(old(db), ledger.State(), old(ledger.DirtyRows()), full, outcome)
      ensures ok == (outcome == Commits)
    {
      var dirty := ledger.TakeDirty();
      var keys := if full
        then Dirty(ledger.cashBalances.Keys, ledger.positions.Keys, ledger.openOrders.Keys) else dirty;
      var accounts := WriteAccounts(db.accounts, ledger.cashBalances, keys.accounts);
      var positions := WritePositions(if full then map[] else db.positions, ledger.positions, keys.positions);
      var orders := WriteOrders(if full then map[] else db.orders, ledger.openOrders, keys.orders);
      FullRewrite(ledger.positions, ledger.openOrders);
      if outcome != RollsBack {
        db := Tables(accounts, positions, orders, Some(ledger.houseFees));
      }
      ok := outcome == Commits;
    }

    /** One turn of the run loop on a non-empty batch. */
    method RunBatch(batch: seq<Outbound>, outcome: Outcome)
      requires Valid() && ledger.DirtyRows() == CLEAN
      modifies this`db, this`needsFullFlush, ledger
      ensures Valid() && ledger.DirtyRows() == CLEAN && needsFullFlush == (outcome != Commits)
      ensures ledger.State() == ApplyAll(old(ledger.State()), batch)
      ensures TouchedBy(batch).accounts <= ledger.State().cash.Keys
      ensures db == FlushedTo(old(db), ledger.State(), TouchedBy(batch), old(needsFullFlush), outcome)
    {
      hide ApplyAll, TouchedBy, FlushedTo;
      ApplyBatch(batch);
      TouchedHaveCash(old(ledger.State()), batch);
      assert Both(CLEAN, TouchedBy(batch)) == TouchedBy(batch);
      var ok := FlushToDb(needsFullFlush, outcome);
      needsFullFlush := !ok;
    }

    method ApplyBatch(batch: seq<Outbound>)
      modifies ledger
      ensures ledger.State() == ApplyAll(old(ledger.State()), batch)
      ensures ledger.DirtyRows() == Both(old(ledger.DirtyRows()), TouchedBy(batch))
    {
      hide ApplyOne, Touched;
      for i := 0 to |batch|
        invariant ledger.State() == ApplyAll(old(ledger.State()), batch[..i])
        invariant ledger.DirtyRows() == Both(old(ledger.DirtyRows()), TouchedBy(batch[..i]))
      {
        assert batch[..i + 1][..i] == batch[..i];
        ledger.Apply(batch[i]);
      }
      assert batch[..|batch|] == batch;
    }

    /** Load the checkpoint or start empty, replay the tail, rewrite the tables in full. */
    method Recover(saved: Option<Saved>, tail: seq<Outbound>, outcome: Outcome) returns (ok: bool)
      requires Valid()
      modifies this
      ensures Valid() && ok == (outcome == Commits) && fresh(ledger) && ledger.DirtyRows() == CLEAN
      ensures ledger.State() == ApplyAll(if saved.Some? then saved.value.books else EMPTY, tail)
      ensures db == FlushedTo(old(db), ledger.State(), CLEAN, true, outcome)
    {
      var start := if saved.Some? then saved.value.books else EMPTY;
      ledger := new Ledger.Load(start);
      ApplyBatch(tail);
      TouchedHaveCash(start, tail);
      ok := FlushToDb(true, outcome);
      needsFullFlush := false;
    }
  }

  lemma FullRewrite(positions: map<PositionKey, int>, open: map<int, OpenOrder>)
    ensures ReplacePositions(map[], positions, positions.Keys) == HeldAmong(positions, positions.Keys)
    ensures UpsertOrders(map[], open, open.Keys) == open
  {
  }
}
