/** The fan-out process: books, tape and bars updated in place, and checkpoints that leave no trace. */
module MarketService {
  import opened Contracts
  import opened Bars
  import opened ArchiveModel
  import opened MarketBooks

  /** `builders` holds the open bar of every width; `closed` and `tape` are in-flight output. */
  datatype Market = Market(books: map<int, Resting>, builders: Builders, tape: map<int, seq<Trade>>, closed: seq<Bar>)

  function BarsAfter(widths: seq<nat>, builders: Builders, r: Outbound): Builders
    requires AllPositive(widths) && SizedBars(builders, widths)
  {
    if r.Fill? then
      builders[r.symbol := AddToSet(r.symbol, widths, CurrentsOf(builders, r.symbol, widths), TickOf(r)).currents]
    else builders
  }

  function ClosedBy(widths: seq<nat>, builders: Builders, r: Outbound): seq<Bar>
    requires AllPositive(widths) && SizedBars(builders, widths)
  {
    if r.Fill? then AddToSet(r.symbol, widths, CurrentsOf(builders, r.symbol, widths), TickOf(r)).closed else []
  }

  predicate SizedBars(builders: Builders, widths: seq<nat>) {
    forall s :: s in builders ==> |builders[s]| == |widths|
  }

  function TapeAfter(tape: map<int, seq<Trade>>, r: Outbound, id: nat): map<int, seq<Trade>> {
    if r.Fill? then tape[r.symbol := RowsOf(tape, r.symbol) + [TradeOf(Rec(id, r))]] else tape
  }

  function MarketAfter(widths: seq<nat>, m: Market, r: Outbound, id: nat): (after: Market)
    requires AllPositive(widths) && SizedBars(m.builders, widths)
    ensures SizedBars(after.builders, widths)
  {
    Market(BooksAfter(m.books, r), BarsAfter(widths, m.builders, r), TapeAfter(m.tape, r, id),
           m.closed + ClosedBy(widths, m.builders, r))
  }

  function MarketRun(widths: seq<nat>, m: Market, recs: seq<Rec>): (after: Market)
    requires AllPositive(widths) && SizedBars(m.builders, widths)
    ensures SizedBars(after.builders, widths)
  {
    if recs == [] then m
    else MarketAfter(widths, MarketRun(widths, m, recs[..|recs| - 1]), recs[|recs| - 1].out, recs[|recs| - 1].id)
  }

  // ---- checkpoints -------------------------------------------------------------------------------

  /** `load_state` of `dump_state`: every book, and the symbols that have an open bar. */
  function Reloaded(m: Market): Market {
    Market(m.books,
           map s | s in m.builders && (exists i :: 0 <= i < |m.builders[s]| && m.builders[s][i].Some?) :: m.builders[s],
           map[], [])
  }

  /** Same books and same open bars; undelivered prints and closed bars aside. */
  ghost predicate SameMarket(widths: seq<nat>, a: Market, b: Market) {
    a.books == b.books && forall s :: SameCurrents(widths, a.builders, b.builders, s)
  }

  ghost predicate SameCurrents(widths: seq<nat>, a: Builders, b: Builders, s: int) {
    CurrentsOf(a, s, widths) == CurrentsOf(b, s, widths)
  }

  lemma ReloadedIsSame(widths: seq<nat>, m: Market)
    requires SizedBars(m.builders, widths)
    ensures SizedBars(Reloaded(m).builders, widths) && SameMarket(widths, Reloaded(m), m)
  {
    forall s ensures SameCurrents(widths, Reloaded(m).builders, m.builders, s) {
      if s in m.builders && s !in Reloaded(m).builders {
        assert m.builders[s] == NoBarsYet(widths);
      }
    }
  }

  lemma SameStep(widths: seq<nat>, a: Market, b: Market, r: Outbound, id: nat)
    requires AllPositive(widths) && SizedBars(a.builders, widths) && SizedBars(b.builders, widths)
      && SameMarket(widths, a, b)
    ensures SameMarket(widths, MarketAfter(widths, a, r, id), MarketAfter(widths, b, r, id))
    ensures ClosedBy(widths, a.builders, r) == ClosedBy(widths, b.builders, r)
  {
    hide AddToSet, BooksAfter;
    var x, y := MarketAfter(widths, a, r, id).builders, MarketAfter(widths, b, r, id).builders;
    if r.Fill? { assert SameCurrents(widths, a.builders, b.builders, r.symbol); }
    forall s ensures SameCurrents(widths, x, y, s) { assert SameCurrents(widths, a.builders, b.builders, s); }
  }

  /** Whatever comes after, a process that stopped and loaded its checkpoint has the same books and open bars
      as one that never stopped. */
  lemma {:induction false} CheckpointLeavesNoTrace(widths: seq<nat>, m: Market, recs: seq<Rec>)
    requires AllPositive(widths) && SizedBars(m.builders, widths)
    ensures SizedBars(Reloaded(m).builders, widths)
    ensures SameMarket(widths, MarketRun(widths, Reloaded(m), recs), MarketRun(widths, m, recs))
    decreases |recs|
  {
    hide MarketAfter, SameMarket, Reloaded;
    ReloadedIsSame(widths, m);
    if recs != [] {
      var n := |recs| - 1;
      CheckpointLeavesNoTrace(widths, m, recs[..n]);
      SameStep(widths, MarketRun(widths, Reloaded(m), recs[..n]), MarketRun(widths, m, recs[..n]), recs[n].out,
        recs[n].id);
    }
  }

  // ---- the object --------------------------------------------------------------------------------

  class MarketState {
    const widths: seq<nat>
    var books: map<int, Book>
    var builders: Builders
    var tape: map<int, seq<Trade>>
    var closedBars: seq<Bar>
    ghost var repr: set<Book>

    ghost predicate Valid()
      reads this, repr
    {
      && AllPositive(widths) && SizedBars(builders, widths)
      && (forall s :: s in books ==> books[s] in repr)
      && (forall s, t :: s in books && t in books && s != t ==> books[s] != books[t])
    }

    ghost function Orders(): map<int, Resting>
      requires Valid()
      reads this, repr
    {
      map s | s in books :: books[s].orders
    }

    ghost function State(): Market
      requires Valid()
      reads this, repr
    {
      Market(Orders(), builders, tape, closedBars)
    }

    constructor (widths: seq<nat>)
      requires AllPositive(widths)
      ensures Valid() && State() == Market(map[], map[], map[], []) && this.widths == widths && repr == {}
    {
      this.widths := widths;
      books, builders, tape, closedBars, repr := map[], map[], map[], [], {};
    }

    /** A symbol's book, created on first sight. */
    method BookFor(symbol: int) returns (b: Book)
      requires Valid()
      modifies this`books, this`repr
      ensures Valid() && symbol in books && books[symbol] == b && fresh(repr - old(repr)) && old(repr) <= repr
      ensures Orders() == if symbol in old(books) then old(Orders()) else old(Orders())[symbol := map[]]
      ensures b.orders == if symbol in old(books) then old(Orders())[symbol] else map[]
    {
      if symbol !in books {
        b := new Book(symbol);
        books := books[symbol := b];
        repr := repr + {b};
      }
      b := books[symbol];
    }

    method ApplyToBook(r: Outbound)
      requires Valid() && SymbolOf(r).Some?
      modifies this`books, this`repr, repr
      ensures Valid() && fresh(repr - old(repr)) && Orders() == BooksAfter(old(Orders()), r)
    {
      hide BookAfter;
      var symbol := SymbolOf(r).value;
      var b := BookFor(symbol);
      ghost var before := Orders();
      Move(b, r);
      forall s | s in books ensures books[s].orders == before[symbol := b.orders][s] {
        assert s != symbol ==> books[s] != b;
      }
      assert Orders() == before[symbol := b.orders];
    }

    /** One record: the book moves, and a fill is printed and folded into every bar. */
    method Apply(r: Outbound, id: nat)
      requires Valid()
      modifies this, repr
      ensures Valid() && fresh(repr - old(repr))
      ensures State() == MarketAfter(widths, old(State()), r, id)
    {
      hide AddToSet, BookAfter;
      if SymbolOf(r).Some? {
        ApplyToBook(r);
      }
      if r.Fill? {
        tape := tape[r.symbol := RowsOf(tape, r.symbol) + [TradeOf(Rec(id, r))]];
        var built := AddToSet(r.symbol, widths, CurrentsOf(builders, r.symbol, widths), TickOf(r));
        builders := builders[r.symbol := built.currents];
        closedBars := closedBars + built.closed;
      } else {
        assert closedBars + [] == closedBars;
      }
    }
  }

  /** The three events a book knows; a fill takes from both sides. */
  method Move(b: Book, r: Outbound)
    requires SymbolOf(r).Some?
    modifies b
    ensures b.orders == BookAfter(old(b.orders), r)
  {
    hide Reduced;
    match r
    case OrderAccepted(_, id, _, _, price, qty, _, side, _) => b.AcceptOrder(id, side, price, qty);
    case Fill(_, maker, taker, _, _, _, qty, _, _) =>
      b.FillOrder(maker, qty);
      b.FillOrder(taker, qty);
    case OrderCancelled(_, id, _, _, _, _, _) => b.CancelOrder(id);
  }
}
