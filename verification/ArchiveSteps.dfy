/** One record on a state that holds a unit: either the unit grows, or it is sealed complete and the next
    one opens. Nothing is ever late. */
module ArchiveSteps {
  import opened Contracts
  import opened Bars
  import opened ArchiveModel
  import opened ArchiveSpec

  ghost predicate InTime(recs: seq<Rec>) {
    forall i, j :: 0 <= i < j < |recs| ==> recs[i].out.ts <= recs[j].out.ts
  }

  function LastUnit(c: Config, recs: seq<Rec>): int
    requires Allowed(c) && recs != []
  {
    UnitOf(c, recs[|recs| - 1].out.ts)
  }

  function Widths(c: Config): (ws: seq<nat>)
    requires Allowed(c)
    ensures AllPositive(ws) && WidthsDivide(c, ws) && NoRepeats(ws)
  {
    c.widths
  }

  /** For one symbol, the open unit and the builders are what the unit's trades make them. */
  ghost predicate HoldsSymbol(c: Config, open: Unit, builders: Builders, recs: seq<Rec>, unit: int, s: int)
    requires Allowed(c)
  {
    var trades := TradesOf(c, recs, unit, s);
    && RowsOf(open.trades, s) == trades
    && RowsOf(open.bars, s) == SetFold(s, Widths(c), trades).closed
    && CurrentsOf(builders, s, c.widths) == SetFold(s, Widths(c), trades).currents
  }

  ghost predicate SymbolsSound(a: Archive) {
    && (forall s :: s in a.symbols <==> s in a.builders)
    && (forall i, j :: 0 <= i < j < |a.symbols| ==> a.symbols[i] != a.symbols[j])
  }

  /** The state after these records: one open unit, the last record's, holding what belongs there. */
  ghost predicate Holds(c: Config, a: Archive, recs: seq<Rec>)
    requires Allowed(c)
  {
    && recs != [] && a.late == 0 && a.last == recs[|recs| - 1].id && Sized(a, c.widths) && SymbolsSound(a)
    && var u := LastUnit(c, recs);
    && a.open.Keys == {u} && a.open[u].start == u && (a.sealedThrough.Some? ==> a.sealedThrough.value < u)
    && forall s :: HoldsSymbol(c, a.open[u], a.builders, recs, u, s)
  }

  /** A sealed unit holds every file of its unit. */
  ghost predicate SealedRight(c: Config, x: Unit, recs: seq<Rec>, unit: int)
    requires Allowed(c)
  {
    x.start == unit && forall s :: SealedSymbol(c, x, recs, unit, s)
  }

  ghost predicate SealedSymbol(c: Config, x: Unit, recs: seq<Rec>, unit: int, s: int)
    requires Allowed(c)
  {
    RowsOf(x.trades, s) == TradesOf(c, recs, unit, s)
    && RowsOf(x.bars, s) == BarsFile(s, Widths(c), TradesOf(c, recs, unit, s))
  }

  // ---- trades of a unit --------------------------------------------------------------------------

  lemma {:induction false} TradesAreIn(c: Config, recs: seq<Rec>, unit: int, s: int)
    requires Allowed(c)
    ensures TradesIn(c, TradesOf(c, recs, unit, s), unit)
    decreases |recs|
  {
    hide UnitOf;
    if recs != [] { TradesAreIn(c, recs[..|recs| - 1], unit, s); }
  }

  lemma TradesAppend(c: Config, recs: seq<Rec>, r: Rec, unit: int, s: int)
    requires Allowed(c)
    ensures TradesOf(c, recs + [r], unit, s)
            == if r.out.Fill? && r.out.symbol == s && UnitOf(c, r.out.ts) == unit
               then TradesOf(c, recs, unit, s) + [TradeOf(r)]
               else TradesOf(c, recs, unit, s)
  {
    assert (recs + [r])[..|recs|] == recs;
  }

  /** Units only go up. */
  lemma UnitsAscend(c: Config, a: int, b: int)
    requires Allowed(c) && a <= b
    ensures UnitOf(c, a) <= UnitOf(c, b)
    ensures UnitOf(c, a) < UnitOf(c, b) ==> UnitOf(c, a) + c.flushSeconds * NS_PER_SECOND <= UnitOf(c, b)
  {
    BucketMonotone(c.flushSeconds, a, b);
    var F := c.flushSeconds * NS_PER_SECOND;
    var x, y := a / F, b / F;
    assert UnitOf(c, a) == x * F && UnitOf(c, b) == y * F;
    if y <= x { Scaled(y, x, F); } else { Scaled(x + 1, y, F); assert (x + 1) * F == x * F + F; }
  }

  lemma {:induction false} NoTradesLater(c: Config, recs: seq<Rec>, unit: int, s: int)
    requires Allowed(c) && forall i :: 0 <= i < |recs| ==> UnitOf(c, recs[i].out.ts) < unit
    ensures TradesOf(c, recs, unit, s) == []
    decreases |recs|
  {
    hide UnitOf;
    if recs != [] { NoTradesLater(c, recs[..|recs| - 1], unit, s); }
  }

  lemma EarlierUnits(c: Config, recs: seq<Rec>, r: Rec)
    requires Allowed(c) && InTime(recs + [r]) && recs != []
    ensures LastUnit(c, recs) <= UnitOf(c, r.out.ts)
    ensures LastUnit(c, recs) < UnitOf(c, r.out.ts) ==>
      LastUnit(c, recs) + c.flushSeconds * NS_PER_SECOND <= UnitOf(c, r.out.ts)
      && forall i :: 0 <= i < |recs| ==> UnitOf(c, recs[i].out.ts) < UnitOf(c, r.out.ts)
  {
    hide UnitOf;
    var all := recs + [r];
    assert all[|recs|] == r && all[|recs| - 1] == recs[|recs| - 1];
    UnitsAscend(c, recs[|recs| - 1].out.ts, r.out.ts);
    forall i | 0 <= i < |recs| ensures UnitOf(c, recs[i].out.ts) <= LastUnit(c, recs) {
      assert all[i] == recs[i];
      UnitsAscend(c, recs[i].out.ts, recs[|recs| - 1].out.ts);
    }
  }

  // ---- collecting --------------------------------------------------------------------------------

  lemma FileTradeFacts(c: Config, f: Filed, symbol: int, t: Trade)
    requires Allowed(c) && UnitOf(c, t.ts) in f.open
    ensures var after, u := FileTrade(c, f, symbol, t), UnitOf(c, t.ts);
      && after.late == f.late && after.open.Keys == f.open.Keys
      && (forall v :: v in f.open && v != u ==> after.open[v] == f.open[v])
      && after.open[u] == f.open[u].(trades := after.open[u].trades)
      && (forall s :: RowsOf(after.open[u].trades, s) == RowsOf(f.open[u].trades, s) + if s == symbol then [t] else [])
  {
    hide UnitOf;
  }

  /** What the fill closes in its symbol's builders. */
  function BuiltBy(c: Config, a: Archive, r: Rec): SetBuilt
    requires Allowed(c) && Sized(a, c.widths) && r.out.Fill?
  {
    AddToSet(r.out.symbol, Widths(c), CurrentsOf(a.builders, r.out.symbol, c.widths), TickOf(r.out))
  }

  /** Nothing but rows and builders changes. */
  ghost predicate SameShape(a: Archive, after: Archive) {
    && after.late == a.late && after.last == a.last && after.ready == a.ready && after.sealedThrough == a.sealedThrough
    && after.open.Keys == a.open.Keys
    && (forall v :: v in a.open ==>
          after.open[v].start == a.open[v].start && after.open[v].resumeAfter == a.open[v].resumeAfter)
  }

  ghost predicate TradeFiled(a: Archive, after: Archive, unit: int, symbol: int, t: Trade)
    requires after.open.Keys == a.open.Keys
  {
    forall v, s :: v in a.open ==>
      RowsOf(after.open[v].trades, s) == RowsOf(a.open[v].trades, s) + if v == unit && s == symbol then [t] else []
  }

  ghost predicate BarsFiled(a: Archive, after: Archive, unit: int, symbol: int, bars: seq<Bar>)
    requires after.open.Keys == a.open.Keys
  {
    forall v, s :: v in a.open ==>
      RowsOf(after.open[v].bars, s) == RowsOf(a.open[v].bars, s) + if v == unit && s == symbol then bars else []
  }

  /** Filing the trade and then the bars it closed. */
  lemma FiledFacts(c: Config, a: Archive, symbol: int, t: Trade, bars: seq<Bar>, barUnit: int)
    requires Allowed(c) && UnitOf(c, t.ts) in a.open && barUnit in a.open && AllIn(c, bars, symbol, barUnit)
    ensures var f := FileBars(c, FileTrade(c, Filed(a.open, a.late), symbol, t), bars);
      var after := a.(open := f.open, late := f.late);
      SameShape(a, after) && TradeFiled(a, after, UnitOf(c, t.ts), symbol, t)
        && BarsFiled(a, after, barUnit, symbol, bars)
  {
    hide UnitOf, FileTrade, FileBars, BarIn;
    FileTradeFacts(c, Filed(a.open, a.late), symbol, t);
    forall i | 0 <= i < |bars| ensures UnitOf(c, bars[i].start) == barUnit { BarsUnit(c, bars, symbol, barUnit, i); }
    FileAll(c, FileTrade(c, Filed(a.open, a.late), symbol, t), bars, barUnit);
    forall s ensures OfOne(bars, s) == if s == symbol then bars else [] { OfOneWhole(c, bars, symbol, barUnit, s); }
  }

  /** Steps 3 and 4, when the fill's unit is open and the bars it closes belong to an open unit. */
  lemma CollectFacts(c: Config, a: Archive, r: Rec, barUnit: int)
    requires Allowed(c) && Sized(a, c.widths) && SymbolsSound(a) && r.out.Fill?
    requires UnitOf(c, r.out.ts) in a.open && barUnit in a.open
    requires AllIn(c, BuiltBy(c, a, r).closed, r.out.symbol, barUnit)
    ensures var after := Collect(c, a, r);
      && SameShape(a, after) && Sized(after, c.widths) && SymbolsSound(after)
      && TradeFiled(a, after, UnitOf(c, r.out.ts), r.out.symbol, TradeOf(r))
      && BarsFiled(a, after, barUnit, r.out.symbol, BuiltBy(c, a, r).closed)
      && (forall s :: CurrentsOf(after.builders, s, c.widths)
                      == if s == r.out.symbol then BuiltBy(c, a, r).currents else CurrentsOf(a.builders, s, c.widths))
  {
    hide UnitOf, AddToSet, FileTrade, FileBars, AllIn;
    FiledFacts(c, a, r.out.symbol, TradeOf(r), BuiltBy(c, a, r).closed, barUnit);
  }

  lemma BarsUnit(c: Config, bars: seq<Bar>, s: int, unit: int, i: nat)
    requires Allowed(c) && AllIn(c, bars, s, unit) && i < |bars|
    ensures UnitOf(c, bars[i].start) == unit
  {
    assert BarIn(c, bars[i], s, unit);
  }

  // ---- the unit grows ----------------------------------------------------------------------------

  /** A record of the open unit. */
  lemma Grows(c: Config, a: Archive, recs: seq<Rec>, r: Rec, sampled: bool)
    requires Allowed(c) && Holds(c, a, recs) && UnitOf(c, r.out.ts) == LastUnit(c, recs)
    ensures var after := ApplyRec(c, a, r, sampled);
      && Holds(c, after, recs + [r]) && after.ready == a.ready
      && after.open[LastUnit(c, recs)].resumeAfter == a.open[LastUnit(c, recs)].resumeAfter
  {
    hide UnitOf, TradesOf, SetFold, AddToSet, Collect;
    var u := LastUnit(c, recs);
    var ensured := EnsureUnit(a.(last := r.id), u, a.last);
    assert ensured == a.(last := r.id);
    var collected := if r.out.Fill? then Collect(c, ensured, r) else ensured;
    if r.out.Fill? {
      CollectHere(c, ensured, recs, r, u);
    } else {
      forall s ensures HoldsSymbol(c, collected.open[u], collected.builders, recs + [r], u, s) {
        assert HoldsSymbol(c, a.open[u], a.builders, recs, u, s);
        TradesAppend(c, recs, r, u, s);
      }
    }
    assert !exists v :: v in collected.open && v < u;
    assert (recs + [r])[|recs|] == r;
  }

  lemma CollectHere(c: Config, a: Archive, recs: seq<Rec>, r: Rec, u: int)
    requires Allowed(c) && Sized(a, c.widths) && SymbolsSound(a) && r.out.Fill? && UnitOf(c, r.out.ts) == u
      && u in a.open
    requires forall s :: HoldsSymbol(c, a.open[u], a.builders, recs, u, s)
    ensures var after := Collect(c, a, r);
      && SameShape(a, after) && Sized(after, c.widths) && SymbolsSound(after)
      && forall s :: HoldsSymbol(c, after.open[u], after.builders, recs + [r], u, s)
  {
    hide UnitOf, TradesOf, SetFold, AddToSet, Collect, BarIn, CurrentsOf, RowsOf, SymbolsSound;
    var s0 := r.out.symbol;
    assert HoldsSymbol(c, a.open[u], a.builders, recs, u, s0);
    TradesAreIn(c, recs, u, s0);
    FoldStaysIn(c, s0, TradesOf(c, recs, u, s0), u);
    SetStaysIn(c, s0, Widths(c), CurrentsOf(a.builders, s0, c.widths), TickOf(r.out));
    CollectFacts(c, a, r, u);
    var after := Collect(c, a, r);
    forall s ensures HoldsSymbol(c, after.open[u], after.builders, recs + [r], u, s) {
      assert HoldsSymbol(c, a.open[u], a.builders, recs, u, s);
      TradesAppend(c, recs, r, u, s);
      FoldAppend(c, s, TradesOf(c, recs, u, s), TradeOf(r));
    }
  }

  lemma FoldAppend(c: Config, s: int, trades: seq<Trade>, t: Trade)
    requires Allowed(c)
    ensures var before := SetFold(s, Widths(c), trades);
      var last := AddToSet(s, Widths(c), before.currents, TickFrom(t));
      SetFold(s, Widths(c), trades + [t]) == SetBuilt(last.currents, before.closed + last.closed)
  {
    assert (trades + [t])[..|trades|] == trades;
  }

  // ---- the unit ends -----------------------------------------------------------------------------

  /** Both units are open: the old one needs only the bars that have ended, the new one holds the record. */
  ghost predicate Crossing(c: Config, a: Archive, recs: seq<Rec>, r: Rec, unit: int, next: int)
    requires Allowed(c)
  {
    && Sized(a, c.widths) && SymbolsSound(a) && a.late == 0 && a.last == r.id && unit < next
    && a.open.Keys == {unit, next} && a.open[unit].start == unit && a.open[next].start == next
    && (a.sealedThrough.Some? ==> a.sealedThrough.value < unit)
    && (forall s :: CrossingOld(c, a.open[unit], a.builders, recs, unit, next, s))
    && (forall s :: CrossingNew(c, a.open[next], a.builders, recs + [r], next, s))
  }

  ghost predicate CrossingOld(c: Config, old_: Unit, builders: Builders, recs: seq<Rec>, unit: int, next: int, s: int)
    requires Allowed(c)
  {
    var trades := TradesOf(c, recs, unit, s);
    var ended := Ended(CurrentsOf(builders, s, c.widths), next);
    && RowsOf(old_.trades, s) == trades && RowsOf(old_.bars, s) + ended == BarsFile(s, Widths(c), trades)
    && AllIn(c, ended, s, unit)
  }

  ghost predicate CrossingNew(c: Config, new_: Unit, builders: Builders, recs: seq<Rec>, next: int, s: int)
    requires Allowed(c)
  {
    var trades := TradesOf(c, recs, next, s);
    && RowsOf(new_.trades, s) == trades && RowsOf(new_.bars, s) == SetFold(s, Widths(c), trades).closed
    && Remaining(CurrentsOf(builders, s, c.widths), next) == SetFold(s, Widths(c), trades).currents
  }

  lemma FoldOfNone(c: Config, s: int)
    requires Allowed(c)
    ensures SetFold(s, Widths(c), []) == SetBuilt(NoBarsYet(Widths(c)), [])
    ensures forall cutoff :: Remaining(NoBarsYet(Widths(c)), cutoff) == NoBarsYet(Widths(c))
  {
  }

  /** A symbol the record does not trade in: its bars have all ended. */
  lemma CrossQuiet(c: Config, open: Unit, builders: Builders, recs: seq<Rec>, r: Rec, unit: int, next: int, s: int)
    requires Allowed(c) && HoldsSymbol(c, open, builders, recs, unit, s)
      && unit + c.flushSeconds * NS_PER_SECOND <= next
    requires !(r.out.Fill? && r.out.symbol == s) && TradesOf(c, recs, next, s) == []
    ensures CrossingOld(c, open, builders, recs, unit, next, s)
    ensures CrossingNew(c, Unit(next, 0, map[], map[]), builders, recs + [r], next, s)
  {
    hide UnitOf, TradesOf, SetFold;
    var currents := CurrentsOf(builders, s, c.widths);
    TradesAreIn(c, recs, unit, s);
    FoldStaysIn(c, s, TradesOf(c, recs, unit, s), unit);
    EndedIn(c, currents, s, unit, next);
    AllListedIn(c, currents, s, unit);
    TradesAppend(c, recs, r, next, s);
    FoldOfNone(c, s);
    assert seq(|currents|, i => None) == NoBarsYet(Widths(c));
  }

  /** The symbol that traded: its old bars closed on the trade, and its new ones have not ended. */
  lemma CrossTraded(c: Config, open: Unit, builders: Builders, recs: seq<Rec>, r: Rec, unit: int, next: int)
    requires Allowed(c) && r.out.Fill? && HoldsSymbol(c, open, builders, recs, unit, r.out.symbol)
    requires unit + c.flushSeconds * NS_PER_SECOND <= next == UnitOf(c, r.out.ts)
    requires TradesOf(c, recs, next, r.out.symbol) == []
    ensures var s := r.out.symbol;
      var built := AddToSet(s, Widths(c), CurrentsOf(builders, s, c.widths), TickOf(r.out));
      && AllIn(c, built.closed, s, unit)
      && RowsOf(open.bars, s) + built.closed == BarsFile(s, Widths(c), TradesOf(c, recs, unit, s))
      && TradesOf(c, recs + [r], next, s) == [TradeOf(r)]
      && SetFold(s, Widths(c), [TradeOf(r)]) == SetBuilt(built.currents, [])
      && Ended(built.currents, next) == [] && Remaining(built.currents, next) == built.currents
  {
    hide UnitOf, TradesOf, SetFold, AddToSet;
    var s, t := r.out.symbol, TickOf(r.out);
    var currents, none := CurrentsOf(builders, s, c.widths), NoBarsYet(Widths(c));
    TradesAreIn(c, recs, unit, s);
    FoldStaysIn(c, s, TradesOf(c, recs, unit, s), unit);
    SetMovesOn(c, s, Widths(c), currents, t, unit);
    AllListedIn(c, currents, s, unit);
    TradesAppend(c, recs, r, next, s);
    FoldOfNone(c, s);
    FoldAppend(c, s, [], TradeOf(r));
    assert [] + [TradeOf(r)] == [TradeOf(r)];
    assert CurrentsIn(c, none, s, next) && WidthsPositive(none);
    SetStaysIn(c, s, Widths(c), none, t);
    EndedIn(c, AddToSet(s, Widths(c), none, t).currents, s, next, next);
  }

  lemma Crosses(c: Config, a: Archive, recs: seq<Rec>, r: Rec)
    requires Allowed(c) && Holds(c, a, recs) && InTime(recs + [r]) && LastUnit(c, recs) < UnitOf(c, r.out.ts)
    ensures var unit, next := LastUnit(c, recs), UnitOf(c, r.out.ts);
      var ensured := EnsureUnit(a.(last := r.id), next, a.last);
      var collected := if r.out.Fill? then Collect(c, ensured, r) else ensured;
      && Crossing(c, collected, recs, r, unit, next) && collected.ready == a.ready
      && collected.open[unit].resumeAfter == a.open[unit].resumeAfter && collected.open[next].resumeAfter == a.last
  {
    hide UnitOf, TradesOf, SetFold, AddToSet, Collect, AllIn, BarsFile, Ended, Remaining, CurrentsOf;
    var unit, next := LastUnit(c, recs), UnitOf(c, r.out.ts);
    EarlierUnits(c, recs, r);
    var ensured := EnsureUnit(a.(last := r.id), next, a.last);
    assert ensured.open[unit] == a.open[unit] && ensured.open[next] == Unit(next, a.last, map[], map[]);
    forall s ensures TradesOf(c, recs, next, s) == [] { NoTradesLater(c, recs, next, s); }
    if r.out.Fill? {
      CrossFill(c, a, ensured, recs, r, unit, next);
    } else {
      forall s ensures CrossingOld(c, ensured.open[unit], ensured.builders, recs, unit, next, s)
        && CrossingNew(c, ensured.open[next], ensured.builders, recs + [r], next, s)
      {
        assert HoldsSymbol(c, a.open[unit], a.builders, recs, unit, s);
        CrossQuiet(c, a.open[unit], a.builders, recs, r, unit, next, s);
      }
    }
  }

  lemma CrossFill(c: Config, a: Archive, e: Archive, recs: seq<Rec>, r: Rec, unit: int, next: int)
    requires Allowed(c) && Sized(e, c.widths) && SymbolsSound(e) && r.out.Fill? && unit in a.open
    requires unit + c.flushSeconds * NS_PER_SECOND <= next == UnitOf(c, r.out.ts)
    requires e.open.Keys == {unit, next} && e.open[unit] == a.open[unit]
      && e.open[next] == Unit(next, a.last, map[], map[])
    requires e.builders == a.builders
    requires forall s :: HoldsSymbol(c, a.open[unit], a.builders, recs, unit, s)
    requires forall s :: TradesOf(c, recs, next, s) == []
    ensures var after := Collect(c, e, r);
      && SameShape(e, after) && Sized(after, c.widths) && SymbolsSound(after)
      && (forall s :: CrossingOld(c, after.open[unit], after.builders, recs, unit, next, s))
      && (forall s :: CrossingNew(c, after.open[next], after.builders, recs + [r], next, s))
  {
    hide UnitOf, TradesOf, SetFold, AddToSet, Collect, AllIn, BarsFile, Ended, Remaining, CurrentsOf, RowsOf,
      SymbolsSound;
    var s0, after := r.out.symbol, Collect(c, e, r);
    assert HoldsSymbol(c, a.open[unit], a.builders, recs, unit, s0);
    CrossTraded(c, a.open[unit], a.builders, recs, r, unit, next);
    CollectFacts(c, e, r, unit);
    forall s ensures CrossingOld(c, after.open[unit], after.builders, recs, unit, next, s)
      && CrossingNew(c, after.open[next], after.builders, recs + [r], next, s)
    {
      assert HoldsSymbol(c, a.open[unit], a.builders, recs, unit, s);
      NoRows(s);
      if s != s0 {
        CrossQuiet(c, a.open[unit], a.builders, recs, r, unit, next, s);
      } else {
        NothingMore(c, s, unit);
      }
    }
  }

  lemma NoRows(s: int)
    ensures RowsOf<Trade>(map[], s) == [] && RowsOf<Bar>(map[], s) == []
  {
  }

  lemma NothingMore(c: Config, s: int, unit: int)
    requires Allowed(c)
    ensures AllIn(c, [], s, unit)
  {
  }

  /** All the bars that have ended are of the old unit, each symbol's in width order. */
  lemma {:induction false} EndedBars(c: Config, symbols: seq<int>, builders: Builders, unit: int, cutoff: int, s: int)
    requires Allowed(c) && (forall i, j :: 0 <= i < j < |symbols| ==> symbols[i] != symbols[j])
    requires forall x :: x in symbols ==> AllIn(c, Ended(CurrentsOf(builders, x, c.widths), cutoff), x, unit)
    ensures var bars := EndedOf(symbols, builders, cutoff);
      && (forall i :: 0 <= i < |bars| ==> UnitOf(c, bars[i].start) == unit)
      && OfOne(bars, s) == if s in symbols && s in builders then Ended(builders[s], cutoff) else []
    decreases |symbols|
  {
    hide UnitOf, Ended, BarIn;
    if symbols != [] {
      var n := |symbols| - 1;
      var init, last := symbols[..n], symbols[n];
      assert symbols == init + [last];
      assert last in symbols && last !in init;
      EndedBars(c, init, builders, unit, cutoff, s);
      var more := if last in builders then Ended(builders[last], cutoff) else [];
      OfOneAppend(EndedOf(init, builders, cutoff), more, s);
      if last in builders {
        assert AllIn(c, more, last, unit);
        OfOneWhole(c, more, last, unit, s);
        forall i | 0 <= i < |more| ensures UnitOf(c, more[i].start) == unit { BarsUnit(c, more, last, unit, i); }
      }
    }
  }

  /** Closing the ended bars completes the old unit's files. */
  lemma Closes(c: Config, a: Archive, recs: seq<Rec>, r: Rec, unit: int, next: int)
    requires Allowed(c) && Crossing(c, a, recs, r, unit, next)
    ensures var f := FileBars(c, Filed(a.open, a.late), EndedOf(a.symbols, a.builders, next));
      && f.late == 0 && f.open.Keys == a.open.Keys && f.open[next] == a.open[next]
      && f.open[unit].resumeAfter == a.open[unit].resumeAfter && SealedRight(c, f.open[unit], recs, unit)
  {
    hide UnitOf, TradesOf, SetFold, BarsFile, Ended, EndedOf, AllIn, FileBars, RowsOf;
    var bars := EndedOf(a.symbols, a.builders, next);
    forall s ensures AllIn(c, Ended(CurrentsOf(a.builders, s, c.widths), next), s, unit) {
      assert CrossingOld(c, a.open[unit], a.builders, recs, unit, next, s);
    }
    forall s ensures OfOne(bars, s) == if s in a.symbols && s in a.builders then Ended(a.builders[s], next) else [] {
      EndedBars(c, a.symbols, a.builders, unit, next, s);
    }
    EndedBars(c, a.symbols, a.builders, unit, next, 0);
    FileAll(c, Filed(a.open, a.late), bars, unit);
    var f := FileBars(c, Filed(a.open, a.late), bars);
    forall s ensures SealedSymbol(c, f.open[unit], recs, unit, s) {
      assert CrossingOld(c, a.open[unit], a.builders, recs, unit, next, s);
      NoneEnded(c, next);
    }
  }

  lemma NoneEnded(c: Config, cutoff: int)
    requires Allowed(c)
    ensures Ended(NoBarsYet(c.widths), cutoff) == []
  {
    EndedNone(NoBarsYet(c.widths), cutoff);
  }

  lemma {:induction false} EndedNone(currents: seq<Option<Bar>>, cutoff: int)
    requires forall i :: 0 <= i < |currents| ==> currents[i] == None
    ensures Ended(currents, cutoff) == []
  {
    if currents != [] { EndedNone(currents[1..], cutoff); }
  }

  lemma SealsOne(a: Archive, unit: int, next: int, sampled: bool)
    requires unit < next && a.open.Keys == {unit, next} && (a.sealedThrough.Some? ==> a.sealedThrough.value < unit)
    ensures EarlierThan(a.open, next) == {unit}
    ensures SealAll(a, {unit}, sampled) == SealOne(a, unit, sampled)
    ensures SealOne(a, unit, sampled).open == map[next := a.open[next]]
    ensures SealOne(a, unit, sampled).sealedThrough == Some(unit)
  {
    forall u ensures u in EarlierThan(a.open, next) <==> u == unit {}
    assert {unit} - {unit} == {};
    var one := SealOne(a, unit, sampled);
    assert SealAll(one, {}, sampled) == one;
    assert unit in a.open && next in a.open;
  }

  /** The first record of a later unit seals the open one, complete, and opens its own. */
  lemma Seals(c: Config, a: Archive, recs: seq<Rec>, r: Rec, sampled: bool)
    requires Allowed(c) && Holds(c, a, recs) && InTime(recs + [r]) && LastUnit(c, recs) < UnitOf(c, r.out.ts)
    ensures var unit, next := LastUnit(c, recs), UnitOf(c, r.out.ts);
      var after := ApplyRec(c, a, r, sampled);
      && Holds(c, after, recs + [r]) && after.open[next].resumeAfter == a.last
      && exists x: Unit :: SealedRight(c, x, recs, unit)
           && after.ready == if HoldsRows(x) || sampled then a.ready + [x] else a.ready
  {
    hide UnitOf, Collect, Crossing, FileBars, EndedOf, SealedRight, HoldsRows, SealAll, Remaining, EarlierThan, Holds,
      SealOne, TradesOf;
    LastIs(c, a, recs);
    Crosses(c, a, recs, r);
    var unit, next := LastUnit(c, recs), UnitOf(c, r.out.ts);
    var ensured := EnsureUnit(a.(last := r.id), next, a.last);
    var col := if r.out.Fill? then Collect(c, ensured, r) else ensured;
    SealsCrossing(c, col, recs, r, unit, next, sampled);
  }

  lemma LastIs(c: Config, a: Archive, recs: seq<Rec>)
    requires Allowed(c) && Holds(c, a, recs)
    ensures recs != [] && a.last == recs[|recs| - 1].id && Sized(a, c.widths)
  {
  }

  lemma SealsCrossing(c: Config, a: Archive, recs: seq<Rec>, r: Rec, unit: int, next: int, sampled: bool)
    requires Allowed(c) && Crossing(c, a, recs, r, unit, next) && next == UnitOf(c, r.out.ts)
    ensures var after := SealBefore(c, a, next, sampled);
      && Holds(c, after, recs + [r]) && after.open[next].resumeAfter == a.open[next].resumeAfter
      && exists x: Unit :: SealedRight(c, x, recs, unit)
           && after.ready == if HoldsRows(x) || sampled then a.ready + [x] else a.ready
  {
    hide UnitOf, FileBars, EndedOf, SealedRight, HoldsRows, SealAll, Remaining, EarlierThan, TradesOf, CrossingOld,
      CrossingNew;
    Closes(c, a, recs, r, unit, next);
    var f := FileBars(c, Filed(a.open, a.late), EndedOf(a.symbols, a.builders, next));
    var builders := map s | s in a.builders :: Remaining(a.builders[s], next);
    var b := a.(open := f.open, late := f.late, builders := builders);
    assert unit in a.open && unit < next;
    SealsOne(b, unit, next, sampled);
    var after := SealOne(b, unit, sampled);
    assert SealBefore(c, a, next, sampled) == after;
    HoldsNext(c, a, after, recs, r, unit, next);
    assert SealedRight(c, f.open[unit], recs, unit);
  }

  lemma HoldsNext(c: Config, a: Archive, after: Archive, recs: seq<Rec>, r: Rec, unit: int, next: int)
    requires Allowed(c) && Crossing(c, a, recs, r, unit, next) && next == UnitOf(c, r.out.ts)
    requires after.open == map[next := a.open[next]] && after.late == 0 && after.last == a.last
      && after.symbols == a.symbols
    requires after.sealedThrough == Some(unit) &&
      after.builders == map s | s in a.builders :: Remaining(a.builders[s], next)
    ensures Holds(c, after, recs + [r])
  {
    hide UnitOf, TradesOf, SetFold, CrossingOld, RowsOf;
    var all := recs + [r];
    assert all[|recs|] == r;
    assert after.open.Keys == {next};
    FoldOfNone(c, 0);
    forall s ensures HoldsSymbol(c, after.open[next], after.builders, all, next, s) {
      assert CrossingNew(c, a.open[next], a.builders, all, next, s);
    }
  }

  lemma HoldsNothing(c: Config, unit: int, resumeAfter: nat, s: int)
    requires Allowed(c)
    ensures HoldsSymbol(c, Unit(unit, resumeAfter, map[], map[]), map[], [], unit, s)
  {
    FoldOfNone(c, s);
    NoRows(s);
  }

  /** The first record of all. */
  lemma Begins(c: Config, r: Rec, sampled: bool)
    requires Allowed(c)
    ensures var after := ApplyRec(c, Empty(), r, sampled);
      Holds(c, after, [r]) && after.ready == [] && after.open[UnitOf(c, r.out.ts)].resumeAfter == 0
  {
    hide UnitOf, Collect, AddToSet, BarIn, HoldsSymbol, SealAll, FileBars, EndedOf, Remaining;
    var u := UnitOf(c, r.out.ts);
    var ensured := EnsureUnit(Empty().(last := r.id), u, 0);
    assert ensured.open == map[u := Unit(u, 0, map[], map[])];
    forall s ensures HoldsSymbol(c, ensured.open[u], ensured.builders, [], u, s) { HoldsNothing(c, u, 0, s); }
    assert [] + [r] == [r];
    if r.out.Fill? {
      CollectHere(c, ensured, [], r, u);
    } else {
      forall s ensures HoldsSymbol(c, ensured.open[u], ensured.builders, [r], u, s) {
        HoldsQuiet(c, ensured.open[u], ensured.builders, [], r, u, s);
      }
    }
    var collected := if r.out.Fill? then Collect(c, ensured, r) else ensured;
    assert !exists v :: v in collected.open && v < u;
  }

  lemma HoldsQuiet(c: Config, open: Unit, builders: Builders, recs: seq<Rec>, r: Rec, unit: int, s: int)
    requires Allowed(c) && HoldsSymbol(c, open, builders, recs, unit, s) && !r.out.Fill?
    ensures HoldsSymbol(c, open, builders, recs + [r], unit, s)
  {
    TradesAppend(c, recs, r, unit, s);
  }

  // ---- whatever the state ------------------------------------------------------------------------

  lemma {:induction false} FilingOpensNothing(c: Config, f: Filed, bars: seq<Bar>)
    requires Allowed(c)
    ensures var after := FileBars(c, f, bars); after.open.Keys == f.open.Keys && after.late >= f.late
    decreases |bars|
  {
    hide UnitOf;
    if bars != [] { FilingOpensNothing(c, f, bars[..|bars| - 1]); }
  }

  lemma {:induction false} SealingOpensNothing(a: Archive, starts: set<int>, sampled: bool)
    ensures var after := SealAll(a, starts, sampled);
      after.open.Keys <= a.open.Keys && after.late == a.late && a.ready <= after.ready
    decreases |starts|
  {
    if starts != {} {
      LeastStart(starts);
      var u :| u in starts && forall v :: v in starts ==> u <= v;
      SealingOpensNothing(SealOne(a, u, sampled), starts - {u}, sampled);
    }
  }

  lemma SealingBefore(c: Config, a: Archive, cutoff: int, sampled: bool)
    requires Allowed(c)
    ensures var after := SealBefore(c, a, cutoff, sampled);
      after.open.Keys <= a.open.Keys && after.late >= a.late && a.ready <= after.ready
  {
    hide UnitOf, SealAll, EndedOf;
    var filed := FileBars(c, Filed(a.open, a.late), EndedOf(a.symbols, a.builders, cutoff));
    FilingOpensNothing(c, Filed(a.open, a.late), EndedOf(a.symbols, a.builders, cutoff));
    var builders := map s | s in a.builders :: Remaining(a.builders[s], cutoff);
    SealingOpensNothing(a.(open := filed.open, late := filed.late, builders := builders),
      EarlierThan(filed.open, cutoff), sampled);
  }

  /** Whatever the state, a record of a unit that has been sealed does not open it again: a trade is counted late,
      and what was ready to be written stays as it was. */
  lemma SealedStaysSealed(c: Config, a: Archive, r: Rec, sampled: bool)
    requires Allowed(c) && Sized(a, c.widths) && a.sealedThrough.Some?
    requires UnitOf(c, r.out.ts) <= a.sealedThrough.value && UnitOf(c, r.out.ts) !in a.open
    ensures var after := ApplyRec(c, a, r, sampled);
      && UnitOf(c, r.out.ts) !in after.open && after.open.Keys <= a.open.Keys && a.ready <= after.ready
      && (r.out.Fill? ==> after.late > a.late)
  {
    hide UnitOf, SealBefore, AddToSet;
    var u := UnitOf(c, r.out.ts);
    var ensured := EnsureUnit(a.(last := r.id), u, a.last);
    var collected := if r.out.Fill? then Collect(c, ensured, r) else ensured;
    if r.out.Fill? {
      var s := r.out.symbol;
      var built := AddToSet(s, c.widths, CurrentsOf(a.builders, s, c.widths), TickOf(r.out));
      var filed := FileTrade(c, Filed(a.open, a.late), s, TradeOf(r));
      FilingOpensNothing(c, filed, built.closed);
    }
    SealingBefore(c, collected, u, sampled);
  }

  /** The resume point is the one taken before the oldest open unit; with none open, the least taken before a unit
      that waits to be written; and otherwise the last record. */
  lemma CheckpointIsLeast(a: Archive)
    ensures a.open != map[] ==>
      exists u :: u in a.open && Checkpoint(a) == a.open[u].resumeAfter && forall v :: v in a.open ==> u <= v
    ensures a.open == map[] && a.ready != [] ==>
      && (exists x :: x in a.ready && Checkpoint(a) == x.resumeAfter)
      && forall x :: x in a.ready ==> Checkpoint(a) <= x.resumeAfter
    ensures a.open == map[] && a.ready == [] ==> Checkpoint(a) == a.last
  {
    if a.open != map[] { LeastStart(a.open.Keys); }
    else if a.ready != [] { LeastIs(a.ready); }
  }

  lemma {:induction false} LeastIs(units: seq<Unit>)
    requires units != []
    ensures exists x :: x in units && LeastResume(units) == x.resumeAfter
    ensures forall x :: x in units ==> LeastResume(units) <= x.resumeAfter
  {
    var first := units[0];
    assert first in units;
    if |units| > 1 {
      LeastIs(units[1..]);
      var x :| x in units[1..] && LeastResume(units[1..]) == x.resumeAfter;
      assert x in units;
      assert forall y :: y in units <==> y == first || y in units[1..];
    }
  }
}
