/** The fills of a stream as they are published: every archived row, every print on the tape and every bar of the
    fan-out, told from the fills alone. */
module Prints {
  import opened Contracts
  import opened Bars
  import opened ArchiveModel
  import opened ArchiveSpec
  import opened ArchiveSteps
  import opened ArchiveRuns
  import opened ArchiveHistory
  import MarketBooks
  import opened MarketService

  // ---- fills -------------------------------------------------------------------------------------

  /** One symbol's fills, in stream order. */
  function FillsOf(recs: seq<Rec>, symbol: int): (fills: seq<Rec>)
    ensures forall i :: 0 <= i < |fills| ==> fills[i].out.Fill? && fills[i].out.symbol == symbol && fills[i] in recs
  {
    if recs == [] then []
    else
      var init, last := FillsOf(recs[..|recs| - 1], symbol), recs[|recs| - 1];
      assert last in recs && forall r :: r in recs[..|recs| - 1] ==> r in recs;
      if last.out.Fill? && last.out.symbol == symbol then init + [last] else init
  }

  /** Those with a timestamp from `lo` up to but not including `hi`. */
  function Between(recs: seq<Rec>, lo: int, hi: int): (some: seq<Rec>)
    ensures forall i :: 0 <= i < |some| ==> some[i] in recs && lo <= some[i].out.ts < hi
  {
    if recs == [] then []
    else
      var init, last := Between(recs[..|recs| - 1], lo, hi), recs[|recs| - 1];
      assert last in recs && forall r :: r in recs[..|recs| - 1] ==> r in recs;
      if lo <= last.out.ts < hi then init + [last] else init
  }

  /** A print names the price, quantity, aggressor, time and stream position of its fill. */
  predicate PrintOf(t: Trade, r: Rec) {
    && r.out.Fill? && t.price == r.out.price && t.qty == r.out.qty && t.aggressor == r.out.aggressor
    && t.ts == r.out.ts && t.id == r.id
  }

  /** One print for each of these fills, in their order. */
  predicate PrintsOf(rows: seq<Trade>, fills: seq<Rec>) {
    |rows| == |fills| && forall i :: 0 <= i < |rows| ==> PrintOf(rows[i], fills[i])
  }

  predicate TickIs(t: Tick, r: Rec) {
    r.out.Fill? && t.price == r.out.price && t.qty == r.out.qty && t.ts == r.out.ts
  }

  /** The same fills as prices, quantities and times only. */
  predicate TicksOf(ticks: seq<Tick>, fills: seq<Rec>) {
    |ticks| == |fills| && forall i :: 0 <= i < |ticks| ==> TickIs(ticks[i], fills[i])
  }

  lemma TicksAreUnique(a: seq<Tick>, b: seq<Tick>, fills: seq<Rec>)
    requires TicksOf(a, fills) && TicksOf(b, fills)
    ensures a == b
  {
    assert forall i :: 0 <= i < |a| ==> TickIs(a[i], fills[i]) && TickIs(b[i], fills[i]);
  }

  // ---- the archive -------------------------------------------------------------------------------

  function UnitNs(c: Config): nat {
    c.flushSeconds * NS_PER_SECOND
  }

  /** One symbol's fills during the flush unit that starts at `unit`. */
  function UnitFills(c: Config, recs: seq<Rec>, symbol: int, unit: int): seq<Rec>
    requires Allowed(c)
  {
    if unit % UnitNs(c) == 0 then Between(FillsOf(recs, symbol), unit, unit + UnitNs(c)) else []
  }

  lemma InUnit(c: Config, ts: int, unit: int)
    requires Allowed(c)
    ensures UnitOf(c, ts) == unit <==> unit % UnitNs(c) == 0 && unit <= ts < unit + UnitNs(c)
  {
    BucketIsAligned(c.flushSeconds, ts);
    if unit % UnitNs(c) == 0 && unit <= ts < unit + UnitNs(c) {
      var q := unit / UnitNs(c);
      assert unit == q * UnitNs(c);
      SameQuotient(ts, UnitNs(c), q);
    }
  }

  lemma PrintsGrow(rows: seq<Trade>, fills: seq<Rec>, t: Trade, r: Rec)
    requires PrintsOf(rows, fills) && PrintOf(t, r)
    ensures PrintsOf(rows + [t], fills + [r])
  {
  }

  lemma BetweenGrows(recs: seq<Rec>, r: Rec, lo: int, hi: int)
    ensures Between(recs + [r], lo, hi) == Between(recs, lo, hi) + if lo <= r.out.ts < hi then [r] else []
  {
    assert (recs + [r])[..|recs|] == recs;
  }

  lemma {:induction false} RowsArePrints(c: Config, recs: seq<Rec>, unit: int, symbol: int)
    requires Allowed(c)
    ensures PrintsOf(TradesOf(c, recs, unit, symbol), UnitFills(c, recs, symbol, unit))
    decreases |recs|
  {
    if recs != [] {
      var n, last := |recs| - 1, recs[|recs| - 1];
      RowsArePrints(c, recs[..n], unit, symbol);
      InUnit(c, last.out.ts, unit);
      BetweenGrows(FillsOf(recs[..n], symbol), last, unit, unit + UnitNs(c));
      hide UnitOf, PrintsOf, Between;
      if last.out.Fill? && last.out.symbol == symbol && UnitOf(c, last.out.ts) == unit {
        PrintsGrow(TradesOf(c, recs[..n], unit, symbol), UnitFills(c, recs[..n], symbol, unit), TradeOf(last), last);
      }
    }
  }

  /** Whatever crashed on the way, in an idle archive a finished unit has a trades file for a symbol exactly when
      the symbol traded in it, and its rows are the prints of those fills: as many, in order, field by field. */
  lemma ArchivedTradesArePrints(c: Config, events: seq<Event>, s: System, symbol: int, unit: int)
    requires Reaches(c, events, s) && Idle(s) && NoWriteFails(events)
    ensures Allowed(c)
    ensures var fills := UnitFills(c, s.recs, symbol, unit); var p := TradesPath(symbol, unit);
      && (p in s.disk <==> unit < LastUnit(c, s.recs) && fills != [])
      && (p in s.disk ==> s.disk[p].TradeRows? && PrintsOf(s.disk[p].trades, fills))
  {
    hide Idle, UnitFills, TradesOf, StateAfter;
    CrashesLeaveNoTrace(c, events, s, TradesPath(symbol, unit));
    RowsArePrints(c, s.recs, unit, symbol);
  }

  /** In every run, crashed, failed or not, an archived bars file has for every width the candles of the unit's
      fills. */
  lemma ArchivedBarsAreCandles(c: Config, events: seq<Event>, s: System, symbol: int, unit: int, i: nat,
                               ticks: seq<Tick>)
    requires Reaches(c, events, s) && BarsPath(symbol, unit) in s.disk && i < |c.widths|
    requires Allowed(c) && TicksOf(ticks, UnitFills(c, s.recs, symbol, unit))
    ensures i < |Widths(c)| && s.disk[BarsPath(symbol, unit)].BarRows?
    ensures Reconciles(OfWidth(s.disk[BarsPath(symbol, unit)].bars, Widths(c)[i]), symbol, Widths(c)[i], ticks)
  {
    hide Reaches, UnitFills, TradesOf, Reconciles;
    ArchivedBarsReconcile(c, events, s, symbol, unit, i);
    RowsArePrints(c, s.recs, unit, symbol);
    var rows, fills := TradesOf(c, s.recs, unit, symbol), UnitFills(c, s.recs, symbol, unit);
    assert forall k :: 0 <= k < |rows| ==> PrintOf(rows[k], fills[k]) && TickIs(Ticks(rows)[k], fills[k]);
    TicksAreUnique(ticks, Ticks(rows), fills);
  }

  // ---- the fan-out -------------------------------------------------------------------------------

  const NOTHING_SEEN := Market(map[], map[], map[], [])

  /** Every fill is printed on its symbol's tape, once, in order and field by field, and nothing else is. */
  lemma {:induction false} TapeIsPrints(widths: seq<nat>, m: Market, recs: seq<Rec>, symbol: int)
    requires AllPositive(widths) && SizedBars(m.builders, widths)
    ensures var before, after := RowsOf(m.tape, symbol), RowsOf(MarketRun(widths, m, recs).tape, symbol);
      before <= after && PrintsOf(after[|before|..], FillsOf(recs, symbol))
    decreases |recs|
  {
    hide AddToSet, MarketBooks.BooksAfter, PrintsOf;
    var before := RowsOf(m.tape, symbol);
    if recs == [] {
      NoPrints(before);
    } else {
      var n, last := |recs| - 1, recs[|recs| - 1];
      TapeIsPrints(widths, m, recs[..n], symbol);
      var was := RowsOf(MarketRun(widths, m, recs[..n]).tape, symbol);
      var now := RowsOf(MarketRun(widths, m, recs).tape, symbol);
      if last.out.Fill? && last.out.symbol == symbol {
        PrintsGrow(was[|before|..], FillsOf(recs[..n], symbol), TradeOf(Rec(last.id, last.out)), last);
        assert now == was + [TradeOf(Rec(last.id, last.out))];
        assert now[|before|..] == was[|before|..] + [TradeOf(Rec(last.id, last.out))];
      }
    }
  }

  lemma NoPrints(rows: seq<Trade>)
    ensures PrintsOf(rows[|rows|..], [])
  {
  }

  /** The bars that one builder has closed: those of its symbol and width. */
  function ClosedFor(bars: seq<Bar>, symbol: int, width: nat): seq<Bar> {
    OfWidth(OfOne(bars, symbol), width)
  }

  ghost predicate Own(currents: seq<Option<Bar>>, symbol: int) {
    forall i :: 0 <= i < |currents| && currents[i].Some? ==> currents[i].value.symbol == symbol
  }

  ghost predicate AllOf(bars: seq<Bar>, symbol: int) {
    forall i :: 0 <= i < |bars| ==> bars[i].symbol == symbol
  }

  lemma {:induction false} SetIsOwn(symbol: int, widths: seq<nat>, currents: seq<Option<Bar>>, t: Tick)
    requires |currents| == |widths| && AllPositive(widths) && Own(currents, symbol)
    ensures var b := AddToSet(symbol, widths, currents, t); Own(b.currents, symbol) && AllOf(b.closed, symbol)
  {
    if widths != [] {
      hide BucketStart;
      SetIsOwn(symbol, widths[1..], currents[1..], t);
    }
  }

  lemma {:induction false} OneSymbol(bars: seq<Bar>, symbol: int, other: int)
    requires AllOf(bars, symbol)
    ensures OfOne(bars, other) == if other == symbol then bars else []
    decreases |bars|
  {
    if bars != [] {
      OneSymbol(bars[..|bars| - 1], symbol, other);
      assert bars == bars[..|bars| - 1] + [bars[|bars| - 1]];
    }
  }

  /** Every symbol's open bars are its own, one of each width. */
  ghost predicate BuildersSound(widths: seq<nat>, builders: Builders) {
    forall s :: s in builders ==> Matching(builders[s], widths) && Own(builders[s], s)
  }

  lemma NoneYet(widths: seq<nat>, builders: Builders, symbol: int)
    requires BuildersSound(widths, builders)
    ensures Matching(CurrentsOf(builders, symbol, widths), widths) && Own(CurrentsOf(builders, symbol, widths), symbol)
  {
  }

  /** One fill, as one builder sees it. */
  lemma BarsStep(widths: seq<nat>, builders: Builders, r: Outbound, symbol: int, i: nat)
    requires AllPositive(widths) && NoRepeats(widths) && i < |widths| && SizedBars(builders, widths)
    requires BuildersSound(widths, builders) && r.Fill?
    ensures BuildersSound(widths, BarsAfter(widths, builders, r))
    ensures var current := CurrentsOf(builders, symbol, widths)[i];
      Built(CurrentsOf(BarsAfter(widths, builders, r), symbol, widths)[i],
            ClosedFor(ClosedBy(widths, builders, r), symbol, widths[i]))
      == if r.symbol == symbol then AddTick(symbol, widths[i], current, TickOf(r)) else Built(current, [])
  {
    hide AddToSet, OfOne, OfWidth, AddTick, Matching, Own, AllOf;
    var currents := CurrentsOf(builders, r.symbol, widths);
    NoneYet(widths, builders, r.symbol);
    SetIsOwn(r.symbol, widths, currents, TickOf(r));
    SetMatches(r.symbol, widths, currents, TickOf(r));
    SetByWidth(r.symbol, widths, currents, TickOf(r), i);
    OneSymbol(ClosedBy(widths, builders, r), r.symbol, symbol);
    NoWidth(widths[i]);
  }

  lemma NoWidth(width: nat)
    ensures OfWidth([], width) == []
  {
  }

  /** Everything a builder of the fan-out does is `Build` of its symbol's fills. */
  lemma {:induction false} BuildersBuild(widths: seq<nat>, recs: seq<Rec>, symbol: int, i: nat, ticks: seq<Tick>)
    requires AllPositive(widths) && NoRepeats(widths) && i < |widths| && TicksOf(ticks, FillsOf(recs, symbol))
    ensures var m := MarketRun(widths, NOTHING_SEEN, recs);
      && BuildersSound(widths, m.builders)
      && Built(CurrentsOf(m.builders, symbol, widths)[i], ClosedFor(m.closed, symbol, widths[i]))
         == Build(symbol, widths[i], ticks)
    decreases |recs|
  {
    hide AddToSet, MarketBooks.BooksAfter, BuildersSound, AddTick, OfOne, OfWidth, BarsAfter, ClosedBy, CurrentsOf;
    if recs == [] {
      NothingBuilt(widths, symbol, i);
    } else {
      var n, last := |recs| - 1, recs[|recs| - 1];
      var before := MarketRun(widths, NOTHING_SEEN, recs[..n]);
      ClosedGrow(before.closed, ClosedBy(widths, before.builders, last.out), symbol, widths[i]);
      if last.out.Fill? && last.out.symbol == symbol {
        var k := |ticks| - 1;
        assert TickIs(ticks[k], last) && ticks[k] == TickOf(last.out);
        assert TicksOf(ticks[..k], FillsOf(recs[..n], symbol));
        BuildersBuild(widths, recs[..n], symbol, i, ticks[..k]);
        BarsStep(widths, before.builders, last.out, symbol, i);
      } else {
        BuildersBuild(widths, recs[..n], symbol, i, ticks);
        if last.out.Fill? { BarsStep(widths, before.builders, last.out, symbol, i); }
        else { NoBarsStep(widths, before.builders, last.out, symbol, widths[i]); }
      }
    }
  }

  lemma NothingBuilt(widths: seq<nat>, symbol: int, i: nat)
    requires i < |widths|
    ensures BuildersSound(widths, map[]) && CurrentsOf(map[], symbol, widths)[i] == None
    ensures ClosedFor([], symbol, widths[i]) == []
  {
  }

  lemma NoBarsStep(widths: seq<nat>, builders: Builders, r: Outbound, symbol: int, width: nat)
    requires AllPositive(widths) && SizedBars(builders, widths) && !r.Fill?
    ensures BarsAfter(widths, builders, r) == builders
    ensures ClosedFor(ClosedBy(widths, builders, r), symbol, width) == []
  {
  }

  lemma ClosedGrow(a: seq<Bar>, b: seq<Bar>, symbol: int, width: nat)
    ensures ClosedFor(a + b, symbol, width) == ClosedFor(a, symbol, width) + ClosedFor(b, symbol, width)
  {
    OfOneAppend(a, b, symbol);
    OfWidthAppend(OfOne(a, symbol), OfOne(b, symbol), width);
  }

  /** The bars of one symbol and width, closed ones and then the open one, are the candles of the symbol's fills. */
  lemma MarketBarsAreCandles(widths: seq<nat>, recs: seq<Rec>, symbol: int, i: nat, ticks: seq<Tick>)
    requires AllPositive(widths) && NoRepeats(widths) && i < |widths|
    requires TicksOf(ticks, FillsOf(recs, symbol)) && NonDecreasing(ticks)
    ensures var m := MarketRun(widths, NOTHING_SEEN, recs);
      Reconciles(ClosedFor(m.closed, symbol, widths[i]) + Listed(CurrentsOf(m.builders, symbol, widths)[i]),
                 symbol, widths[i], ticks)
  {
    hide MarketRun, Reconciles, BuildersSound, OfOne, OfWidth, CurrentsOf;
    BuildersBuild(widths, recs, symbol, i, ticks);
    BarsReconcile(symbol, widths[i], ticks);
  }

  /** A process that stopped and loaded its checkpoint goes on exactly where the old one ended: the old one's bars
      and prints and then its own are those of a process that never stopped, none lost and none twice. */
  lemma {:induction false} CheckpointSplitsOutput(widths: seq<nat>, m: Market, recs: seq<Rec>, symbol: int)
    requires AllPositive(widths) && SizedBars(m.builders, widths)
    ensures SizedBars(Reloaded(m).builders, widths)
    ensures var whole, resumed := MarketRun(widths, m, recs), MarketRun(widths, Reloaded(m), recs);
      && whole.closed == m.closed + resumed.closed
      && RowsOf(whole.tape, symbol) == RowsOf(m.tape, symbol) + RowsOf(resumed.tape, symbol)
    decreases |recs|
  {
    hide AddToSet, MarketBooks.BooksAfter, BarsAfter, SameMarket, ClosedBy;
    ReloadedIsSame(widths, m);
    if recs != [] {
      var n, last := |recs| - 1, recs[|recs| - 1];
      CheckpointSplitsOutput(widths, m, recs[..n], symbol);
      CheckpointLeavesNoTrace(widths, m, recs[..n]);
      SameStep(widths, MarketRun(widths, Reloaded(m), recs[..n]), MarketRun(widths, m, recs[..n]), last.out, last.id);
      hide Reloaded;
    }
  }
}
