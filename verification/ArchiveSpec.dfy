/** What belongs in each archive file, and what one record does to a state that holds it. */
module ArchiveSpec {
  import opened Contracts
  import opened Bars
  import opened ArchiveModel

  // ---- geometry ----------------------------------------------------------------------------------

  lemma Multiples(x: int, d: nat, m: int)
    requires d > 0
    ensures m * d <= x ==> m <= x / d
    ensures x < m * d ==> x / d + 1 <= m
  {
    var q := x / d;
    assert q * d <= x < q * d + d;
    if m * d <= x && q + 1 <= m { Scaled(q + 1, m, d); }
    if x < m * d && m <= q { Scaled(m, q, d); }
  }

  /** A bucket lies inside the flush unit of its trades, because its width divides the unit. */
  lemma BucketInUnit(w: nat, f: nat, ts: int)
    requires w > 0 && f > 0 && f % w == 0
    ensures BucketStart(f, BucketStart(w, ts)) == BucketStart(f, ts) <= BucketStart(w, ts)
    ensures BucketStart(w, ts) + w * NS_PER_SECOND <= BucketStart(f, ts) + f * NS_PER_SECOND
  {
    var W, F, k := w * NS_PER_SECOND, f * NS_PER_SECOND, f / w;
    assert F == k * W by { assert f == k * w; }
    var a, q := BucketStart(w, ts), ts / F;
    assert BucketStart(f, ts) == q * F == (q * k) * W by { Regroup(q, k, W); }
    Multiples(ts, W, q * k);
    Scaled(q * k, ts / W, W);
    assert (q + 1) * F == ((q + 1) * k) * W by { Regroup(q + 1, k, W); }
    assert ts < (q + 1) * F by { assert (q + 1) * F == q * F + F; }
    Multiples(ts, W, (q + 1) * k);
    Scaled(ts / W + 1, (q + 1) * k, W);
    assert (ts / W + 1) * W == a + W;
    SameQuotient(a, F, q);
  }

  lemma Regroup(a: int, b: int, c: int)
    ensures a * (b * c) == (a * b) * c
  {
  }

  lemma SameQuotient(x: int, d: nat, q: int)
    requires d > 0 && q * d <= x < q * d + d
    ensures x / d == q
  {
    Multiples(x, d, q);
    Multiples(x, d, q + 1);
    assert (q + 1) * d == q * d + d;
  }

  /** A bucket starts at a multiple of its width. */
  lemma BucketIsAligned(width: nat, ts: int)
    requires width > 0
    ensures BucketStart(width, ts) % (width * NS_PER_SECOND) == 0
  {
    var d := width * NS_PER_SECOND;
    var q := ts / d;
    SameQuotient(q * d, d, q);
    assert q * d == (q * d) / d * d + (q * d) % d;
  }

  // ---- the files ---------------------------------------------------------------------------------

  /** One symbol's trades in one unit, in stream order. */
  function TradesOf(c: Config, recs: seq<Rec>, unit: int, symbol: int): seq<Trade>
    requires Allowed(c)
  {
    if recs == [] then []
    else
      var init, last := TradesOf(c, recs[..|recs| - 1], unit, symbol), recs[|recs| - 1];
      if last.out.Fill? && last.out.symbol == symbol && UnitOf(c, last.out.ts) == unit then init + [TradeOf(last)]
      else init
  }

  function TickFrom(t: Trade): Tick {
    Tick(t.price, t.qty, t.ts)
  }

  function Ticks(trades: seq<Trade>): seq<Tick> {
    seq(|trades|, i requires 0 <= i < |trades| => TickFrom(trades[i]))
  }

  /** Every width's builder over the trades of one unit. */
  function SetFold(symbol: int, widths: seq<nat>, trades: seq<Trade>): (b: SetBuilt)
    requires AllPositive(widths)
    ensures |b.currents| == |widths|
  {
    if trades == [] then SetBuilt(NoBarsYet(widths), [])
    else
      var before := SetFold(symbol, widths, trades[..|trades| - 1]);
      var last := AddToSet(symbol, widths, before.currents, TickFrom(trades[|trades| - 1]));
      SetBuilt(last.currents, before.closed + last.closed)
  }

  function AllListed(currents: seq<Option<Bar>>): seq<Bar> {
    if currents == [] then [] else Listed(currents[0]) + AllListed(currents[1..])
  }

  /** The bars file of a unit: those its own trades closed, then those still open when it ended. */
  function BarsFile(symbol: int, widths: seq<nat>, trades: seq<Trade>): seq<Bar>
    requires AllPositive(widths)
  {
    SetFold(symbol, widths, trades).closed + AllListed(SetFold(symbol, widths, trades).currents)
  }

  // ---- bars stay in their unit -------------------------------------------------------------------

  /** The bar belongs to this symbol, opened in this unit and ends with it. */
  ghost predicate BarIn(c: Config, b: Bar, symbol: int, unit: int)
    requires Allowed(c)
  {
    && b.symbol == symbol && UnitOf(c, b.start) == unit <= b.start
    && b.start + b.width * NS_PER_SECOND <= unit + c.flushSeconds * NS_PER_SECOND
  }

  ghost predicate AllIn(c: Config, bars: seq<Bar>, symbol: int, unit: int)
    requires Allowed(c)
  {
    forall i :: 0 <= i < |bars| ==> BarIn(c, bars[i], symbol, unit)
  }

  ghost predicate OpenIn(c: Config, current: Option<Bar>, symbol: int, unit: int)
    requires Allowed(c)
  {
    current.Some? ==> BarIn(c, current.value, symbol, unit)
  }

  ghost predicate CurrentsIn(c: Config, currents: seq<Option<Bar>>, symbol: int, unit: int)
    requires Allowed(c)
  {
    forall i :: 0 <= i < |currents| ==> OpenIn(c, currents[i], symbol, unit)
  }

  ghost predicate WidthsDivide(c: Config, widths: seq<nat>) {
    AllPositive(widths) && forall i :: 0 <= i < |widths| ==> c.flushSeconds % widths[i] == 0
  }

  lemma NewBarIn(c: Config, symbol: int, width: nat, t: Tick)
    requires Allowed(c) && width > 0 && c.flushSeconds % width == 0
    ensures BarIn(c, NewBar(symbol, width, t), symbol, UnitOf(c, t.ts))
    ensures UnitOf(c, t.ts) <= BucketStart(width, t.ts)
  {
    BucketInUnit(width, c.flushSeconds, t.ts);
  }

  /** Within its unit, a trade extends the open bar or closes it and opens another there. */
  lemma TickStaysIn(c: Config, symbol: int, width: nat, current: Option<Bar>, t: Tick)
    requires Allowed(c) && width > 0 && c.flushSeconds % width == 0 && OpenIn(c, current, symbol, UnitOf(c, t.ts))
    ensures var b := AddTick(symbol, width, current, t);
      OpenIn(c, b.current, symbol, UnitOf(c, t.ts)) && AllIn(c, b.closed, symbol, UnitOf(c, t.ts))
  {
    hide BucketStart, UnitOf;
    NewBarIn(c, symbol, width, t);
  }

  /** A trade of a later unit closes the open bar, as no bucket spans two units. */
  lemma TickMovesOn(c: Config, symbol: int, width: nat, current: Option<Bar>, t: Tick, unit: int)
    requires Allowed(c) && width > 0 && c.flushSeconds % width == 0 && OpenIn(c, current, symbol, unit)
    requires unit + c.flushSeconds * NS_PER_SECOND <= UnitOf(c, t.ts)
    requires current.Some? ==> current.value.width > 0
    ensures AddTick(symbol, width, current, t) == Built(Some(NewBar(symbol, width, t)), Listed(current))
  {
    hide BucketStart, UnitOf;
    NewBarIn(c, symbol, width, t);
  }

  ghost predicate WidthsPositive(currents: seq<Option<Bar>>) {
    forall i :: 0 <= i < |currents| && currents[i].Some? ==> currents[i].value.width > 0
  }

  lemma {:induction false} SetStaysIn(c: Config, symbol: int, widths: seq<nat>, currents: seq<Option<Bar>>, t: Tick)
    requires Allowed(c) && WidthsDivide(c, widths) && |currents| == |widths|
    requires CurrentsIn(c, currents, symbol, UnitOf(c, t.ts)) && WidthsPositive(currents)
    ensures var b := AddToSet(symbol, widths, currents, t);
      CurrentsIn(c, b.currents, symbol, UnitOf(c, t.ts)) && AllIn(c, b.closed, symbol, UnitOf(c, t.ts))
        && WidthsPositive(b.currents)
  {
    if widths != [] {
      hide BucketStart, UnitOf, BarIn, OpenIn;
      assert OpenIn(c, currents[0], symbol, UnitOf(c, t.ts));
      TickStaysIn(c, symbol, widths[0], currents[0], t);
      SetStaysIn(c, symbol, widths[1..], currents[1..], t);
    }
  }

  lemma {:induction false} SetMovesOn(c: Config, symbol: int, widths: seq<nat>, currents: seq<Option<Bar>>, t: Tick,
                                         unit: int)
    requires Allowed(c) && WidthsDivide(c, widths) && |currents| == |widths|
    requires CurrentsIn(c, currents, symbol, unit) && WidthsPositive(currents)
    requires unit + c.flushSeconds * NS_PER_SECOND <= UnitOf(c, t.ts)
    ensures AddToSet(symbol, widths, currents, t)
            == SetBuilt(AddToSet(symbol, widths, NoBarsYet(widths), t).currents, AllListed(currents))
    ensures AddToSet(symbol, widths, NoBarsYet(widths), t).closed == []
  {
    if widths != [] {
      hide BucketStart, UnitOf, BarIn;
      assert OpenIn(c, currents[0], symbol, unit);
      TickMovesOn(c, symbol, widths[0], currents[0], t, unit);
      SetMovesOn(c, symbol, widths[1..], currents[1..], t, unit);
      assert NoBarsYet(widths)[1..] == NoBarsYet(widths[1..]);
    }
  }

  ghost predicate TradesIn(c: Config, trades: seq<Trade>, unit: int)
    requires Allowed(c)
  {
    forall i :: 0 <= i < |trades| ==> UnitOf(c, trades[i].ts) == unit
  }

  lemma {:induction false} FoldStaysIn(c: Config, symbol: int, trades: seq<Trade>, unit: int)
    requires Allowed(c) && AllPositive(c.widths) && TradesIn(c, trades, unit)
    ensures var b := SetFold(symbol, c.widths, trades);
      CurrentsIn(c, b.currents, symbol, unit) && AllIn(c, b.closed, symbol, unit) && WidthsPositive(b.currents)
    decreases |trades|
  {
    hide BucketStart, UnitOf, BarIn;
    if trades != [] {
      FoldStaysIn(c, symbol, trades[..|trades| - 1], unit);
      var before := SetFold(symbol, c.widths, trades[..|trades| - 1]);
      SetStaysIn(c, symbol, c.widths, before.currents, TickFrom(trades[|trades| - 1]));
    }
  }

  lemma {:induction false} AllListedIn(c: Config, currents: seq<Option<Bar>>, symbol: int, unit: int)
    requires Allowed(c) && CurrentsIn(c, currents, symbol, unit)
    ensures AllIn(c, AllListed(currents), symbol, unit)
  {
    if currents != [] {
      assert OpenIn(c, currents[0], symbol, unit);
      AllListedIn(c, currents[1..], symbol, unit);
    }
  }

  /** At the end of their unit all open bars have ended; a later unit's have not. */
  lemma {:induction false} EndedIn(c: Config, currents: seq<Option<Bar>>, symbol: int, unit: int, cutoff: int)
    requires Allowed(c) && CurrentsIn(c, currents, symbol, unit) && WidthsPositive(currents)
    ensures unit + c.flushSeconds * NS_PER_SECOND <= cutoff ==>
      Ended(currents, cutoff) == AllListed(currents) && Remaining(currents, cutoff) == seq(|currents|, i => None)
    ensures cutoff <= unit ==> Ended(currents, cutoff) == [] && Remaining(currents, cutoff) == currents
  {
    if currents != [] {
      assert OpenIn(c, currents[0], symbol, unit);
      EndedIn(c, currents[1..], symbol, unit, cutoff);
      assert Remaining(currents, cutoff)[1..] == Remaining(currents[1..], cutoff);
      assert forall i :: 0 < i < |currents| ==>
        Remaining(currents, cutoff)[i] == Remaining(currents[1..], cutoff)[i - 1];
    }
  }

  // ---- filing ------------------------------------------------------------------------------------

  /** The bars of one symbol, in order. */
  function OfOne(bars: seq<Bar>, symbol: int): seq<Bar> {
    if bars == [] then []
    else
      var init, last := OfOne(bars[..|bars| - 1], symbol), bars[|bars| - 1];
      if last.symbol == symbol then init + [last] else init
  }

  /** All go into their one unit, each symbol's in order; nothing is late. */
  lemma {:induction false} FileAll(c: Config, f: Filed, bars: seq<Bar>, unit: int)
    requires Allowed(c) && unit in f.open && forall i :: 0 <= i < |bars| ==> UnitOf(c, bars[i].start) == unit
    ensures var after := FileBars(c, f, bars);
      && after.late == f.late && after.open.Keys == f.open.Keys
      && (forall u :: u in f.open && u != unit ==> after.open[u] == f.open[u])
      && after.open[unit] == f.open[unit].(bars := after.open[unit].bars)
      && (forall s :: RowsOf(after.open[unit].bars, s) == RowsOf(f.open[unit].bars, s) + OfOne(bars, s))
    decreases |bars|
  {
    hide UnitOf;
    if bars != [] {
      FileAll(c, f, bars[..|bars| - 1], unit);
    }
  }

  lemma {:induction false} OfOneWhole(c: Config, bars: seq<Bar>, symbol: int, unit: int, other: int)
    requires Allowed(c) && AllIn(c, bars, symbol, unit)
    ensures OfOne(bars, other) == if other == symbol then bars else []
    decreases |bars|
  {
    if bars != [] {
      assert BarIn(c, bars[|bars| - 1], symbol, unit);
      OfOneWhole(c, bars[..|bars| - 1], symbol, unit, other);
      assert bars == bars[..|bars| - 1] + [bars[|bars| - 1]];
    }
  }

  lemma {:induction false} OfOneAppend(a: seq<Bar>, b: seq<Bar>, symbol: int)
    ensures OfOne(a + b, symbol) == OfOne(a, symbol) + OfOne(b, symbol)
    decreases |b|
  {
    if b == [] {
      assert a + b == a;
    } else {
      OfOneAppend(a, b[..|b| - 1], symbol);
      assert (a + b)[..|a + b| - 1] == a + b[..|b| - 1];
    }
  }

  // ---- each width's bars are that width's candles --------------------------------------------------

  function OfWidth(bars: seq<Bar>, width: nat): seq<Bar> {
    if bars == [] then []
    else
      var init, last := OfWidth(bars[..|bars| - 1], width), bars[|bars| - 1];
      if last.width == width then init + [last] else init
  }

  lemma {:induction false} OfWidthAppend(a: seq<Bar>, b: seq<Bar>, width: nat)
    ensures OfWidth(a + b, width) == OfWidth(a, width) + OfWidth(b, width)
    decreases |b|
  {
    if b == [] {
      assert a + b == a;
    } else {
      OfWidthAppend(a, b[..|b| - 1], width);
      assert (a + b)[..|a + b| - 1] == a + b[..|b| - 1];
    }
  }

  ghost predicate Matching(currents: seq<Option<Bar>>, widths: seq<nat>) {
    && |currents| == |widths|
    && forall i :: 0 <= i < |currents| && currents[i].Some? ==> currents[i].value.width == widths[i]
  }

  ghost predicate NoRepeats(widths: seq<nat>) {
    forall i, j :: 0 <= i < j < |widths| ==> widths[i] != widths[j]
  }

  lemma OfWidthListed(b: Option<Bar>, width: nat)
    ensures OfWidth(Listed(b), width) == if b.Some? && b.value.width == width then Listed(b) else []
  {
    if b.Some? { assert Listed(b)[..0] == []; }
  }

  /** No bar of a width that is not among the builders. */
  lemma {:induction false} NoStrangers(symbol: int, widths: seq<nat>, currents: seq<Option<Bar>>, t: Tick, width: nat)
    requires AllPositive(widths) && Matching(currents, widths) && width !in widths
    ensures OfWidth(AddToSet(symbol, widths, currents, t).closed, width) == []
    ensures OfWidth(AllListed(currents), width) == []
  {
    if widths != [] {
      assert width !in widths[1..] && widths[0] in widths;
      NoStrangers(symbol, widths[1..], currents[1..], t, width);
      var first := AddTick(symbol, widths[0], currents[0], t);
      OfWidthAppend(first.closed, AddToSet(symbol, widths[1..], currents[1..], t).closed, width);
      OfWidthAppend(Listed(currents[0]), AllListed(currents[1..]), width);
      OfWidthListed(currents[0], width);
    }
  }

  lemma {:induction false} SetMatches(symbol: int, widths: seq<nat>, currents: seq<Option<Bar>>, t: Tick)
    requires AllPositive(widths) && Matching(currents, widths)
    ensures Matching(AddToSet(symbol, widths, currents, t).currents, widths)
  {
    if widths != [] {
      hide BucketStart;
      SetMatches(symbol, widths[1..], currents[1..], t);
    }
  }

  lemma {:induction false} ListedByWidth(widths: seq<nat>, currents: seq<Option<Bar>>, i: nat)
    requires Matching(currents, widths) && NoRepeats(widths) && i < |widths| && AllPositive(widths)
    ensures OfWidth(AllListed(currents), widths[i]) == Listed(currents[i])
  {
    OfWidthAppend(Listed(currents[0]), AllListed(currents[1..]), widths[i]);
    OfWidthListed(currents[0], widths[i]);
    if i > 0 {
      ListedByWidth(widths[1..], currents[1..], i - 1);
    } else {
      NoStrangers(0, widths[1..], currents[1..], Tick(0, 0, 0), widths[0]);
    }
  }

  lemma {:induction false} SetByWidth(symbol: int, widths: seq<nat>, currents: seq<Option<Bar>>, t: Tick, i: nat)
    requires AllPositive(widths) && Matching(currents, widths) && NoRepeats(widths) && i < |widths|
    ensures var b := AddToSet(symbol, widths, currents, t);
      Built(b.currents[i], OfWidth(b.closed, widths[i])) == AddTick(symbol, widths[i], currents[i], t)
  {
    hide BucketStart, AddTick;
    var first, rest := AddTick(symbol, widths[0], currents[0], t), AddToSet(symbol, widths[1..], currents[1..], t);
    OfWidthAppend(first.closed, rest.closed, widths[i]);
    ClosedWidth(symbol, widths[0], currents[0], t, widths[i]);
    if i > 0 {
      SetByWidth(symbol, widths[1..], currents[1..], t, i - 1);
    } else {
      NoStrangers(symbol, widths[1..], currents[1..], t, widths[0]);
    }
  }

  lemma ClosedWidth(symbol: int, width: nat, current: Option<Bar>, t: Tick, other: nat)
    requires width > 0 && (current.Some? ==> current.value.width == width)
    ensures var b := AddTick(symbol, width, current, t);
      OfWidth(b.closed, other) == if other == width then b.closed else []
  {
    OfWidthListed(current, other);
  }

  lemma {:induction false} FoldByWidth(symbol: int, widths: seq<nat>, trades: seq<Trade>, i: nat)
    requires AllPositive(widths) && NoRepeats(widths) && i < |widths|
    ensures var b := SetFold(symbol, widths, trades);
      && Matching(b.currents, widths)
      && Built(b.currents[i], OfWidth(b.closed, widths[i])) == Build(symbol, widths[i], Ticks(trades))
    decreases |trades|
  {
    hide BucketStart, AddTick;
    if trades != [] {
      var n := |trades| - 1;
      FoldByWidth(symbol, widths, trades[..n], i);
      var before := SetFold(symbol, widths, trades[..n]);
      var t := TickFrom(trades[n]);
      SetByWidth(symbol, widths, before.currents, t, i);
      SetMatches(symbol, widths, before.currents, t);
      OfWidthAppend(before.closed, AddToSet(symbol, widths, before.currents, t).closed, widths[i]);
      assert Ticks(trades)[..n] == Ticks(trades[..n]);
    }
  }

  /** A unit's bars file holds, for every width, exactly the candles of the same unit's trades file. */
  lemma BarsFileReconciles(c: Config, symbol: int, trades: seq<Trade>, i: nat)
    requires Allowed(c) && AllPositive(c.widths) && i < |c.widths| && NonDecreasing(Ticks(trades))
    ensures Reconciles(OfWidth(BarsFile(symbol, c.widths, trades), c.widths[i]), symbol, c.widths[i], Ticks(trades))
  {
    hide Reconciles, BucketStart;
    var w, b := c.widths[i], SetFold(symbol, c.widths, trades);
    FoldByWidth(symbol, c.widths, trades, i);
    OfWidthAppend(b.closed, AllListed(b.currents), w);
    ListedByWidth(c.widths, b.currents, i);
    BarsReconcile(symbol, w, Ticks(trades));
  }
}
