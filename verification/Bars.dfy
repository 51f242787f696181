/** Candles: a builder that closes a bar when a trade arrives in a later bucket, and the proof that its bars
    are exactly the per-bucket aggregates of the trades. */
module Bars {
  import opened Contracts

  datatype Tick = Tick(price: int, qty: int, ts: int)

  datatype Bar = Bar(symbol: int, width: nat, start: int, open: int, high: int, low: int, close: int, volume: int)

  const NS_PER_SECOND := 1_000_000_000

  function BucketStart(width: nat, ts: int): (start: int)
    requires width > 0
    ensures start <= ts < start + width * NS_PER_SECOND
  {
    var ns := width * NS_PER_SECOND;
    ts / ns * ns
  }

  function NewBar(symbol: int, width: nat, t: Tick): Bar
    requires width > 0
  {
    Bar(symbol, width, BucketStart(width, t.ts), t.price, t.price, t.price, t.price, t.qty)
  }

  function Extended(b: Bar, t: Tick): Bar {
    b.(high := Max(b.high, t.price), low := Min(b.low, t.price), close := t.price, volume := b.volume + t.qty)
  }

  /** Fold one trade in: the open bar, and the bar the trade closed if there is one. */
  datatype Built = Built(current: Option<Bar>, closed: seq<Bar>)

  function AddTick(symbol: int, width: nat, current: Option<Bar>, t: Tick): Built
    requires width > 0
  {
    if current.Some? && BucketStart(width, t.ts) == current.value.start then Built(Some(Extended(current.value, t)), [])
    else Built(Some(NewBar(symbol, width, t)), Listed(current))
  }

  function Listed(bar: Option<Bar>): seq<Bar> {
    if bar.Some? then [bar.value] else []
  }

  /** Everything a builder has done with the trades so far. */
  function Build(symbol: int, width: nat, ticks: seq<Tick>): Built
    requires width > 0
  {
    if ticks == [] then Built(None, [])
    else
      var before := Build(symbol, width, ticks[..|ticks| - 1]);
      var last := AddTick(symbol, width, before.current, ticks[|ticks| - 1]);
      Built(last.current, before.closed + last.closed)
  }

  /** Its closed bars and, once flushed, the open one. */
  function AllBars(symbol: int, width: nat, ticks: seq<Tick>): seq<Bar>
    requires width > 0
  {
    Build(symbol, width, ticks).closed + Listed(Build(symbol, width, ticks).current)
  }

  // ---- what a bar means --------------------------------------------------------------------------

  function Highest(ticks: seq<Tick>): int
    requires ticks != []
  {
    if |ticks| == 1 then ticks[0].price else Max(Highest(ticks[..|ticks| - 1]), ticks[|ticks| - 1].price)
  }

  function Lowest(ticks: seq<Tick>): int
    requires ticks != []
  {
    if |ticks| == 1 then ticks[0].price else Min(Lowest(ticks[..|ticks| - 1]), ticks[|ticks| - 1].price)
  }

  function Volume(ticks: seq<Tick>): int {
    if ticks == [] then 0 else Volume(ticks[..|ticks| - 1]) + ticks[|ticks| - 1].qty
  }

  /** Open, high, low, close and volume of some trades. */
  function Candle(symbol: int, width: nat, start: int, ticks: seq<Tick>): Bar
    requires ticks != []
  {
    Bar(symbol, width, start, ticks[0].price, Highest(ticks), Lowest(ticks), ticks[|ticks| - 1].price, Volume(ticks))
  }

  /** The trades of one bucket, in order. */
  function InBucket(ticks: seq<Tick>, width: nat, start: int): seq<Tick>
    requires width > 0
  {
    if ticks == [] then []
    else
      var init, last := InBucket(ticks[..|ticks| - 1], width, start), ticks[|ticks| - 1];
      if BucketStart(width, last.ts) == start then init + [last] else init
  }

  ghost predicate NonDecreasing(ticks: seq<Tick>) {
    forall i, j :: 0 <= i < j < |ticks| ==> ticks[i].ts <= ticks[j].ts
  }

  ghost predicate IsCandle(b: Bar, symbol: int, width: nat, ticks: seq<Tick>)
    requires width > 0
  {
    var part := InBucket(ticks, width, b.start);
    part != [] && b == Candle(symbol, width, b.start, part)
  }

  ghost predicate Covered(bars: seq<Bar>, start: int) {
    exists i :: 0 <= i < |bars| && bars[i].start == start
  }

  /** One bar for each bucket that has trades, ascending, each the aggregate of exactly its trades. */
  ghost predicate Reconciles(bars: seq<Bar>, symbol: int, width: nat, ticks: seq<Tick>)
    requires width > 0
  {
    && (forall i, j :: 0 <= i < j < |bars| ==> bars[i].start < bars[j].start)
    && (forall i :: 0 <= i < |bars| ==> IsCandle(bars[i], symbol, width, ticks))
    && (forall i :: 0 <= i < |ticks| ==> Covered(bars, BucketStart(width, ticks[i].ts)))
  }

  // ---- the builder does that ---------------------------------------------------------------------

  lemma BucketMonotone(width: nat, a: int, b: int)
    requires width > 0 && a <= b
    ensures BucketStart(width, a) <= BucketStart(width, b)
  {
    var ns := width * NS_PER_SECOND;
    DivMonotone(a, b, ns);
    var x, y := a / ns, b / ns;
    assert x * ns <= y * ns;
  }

  lemma DivMonotone(a: int, b: int, d: nat)
    requires d > 0 && a <= b
    ensures a / d <= b / d
  {
    var x, y := a / d, b / d;
    assert x * d <= a && b < y * d + d;
    if y < x { Scaled(y + 1, x, d); }
  }

  lemma Scaled(a: int, b: int, d: nat)
    requires a <= b
    ensures a * d <= b * d
  {
  }

  lemma {:induction false} InBucketWhere(ticks: seq<Tick>, width: nat, start: int)
    requires width > 0
    ensures forall t :: t in InBucket(ticks, width, start) <==> t in ticks && BucketStart(width, t.ts) == start
    decreases |ticks|
  {
    if ticks != [] {
      InBucketWhere(ticks[..|ticks| - 1], width, start);
      assert ticks == ticks[..|ticks| - 1] + [ticks[|ticks| - 1]];
    }
  }

  lemma CandleOfOne(symbol: int, width: nat, t: Tick)
    requires width > 0
    ensures Candle(symbol, width, BucketStart(width, t.ts), [t]) == NewBar(symbol, width, t)
  {
    assert [t][..|[t]| - 1] == [] && Volume([t]) == t.qty;
  }

  lemma CandleGrows(symbol: int, width: nat, start: int, ticks: seq<Tick>, t: Tick)
    requires ticks != []
    ensures Candle(symbol, width, start, ticks + [t]) == Extended(Candle(symbol, width, start, ticks), t)
  {
    assert (ticks + [t])[..|ticks|] == ticks;
  }

  /** The invariant over a run of trades: the bars so far reconcile, and the open one is the last. */
  ghost predicate Progress(b: Built, symbol: int, width: nat, ticks: seq<Tick>)
    requires width > 0
  {
    && Reconciles(b.closed + Listed(b.current), symbol, width, ticks)
    && (b.current.Some? <==> ticks != [])
    && (ticks != [] ==> b.current.value.start == BucketStart(width, ticks[|ticks| - 1].ts))
  }

  lemma {:induction false} BuildProgress(symbol: int, width: nat, ticks: seq<Tick>)
    requires width > 0 && NonDecreasing(ticks)
    ensures Progress(Build(symbol, width, ticks), symbol, width, ticks)
    decreases |ticks|
  {
    if ticks != [] {
      hide Progress, AddTick, BucketStart;
      var n := |ticks| - 1;
      BuildProgress(symbol, width, ticks[..n]);
      ProgressStep(symbol, width, ticks[..n], Build(symbol, width, ticks[..n]), ticks[n]);
      assert ticks[..n] + [ticks[n]] == ticks;
    }
  }

  lemma ProgressStep(symbol: int, width: nat, ticks: seq<Tick>, b: Built, t: Tick)
    requires width > 0 && Progress(b, symbol, width, ticks)
    requires forall i :: 0 <= i < |ticks| ==> ticks[i].ts <= t.ts
    ensures var last := AddTick(symbol, width, b.current, t);
      Progress(Built(last.current, b.closed + last.closed), symbol, width, ticks + [t])
  {
    hide BucketStart, Candle;
    var start := BucketStart(width, t.ts);
    if b.current.Some? && start == b.current.value.start {
      SameBucket(symbol, width, ticks, b, t);
      assert b.closed + [] == b.closed;
    } else {
      if ticks != [] { BucketMonotone(width, ticks[|ticks| - 1].ts, t.ts); }
      NewBucket(symbol, width, ticks, b, t);
    }
  }

  lemma BucketAppend(ticks: seq<Tick>, t: Tick, width: nat, start: int)
    requires width > 0
    ensures InBucket(ticks + [t], width, start)
            == if BucketStart(width, t.ts) == start then InBucket(ticks, width, start) + [t]
              else InBucket(ticks, width, start)
  {
    assert (ticks + [t])[..|ticks|] == ticks;
  }

  lemma SameBucket(symbol: int, width: nat, ticks: seq<Tick>, b: Built, t: Tick)
    requires width > 0 && Progress(b, symbol, width, ticks)
    requires b.current.Some? && BucketStart(width, t.ts) == b.current.value.start
    ensures Progress(Built(Some(Extended(b.current.value, t)), b.closed), symbol, width, ticks + [t])
  {
    hide BucketStart, InBucket;
    var bars, after := b.closed + [b.current.value], b.closed + [Extended(b.current.value, t)];
    var n := |b.closed|;
    assert bars[n] == b.current.value && after[n] == Extended(bars[n], t);
    forall i | 0 <= i < |after| ensures IsCandle(after[i], symbol, width, ticks + [t]) {
      assert IsCandle(bars[i], symbol, width, ticks);
      BucketAppend(ticks, t, width, bars[i].start);
      if i == n { CandleGrows(symbol, width, bars[n].start, InBucket(ticks, width, bars[n].start), t); }
      else { assert after[i] == bars[i] && bars[i].start < bars[n].start; }
    }
    hide Candle;
    forall i | 0 <= i < |ticks + [t]| ensures Covered(after, BucketStart(width, (ticks + [t])[i].ts)) {
      if i < |ticks| {
        assert Covered(bars, BucketStart(width, ticks[i].ts));
        var m :| 0 <= m < |bars| && bars[m].start == BucketStart(width, ticks[i].ts);
        assert after[m].start == bars[m].start;
      } else {
        assert after[n].start == BucketStart(width, t.ts);
      }
    }
    assert forall i :: 0 <= i < |after| ==> after[i].start == bars[i].start;
  }

  lemma NewBucket(symbol: int, width: nat, ticks: seq<Tick>, b: Built, t: Tick)
    requires width > 0 && Progress(b, symbol, width, ticks)
    requires forall i :: 0 <= i < |ticks| ==> ticks[i].ts <= t.ts
    requires b.current.Some? ==> b.current.value.start < BucketStart(width, t.ts)
    ensures Progress(Built(Some(NewBar(symbol, width, t)), b.closed + Listed(b.current)), symbol, width, ticks + [t])
  {
    hide BucketStart, InBucket, Candle;
    var bars := b.closed + Listed(b.current);
    var next := NewBar(symbol, width, t);
    var after := bars + [next];
    EarlierBuckets(symbol, width, ticks, b);
    forall i | 0 <= i < |bars| ensures bars[i].start < next.start && IsCandle(bars[i], symbol, width, ticks + [t]) {
      assert IsCandle(bars[i], symbol, width, ticks);
      BucketAppend(ticks, t, width, bars[i].start);
    }
    NothingInBucket(ticks, width, next.start, b);
    BucketAppend(ticks, t, width, next.start);
    CandleOfOne(symbol, width, t);
    assert [] + [t] == [t];
    assert IsCandle(next, symbol, width, ticks + [t]);
    forall i | 0 <= i < |ticks + [t]| ensures Covered(after, BucketStart(width, (ticks + [t])[i].ts)) {
      if i < |ticks| {
        assert Covered(bars, BucketStart(width, ticks[i].ts));
        var m :| 0 <= m < |bars| && bars[m].start == BucketStart(width, ticks[i].ts);
        assert after[m] == bars[m];
      } else {
        assert after[|bars|] == next;
      }
    }
  }

  /** Every bar so far started no later than the open one. */
  lemma EarlierBuckets(symbol: int, width: nat, ticks: seq<Tick>, b: Built)
    requires width > 0 && Progress(b, symbol, width, ticks)
    ensures var bars := b.closed + Listed(b.current);
      forall i :: 0 <= i < |bars| ==> b.current.Some? && bars[i].start <= b.current.value.start
    ensures forall i :: 0 <= i < |ticks| ==> b.current.Some? && BucketStart(width, ticks[i].ts) <= b.current.value.start
  {
    hide BucketStart, IsCandle;
    var bars := b.closed + Listed(b.current);
    if ticks == [] {
      NoBars(bars, symbol, width);
    } else {
      assert bars[|b.closed|] == b.current.value;
      forall i | 0 <= i < |ticks| ensures BucketStart(width, ticks[i].ts) <= b.current.value.start {
        assert Covered(bars, BucketStart(width, ticks[i].ts));
      }
    }
  }

  lemma NoBars(bars: seq<Bar>, symbol: int, width: nat)
    requires width > 0 && Reconciles(bars, symbol, width, [])
    ensures bars == []
  {
    assert |bars| > 0 ==> IsCandle(bars[0], symbol, width, []);
  }

  lemma NothingInBucket(ticks: seq<Tick>, width: nat, start: int, b: Built)
    requires width > 0
    requires forall i :: 0 <= i < |ticks| ==>
      b.current.Some? && BucketStart(width, ticks[i].ts) <= b.current.value.start
    requires b.current.Some? ==> b.current.value.start < start
    ensures InBucket(ticks, width, start) == []
  {
    InBucketWhere(ticks, width, start);
    var part := InBucket(ticks, width, start);
    assert forall t :: t in part ==> t in ticks && BucketStart(width, t.ts) == start;
    SomeIn(part);
  }

  lemma SomeIn<T>(s: seq<T>)
    ensures s == [] || exists x :: x in s
  {
    if s != [] {
      var x := s[0];
      assert x in s;
    }
  }

  /** Whatever trades arrive in time order, the bars are exactly the candles of the buckets they fall in. */
  lemma BarsReconcile(symbol: int, width: nat, ticks: seq<Tick>)
    requires width > 0 && NonDecreasing(ticks)
    ensures Reconciles(AllBars(symbol, width, ticks), symbol, width, ticks)
  {
    BuildProgress(symbol, width, ticks);
  }

  // ---- what a candle says ------------------------------------------------------------------------

  /** The price was reached and never passed: upwards, or downwards. */
  ghost predicate Extreme(price: int, ticks: seq<Tick>, up: bool) {
    && (exists i :: 0 <= i < |ticks| && ticks[i].price == price)
    && forall i :: 0 <= i < |ticks| ==> if up then ticks[i].price <= price else price <= ticks[i].price
  }

  lemma {:induction false} ExtremesAre(ticks: seq<Tick>)
    requires ticks != []
    ensures Extreme(Highest(ticks), ticks, true) && Extreme(Lowest(ticks), ticks, false)
    decreases |ticks|
  {
    var n := |ticks| - 1;
    if n > 0 {
      var init := ticks[..n];
      ExtremesAre(init);
      var h :| 0 <= h < n && init[h].price == Highest(init);
      var l :| 0 <= l < n && init[l].price == Lowest(init);
      assert ticks[h].price == Highest(init) && ticks[l].price == Lowest(init);
      assert forall i :: 0 <= i < n ==> init[i] == ticks[i];
    }
    assert ticks[n] == ticks[|ticks| - 1];
  }

  /** A bucket is an interval: it holds every time from its start to its end. */
  lemma BucketIsInterval(width: nat, start: int, other: int, ts: int)
    requires width > 0 && BucketStart(width, other) == start
    ensures BucketStart(width, ts) == start <==> start <= ts < start + width * NS_PER_SECOND
  {
    var ns := width * NS_PER_SECOND;
    var q, p := ts / ns, other / ns;
    if start <= ts < start + ns {
      if q < p { Scaled(q + 1, p, ns); }
      if p < q { Scaled(p + 1, q, ns); }
    }
  }

  /** A bar that is a bucket's candle starts with it, opens and closes at its first and last trade, reaches from
      its lowest to its highest price, and adds its quantities up. */
  lemma CandleSays(b: Bar, symbol: int, width: nat, ticks: seq<Tick>)
    requires width > 0 && IsCandle(b, symbol, width, ticks)
    ensures var part := InBucket(ticks, width, b.start);
      && part != [] && b.symbol == symbol && b.width == width
      && (forall t :: t in part <==> t in ticks && b.start <= t.ts < b.start + width * NS_PER_SECOND)
      && b.open == part[0].price && b.close == part[|part| - 1].price
      && Extreme(b.high, part, true) && Extreme(b.low, part, false) && b.volume == Volume(part)
  {
    var part := InBucket(ticks, width, b.start);
    ExtremesAre(part);
    InBucketWhere(ticks, width, b.start);
    assert part[0] in part;
    hide BucketStart, InBucket, Highest, Lowest, Volume, Extreme;
    forall t ensures t in part <==> t in ticks && b.start <= t.ts < b.start + width * NS_PER_SECOND {
      BucketIsInterval(width, b.start, part[0].ts, t.ts);
    }
  }
}
