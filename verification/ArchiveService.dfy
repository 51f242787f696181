/** The archiver's objects: a bar builder, the bucketing state and the runner that writes what it seals. */
module ArchiveService {
  import opened Contracts
  import PriceTime
  import opened Bars
  import opened ArchiveModel
  import opened ArchiveSteps
  import opened ArchiveRuns

  class BarBuilder {
    const symbol: int
    const width: nat
    var current: Option<Bar>
    var closed: seq<Bar>
    ghost var ticks: seq<Tick>

    /** The bars are what the trades so far make them. */
    ghost predicate Valid()
      reads this
    {
      width > 0 && Built(current, closed) == Build(symbol, width, ticks)
    }

    constructor (symbol: int, width: nat)
      requires width > 0
      ensures Valid() && this.symbol == symbol && this.width == width && ticks == []
    {
      this.symbol, this.width := symbol, width;
      current, closed, ticks := None, [], [];
    }

    /** Fold one trade in; `finished` is the bar it closed, if any. */
    method AddTrade(price: int, qty: int, ts: int) returns (finished: Option<Bar>)
      requires Valid()
      modifies this
      ensures Valid() && ticks == old(ticks) + [Tick(price, qty, ts)]
      ensures closed == old(closed) + Listed(finished)
      ensures finished.Some? ==> finished == old(current) && finished.value.start != BucketStart(width, ts)
    {
      var start := BucketStart(width, ts);
      ghost var t := Tick(price, qty, ts);
      assert (ticks + [t])[..|ticks|] == ticks;
      hide BucketStart;
      ticks := ticks + [t];
      if current.Some? && start == current.value.start {
        var b := current.value;
        current := Some(b.(high := Max(b.high, price), low := Min(b.low, price), close := price,
                           volume := b.volume + qty));
        assert closed + [] == closed;
        return None;
      }
      finished := current;
      closed := closed + Listed(finished);
      current := Some(Bar(symbol, width, start, price, price, price, price, qty));
    }

    /** Close the open bar. With trades in time order, the closed bars are then exactly their candles. */
    method Flush() returns (finished: Option<Bar>)
      requires Valid() && NonDecreasing(ticks)
      modifies this`current, this`closed
      ensures finished == old(current) && current == None
      ensures closed == AllBars(symbol, width, ticks) && Reconciles(closed, symbol, width, ticks)
    {
      BarsReconcile(symbol, width, ticks);
      hide Reconciles, NonDecreasing, Build;
      finished := current;
      current := None;
      closed := closed + Listed(finished);
    }
  }

  class ArchiveState {
    const config: Config
    var open: map<int, Unit>
    var ready: seq<Unit>
    var sealedThrough: Option<int>
    var lastId: nat
    var lateRows: nat
    var symbols: seq<int>
    var builders: Builders

    function State(): Archive
      reads this
    {
      Archive(open, ready, sealedThrough, lastId, lateRows, symbols, builders)
    }

    ghost predicate Valid()
      reads this
    {
      Allowed(config) && Sized(State(), config.widths) && SymbolsSound(State())
    }

    constructor (config: Config)
      requires Allowed(config)
      ensures Valid() && State() == Empty() && this.config == config
    {
      this.config := config;
      open, ready, sealedThrough, lastId, lateRows, symbols, builders := map[], [], None, 0, 0, [], map[];
    }

    method OpenUnit(start: int, resumeAfter: nat)
      modifies this`open
      ensures State() == EnsureUnit(old(State()), start, resumeAfter)
    {
      if sealedThrough.Some? && start <= sealedThrough.value {
        return;
      }
      if start !in open {
        open := open[start := Unit(start, resumeAfter, map[], map[])];
      }
    }

    method CollectTrade(symbol: int, t: Trade)
      requires Allowed(config)
      modifies this`open, this`lateRows
      ensures Filed(open, lateRows) == FileTrade(config, old(Filed(open, lateRows)), symbol, t)
    {
      hide UnitOf;
      var u := UnitOf(config, t.ts);
      if u !in open {
        lateRows := lateRows + 1;
        return;
      }
      open := open[u := open[u].(trades := open[u].trades[symbol := RowsOf(open[u].trades, symbol) + [t]])];
    }

    method CollectBars(bars: seq<Bar>)
      requires Allowed(config)
      modifies this`open, this`lateRows
      ensures Filed(open, lateRows) == FileBars(config, old(Filed(open, lateRows)), bars)
    {
      hide UnitOf;
      for i := 0 to |bars|
        invariant Filed(open, lateRows) == FileBars(config, old(Filed(open, lateRows)), bars[..i])
      {
        assert bars[..i + 1][..i] == bars[..i];
        var b := bars[i];
        var u := UnitOf(config, b.start);
        if u !in open {
          lateRows := lateRows + 1;
        } else {
          open := open[u := open[u].(bars := open[u].bars[b.symbol := RowsOf(open[u].bars, b.symbol) + [b]])];
        }
      }
      assert bars[..|bars|] == bars;
    }

    /** Close every bar whose bucket ended at or before `cutoff`. */
    method ForceCloseBars(cutoff: int)
      requires Valid()
      modifies this`builders, this`open, this`lateRows
      ensures Filed(open, lateRows)
              == FileBars(config, old(Filed(open, lateRows)), EndedOf(symbols, old(builders), cutoff))
      ensures builders == map s | s in old(builders) :: Remaining(old(builders)[s], cutoff)
    {
      hide Ended, Remaining, Partly, EndedOf, FileBars;
      var closed: seq<Bar> := [];
      ghost var before := builders;
      PartlyStarts(before, cutoff);
      for i := 0 to |symbols|
        invariant closed == EndedOf(symbols[..i], before, cutoff) && builders == Partly(before, symbols[..i], cutoff)
        invariant open == old(open) && lateRows == old(lateRows)
      {
        PartlyGoesOn(before, symbols, i, cutoff);
        var s := symbols[i];
        closed := closed + Ended(builders[s], cutoff);
        builders := builders[s := Remaining(builders[s], cutoff)];
      }
      PartlyEnds(before, symbols, cutoff);
      CollectBars(closed);
    }

    method SealUnit(start: int, sampled: bool)
      modifies this`open, this`sealedThrough, this`ready
      ensures State() == SealOne(old(State()), start, sampled)
    {
      if start !in open {
        return;
      }
      var unit := open[start];
      open := open - {start};
      sealedThrough := Some(if sealedThrough == None then start else Max(sealedThrough.value, start));
      if HoldsRows(unit) || sampled {
        ready := ready + [unit];
      }
    }

    method SealEarlier(cutoff: int, sampled: bool)
      requires Valid()
      modifies this
      ensures State() == SealBefore(config, old(State()), cutoff, sampled)
    {
      hide FileBars, EndedOf, Remaining, SealOne;
      if EarlierThan(open, cutoff) == {} {
        assert !exists u :: u in open && u < cutoff by {
          assert forall u :: u in open && u < cutoff ==> u in EarlierThan(open, cutoff);
        }
        return;
      }
      PriceTimeMember(EarlierThan(open, cutoff));
      ForceCloseBars(cutoff);
      var todo := EarlierThan(open, cutoff);
      ghost var goal := SealAll(State(), todo, sampled);
      while todo != {}
        invariant SealAll(State(), todo, sampled) == goal
        decreases todo
      {
        LeastStart(todo);
        var start :| start in todo && forall v :: v in todo ==> start <= v;
        SealUnit(start, sampled);
        todo := todo - {start};
      }
    }

    /** One record: exactly the five steps. */
    method Apply(r: Rec, sampled: bool)
      requires Valid()
      modifies this
      ensures State() == ApplyRec(config, old(State()), r, sampled)
    {
      hide UnitOf, AddToSet, FileTrade, FileBars, SealBefore;
      var previous := lastId;
      lastId := r.id;
      var u := UnitOf(config, r.out.ts);
      OpenUnit(u, previous);
      if r.out.Fill? {
        var s := r.out.symbol;
        var built := AddToSet(s, config.widths, CurrentsOf(builders, s, config.widths), TickOf(r.out));
        if s !in builders {
          symbols := symbols + [s];
        }
        builders := builders[s := built.currents];
        CollectTrade(s, TradeOf(r));
        CollectBars(built.closed);
      }
      SealEarlier(u, sampled);
    }

    method DrainReady() returns (units: seq<Unit>)
      modifies this`ready
      ensures units == old(ready) && ready == []
    {
      units := ready;
      ready := [];
    }
  }

  /** The builders once those of the symbols in `done` have been flushed. */
  ghost function Partly(before: Builders, done: seq<int>, cutoff: int): Builders {
    map s | s in before :: if s in done then Remaining(before[s], cutoff) else before[s]
  }

  lemma PartlyStarts(before: Builders, cutoff: int)
    ensures Partly(before, [], cutoff) == before && EndedOf([], before, cutoff) == []
  {
  }

  lemma PartlyGoesOn(before: Builders, symbols: seq<int>, i: nat, cutoff: int)
    requires i < |symbols| && (forall s :: s in symbols ==> s in before)
    requires forall j, k :: 0 <= j < k < |symbols| ==> symbols[j] != symbols[k]
    ensures var s := symbols[i]; var partly := Partly(before, symbols[..i], cutoff);
      && s in partly && partly[s] == before[s]
      && Partly(before, symbols[..i + 1], cutoff) == partly[s := Remaining(before[s], cutoff)]
      && EndedOf(symbols[..i + 1], before, cutoff) == EndedOf(symbols[..i], before, cutoff) + Ended(before[s], cutoff)
  {
    hide Ended, Remaining;
    var s := symbols[i];
    assert symbols[..i + 1][..i] == symbols[..i] && symbols[..i + 1] == symbols[..i] + [s];
    assert s in symbols && s !in symbols[..i];
    assert forall x :: x in symbols[..i + 1] <==> x in symbols[..i] || x == s;
  }

  lemma PartlyEnds(before: Builders, symbols: seq<int>, cutoff: int)
    requires forall s :: s in before ==> s in symbols
    ensures symbols[..|symbols|] == symbols
    ensures Partly(before, symbols, cutoff) == map s | s in before :: Remaining(before[s], cutoff)
  {
    hide Remaining;
    var all := map s | s in before :: Remaining(before[s], cutoff);
    forall s | s in before ensures Partly(before, symbols, cutoff)[s] == all[s] { assert s in symbols; }
  }

  lemma PriceTimeMember(s: set<int>)
    requires s != {}
    ensures exists u :: u in s
  {
    var u := PriceTime.Member(s);
  }

  // ---- the runner --------------------------------------------------------------------------------

  class Archiver {
    var state: ArchiveState
    var position: nat
    var disk: map<Path, File>
    var mark: nat

    constructor (config: Config, disk: map<Path, File>, mark: nat)
      requires Allowed(config)
      ensures state.Valid() && state.State() == Empty() && state.config == config && fresh(state)
      ensures position == mark && this.disk == disk && this.mark == mark
    {
      state := new ArchiveState(config);
      this.position, this.disk, this.mark := mark, disk, mark;
    }

    /** `write_unit`: each file replaced whole, until one of the `broken` paths cannot be written. */
    method WriteUnit(x: Unit, broken: set<Path>) returns (ok: bool, ghost done: set<Path>)
      modifies this`disk
      ensures ok <==> FilesOf(x).Keys !! broken
      ensures done <= FilesOf(x).Keys && disk == old(disk) + Part(FilesOf(x), done)
      ensures ok ==> disk == old(disk) + FilesOf(x)
    {
      hide FilesOf;
      var files := FilesOf(x);
      var todo := files.Keys;
      assert forall p :: p in todo ==> p in files;
      while todo != {}
        invariant todo <= files.Keys && (files.Keys - todo) !! broken
        invariant disk == old(disk) + Part(files, files.Keys - todo)
        decreases todo
      {
        ghost var _ := PriceTime.Member(todo);
        var p :| p in todo;
        if p in broken {
          return false, files.Keys - todo;
        }
        disk := disk[p := files[p]];
        todo := todo - {p};
        assert Part(files, files.Keys - todo) == Part(files, files.Keys - todo - {p})[p := files[p]];
      }
      assert Part(files, files.Keys) == files;
      return true, files.Keys;
    }

    method WriteUnits(units: seq<Unit>, broken: set<Path>) returns (ok: bool, ghost failed: nat, ghost done: set<Path>)
      modifies this`disk
      ensures ok <==> AllFilesOf(units).Keys !! broken
      ensures ok ==> disk == old(disk) + AllFilesOf(units)
      ensures !ok ==> failed < |units| && done <= FilesOf(units[failed]).Keys
      ensures !ok ==> disk == old(disk) + AllFilesOf(units[..failed]) + Part(FilesOf(units[failed]), done)
    {
      hide FilesOf, AllFilesOf;
      failed, done := 0, {};
      NoFiles();
      assert disk + map[] == disk;
      for i := 0 to |units|
        invariant disk == old(disk) + AllFilesOf(units[..i]) && AllFilesOf(units[..i]).Keys !! broken
      {
        AllFilesGrow(units, i);
        ok, done := WriteUnit(units[i], broken);
        if !ok {
          FilesAmong(units, i);
          return false, i, done;
        }
        assert (old(disk) + AllFilesOf(units[..i])) + FilesOf(units[i]) == old(disk) + AllFilesOf(units[..i + 1]);
      }
      assert units[..|units|] == units;
      return true, failed, done;
    }

    /** `_write_ready`: the files first, and only then the bookmark. When a write fails the units have been drained all
        the same; `failed` and `done` say how far it came. */
    method WriteReady(broken: set<Path>) returns (ok: bool, ghost failed: nat, ghost done: set<Path>)
      modifies this`disk, this`mark, state`ready
      ensures state.ready == [] && (ok <==> AllFilesOf(old(state.ready)).Keys !! broken)
      ensures ok ==> disk == old(disk) + AllFilesOf(old(state.ready))
      ensures ok ==> mark == if old(state.ready) == [] then old(mark) else Checkpoint(state.State())
      ensures !ok ==> mark == old(mark) && failed < |old(state.ready)|
      ensures !ok ==> done <= FilesOf(old(state.ready)[failed]).Keys
      ensures !ok ==>
        disk == old(disk) + AllFilesOf(old(state.ready)[..failed]) + Part(FilesOf(old(state.ready)[failed]), done)
    {
      hide FilesOf, AllFilesOf;
      var units := state.DrainReady();
      if units == [] {
        NoFiles();
        assert disk + map[] == disk;
        return true, 0, {};
      }
      ok, failed, done := WriteUnits(units, broken);
      if ok {
        mark := Checkpoint(state.State());
      }
    }
  }

  lemma NoFiles()
    ensures AllFilesOf([]) == map[]
    ensures forall units: seq<Unit> :: AllFilesOf(units[..0]) == map[]
  {
  }

  lemma AllFilesGrow(units: seq<Unit>, i: nat)
    requires i < |units|
    ensures AllFilesOf(units[..i + 1]) == AllFilesOf(units[..i]) + FilesOf(units[i])
  {
    assert units[..i + 1][..i] == units[..i];
  }

  lemma {:induction false} FilesAmong(units: seq<Unit>, i: nat)
    requires i < |units|
    ensures FilesOf(units[i]).Keys <= AllFilesOf(units).Keys
    decreases |units|
  {
    hide FilesOf;
    var n := |units| - 1;
    if i < n { FilesAmong(units[..n], i); }
  }
}
