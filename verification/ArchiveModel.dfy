/** The archiver's state: flush units, their rows by symbol, open bars, and the order of the five steps that
    one record takes. */
module ArchiveModel {
  import opened Contracts
  import opened Bars
  import Snapshots

  /** An outbound record under the position it has on the stream. */
  datatype Rec = Rec(id: nat, out: Outbound)

  datatype Trade = Trade(price: int, qty: int, aggressor: int, ts: int, id: nat)

  /** Rows are kept by symbol: the writer splits every table by symbol, so the order between symbols is lost
      there anyway. `resumeAfter` is the position applied before the unit's first record. */
  datatype Unit = Unit(start: int, resumeAfter: nat, trades: map<int, seq<Trade>>, bars: map<int, seq<Bar>>)

  datatype Config = Config(widths: seq<nat>, flushSeconds: nat)

  /** Every width divides the flush unit; the constructor raises otherwise. Builders are keyed by width, so a
      width listed twice is one width. */
  predicate Allowed(c: Config) {
    && c.flushSeconds > 0
    && (forall i :: 0 <= i < |c.widths| ==> c.widths[i] > 0 && c.flushSeconds % c.widths[i] == 0)
    && (forall i, j :: 0 <= i < j < |c.widths| ==> c.widths[i] != c.widths[j])
  }

  type Builders = map<int, seq<Option<Bar>>>

  /** `symbols` is the order in which symbols first traded. */
  datatype Archive = Archive(open: map<int, Unit>, ready: seq<Unit>, sealedThrough: Option<int>, last: nat, late: nat,
                             symbols: seq<int>, builders: Builders)

  function Empty(): Archive {
    Archive(map[], [], None, 0, 0, [], map[])
  }

  function StampOf(r: Rec): int {
    r.out.ts
  }

  function UnitOf(c: Config, ts: int): int
    requires Allowed(c)
  {
    BucketStart(c.flushSeconds, ts)
  }

  function RowsOf<T>(rows: map<int, seq<T>>, symbol: int): seq<T> {
    if symbol in rows then rows[symbol] else []
  }

  // ---- bars of every width -----------------------------------------------------------------------

  datatype SetBuilt = SetBuilt(currents: seq<Option<Bar>>, closed: seq<Bar>)

  predicate AllPositive(widths: seq<nat>) {
    forall i :: 0 <= i < |widths| ==> widths[i] > 0
  }

  /** `BarSet.add`: every width in turn, collecting what closed. */
  function AddToSet(symbol: int, widths: seq<nat>, currents: seq<Option<Bar>>, t: Tick): (b: SetBuilt)
    requires |currents| == |widths| && AllPositive(widths)
    ensures |b.currents| == |widths|
  {
    if widths == [] then SetBuilt([], [])
    else
      var first := AddTick(symbol, widths[0], currents[0], t);
      var rest := AddToSet(symbol, widths[1..], currents[1..], t);
      SetBuilt([first.current] + rest.currents, first.closed + rest.closed)
  }

  function NoBarsYet(widths: seq<nat>): (currents: seq<Option<Bar>>)
    ensures |currents| == |widths|
  {
    seq(|widths|, i => None)
  }

  function CurrentsOf(builders: Builders, symbol: int, widths: seq<nat>): seq<Option<Bar>> {
    if symbol in builders then builders[symbol] else NoBarsYet(widths)
  }

  /** Bars whose bucket ended at or before `cutoff`, in width order. */
  function Ended(currents: seq<Option<Bar>>, cutoff: int): seq<Bar> {
    if currents == [] then []
    else (if HasEnded(currents[0], cutoff) then Listed(currents[0]) else []) + Ended(currents[1..], cutoff)
  }

  predicate HasEnded(b: Option<Bar>, cutoff: int) {
    b.Some? && b.value.start + b.value.width * NS_PER_SECOND <= cutoff
  }

  function Remaining(currents: seq<Option<Bar>>, cutoff: int): (rest: seq<Option<Bar>>)
    ensures |rest| == |currents|
  {
    seq(|currents|, i requires 0 <= i < |currents| => if HasEnded(currents[i], cutoff) then None else currents[i])
  }

  function EndedOf(symbols: seq<int>, builders: Builders, cutoff: int): seq<Bar> {
    if symbols == [] then []
    else EndedOf(symbols[..|symbols| - 1], builders, cutoff)
         + (if symbols[|symbols| - 1] in builders then Ended(builders[symbols[|symbols| - 1]], cutoff) else [])
  }

  // ---- filing rows -------------------------------------------------------------------------------

  datatype Filed = Filed(open: map<int, Unit>, late: nat)

  /** A bar goes to the open unit it opened in; if that is gone, it is late. */
  function FileBar(c: Config, f: Filed, b: Bar): Filed
    requires Allowed(c)
  {
    var u := UnitOf(c, b.start);
    if u in f.open then
      var unit := f.open[u];
      f.(open := f.open[u := unit.(bars := unit.bars[b.symbol := RowsOf(unit.bars, b.symbol) + [b]])])
    else f.(late := f.late + 1)
  }

  function FileBars(c: Config, f: Filed, bars: seq<Bar>): Filed
    requires Allowed(c)
  {
    if bars == [] then f else FileBar(c, FileBars(c, f, bars[..|bars| - 1]), bars[|bars| - 1])
  }

  function FileTrade(c: Config, f: Filed, symbol: int, t: Trade): Filed
    requires Allowed(c)
  {
    var u := UnitOf(c, t.ts);
    if u in f.open then
      var unit := f.open[u];
      f.(open := f.open[u := unit.(trades := unit.trades[symbol := RowsOf(unit.trades, symbol) + [t]])])
    else f.(late := f.late + 1)
  }

  // ---- the five steps ----------------------------------------------------------------------------

  /** Step 2: a sealed unit is never reopened. */
  function EnsureUnit(a: Archive, start: int, resumeAfter: nat): Archive {
    if (a.sealedThrough.Some? && start <= a.sealedThrough.value) || start in a.open then a
    else a.(open := a.open[start := Unit(start, resumeAfter, map[], map[])])
  }

  function TickOf(r: Outbound): Tick
    requires r.Fill?
  {
    Tick(r.price, r.qty, r.ts)
  }

  function TradeOf(r: Rec): Trade
    requires r.out.Fill?
  {
    Trade(r.out.price, r.out.qty, r.out.aggressor, r.out.ts, r.id)
  }

  predicate Sized(a: Archive, widths: seq<nat>) {
    forall s :: s in a.builders ==> |a.builders[s]| == |widths|
  }

  /** Steps 3 and 4 for a fill: the trade is filed, and so are the bars it closed. */
  function Collect(c: Config, a: Archive, r: Rec): Archive
    requires Allowed(c) && Sized(a, c.widths) && r.out.Fill?
  {
    var s := r.out.symbol;
    var built := AddToSet(s, c.widths, CurrentsOf(a.builders, s, c.widths), TickOf(r.out));
    var filed := FileBars(c, FileTrade(c, Filed(a.open, a.late), s, TradeOf(r)), built.closed);
    a.(open := filed.open, late := filed.late, builders := a.builders[s := built.currents],
       symbols := if s in a.builders then a.symbols else a.symbols + [s])
  }

  predicate HoldsRows(u: Unit) {
    (exists s :: s in u.trades && u.trades[s] != []) || (exists s :: s in u.bars && u.bars[s] != [])
  }

  /** Step 5: close every ended bar, then move the earlier units to `ready`. A unit without rows is dropped,
      unless its book snapshots, which are not modelled, gave it some (`sampled`). */
  function SealBefore(c: Config, a: Archive, cutoff: int, sampled: bool): Archive
    requires Allowed(c)
  {
    if !exists u :: u in a.open && u < cutoff then a
    else
      var filed := FileBars(c, Filed(a.open, a.late), EndedOf(a.symbols, a.builders, cutoff));
      var builders := map s | s in a.builders :: Remaining(a.builders[s], cutoff);
      SealAll(a.(open := filed.open, late := filed.late, builders := builders), EarlierThan(filed.open, cutoff),
              sampled)
  }

  function EarlierThan(open: map<int, Unit>, cutoff: int): set<int> {
    set u | u in open && u < cutoff
  }

  /** Seal these units, oldest first. */
  function SealAll(a: Archive, starts: set<int>, sampled: bool): Archive
    decreases |starts|
  {
    if starts == {} then a
    else
      LeastStart(starts);
      var u :| u in starts && forall v :: v in starts ==> u <= v;
      SealAll(SealOne(a, u, sampled), starts - {u}, sampled)
  }

  function SealOne(a: Archive, u: int, sampled: bool): Archive {
    if u !in a.open then a
    else
      a.(open := a.open - {u},
         sealedThrough := Some(if a.sealedThrough == None then u else Max(a.sealedThrough.value, u)),
         ready := if HoldsRows(a.open[u]) || sampled then a.ready + [a.open[u]] else a.ready)
  }

  lemma LeastStart(s: set<int>)
    requires s != {}
    ensures exists u :: u in s && forall v :: v in s ==> u <= v
  {
    var least := Snapshots.LeastOf(s);
    assert least in s && forall v :: v in s ==> least <= v;
  }

  /** One record. */
  function ApplyRec(c: Config, a: Archive, r: Rec, sampled: bool): Archive
    requires Allowed(c) && Sized(a, c.widths)
  {
    var u := UnitOf(c, StampOf(r));
    var ensured := EnsureUnit(a.(last := r.id), u, a.last);
    var collected := if r.out.Fill? then Collect(c, ensured, r) else ensured;
    SealBefore(c, collected, u, sampled)
  }

  /** The exclusive resume point. */
  function Checkpoint(a: Archive): nat {
    if a.open != map[] then
      LeastStart(a.open.Keys);
      var u :| u in a.open.Keys && forall v :: v in a.open.Keys ==> u <= v;
      a.open[u].resumeAfter
    else if a.ready != [] then LeastResume(a.ready)
    else a.last
  }

  function LeastResume(units: seq<Unit>): nat
    requires units != []
  {
    if |units| == 1 then units[0].resumeAfter else Min(units[0].resumeAfter, LeastResume(units[1..]))
  }
}
