/** The archiver step by step: records arrive, processes apply them, write sealed units file by file and move
    the bookmark. A process may crash anywhere in between, and it survives a write that fails. */
module ArchiveRuns {
  import opened Contracts
  import opened Bars
  import opened ArchiveModel
  import opened ArchiveSpec
  import opened ArchiveSteps

  /** A path names its dataset, symbol and unit start, and nothing about when it was written. */
  datatype Path = TradesPath(symbol: int, unit: int) | BarsPath(symbol: int, unit: int)

  datatype File = TradeRows(trades: seq<Trade>) | BarRows(bars: seq<Bar>)

  /** `from` is where this process resumed; `writing` holds the drained files still to be written, and `lost`
      names the drained files that a failed write left behind. */
  datatype Process = Process(from: nat, at: nat, state: Archive, writing: Option<map<Path, File>>, lost: set<Path>)

  /** `mark` is the bookmark on disk: how many records lie at or before it. */
  datatype System = System(recs: seq<Rec>, disk: map<Path, File>, mark: nat, proc: Option<Process>)

  datatype Event =
    | Arrive(r: Rec)
    | Resume
    | ApplyNext(sampled: bool)
    | Drain
    | WriteFile(path: Path)
    | WriteFails
    | Mark
    | Crash

  function Start(): System {
    System([], map[], 0, None)
  }

  predicate NonEmpty(f: File) {
    match f
    case TradeRows(trades) => trades != []
    case BarRows(bars) => bars != []
  }

  /** The files of one unit: a symbol without rows has none. */
  function FilesOf(x: Unit): map<Path, File> {
    TradeFiles(x) + BarFiles(x)
  }

  function TradeFiles(x: Unit): map<Path, File> {
    map s | s in x.trades && x.trades[s] != [] :: TradesPath(s, x.start) := TradeRows(x.trades[s])
  }

  function BarFiles(x: Unit): map<Path, File> {
    map s | s in x.bars && x.bars[s] != [] :: BarsPath(s, x.start) := BarRows(x.bars[s])
  }

  function AllFilesOf(units: seq<Unit>): map<Path, File> {
    if units == [] then map[] else AllFilesOf(units[..|units| - 1]) + FilesOf(units[|units| - 1])
  }

  /** Some of these files. */
  function Part(files: map<Path, File>, done: set<Path>): map<Path, File> {
    map p | p in files && p in done :: files[p]
  }

  /** What belongs at a path, given the whole stream. */
  function SpecFile(c: Config, recs: seq<Rec>, p: Path): File
    requires Allowed(c)
  {
    match p
    case TradesPath(s, u) => TradeRows(TradesOf(c, recs, u, s))
    case BarsPath(s, u) => BarRows(BarsFile(s, Widths(c), TradesOf(c, recs, u, s)))
  }

  ghost predicate Typed(c: Config, s: System) {
    Allowed(c) && (s.proc.Some? ==> Sized(s.proc.value.state, c.widths))
  }

  ghost predicate Enabled(c: Config, s: System, e: Event)
    requires Typed(c, s)
  {
    match e
    case Arrive(r) => r.id == |s.recs| + 1 && (s.recs != [] ==> s.recs[|s.recs| - 1].out.ts <= r.out.ts)
    case Resume => s.proc == None
    case ApplyNext(_) => s.proc.Some? && s.proc.value.writing == None && s.proc.value.at < |s.recs|
    case Drain => s.proc.Some? && s.proc.value.writing == None && s.proc.value.state.ready != []
    case WriteFile(p) => s.proc.Some? && s.proc.value.writing.Some? && p in s.proc.value.writing.value
    case WriteFails => s.proc.Some? && s.proc.value.writing.Some?
    case Mark => s.proc.Some? && s.proc.value.writing == Some(map[])
    case Crash => true
  }

  function Perform(c: Config, s: System, e: Event): System
    requires Typed(c, s) && Enabled(c, s, e)
  {
    match e
    case Arrive(r) => s.(recs := s.recs + [r])
    case Resume => s.(proc := Some(Process(s.mark, s.mark, Empty(), None, {})))
    case ApplyNext(sampled) =>
      var p := s.proc.value;
      s.(proc := Some(p.(at := p.at + 1, state := ApplyRec(c, p.state, s.recs[p.at], sampled))))
    case Drain =>
      var p := s.proc.value;
      s.(proc := Some(p.(state := p.state.(ready := []), writing := Some(AllFilesOf(p.state.ready)))))
    case WriteFile(path) =>
      var p := s.proc.value;
      s.(disk := s.disk[path := p.writing.value[path]], proc := Some(p.(writing := Some(p.writing.value - {path}))))
    case WriteFails =>
      var p := s.proc.value;
      s.(proc := Some(p.(writing := None, lost := p.lost + p.writing.value.Keys)))
    case Mark => s.(mark := Checkpoint(s.proc.value.state), proc := Some(s.proc.value.(writing := None)))
    case Crash => s.(proc := None)
  }

  // ---- invariants --------------------------------------------------------------------------------

  ghost predicate Numbered(recs: seq<Rec>) {
    forall i :: 0 <= i < |recs| ==> recs[i].id == i + 1
  }

  /** `k` is where a unit begins. */
  ghost predicate Boundary(c: Config, recs: seq<Rec>, k: nat)
    requires Allowed(c)
  {
    k == 0 || (k < |recs| && UnitOf(c, recs[k - 1].out.ts) < UnitOf(c, recs[k].out.ts))
  }

  /** A file that should be there lies before position `k`. */
  ghost predicate Due(c: Config, recs: seq<Rec>, k: nat, p: Path)
    requires Allowed(c) && k <= |recs|
  {
    0 < k < |recs| && p.unit < UnitOf(c, recs[k].out.ts) && NonEmpty(SpecFile(c, recs, p))
  }

  /** Every file of every unit before position `k` is on disk. */
  ghost predicate SavedTo(c: Config, s: System, k: nat)
    requires Allowed(c) && k <= |s.recs|
  {
    forall p :: Due(c, s.recs, k, p) ==> p in s.disk
  }

  ghost predicate RightFile(c: Config, recs: seq<Rec>, p: Path, f: File)
    requires Allowed(c)
  {
    recs != [] && p.unit < LastUnit(c, recs) && f == SpecFile(c, recs, p) && NonEmpty(f)
  }

  ghost predicate DiskRight(c: Config, s: System)
    requires Allowed(c)
  {
    forall p :: p in s.disk ==> RightFile(c, s.recs, p, s.disk[p])
  }

  /** Where the unit of record `at - 1` begins, as far as a process that resumed at `from` can see. */
  function BeginOf(c: Config, recs: seq<Rec>, from: nat, at: nat): (k: nat)
    requires Allowed(c) && from < at <= |recs|
    ensures from <= k < at
    decreases at
  {
    if at - 1 == from || UnitOf(c, recs[at - 2].out.ts) != UnitOf(c, recs[at - 1].out.ts) then at - 1
    else BeginOf(c, recs, from, at - 1)
  }

  ghost predicate InReady(units: seq<Unit>, p: Path) {
    exists i :: 0 <= i < |units| && p in FilesOf(units[i])
  }

  /** A sealed unit's file is on disk, waiting to be written, or lost. */
  ghost predicate Kept(c: Config, s: System, w: Process, p: Path)
    requires Allowed(c) && w.from < w.at <= |s.recs|
  {
    && UnitOf(c, s.recs[w.from].out.ts) <= p.unit < UnitOf(c, s.recs[w.at - 1].out.ts)
    && NonEmpty(SpecFile(c, s.recs, p)) ==>
      p in s.disk || InReady(w.state.ready, p) || (w.writing.Some? && p in w.writing.value) || p in w.lost
  }

  ghost predicate ReadyRight(c: Config, s: System, w: Process)
    requires Allowed(c) && w.from < w.at <= |s.recs|
  {
    forall i :: 0 <= i < |w.state.ready| ==> UnitRight(c, s.recs, w.state.ready[i], s.recs[w.at - 1].out.ts)
  }

  /** Every file of a sealed unit is right, and the unit is over. */
  ghost predicate UnitRight(c: Config, recs: seq<Rec>, x: Unit, ts: int)
    requires Allowed(c)
  {
    && x.start < UnitOf(c, ts)
    && forall p :: p in FilesOf(x) ==> p.unit == x.start && FilesOf(x)[p] == SpecFile(c, recs, p)
  }

  ghost predicate WritingRight(c: Config, s: System, w: Process)
    requires Allowed(c) && w.from < w.at <= |s.recs|
  {
    w.writing.Some? ==> forall p :: p in w.writing.value ==>
      p.unit < UnitOf(c, s.recs[w.at - 1].out.ts) && w.writing.value[p] == SpecFile(c, s.recs, p)
        && NonEmpty(w.writing.value[p])
  }

  ghost predicate LostRight(c: Config, s: System, w: Process)
    requires Allowed(c) && w.from < w.at <= |s.recs|
  {
    forall p :: p in w.lost ==> p.unit < UnitOf(c, s.recs[w.at - 1].out.ts) && NonEmpty(SpecFile(c, s.recs, p))
  }

  ghost predicate Working(c: Config, s: System, w: Process)
    requires Allowed(c) && w.from < w.at <= |s.recs|
  {
    var begin := BeginOf(c, s.recs, w.from, w.at);
    var unit := UnitOf(c, s.recs[w.at - 1].out.ts);
    && Holds(c, w.state, s.recs[w.from..w.at])
    && w.state.open[unit].resumeAfter == (if begin == w.from then 0 else begin)
    && ReadyRight(c, s, w) && WritingRight(c, s, w) && LostRight(c, s, w)
    && (forall p :: Kept(c, s, w, p))
    && (w.state.ready != [] || w.writing.Some? ==> begin > w.from)
    && (w.writing.Some? ==> w.state.ready == [])
    && w.from <= s.mark <= begin
  }

  ghost predicate ProcessSound(c: Config, s: System)
    requires Allowed(c)
  {
    s.proc.Some? ==>
      var w := s.proc.value;
      && w.from <= w.at <= |s.recs| && Boundary(c, s.recs, w.from) && w.from <= s.mark
      && if w.at == w.from then w.state == Empty() && w.writing == None && w.lost == {} && s.mark == w.from
         else Working(c, s, w)
  }

  ghost predicate Inv(c: Config, s: System) {
    && Typed(c, s) && Numbered(s.recs) && InTime(s.recs) && s.mark <= |s.recs|
    && Boundary(c, s.recs, s.mark) && DiskRight(c, s) && ProcessSound(c, s)
  }

  // ---- units and positions -----------------------------------------------------------------------

  lemma UnitsInOrder(c: Config, recs: seq<Rec>, i: nat, j: nat)
    requires Allowed(c) && InTime(recs) && i <= j < |recs|
    ensures UnitOf(c, recs[i].out.ts) <= UnitOf(c, recs[j].out.ts)
  {
    UnitsAscend(c, recs[i].out.ts, recs[j].out.ts);
  }

  lemma {:induction false} NoSuchUnit(c: Config, recs: seq<Rec>, unit: int, s: int)
    requires Allowed(c) && forall i :: 0 <= i < |recs| ==> UnitOf(c, recs[i].out.ts) != unit
    ensures TradesOf(c, recs, unit, s) == []
    decreases |recs|
  {
    hide UnitOf;
    if recs != [] { NoSuchUnit(c, recs[..|recs| - 1], unit, s); }
  }

  lemma {:induction false} TradesSplit(c: Config, a: seq<Rec>, b: seq<Rec>, unit: int, s: int)
    requires Allowed(c)
    ensures TradesOf(c, a + b, unit, s) == TradesOf(c, a, unit, s) + TradesOf(c, b, unit, s)
    decreases |b|
  {
    hide UnitOf;
    if b == [] {
      assert a + b == a;
    } else {
      TradesSplit(c, a, b[..|b| - 1], unit, s);
      assert (a + b)[..|a + b| - 1] == a + b[..|b| - 1];
    }
  }

  /** A unit's trades are all in any stretch that begins at a unit and goes past this one. */
  lemma SliceHasAll(c: Config, recs: seq<Rec>, from: nat, at: nat, unit: int, s: int)
    requires Allowed(c) && InTime(recs) && Boundary(c, recs, from) && from < at <= |recs|
    requires UnitOf(c, recs[from].out.ts) <= unit
    requires at < |recs| ==> unit < UnitOf(c, recs[at].out.ts)
    ensures TradesOf(c, recs[from..at], unit, s) == TradesOf(c, recs, unit, s)
  {
    hide UnitOf, TradesOf;
    var before, within, after := recs[..from], recs[from..at], recs[at..];
    forall i | 0 <= i < from ensures UnitOf(c, before[i].out.ts) != unit { UnitsInOrder(c, recs, i, from - 1); }
    forall i | 0 <= i < |after| ensures UnitOf(c, after[i].out.ts) != unit { UnitsInOrder(c, recs, at, at + i); }
    NoSuchUnit(c, before, unit, s);
    NoSuchUnit(c, after, unit, s);
    TradesSplit(c, before, within, unit, s);
    TradesSplit(c, before + within, after, unit, s);
    assert before + within + after == recs;
  }

  /** A file with rows has a record of its unit. */
  lemma SpecHasRecord(c: Config, recs: seq<Rec>, p: Path)
    requires Allowed(c)
    ensures NonEmpty(SpecFile(c, recs, p)) ==> exists i :: 0 <= i < |recs| && UnitOf(c, recs[i].out.ts) == p.unit
  {
    hide UnitOf;
    if forall i :: 0 <= i < |recs| ==> UnitOf(c, recs[i].out.ts) != p.unit {
      NoSuchUnit(c, recs, p.unit, p.symbol);
      FoldOfNone(c, p.symbol);
      NoneListed(Widths(c));
    }
  }

  lemma NoneListed(widths: seq<nat>)
    ensures AllListed(NoBarsYet(widths)) == []
  {
    ListedNone(NoBarsYet(widths));
  }

  lemma {:induction false} ListedNone(currents: seq<Option<Bar>>)
    requires forall i :: 0 <= i < |currents| ==> currents[i] == None
    ensures AllListed(currents) == []
  {
    if currents != [] { ListedNone(currents[1..]); }
  }

  lemma SpecExtends(c: Config, recs: seq<Rec>, r: Rec, p: Path)
    requires Allowed(c) && p.unit < UnitOf(c, r.out.ts)
    ensures SpecFile(c, recs + [r], p) == SpecFile(c, recs, p)
  {
    hide UnitOf, TradesOf;
    TradesAppend(c, recs, r, p.unit, p.symbol);
  }

  lemma {:induction false} BeginUnit(c: Config, recs: seq<Rec>, from: nat, at: nat)
    requires Allowed(c) && InTime(recs) && from < at <= |recs|
    ensures var k := BeginOf(c, recs, from, at);
      && UnitOf(c, recs[k].out.ts) == UnitOf(c, recs[at - 1].out.ts)
      && (k > from ==> Boundary(c, recs, k))
    decreases at
  {
    hide UnitOf;
    if at - 1 > from {
      UnitsInOrder(c, recs, at - 2, at - 1);
      if UnitOf(c, recs[at - 2].out.ts) == UnitOf(c, recs[at - 1].out.ts) { BeginUnit(c, recs, from, at - 1); }
    }
  }

  lemma {:induction false} BeginSame(c: Config, recs: seq<Rec>, r: Rec, from: nat, at: nat)
    requires Allowed(c) && from < at <= |recs|
    ensures BeginOf(c, recs + [r], from, at) == BeginOf(c, recs, from, at)
    decreases at
  {
    hide UnitOf;
    var all := recs + [r];
    assert all[at - 1] == recs[at - 1];
    if at - 1 > from {
      assert all[at - 2] == recs[at - 2];
      BeginSame(c, recs, r, from, at - 1);
    }
  }

  // ---- arrivals ----------------------------------------------------------------------------------

  lemma ArriveRecs(c: Config, s: System, r: Rec)
    requires Inv(c, s) && Enabled(c, s, Arrive(r))
    ensures var all := s.recs + [r];
      && Numbered(all) && InTime(all)
      && (forall k :: 0 <= k < |s.recs| ==> all[k] == s.recs[k] && UnitOf(c, s.recs[k].out.ts) <= UnitOf(c, r.out.ts))
      && LastUnit(c, all) == UnitOf(c, r.out.ts)
  {
    hide UnitOf, DiskRight, SavedTo, ProcessSound;
    var all := s.recs + [r];
    assert forall k :: 0 <= k < |s.recs| ==> all[k] == s.recs[k];
    assert all[|s.recs|] == r;
    forall k | 0 <= k < |s.recs| ensures UnitOf(c, s.recs[k].out.ts) <= UnitOf(c, r.out.ts) {
      UnitsAscend(c, s.recs[k].out.ts, r.out.ts);
    }
  }

  lemma ArriveSaved(c: Config, s: System, s': System, r: Rec, k: nat)
    requires Inv(c, s) && Enabled(c, s, Arrive(r)) && s'.recs == s.recs + [r] && s'.disk == s.disk
    requires k <= |s.recs| && Boundary(c, s.recs, k)
    ensures Boundary(c, s'.recs, k) && (SavedTo(c, s, k) ==> SavedTo(c, s', k))
  {
    ArriveRecs(c, s, r);
    hide UnitOf, SpecFile, NonEmpty, DiskRight, ProcessSound, InTime, Numbered;
    if SavedTo(c, s, k) {
      forall p | Due(c, s'.recs, k, p) ensures p in s'.disk {
        SpecExtends(c, s.recs, r, p);
        assert Due(c, s.recs, k, p);
      }
    }
  }

  lemma ArriveDisk(c: Config, s: System, s': System, r: Rec)
    requires Inv(c, s) && Enabled(c, s, Arrive(r)) && s'.recs == s.recs + [r] && s'.disk == s.disk
    ensures DiskRight(c, s')
  {
    ArriveRecs(c, s, r);
    hide UnitOf, SpecFile, NonEmpty, ProcessSound, SavedTo, InTime, Numbered;
    forall p | p in s'.disk ensures RightFile(c, s'.recs, p, s'.disk[p]) {
      assert RightFile(c, s.recs, p, s.disk[p]);
      SpecExtends(c, s.recs, r, p);
    }
  }

  lemma ArriveFiles(c: Config, s: System, s': System, r: Rec, w: Process)
    requires Inv(c, s) && Enabled(c, s, Arrive(r)) && s' == s.(recs := s.recs + [r])
    requires w.from < w.at <= |s.recs| && ReadyRight(c, s, w) && WritingRight(c, s, w) && LostRight(c, s, w)
    ensures ReadyRight(c, s', w) && WritingRight(c, s', w) && LostRight(c, s', w)
  {
    hide UnitOf, SpecFile, NonEmpty, ProcessSound, SavedTo, InTime, Numbered, DiskRight, Holds, FilesOf, Boundary;
    ArriveRecs(c, s, r);
    var ts := s.recs[w.at - 1].out.ts;
    forall i | 0 <= i < |w.state.ready| ensures UnitRight(c, s'.recs, w.state.ready[i], ts) {
      assert UnitRight(c, s.recs, w.state.ready[i], ts);
      forall p | p in FilesOf(w.state.ready[i]) ensures SpecFile(c, s'.recs, p) == SpecFile(c, s.recs, p) {
        SpecExtends(c, s.recs, r, p);
      }
    }
    if w.writing.Some? {
      forall p | p in w.writing.value ensures SpecFile(c, s'.recs, p) == SpecFile(c, s.recs, p) {
        SpecExtends(c, s.recs, r, p);
      }
    }
    forall p | p in w.lost ensures NonEmpty(SpecFile(c, s'.recs, p)) { SpecExtends(c, s.recs, r, p); }
  }

  lemma ArriveWorking(c: Config, s: System, s': System, r: Rec, w: Process)
    requires Inv(c, s) && Enabled(c, s, Arrive(r)) && s' == s.(recs := s.recs + [r])
    requires w.from < w.at <= |s.recs| && Working(c, s, w)
    ensures Working(c, s', w)
  {
    hide UnitOf, SpecFile, NonEmpty, ProcessSound, SavedTo, InTime, Numbered, DiskRight, Holds, FilesOf, ReadyRight,
      WritingRight, LostRight, Boundary;
    ArriveRecs(c, s, r);
    ArriveFiles(c, s, s', r, w);
    BeginSame(c, s.recs, r, w.from, w.at);
    assert s'.recs[w.from..w.at] == s.recs[w.from..w.at];
    var ts := s.recs[w.at - 1].out.ts;
    forall p ensures Kept(c, s', w, p) {
      assert Kept(c, s, w, p);
      if p.unit < UnitOf(c, ts) { SpecExtends(c, s.recs, r, p); }
    }
  }

  lemma ArriveKeeps(c: Config, s: System, r: Rec)
    requires Inv(c, s) && Enabled(c, s, Arrive(r))
    ensures Inv(c, Perform(c, s, Arrive(r)))
  {
    hide UnitOf, Working, Boundary, SavedTo, DiskRight, InTime, Numbered;
    var s' := Perform(c, s, Arrive(r));
    ArriveRecs(c, s, r);
    ArriveSaved(c, s, s', r, s.mark);
    ArriveDisk(c, s, s', r);
    if s.proc.Some? {
      ArriveSaved(c, s, s', r, s.proc.value.from);
      if s.proc.value.at > s.proc.value.from { ArriveWorking(c, s, s', r, s.proc.value); }
    }
  }

  // ---- applying ----------------------------------------------------------------------------------

  lemma FilesWhere(x: Unit, p: Path)
    ensures p in FilesOf(x) <==> p.unit == x.start && match p {
      case TradesPath(s, _) => RowsOf(x.trades, s) != []
      case BarsPath(s, _) => RowsOf(x.bars, s) != []
    }
    ensures p in FilesOf(x) ==> FilesOf(x)[p] == match p {
      case TradesPath(s, _) => TradeRows(RowsOf(x.trades, s))
      case BarsPath(s, _) => BarRows(RowsOf(x.bars, s))
    }
  {
    TradesWhere(x, p);
    BarsWhere(x, p);
    hide TradeFiles, BarFiles;
  }

  lemma TradesWhere(x: Unit, p: Path)
    ensures p in TradeFiles(x) <==> p.TradesPath? && p.unit == x.start && RowsOf(x.trades, p.symbol) != []
    ensures p in TradeFiles(x) ==> TradeFiles(x)[p] == TradeRows(RowsOf(x.trades, p.symbol))
  {
  }

  lemma BarsWhere(x: Unit, p: Path)
    ensures p in BarFiles(x) <==> p.BarsPath? && p.unit == x.start && RowsOf(x.bars, p.symbol) != []
    ensures p in BarFiles(x) ==> BarFiles(x)[p] == BarRows(RowsOf(x.bars, p.symbol))
  {
  }

  /** A unit sealed complete holds exactly the files that belong to it. */
  lemma SealedFiles(c: Config, x: Unit, recs: seq<Rec>, slice: seq<Rec>, unit: int, p: Path)
    requires Allowed(c) && SealedRight(c, x, slice, unit)
    requires TradesOf(c, slice, unit, p.symbol) == TradesOf(c, recs, unit, p.symbol)
    ensures p in FilesOf(x) <==> p.unit == unit && NonEmpty(SpecFile(c, recs, p))
    ensures p in FilesOf(x) ==> FilesOf(x)[p] == SpecFile(c, recs, p)
    ensures p in FilesOf(x) ==> HoldsRows(x)
  {
    hide FilesOf, BarsFile, TradesOf;
    FilesWhere(x, p);
    assert SealedSymbol(c, x, slice, unit, p.symbol);
  }

  lemma FirstKeeps(c: Config, s: System, sampled: bool)
    requires Inv(c, s) && Enabled(c, s, ApplyNext(sampled)) && s.proc.value.at == s.proc.value.from
    ensures Inv(c, Perform(c, s, ApplyNext(sampled)))
  {
    hide UnitOf, Holds, ApplyRec, SavedTo, DiskRight, InTime, Numbered, SpecFile, NonEmpty, Boundary;
    var w, s' := s.proc.value, Perform(c, s, ApplyNext(sampled));
    var r, w' := s.recs[w.at], s'.proc.value;
    Begins(c, r, sampled);
    OneRecord(s.recs, w.at);
    assert Sized(w'.state, c.widths) by { LastIs(c, w'.state, [r]); }
    SavedSame(c, s, s', w.from);
  }

  lemma OneRecord(recs: seq<Rec>, k: nat)
    requires k < |recs|
    ensures recs[k..k + 1] == [recs[k]]
  {
  }

  lemma SavedSame(c: Config, s: System, s': System, k: nat)
    requires Allowed(c) && s'.recs == s.recs && s'.disk == s.disk && k <= |s.recs|
    ensures SavedTo(c, s', k) <==> SavedTo(c, s, k)
    ensures DiskRight(c, s') <==> DiskRight(c, s)
  {
    hide Due, RightFile;
  }

  /** The next record belongs to the open unit. */
  lemma StayKeeps(c: Config, s: System, w: Process, sampled: bool)
    requires Inv(c, s) && s.proc == Some(w) && w.from < w.at < |s.recs| && w.writing == None
    requires UnitOf(c, s.recs[w.at].out.ts) == UnitOf(c, s.recs[w.at - 1].out.ts)
    ensures var w' := w.(at := w.at + 1, state := ApplyRec(c, w.state, s.recs[w.at], sampled));
      Working(c, s, w') && Sized(w'.state, c.widths)
  {
    hide UnitOf, Holds, ApplyRec, SavedTo, DiskRight, InTime, Numbered, SpecFile, NonEmpty, Boundary, FilesOf;
    var slice, r := s.recs[w.from..w.at], s.recs[w.at];
    var w' := w.(at := w.at + 1, state := ApplyRec(c, w.state, r, sampled));
    Grows(c, w.state, slice, r, sampled);
    assert s.recs[w.from..w.at + 1] == slice + [r];
    LastIs(c, w'.state, slice + [r]);
    forall i | 0 <= i < |w.state.ready| ensures UnitRight(c, s.recs, w'.state.ready[i], r.out.ts) {
      assert UnitRight(c, s.recs, w.state.ready[i], s.recs[w.at - 1].out.ts);
    }
    forall p ensures Kept(c, s, w', p) { assert Kept(c, s, w, p); }
  }

  /** The next record begins a later unit, and the open one is sealed. */
  lemma MoveKeeps(c: Config, s: System, w: Process, sampled: bool)
    requires Inv(c, s) && s.proc == Some(w) && w.from < w.at < |s.recs| && w.writing == None
    requires UnitOf(c, s.recs[w.at - 1].out.ts) < UnitOf(c, s.recs[w.at].out.ts)
    ensures var w' := w.(at := w.at + 1, state := ApplyRec(c, w.state, s.recs[w.at], sampled));
      Working(c, s, w') && Sized(w'.state, c.widths)
  {
    hide UnitOf, Holds, ApplyRec, SavedTo, DiskRight, SpecFile, NonEmpty, Boundary, FilesOf, SealedRight, HoldsRows;
    var slice, r := s.recs[w.from..w.at], s.recs[w.at];
    var w' := w.(at := w.at + 1, state := ApplyRec(c, w.state, r, sampled));
    var unit := UnitOf(c, s.recs[w.at - 1].out.ts);
    assert s.recs[w.from..w.at + 1] == slice + [r];
    assert slice[|slice| - 1] == s.recs[w.at - 1];
    LastIs(c, w.state, slice);
    Seals(c, w.state, slice, r, sampled);
    LastIs(c, w'.state, slice + [r]);
    var x: Unit :| SealedRight(c, x, slice, unit)
      && w'.state.ready == if HoldsRows(x) || sampled then w.state.ready + [x] else w.state.ready;
    StartIs(c, x, slice, unit);
    hide InTime, Numbered;
    forall p ensures SealedFile(c, s, x, unit, p) { SealedSlice(c, s, w, x, unit, p); }
    MoveReady(c, s, w, w', x, unit, sampled);
    forall p ensures Kept(c, s, w', p) { MoveKept(c, s, w, w', x, unit, sampled, p); }
  }

  lemma StartIs(c: Config, x: Unit, recs: seq<Rec>, unit: int)
    requires Allowed(c) && SealedRight(c, x, recs, unit)
    ensures x.start == unit
  {
  }

  ghost predicate SealedFile(c: Config, s: System, x: Unit, unit: int, p: Path)
    requires Allowed(c)
  {
    && (p in FilesOf(x) <==> p.unit == unit && NonEmpty(SpecFile(c, s.recs, p)))
    && (p in FilesOf(x) ==> FilesOf(x)[p] == SpecFile(c, s.recs, p) && HoldsRows(x))
  }

  lemma SealedSlice(c: Config, s: System, w: Process, x: Unit, unit: int, p: Path)
    requires Allowed(c) && InTime(s.recs) && Boundary(c, s.recs, w.from) && w.from < w.at < |s.recs|
    requires unit == UnitOf(c, s.recs[w.at - 1].out.ts) < UnitOf(c, s.recs[w.at].out.ts)
    requires SealedRight(c, x, s.recs[w.from..w.at], unit)
    ensures SealedFile(c, s, x, unit, p)
  {
    hide UnitOf, SealedRight, HoldsRows, FilesOf, SpecFile, NonEmpty, TradesOf;
    UnitsInOrder(c, s.recs, w.from, w.at - 1);
    SliceHasAll(c, s.recs, w.from, w.at, unit, p.symbol);
    SealedFiles(c, x, s.recs, s.recs[w.from..w.at], unit, p);
  }

  lemma MoveReady(c: Config, s: System, w: Process, w': Process, x: Unit, unit: int, sampled: bool)
    requires Allowed(c) && w.from < w.at < |s.recs| && w'.from == w.from && w'.at == w.at + 1
    requires ReadyRight(c, s, w) && unit == UnitOf(c, s.recs[w.at - 1].out.ts) < UnitOf(c, s.recs[w.at].out.ts)
    requires w'.state.ready == if HoldsRows(x) || sampled then w.state.ready + [x] else w.state.ready
    requires x.start == unit && forall p :: SealedFile(c, s, x, unit, p)
    ensures ReadyRight(c, s, w')
  {
    hide UnitOf, HoldsRows, FilesOf, SpecFile, NonEmpty;
    forall i | 0 <= i < |w'.state.ready| ensures UnitRight(c, s.recs, w'.state.ready[i], s.recs[w.at].out.ts) {
      if i < |w.state.ready| {
        assert UnitRight(c, s.recs, w.state.ready[i], s.recs[w.at - 1].out.ts);
      } else {
        forall p | p in FilesOf(x) ensures p.unit == x.start && FilesOf(x)[p] == SpecFile(c, s.recs, p) {
          assert SealedFile(c, s, x, unit, p);
        }
      }
    }
  }

  lemma MoveKept(c: Config, s: System, w: Process, w': Process, x: Unit, unit: int, sampled: bool, p: Path)
    requires Allowed(c) && InTime(s.recs) && w.from < w.at < |s.recs| && w'.from == w.from && w'.at == w.at + 1
    requires Kept(c, s, w, p) && w.writing == None && w'.writing == None && w'.lost == w.lost
    requires unit == UnitOf(c, s.recs[w.at - 1].out.ts) < UnitOf(c, s.recs[w.at].out.ts)
    requires w'.state.ready == if HoldsRows(x) || sampled then w.state.ready + [x] else w.state.ready
    requires SealedFile(c, s, x, unit, p)
    ensures Kept(c, s, w', p)
  {
    hide UnitOf, HoldsRows, FilesOf, SpecFile, NonEmpty;
    var next := UnitOf(c, s.recs[w.at].out.ts);
    if unit <= p.unit < next && NonEmpty(SpecFile(c, s.recs, p)) {
      SpecHasRecord(c, s.recs, p);
      var i :| 0 <= i < |s.recs| && UnitOf(c, s.recs[i].out.ts) == p.unit;
      if i < w.at { UnitsInOrder(c, s.recs, i, w.at - 1); } else { UnitsInOrder(c, s.recs, w.at, i); }
      assert p in FilesOf(x);
      assert w'.state.ready[|w.state.ready|] == x;
    } else if p.unit < unit {
      ReadyGrows(w.state.ready, w'.state.ready, p);
    }
  }

  lemma ReadyGrows(a: seq<Unit>, b: seq<Unit>, p: Path)
    requires a <= b
    ensures InReady(a, p) ==> InReady(b, p)
  {
  }

  lemma ApplyKeeps(c: Config, s: System, sampled: bool)
    requires Inv(c, s) && Enabled(c, s, ApplyNext(sampled))
    ensures Inv(c, Perform(c, s, ApplyNext(sampled)))
  {
    hide Inv, Perform;
    PositionsOrdered(c, s);
    if s.proc.value.at == s.proc.value.from {
      FirstKeeps(c, s, sampled);
    } else {
      LaterKeeps(c, s, sampled);
    }
  }

  lemma PositionsOrdered(c: Config, s: System)
    requires Inv(c, s) && s.proc.Some?
    ensures s.proc.value.from <= s.proc.value.at <= |s.recs| && Allowed(c) && InTime(s.recs)
  {
  }

  lemma LaterKeeps(c: Config, s: System, sampled: bool)
    requires Inv(c, s) && Enabled(c, s, ApplyNext(sampled)) && s.proc.value.at > s.proc.value.from
    ensures Inv(c, Perform(c, s, ApplyNext(sampled)))
  {
    hide UnitOf, Working, ApplyRec, SavedTo, DiskRight, Numbered, Boundary, InTime;
    var w, s' := s.proc.value, Perform(c, s, ApplyNext(sampled));
    var w' := s'.proc.value;
    UnitsInOrder(c, s.recs, w.at - 1, w.at);
    if UnitOf(c, s.recs[w.at].out.ts) == UnitOf(c, s.recs[w.at - 1].out.ts) {
      StayKeeps(c, s, w, sampled);
    } else {
      MoveKeeps(c, s, w, sampled);
    }
    WorkingSame(c, s, s', w');
    SavedSame(c, s, s', w.from);
    SavedSame(c, s, s', s.mark);
  }

  /** The work depends on the records, the disk and the bookmark alone. */
  lemma WorkingSame(c: Config, s: System, s': System, w: Process)
    requires Allowed(c) && w.from < w.at <= |s.recs| && Working(c, s, w)
    requires s'.recs == s.recs && s'.disk == s.disk && s'.mark == s.mark
    ensures Working(c, s', w)
  {
    hide UnitOf, Holds, SpecFile, NonEmpty, FilesOf;
    forall p ensures Kept(c, s', w, p) { assert Kept(c, s, w, p); }
  }

  // ---- writing -----------------------------------------------------------------------------------

  lemma {:induction false} AllFilesWhere(units: seq<Unit>, p: Path)
    ensures p in AllFilesOf(units) <==> InReady(units, p)
    ensures p in AllFilesOf(units) ==>
      exists i :: 0 <= i < |units| && p in FilesOf(units[i]) && AllFilesOf(units)[p] == FilesOf(units[i])[p]
    decreases |units|
  {
    hide FilesOf;
    if units != [] {
      var n := |units| - 1;
      AllFilesWhere(units[..n], p);
      if p in FilesOf(units[n]) {
      } else if InReady(units[..n], p) {
        var i :| 0 <= i < n && p in FilesOf(units[..n][i]) && AllFilesOf(units[..n])[p] == FilesOf(units[..n][i])[p];
        assert units[i] == units[..n][i];
      } else {
        forall i | 0 <= i < |units| ensures p !in FilesOf(units[i]) { assert i < n ==> units[..n][i] == units[i]; }
      }
    }
  }

  lemma DrainWorking(c: Config, s: System, w: Process)
    requires Inv(c, s) && s.proc == Some(w) && w.from < w.at <= |s.recs| && Working(c, s, w)
    requires w.writing == None && w.state.ready != []
    ensures Working(c, s, w.(state := w.state.(ready := []), writing := Some(AllFilesOf(w.state.ready))))
  {
    hide UnitOf, SpecFile, FilesOf, AllFilesOf, BeginOf, SavedTo, DiskRight, Numbered, InTime, HoldsSymbol,
      ProcessSound;
    var w' := w.(state := w.state.(ready := []), writing := Some(AllFilesOf(w.state.ready)));
    var ts := s.recs[w.at - 1].out.ts;
    forall p | p in w'.writing.value
      ensures p.unit < UnitOf(c, ts) && w'.writing.value[p] == SpecFile(c, s.recs, p) && NonEmpty(w'.writing.value[p])
    {
      AllFilesWhere(w.state.ready, p);
      var i :| 0 <= i < |w.state.ready| && p in FilesOf(w.state.ready[i])
        && AllFilesOf(w.state.ready)[p] == FilesOf(w.state.ready[i])[p];
      assert UnitRight(c, s.recs, w.state.ready[i], ts);
      FileNotEmpty(w.state.ready[i], p);
    }
    forall p ensures Kept(c, s, w', p) {
      assert Kept(c, s, w, p);
      AllFilesWhere(w.state.ready, p);
    }
  }

  lemma FileNotEmpty(x: Unit, p: Path)
    ensures p in FilesOf(x) ==> NonEmpty(FilesOf(x)[p])
  {
    hide FilesOf;
    FilesWhere(x, p);
  }

  lemma DrainKeeps(c: Config, s: System)
    requires Inv(c, s) && Enabled(c, s, Drain)
    ensures Inv(c, Perform(c, s, Drain))
  {
    hide UnitOf, Working, SavedTo, DiskRight, Numbered, Boundary, AllFilesOf, InTime;
    var w, s' := s.proc.value, Perform(c, s, Drain);
    DrainWorking(c, s, w);
    WorkingSame(c, s, s', s'.proc.value);
    SavedSame(c, s, s', w.from);
    SavedSame(c, s, s', s.mark);
  }

  lemma WriteKeeps(c: Config, s: System, path: Path)
    requires Inv(c, s) && Enabled(c, s, WriteFile(path))
    ensures Inv(c, Perform(c, s, WriteFile(path)))
  {
    hide UnitOf, Numbered, Boundary, InTime, SpecFile, FilesOf, Holds, NonEmpty, Due;
    var w, s' := s.proc.value, Perform(c, s, WriteFile(path));
    var w' := s'.proc.value;
    UnitsToLast(c, s, w.at - 1);
    forall p | p in s'.disk ensures RightFile(c, s'.recs, p, s'.disk[p]) {
      if p != path { assert RightFile(c, s.recs, p, s.disk[p]); }
    }
    forall p ensures Kept(c, s', w', p) { assert Kept(c, s, w, p); }
  }

  lemma WriteFailsKeeps(c: Config, s: System)
    requires Inv(c, s) && Enabled(c, s, WriteFails)
    ensures Inv(c, Perform(c, s, WriteFails))
  {
    hide UnitOf, Numbered, Boundary, InTime, SpecFile, FilesOf, Holds, NonEmpty, RightFile;
    var w, s' := s.proc.value, Perform(c, s, WriteFails);
    SavedSame(c, s, s', s.mark);
    forall p ensures Kept(c, s', s'.proc.value, p) { assert Kept(c, s, w, p); }
  }

  lemma UnitsToLast(c: Config, s: System, i: nat)
    requires Inv(c, s) && i < |s.recs|
    ensures UnitOf(c, s.recs[i].out.ts) <= LastUnit(c, s.recs)
  {
    UnitsInOrder(c, s.recs, i, |s.recs| - 1);
  }

  /** The bookmark moves to where the open unit begins. */
  lemma MarkFacts(c: Config, s: System, w: Process)
    requires Inv(c, s) && s.proc == Some(w) && w.writing == Some(map[])
    ensures w.from < w.at <= |s.recs| && Working(c, s, w)
    ensures var k := BeginOf(c, s.recs, w.from, w.at);
      Checkpoint(w.state) == k > w.from && s.mark <= k && Boundary(c, s.recs, k)
  {
    hide UnitOf, Numbered, SpecFile, FilesOf, NonEmpty, HoldsSymbol, DiskRight;
    BeginUnit(c, s.recs, w.from, w.at);
    var unit := UnitOf(c, s.recs[w.at - 1].out.ts);
    assert s.recs[w.from..w.at][|s.recs[w.from..w.at]| - 1] == s.recs[w.at - 1];
    OneOpen(w.state, unit);
  }

  /** If everything before the old bookmark was on disk, everything before the new one is exactly when every
      lost file is on disk all the same, written by an earlier process. */
  lemma MarkSaves(c: Config, s: System, w: Process)
    requires Inv(c, s) && s.proc == Some(w) && w.writing == Some(map[]) && SavedTo(c, s, s.mark)
    ensures w.from < w.at <= |s.recs|
    ensures SavedTo(c, s, BeginOf(c, s.recs, w.from, w.at)) <==> w.lost <= s.disk.Keys
  {
    hide UnitOf, Numbered, SpecFile, FilesOf, NonEmpty, HoldsSymbol, DiskRight, Holds;
    MarkFacts(c, s, w);
    var k := BeginOf(c, s.recs, w.from, w.at);
    BeginUnit(c, s.recs, w.from, w.at);
    forall p | p in w.lost ensures Due(c, s.recs, k, p) {}
    if w.lost <= s.disk.Keys {
      forall p | Due(c, s.recs, k, p) ensures p in s.disk {
        assert Kept(c, s, w, p);
        if p.unit < UnitOf(c, s.recs[w.from].out.ts) { EarlierIsSaved(c, s, w.from, p); }
      }
    }
  }

  lemma OneOpen(a: Archive, unit: int)
    requires a.open.Keys == {unit}
    ensures Checkpoint(a) == a.open[unit].resumeAfter
  {
    assert unit in a.open.Keys;
    assert a.open != map[];
  }

  lemma EarlierIsSaved(c: Config, s: System, from: nat, p: Path)
    requires Inv(c, s) && from <= s.mark && from < |s.recs| && SavedTo(c, s, s.mark)
    requires p.unit < UnitOf(c, s.recs[from].out.ts) && NonEmpty(SpecFile(c, s.recs, p))
    ensures p in s.disk
  {
    hide UnitOf, SpecFile, NonEmpty, ProcessSound, DiskRight;
    if from > 0 {
      UnitsInOrder(c, s.recs, from, s.mark);
      assert Due(c, s.recs, s.mark, p);
    } else {
      SpecHasRecord(c, s.recs, p);
      var i :| 0 <= i < |s.recs| && UnitOf(c, s.recs[i].out.ts) == p.unit;
      UnitsInOrder(c, s.recs, 0, i);
    }
  }

  lemma MarkKeeps(c: Config, s: System)
    requires Inv(c, s) && Enabled(c, s, Mark)
    ensures Inv(c, Perform(c, s, Mark)) && s.mark <= Perform(c, s, Mark).mark
  {
    hide UnitOf, Numbered, SpecFile, FilesOf, NonEmpty, Holds, DiskRight, InTime, Checkpoint, SavedTo, Boundary,
      RightFile;
    var w, s' := s.proc.value, Perform(c, s, Mark);
    MarkFacts(c, s, w);
    SavedSame(c, s, s', w.from);
    forall p ensures Kept(c, s', s'.proc.value, p) { assert Kept(c, s, w, p); }
  }

  // ---- every event -------------------------------------------------------------------------------

  lemma EventKeeps(c: Config, s: System, e: Event)
    requires Inv(c, s) && Enabled(c, s, e)
    ensures Inv(c, Perform(c, s, e)) && s.mark <= Perform(c, s, e).mark
  {
    match e
    case Arrive(r) => hide Inv; ArriveKeeps(c, s, r);
    case ApplyNext(sampled) => hide Inv; ApplyKeeps(c, s, sampled);
    case Drain => hide Inv; DrainKeeps(c, s);
    case WriteFile(path) => hide Inv; WriteKeeps(c, s, path);
    case WriteFails => hide Inv; WriteFailsKeeps(c, s);
    case Mark => hide Inv; MarkKeeps(c, s);
    case Resume =>
      hide UnitOf, Numbered, Boundary, InTime, Due, RightFile;
      SavedSame(c, s, Perform(c, s, Resume), s.mark);
    case Crash =>
      hide UnitOf, Numbered, Boundary, InTime, Due, RightFile;
      SavedSame(c, s, Perform(c, s, Crash), s.mark);
  }

  lemma StartSound(c: Config)
    requires Allowed(c)
    ensures Inv(c, Start()) && SavedTo(c, Start(), 0)
  {
  }
}
