/** The archiver over whole runs, with crashes and failed writes anywhere in them: what is on disk, and when
    the bookmark can be trusted. */
module ArchiveHistory {
  import opened Contracts
  import opened Bars
  import opened ArchiveModel
  import opened ArchiveSpec
  import opened ArchiveSteps
  import opened ArchiveRuns

  /** The state a list of events leads to; `None` when one of them cannot happen where it stands. */
  ghost function StateAfter(c: Config, events: seq<Event>): Option<System>
    requires Allowed(c)
    decreases |events|
  {
    if events == [] then Some(Start())
    else
      var before := StateAfter(c, events[..|events| - 1]);
      var e := events[|events| - 1];
      if before.Some? && Typed(c, before.value) && Enabled(c, before.value, e) then Some(Perform(c, before.value, e))
      else None
  }

  ghost predicate Reaches(c: Config, events: seq<Event>, s: System) {
    Allowed(c) && StateAfter(c, events) == Some(s)
  }

  lemma {:induction false} ReachableIsSound(c: Config, events: seq<Event>, s: System)
    requires Reaches(c, events, s)
    ensures Inv(c, s)
    decreases |events|
  {
    hide Inv, Perform, Enabled;
    if events == [] {
      StartSound(c);
    } else {
      var n := |events| - 1;
      var before := StateAfter(c, events[..n]).value;
      ReachableIsSound(c, events[..n], before);
      EventKeeps(c, before, events[n]);
    }
  }

  // ---- the bookmark --------------------------------------------------------------------------------

  /** Every file of every unit before the bookmark is on disk. */
  ghost predicate Saved(c: Config, s: System)
    requires Allowed(c) && s.mark <= |s.recs|
  {
    SavedTo(c, s, s.mark)
  }

  /** The bookmark moves past a file whose write failed and which no earlier process had written. */
  ghost predicate Forgets(s: System, e: Event) {
    e.Mark? && s.proc.Some? && !(s.proc.value.lost <= s.disk.Keys)
  }

  /** Only that step can make the bookmark wrong, and it always does. */
  lemma StepSaved(c: Config, s: System, e: Event)
    requires Inv(c, s) && Enabled(c, s, e) && Saved(c, s)
    ensures Inv(c, Perform(c, s, e))
    ensures Saved(c, Perform(c, s, e)) <==> !Forgets(s, e)
  {
    hide ProcessSound, DiskRight, Numbered, InTime, SavedTo, Boundary, Checkpoint, BeginOf, AllFilesOf, ApplyRec;
    EventKeeps(c, s, e);
    match e
    case Arrive(r) => ArriveMark(c, s, r);
    case WriteFile(path) => MoreOnDisk(c, s, Perform(c, s, e));
    case Mark => MarkMoves(c, s);
    case _ => MoreOnDisk(c, s, Perform(c, s, e));
  }

  lemma ArriveMark(c: Config, s: System, r: Rec)
    requires Inv(c, s) && Enabled(c, s, Arrive(r)) && Saved(c, s)
    ensures s.mark <= |Perform(c, s, Arrive(r)).recs| && Saved(c, Perform(c, s, Arrive(r)))
  {
    hide SavedTo, Boundary, ProcessSound, DiskRight;
    ArriveSaved(c, s, Perform(c, s, Arrive(r)), r, s.mark);
  }

  lemma MoreOnDisk(c: Config, s: System, s': System)
    requires Allowed(c) && s.mark <= |s.recs| && Saved(c, s)
    requires s'.recs == s.recs && s'.mark == s.mark && s.disk.Keys <= s'.disk.Keys
    ensures Saved(c, s')
  {
    hide Due;
  }

  lemma MarkMoves(c: Config, s: System)
    requires Inv(c, s) && Enabled(c, s, Mark) && Saved(c, s)
    ensures Perform(c, s, Mark).mark <= |s.recs|
    ensures Saved(c, Perform(c, s, Mark)) <==> s.proc.value.lost <= s.disk.Keys
  {
    hide ProcessSound, DiskRight, Numbered, InTime, SavedTo, Boundary, Checkpoint, Working;
    var w, s' := s.proc.value, Perform(c, s, Mark);
    MarkFacts(c, s, w);
    MarkSaves(c, s, w);
    SavedSame(c, s, s', s'.mark);
  }

  /** The bookmark was right after every event of the run. */
  ghost predicate AlwaysSaved(c: Config, events: seq<Event>)
    requires Allowed(c) && StateAfter(c, events).Some?
    decreases |events|
  {
    var s := StateAfter(c, events).value;
    s.mark <= |s.recs| && Saved(c, s) && (events != [] ==> AlwaysSaved(c, events[..|events| - 1]))
  }

  ghost predicate NeverForgets(c: Config, events: seq<Event>)
    requires Allowed(c) && StateAfter(c, events).Some?
    decreases |events|
  {
    events != [] ==>
      var n := |events| - 1;
      NeverForgets(c, events[..n]) && !Forgets(StateAfter(c, events[..n]).value, events[n])
  }

  /** The bookmark can be trusted throughout a run if and only if it was never moved past a file that a failed
      write had left off the disk. */
  lemma {:induction false} BookmarkIsExact(c: Config, events: seq<Event>)
    requires Allowed(c) && StateAfter(c, events).Some?
    ensures AlwaysSaved(c, events) <==> NeverForgets(c, events)
    decreases |events|
  {
    hide Inv, Perform, Enabled, Saved, Forgets;
    var s := StateAfter(c, events).value;
    ReachableIsSound(c, events, s);
    MarkInRange(c, s);
    if events == [] {
      StartSaved(c);
    } else {
      var n := |events| - 1;
      var before := StateAfter(c, events[..n]).value;
      BookmarkIsExact(c, events[..n]);
      ReachableIsSound(c, events[..n], before);
      MarkInRange(c, before);
      if AlwaysSaved(c, events[..n]) { StepSaved(c, before, events[n]); }
    }
  }

  lemma MarkInRange(c: Config, s: System)
    requires Inv(c, s)
    ensures s.mark <= |s.recs|
  {
  }

  lemma StartSaved(c: Config)
    requires Allowed(c)
    ensures Start().mark <= |Start().recs| && Saved(c, Start())
  {
    StartSound(c);
  }

  /** The bookmark never moves back, and everything before it is on disk and right. */
  lemma BookmarkIsSafe(c: Config, events: seq<Event>, s: System, e: Event)
    requires Reaches(c, events, s) && NeverForgets(c, events) && Typed(c, s) && Enabled(c, s, e)
    ensures s.mark <= Perform(c, s, e).mark <= |Perform(c, s, e).recs|
    ensures s.mark <= |s.recs|
    ensures forall p :: Due(c, s.recs, s.mark, p) ==> p in s.disk && s.disk[p] == SpecFile(c, s.recs, p)
  {
    hide Forgets, StateAfter, NeverForgets, SpecFile, NonEmpty, ProcessSound;
    ReachableIsSound(c, events, s);
    BookmarkIsExact(c, events);
    EventKeeps(c, s, e);
    hide Enabled, Perform;
    forall p | Due(c, s.recs, s.mark, p) ensures p in s.disk && s.disk[p] == SpecFile(c, s.recs, p) {
      assert RightFile(c, s.recs, p, s.disk[p]);
    }
  }

  // ---- a write that fails --------------------------------------------------------------------------

  /** The state that more events lead to. */
  ghost function StateFrom(c: Config, s: System, events: seq<Event>): Option<System>
    decreases |events|
  {
    if events == [] then Some(s)
    else
      var before := StateFrom(c, s, events[..|events| - 1]);
      var e := events[|events| - 1];
      if before.Some? && Typed(c, before.value) && Enabled(c, before.value, e) then Some(Perform(c, before.value, e))
      else None
  }

  lemma OneMoreEvent(c: Config, s: System, events: seq<Event>, e: Event, t: System)
    requires StateFrom(c, s, events) == Some(t) && Typed(c, t) && Enabled(c, t, e)
    ensures StateFrom(c, s, events + [e]) == Some(Perform(c, t, e))
  {
    hide Typed, Enabled, Perform;
    assert (events + [e])[..|events|] == events;
  }

  /** Some of the drained files have been written. */
  function Wrote(s: System, done: set<Path>): System
    requires s.proc.Some? && s.proc.value.writing.Some?
  {
    var w := s.proc.value;
    s.(disk := s.disk + Part(w.writing.value, done), proc := Some(w.(writing := Some(w.writing.value - done))))
  }

  lemma {:induction false} WriteSome(c: Config, s: System, files: map<Path, File>, done: set<Path>)
      returns (events: seq<Event>)
    requires Typed(c, s) && s.proc.Some? && s.proc.value.writing == Some(files) && done <= files.Keys
    ensures StateFrom(c, s, events) == Some(Wrote(s, done))
    ensures forall i :: 0 <= i < |events| ==> events[i].WriteFile?
    decreases done
  {
    if done == {} {
      events := [];
      assert files - {} == files && s.disk + Part(files, {}) == s.disk;
    } else {
      hide StateFrom, Sized, Allowed, AllFilesOf, ApplyRec, Checkpoint;
      var p :| p in done;
      var earlier := WriteSome(c, s, files, done - {p});
      OneMoreWrite(c, s, files, done, p);
      OneMoreEvent(c, s, earlier, WriteFile(p), Wrote(s, done - {p}));
      events := earlier + [WriteFile(p)];
    }
  }

  lemma OneMoreWrite(c: Config, s: System, files: map<Path, File>, done: set<Path>, p: Path)
    requires Typed(c, s) && s.proc.Some? && s.proc.value.writing == Some(files) && done <= files.Keys && p in done
    ensures var t := Wrote(s, done - {p});
      Typed(c, t) && Enabled(c, t, WriteFile(p)) && Perform(c, t, WriteFile(p)) == Wrote(s, done)
  {
    hide Sized, Allowed, AllFilesOf, ApplyRec, Checkpoint;
    assert p in files.Keys;
    assert s.disk + Part(files, done) == (s.disk + Part(files, done - {p}))[p := files[p]];
    assert files - (done - {p}) - {p} == files - done;
  }

  lemma SpecAmong(c: Config, s: System, w: Process, n: nat, p: Path)
    requires Allowed(c) && w.from < w.at <= |s.recs| && ReadyRight(c, s, w) && n <= |w.state.ready|
    ensures p in AllFilesOf(w.state.ready[..n]) ==>
      p in AllFilesOf(w.state.ready) && AllFilesOf(w.state.ready[..n])[p] == SpecFile(c, s.recs, p)
  {
    hide UnitOf, SpecFile, FilesOf, AllFilesOf;
    var units := w.state.ready;
    AllFilesWhere(units[..n], p);
    AllFilesWhere(units, p);
    if p in AllFilesOf(units[..n]) {
      var i :| 0 <= i < n && p in FilesOf(units[..n][i]) && AllFilesOf(units[..n])[p] == FilesOf(units[..n][i])[p];
      assert units[i] == units[..n][i];
      assert UnitRight(c, s.recs, units[i], s.recs[w.at - 1].out.ts);
    }
  }

  /** Some of the drained files were written before a write failed. */
  function BrokeOff(s: System, written: set<Path>): System
    requires s.proc.Some?
  {
    var w := s.proc.value;
    var files := AllFilesOf(w.state.ready);
    s.(disk := s.disk + Part(files, written),
       proc := Some(w.(state := w.state.(ready := []), writing := None, lost := w.lost + (files - written).Keys)))
  }

  lemma BreaksOff(c: Config, s: System, written: set<Path>) returns (events: seq<Event>)
    requires Typed(c, s) && Enabled(c, s, Drain) && written <= AllFilesOf(s.proc.value.state.ready).Keys
    ensures StateFrom(c, s, events) == Some(BrokeOff(s, written))
  {
    hide StateFrom, AllFilesOf, ApplyRec, Checkpoint, Allowed;
    StartsFrom(c, s);
    OneMoreEvent(c, s, [], Drain, s);
    var drained := Perform(c, s, Drain);
    var writes := WriteSome(c, drained, AllFilesOf(s.proc.value.state.ready), written);
    FromThere(c, s, [] + [Drain], drained, writes);
    var t := Wrote(drained, written);
    OneMoreEvent(c, s, [] + [Drain] + writes, WriteFails, t);
    events := [] + [Drain] + writes + [WriteFails];
  }

  /** What `WriteReady` leaves when a write fails: the files of the units before `failed`, and `done` of its own. */
  function LeftBy(s: System, w: Process, failed: nat, done: set<Path>): System
    requires failed < |w.state.ready|
  {
    var units := w.state.ready;
    s.(disk := s.disk + AllFilesOf(units[..failed]) + Part(FilesOf(units[failed]), done),
       proc := Some(w.(state := w.state.(ready := []), writing := None,
                       lost := w.lost + (AllFilesOf(units).Keys - AllFilesOf(units[..failed]).Keys - done))))
  }

  /** That is what these events leave: drain, write what was written, and fail. */
  lemma FailureIsTheEvents(c: Config, s: System, w: Process, failed: nat, done: set<Path>) returns (events: seq<Event>)
    requires Inv(c, s) && s.proc == Some(w) && w.writing == None && failed < |w.state.ready|
    requires done <= FilesOf(w.state.ready[failed]).Keys
    ensures StateFrom(c, s, events) == Some(LeftBy(s, w, failed, done))
  {
    hide FilesOf, AllFilesOf, StateFrom, Inv, Typed, Part;
    SoundIsTyped(c, s);
    var units := w.state.ready;
    var written := AllFilesOf(units[..failed]).Keys + done;
    WrittenAmong(c, s, w, failed, done);
    events := BreaksOff(c, s, written);
    assert (AllFilesOf(units) - written).Keys == AllFilesOf(units).Keys - AllFilesOf(units[..failed]).Keys - done;
  }

  lemma SoundIsTyped(c: Config, s: System)
    requires Inv(c, s)
    ensures Typed(c, s)
  {
  }

  lemma StartsFrom(c: Config, s: System)
    ensures StateFrom(c, s, []) == Some(s)
  {
  }

  lemma {:induction false} FromThere(c: Config, s: System, a: seq<Event>, t: System, b: seq<Event>)
    requires StateFrom(c, s, a) == Some(t) && StateFrom(c, t, b).Some?
    ensures StateFrom(c, s, a + b) == StateFrom(c, t, b)
    decreases |b|
  {
    hide Typed, Enabled, Perform;
    if b == [] {
      assert a + b == a;
    } else {
      var n := |b| - 1;
      FromThere(c, s, a, t, b[..n]);
      assert (a + b)[..|a + b| - 1] == a + b[..n];
    }
  }

  lemma WrittenAmong(c: Config, s: System, w: Process, failed: nat, done: set<Path>)
    requires Inv(c, s) && s.proc == Some(w) && w.state.ready != [] && failed < |w.state.ready|
    requires done <= FilesOf(w.state.ready[failed]).Keys
    ensures var units, files := w.state.ready, AllFilesOf(w.state.ready);
      var written := AllFilesOf(units[..failed]).Keys + done;
      && written <= files.Keys
      && s.disk + Part(files, written) == s.disk + AllFilesOf(units[..failed]) + Part(FilesOf(units[failed]), done)
  {
    hide UnitOf, SpecFile, FilesOf, InTime, Numbered, Boundary, SavedTo, Holds, DiskRight, AllFilesOf;
    var units, files := w.state.ready, AllFilesOf(w.state.ready);
    assert ReadyRight(c, s, w) by { ReadyIsRight(c, s, w); }
    assert units[..|units|] == units;
    forall p ensures p in AllFilesOf(units[..failed]) ==> p in files && files[p] == AllFilesOf(units[..failed])[p] {
      SpecAmong(c, s, w, failed, p);
      SpecAmong(c, s, w, |units|, p);
    }
    forall p | p in done ensures p in files && files[p] == FilesOf(units[failed])[p] {
      assert p in FilesOf(units[failed]).Keys;
      AllFilesWhere(units, p);
      SpecAmong(c, s, w, |units|, p);
      assert UnitRight(c, s.recs, units[failed], s.recs[w.at - 1].out.ts);
    }
    assert forall p :: p in Part(FilesOf(units[failed]), done) <==> p in done;
  }

  lemma ReadyIsRight(c: Config, s: System, w: Process)
    requires Inv(c, s) && s.proc == Some(w) && w.state.ready != []
    ensures w.from < w.at <= |s.recs| && ReadyRight(c, s, w)
  {
    hide UnitOf, SpecFile, FilesOf, InTime, Numbered, Boundary, SavedTo, Holds, DiskRight, ReadyRight, WritingRight,
      Kept;
  }

  // ---- the files -----------------------------------------------------------------------------------

  /** The archiver has read everything and has nothing left to write. */
  ghost predicate Idle(s: System) {
    && s.proc.Some? && s.recs != [] && s.proc.value.at == |s.recs| > s.proc.value.from
    && s.proc.value.writing == None && s.proc.value.state.ready == []
  }

  /** The files of the finished units, and no others. */
  ghost predicate Whole(c: Config, s: System)
    requires Allowed(c) && s.recs != []
  {
    forall p :: Belongs(c, s, p) <==> p in s.disk
  }

  ghost predicate Belongs(c: Config, s: System, p: Path)
    requires Allowed(c) && s.recs != []
  {
    p.unit < LastUnit(c, s.recs) && NonEmpty(SpecFile(c, s.recs, p))
  }

  /** An idle archive holds exactly the files it should if and only if its bookmark is right and every write
      that failed in this process was of a file already there. */
  lemma WholeIsExact(c: Config, events: seq<Event>, s: System)
    requires Reaches(c, events, s) && Idle(s)
    ensures s.mark <= |s.recs| && s.proc.value.state.late == 0
    ensures Whole(c, s) <==> Saved(c, s) && s.proc.value.lost <= s.disk.Keys
  {
    hide Inv, Saved, Belongs, StateAfter;
    ReachableIsSound(c, events, s);
    MarkInRange(c, s);
    forall p ensures p in s.disk ==> Belongs(c, s, p) { NothingElse(c, s, p); }
    NothingLate(c, s);
    if Whole(c, s) { WholeIsSaved(c, s); }
    if Saved(c, s) && s.proc.value.lost <= s.disk.Keys {
      forall p ensures Belongs(c, s, p) ==> p in s.disk { IdleFile(c, s, p); }
    }
  }

  lemma NothingElse(c: Config, s: System, p: Path)
    requires Inv(c, s) && s.recs != []
    ensures p in s.disk ==> Belongs(c, s, p) && s.disk[p] == SpecFile(c, s.recs, p)
  {
    hide SpecFile, NonEmpty, UnitOf, ProcessSound, Numbered, InTime, Boundary;
    assert p in s.disk ==> RightFile(c, s.recs, p, s.disk[p]);
  }

  lemma NothingLate(c: Config, s: System)
    requires Inv(c, s) && Idle(s)
    ensures s.proc.value.state.late == 0
  {
    hide UnitOf, SpecFile, NonEmpty, HoldsSymbol, Numbered, InTime, Boundary, ReadyRight, WritingRight, Sized,
      SymbolsSound, DiskRight;
  }

  lemma WholeIsSaved(c: Config, s: System)
    requires Inv(c, s) && Idle(s) && Whole(c, s)
    ensures s.mark <= |s.recs| && Saved(c, s) && s.proc.value.lost <= s.disk.Keys
  {
    hide UnitOf, SpecFile, NonEmpty, Holds, Numbered, InTime, ReadyRight, WritingRight, Kept;
    var w := s.proc.value;
    forall p | Due(c, s.recs, s.mark, p) ensures p in s.disk {
      UnitsToLast(c, s, s.mark);
      assert Belongs(c, s, p);
    }
    forall p | p in w.lost ensures p in s.disk { assert Belongs(c, s, p); }
  }

  lemma IdleFile(c: Config, s: System, p: Path)
    requires Inv(c, s) && Idle(s) && s.mark <= |s.recs| && Saved(c, s) && s.proc.value.lost <= s.disk.Keys
    ensures Belongs(c, s, p) ==> p in s.disk
  {
    hide UnitOf, SpecFile, NonEmpty, HoldsSymbol, SavedTo, Numbered, InTime, Boundary, ReadyRight, WritingRight,
      Sized, SymbolsSound;
    var w := s.proc.value;
    assert Kept(c, s, w, p);
    hide DiskRight, Working, Kept, Inv;
    if p.unit < UnitOf(c, s.recs[w.from].out.ts) && NonEmpty(SpecFile(c, s.recs, p)) {
      EarlierIsSaved(c, s, w.from, p);
    }
  }

  ghost predicate NoWriteFails(events: seq<Event>) {
    forall i :: 0 <= i < |events| ==> !events[i].WriteFails?
  }

  /** Without failed writes nothing is lost and nothing forgotten. */
  lemma {:induction false} NothingLost(c: Config, events: seq<Event>, s: System)
    requires Reaches(c, events, s) && NoWriteFails(events)
    ensures NeverForgets(c, events) && (s.proc.Some? ==> s.proc.value.lost == {})
    decreases |events|
  {
    if events != [] {
      hide AllFilesOf, ApplyRec, Checkpoint, Typed;
      var n := |events| - 1;
      NothingLost(c, events[..n], StateAfter(c, events[..n]).value);
    }
  }

  /** Whatever crashed on the way, an idle archive holds exactly the files of the finished units, each with
      exactly its unit's rows, and no row was ever late. */
  lemma CrashesLeaveNoTrace(c: Config, events: seq<Event>, s: System, p: Path)
    requires Reaches(c, events, s) && Idle(s) && NoWriteFails(events)
    ensures s.proc.value.state.late == 0
    ensures p in s.disk <==> p.unit < LastUnit(c, s.recs) && NonEmpty(SpecFile(c, s.recs, p))
    ensures p in s.disk ==> s.disk[p] == SpecFile(c, s.recs, p)
  {
    hide Inv, SpecFile, NonEmpty, StateAfter, Saved;
    NothingLost(c, events, s);
    BookmarkIsExact(c, events);
    WholeIsExact(c, events, s);
    ReachableIsSound(c, events, s);
    assert AlwaysSaved(c, events);
    assert Whole(c, s);
    assert Belongs(c, s, p) <==> p in s.disk;
    NothingElse(c, s, p);
  }

  /** So an interrupted archive and an uninterrupted one of the same stream are the same files. */
  lemma SameFiles(c: Config, events: seq<Event>, s: System, other: seq<Event>, t: System)
    requires Reaches(c, events, s) && Reaches(c, other, t) && Idle(s) && Idle(t) && s.recs == t.recs
    requires NoWriteFails(events) && NoWriteFails(other)
    ensures s.disk == t.disk
  {
    hide Reaches, Idle, SpecFile, NonEmpty, NoWriteFails;
    forall p ensures p in s.disk <==> p in t.disk {
      CrashesLeaveNoTrace(c, events, s, p);
      CrashesLeaveNoTrace(c, other, t, p);
    }
    forall p | p in s.disk ensures s.disk[p] == t.disk[p] {
      CrashesLeaveNoTrace(c, events, s, p);
      CrashesLeaveNoTrace(c, other, t, p);
    }
  }

  ghost predicate TradesOrdered(trades: seq<Trade>) {
    forall i, j :: 0 <= i < j < |trades| ==> trades[i].ts <= trades[j].ts
  }

  lemma {:induction false} TradesInTime(c: Config, recs: seq<Rec>, unit: int, s: int)
    requires Allowed(c) && InTime(recs)
    ensures var trades := TradesOf(c, recs, unit, s);
      TradesOrdered(trades) && forall i :: 0 <= i < |trades| ==> recs != [] && trades[i].ts <= recs[|recs| - 1].out.ts
    decreases |recs|
  {
    hide UnitOf;
    if recs != [] {
      var n := |recs| - 1;
      TradesInTime(c, recs[..n], unit, s);
      assert n > 0 ==> recs[..n][n - 1].out.ts <= recs[n].out.ts;
    }
  }

  /** Every archived bars file reconciles, width by width, with the trades of its unit. */
  lemma ArchivedBarsReconcile(c: Config, events: seq<Event>, s: System, symbol: int, unit: int, i: nat)
    requires Reaches(c, events, s) && BarsPath(symbol, unit) in s.disk && i < |c.widths|
    ensures Allowed(c) && i < |Widths(c)| && s.disk[BarsPath(symbol, unit)].BarRows?
    ensures Reconciles(OfWidth(s.disk[BarsPath(symbol, unit)].bars, Widths(c)[i]), symbol, Widths(c)[i],
                       Ticks(TradesOf(c, s.recs, unit, symbol)))
  {
    ReachableIsSound(c, events, s);
    hide UnitOf, Reconciles, ProcessSound, BarsFile, TradesOf, OfWidth;
    var p := BarsPath(symbol, unit);
    assert RightFile(c, s.recs, p, s.disk[p]);
    TradesInTime(c, s.recs, unit, symbol);
    assert NonDecreasing(Ticks(TradesOf(c, s.recs, unit, symbol)));
    BarsFileReconciles(c, symbol, TradesOf(c, s.recs, unit, symbol), i);
  }
}
