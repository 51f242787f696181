/** A run in which one write fails, the process goes on, and the bookmark moves past what was never written. */
module ArchiveLosses {
  import opened Contracts
  import opened ArchiveModel
  import opened ArchiveSpec
  import opened ArchiveSteps
  import opened ArchiveRuns
  import opened ArchiveHistory

  const SECOND := 1_000_000_000
  const TRADE := Rec(1, Fill(0, 1, 2, 3, 4, 10, 1, 5, BUY))
  const LATER := Rec(2, CashCredited(SECOND, 0, 3, 1))
  const LAST := Rec(3, CashCredited(2 * SECOND, 0, 3, 1))
  const LOST_FILE := TradesPath(5, 0)

  /** One-second bars, flushed every second. */
  function Setup(): (c: Config)
    ensures Allowed(c) && UnitOf(c, 0) == 0 && UnitOf(c, SECOND) == SECOND && UnitOf(c, 2 * SECOND) == 2 * SECOND
  {
    Config([1], 1)
  }

  lemma Follows(c: Config, events: seq<Event>, e: Event, s: System)
    requires Reaches(c, events, s) && Typed(c, s) && Enabled(c, s, e)
    ensures Reaches(c, events + [e], Perform(c, s, e))
    ensures NeverForgets(c, events + [e]) <==> NeverForgets(c, events) && !Forgets(s, e)
  {
    hide Typed, Enabled, Perform, Forgets;
    assert (events + [e])[..|events|] == events;
  }

  // ---- what is sealed ------------------------------------------------------------------------------

  lemma TradesAre(s: int)
    ensures TradesOf(Setup(), [TRADE], 0, 5) == [TradeOf(TRADE)]
    ensures TradesOf(Setup(), [TRADE, LATER], SECOND, s) == []
  {
    hide UnitOf, Setup;
    var c := Setup();
    assert [] + [TRADE] == [TRADE] && [TRADE] + [LATER] == [TRADE, LATER];
    TradesAppend(c, [], TRADE, 0, 5);
    TradesAppend(c, [], TRADE, SECOND, s);
    TradesAppend(c, [TRADE], LATER, SECOND, s);
  }

  /** The process after the trade, then after the first record of the next second. */
  function One(): Archive { ApplyRec(Setup(), Empty(), TRADE, false) }

  ghost predicate Sealing(two: Archive) {
    && Holds(Setup(), two, [TRADE, LATER])
    && LOST_FILE in AllFilesOf(two.ready) && two.ready != []
  }

  lemma TradeIsSealed()
    ensures Sized(One(), Setup().widths) && Sealing(ApplyRec(Setup(), One(), LATER, false))
  {
    hide UnitOf, Setup, ApplyRec, Holds, SealedRight, HoldsRows, FilesOf;
    var c := Setup();
    Begins(c, TRADE, false);
    LastIs(c, One(), [TRADE]);
    assert [TRADE] + [LATER] == [TRADE, LATER];
    Seals(c, One(), [TRADE], LATER, false);
    var two := ApplyRec(c, One(), LATER, false);
    var x: Unit :| SealedRight(c, x, [TRADE], 0) && two.ready == if HoldsRows(x) || false then [] + [x] else [];
    TradesAre(0);
    SealedFiles(c, x, [TRADE], [TRADE], 0, LOST_FILE);
    assert two.ready == [x];
    AllFilesWhere([x], LOST_FILE);
  }

  /** A unit that sealed only for its samples has none of these files. */
  lemma NothingToWrite(two: Archive)
    requires Sealing(two)
    ensures Sized(two, Setup().widths)
    ensures var three := ApplyRec(Setup(), two.(ready := []), LAST, true);
      three.ready != [] && AllFilesOf(three.ready) == map[] && Sized(three, Setup().widths)
  {
    hide UnitOf, Setup, ApplyRec, SealedRight, HoldsRows, FilesOf, HoldsSymbol, AllFilesOf, SpecFile, NonEmpty;
    var c, recs := Setup(), [TRADE, LATER];
    var drained := two.(ready := []);
    assert Holds(c, drained, recs);
    Seals(c, drained, recs, LAST, true);
    var three := ApplyRec(c, drained, LAST, true);
    LastIs(c, three, recs + [LAST]);
    var x: Unit :| SealedRight(c, x, recs, SECOND) && three.ready == if HoldsRows(x) || true then [] + [x] else [];
    assert three.ready == [x];
    forall p ensures p !in AllFilesOf([x]) {
      AllFilesWhere([x], p);
      SealedFiles(c, x, recs, recs, SECOND, p);
      QuietUnit(p);
    }
  }

  lemma QuietUnit(p: Path)
    ensures p.unit == SECOND ==> !NonEmpty(SpecFile(Setup(), [TRADE, LATER], p))
  {
    if p.unit == SECOND {
      hide UnitOf, Setup, TradesOf;
      TradesAre(p.symbol);
      FoldOfNone(Setup(), p.symbol);
      NoneListed(Widths(Setup()));
    }
  }

  // ---- the run -------------------------------------------------------------------------------------

  ghost predicate SafelyReaches(events: seq<Event>, s: System) {
    Reaches(Setup(), events, s) && NeverForgets(Setup(), events)
  }

  lemma Goes(events: seq<Event>, e: Event, s: System)
    requires SafelyReaches(events, s) && Typed(Setup(), s) && Enabled(Setup(), s, e) && !Forgets(s, e)
    ensures SafelyReaches(events + [e], Perform(Setup(), s, e))
  {
    hide Typed, Enabled, Perform, Forgets, Setup;
    Follows(Setup(), events, e, s);
  }

  const ALL := [TRADE, LATER, LAST]
  const ARRIVALS: seq<Event> := [] + [Arrive(TRADE)] + [Arrive(LATER)] + [Arrive(LAST)]

  const DRAINED: seq<Event> := ARRIVALS + [Resume] + [ApplyNext(false)] + [ApplyNext(false)] + [Drain]

  /** The trade's unit seals, its write fails, and the next unit seals for its samples alone. */
  const FAILING: seq<Event> := DRAINED + [WriteFails] + [ApplyNext(true)] + [Drain]

  function Reading(p: Process): System {
    System(ALL, map[], 0, Some(p))
  }

  lemma Arrivals()
    ensures SafelyReaches(ARRIVALS, System(ALL, map[], 0, None))
  {
    assert SafelyReaches([], Start());
    hide SafelyReaches, Setup;
    assert [] + [TRADE] == [TRADE] && [TRADE] + [LATER] == [TRADE, LATER] && [TRADE, LATER] + [LAST] == ALL;
    Goes([], Arrive(TRADE), Start());
    Goes([] + [Arrive(TRADE)], Arrive(LATER), System([TRADE], map[], 0, None));
    Goes([] + [Arrive(TRADE)] + [Arrive(LATER)], Arrive(LAST), System([TRADE, LATER], map[], 0, None));
  }

  function Two(): Archive
    requires Sized(One(), Setup().widths)
  {
    ApplyRec(Setup(), One(), LATER, false)
  }

  lemma Drained()
    ensures Sized(One(), Setup().widths)
    ensures SafelyReaches(DRAINED, Reading(Process(0, 2, Two().(ready := []), Some(AllFilesOf(Two().ready)), {})))
  {
    hide SafelyReaches, Setup, ApplyRec, AllFilesOf, Sealing;
    Arrivals();
    TradeIsSealed();
    var events := ARRIVALS;
    Goes(events, Resume, System(ALL, map[], 0, None));
    Goes(events + [Resume], ApplyNext(false), Reading(Process(0, 0, Empty(), None, {})));
    Goes(events + [Resume] + [ApplyNext(false)], ApplyNext(false), Reading(Process(0, 1, One(), None, {})));
    SealingFacts(Two());
    Goes(events + [Resume] + [ApplyNext(false)] + [ApplyNext(false)], Drain, Reading(Process(0, 2, Two(), None, {})));
  }

  lemma SealingFacts(two: Archive)
    requires Sealing(two)
    ensures two.ready != [] && LOST_FILE in AllFilesOf(two.ready) && Sized(two, Setup().widths)
  {
    hide AllFilesOf, Setup;
    LastIs(Setup(), two, [TRADE, LATER]);
  }

  lemma WriteLost()
    ensures Sized(One(), Setup().widths)
    ensures exists p: Process ::
      SafelyReaches(FAILING, Reading(p)) && p.writing == Some(map[]) && LOST_FILE in p.lost
        && Sized(p.state, Setup().widths)
  {
    hide SafelyReaches, Setup, ApplyRec, AllFilesOf, Sealing, Two, DRAINED;
    Drained();
    var two := Two();
    assert Sealing(two) by { SealingTwo(); }
    SealingFacts(two);
    NothingToWrite(two);
    var lost := {} + AllFilesOf(two.ready).Keys;
    Goes(DRAINED, WriteFails, Reading(Process(0, 2, two.(ready := []), Some(AllFilesOf(two.ready)), {})));
    Goes(DRAINED + [WriteFails], ApplyNext(true), Reading(Process(0, 2, two.(ready := []), None, lost)));
    var three := ApplyRec(Setup(), two.(ready := []), LAST, true);
    Goes(DRAINED + [WriteFails] + [ApplyNext(true)], Drain, Reading(Process(0, 3, three, None, lost)));
    assert SafelyReaches(FAILING, Reading(Process(0, 3, three.(ready := []), Some(AllFilesOf(three.ready)), lost)));
  }

  lemma SealingTwo()
    ensures Sized(One(), Setup().widths) && Sealing(Two())
  {
    hide Sealing, ApplyRec, Setup;
    TradeIsSealed();
  }

  /** Then the bookmark moves, and what lies before it is not all on disk. */
  lemma FailedWriteIsForgotten()
    ensures StateAfter(Setup(), FAILING).Some? && StateAfter(Setup(), FAILING + [Mark]).Some?
    ensures AlwaysSaved(Setup(), FAILING) && !AlwaysSaved(Setup(), FAILING + [Mark])
  {
    hide Setup, FAILING, AlwaysSaved, NeverForgets, Checkpoint, StateAfter;
    WriteLost();
    var p: Process :| SafelyReaches(FAILING, Reading(p)) && p.writing == Some(map[]) && LOST_FILE in p.lost
      && Sized(p.state, Setup().widths);
    Follows(Setup(), FAILING, Mark, Reading(p));
    BookmarkIsExact(Setup(), FAILING);
    BookmarkIsExact(Setup(), FAILING + [Mark]);
  }
}
