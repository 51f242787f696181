/** The consumer over whole runs: batches whose flush commits, rolls back or commits unseen, crashes,
    checkpoints, and recoveries. Every flush known to succeed leaves the tables equal to the full
    projection of a genesis replay. */
module LedgerRuns {
  import opened Contracts
  import opened EngineSpec
  import opened LedgerModel
  import opened OrderViews
  import opened ReadModel

  /** `full` is `_needs_full_flush`. */
  datatype Worker = Worker(at: nat, books: Books, full: bool)

  datatype Saved = Saved(at: nat, books: Books)

  datatype System = System(rs: seq<Outbound>, db: Tables, saved: Option<Saved>, worker: Option<Worker>)

  datatype Outcome = Commits | RollsBack | CommitsUnseen

  datatype Event =
    | Arrive(r: Outbound)
    | Batch(count: nat, outcome: Outcome)
    | SaveCheckpoint
    | Crash
    | Recover(outcome: Outcome)

  function TouchedBy(rs: seq<Outbound>): Dirty {
    if rs == [] then CLEAN else Both(TouchedBy(rs[..|rs| - 1]), Touched(rs[|rs| - 1]))
  }

  /** The database may hold anything when the first consumer starts. */
  function Start(db: Tables): System {
    System([], db, None, None)
  }

  ghost predicate Enabled(s: System, e: Event) {
    match e
    case Arrive(r) => r.OrderAccepted? ==> !AcceptedIn(s.rs, r.orderId)
    case Batch(count, _) => s.worker.Some? && count > 0 && s.worker.value.at + count <= |s.rs|
    case SaveCheckpoint => s.worker.Some? && !s.worker.value.full
    case Crash => true
    case Recover(_) => s.worker == None
  }

  /** What a flush leaves in the database, whoever gets to hear of it. */
  function FlushedTo(db: Tables, b: Books, dirty: Dirty, full: bool, outcome: Outcome): Tables
    requires dirty.accounts <= b.cash.Keys
  {
    if outcome == RollsBack then db else Flushed(db, b, dirty, full)
  }

  ghost predicate Typed(s: System) {
    && (s.worker.Some? ==>
          s.worker.value.at <= |s.rs| && s.worker.value.books == ApplyAll(EMPTY, s.rs[..s.worker.value.at]))
    && (s.saved.Some? ==>
          s.saved.value.at <= |s.rs| && s.saved.value.books == ApplyAll(EMPTY, s.rs[..s.saved.value.at]))
  }

  lemma {:induction false} TouchedHaveCash(b: Books, rs: seq<Outbound>)
    ensures TouchedBy(rs).accounts <= ApplyAll(b, rs).cash.Keys && b.cash.Keys <= ApplyAll(b, rs).cash.Keys
    decreases |rs|
  {
    if rs != [] {
      TouchedHaveCash(b, rs[..|rs| - 1]);
    }
  }

  function Perform(s: System, e: Event): System
    requires Typed(s) && Enabled(s, e)
  {
    match e
    case Arrive(r) => s.(rs := s.rs + [r])
    case Batch(count, outcome) =>
      var w := s.worker.value;
      var batch := s.rs[w.at..w.at + count];
      var books := ApplyAll(w.books, batch);
      TouchedHaveCash(w.books, batch);
      s.(db := FlushedTo(s.db, books, TouchedBy(batch), w.full, outcome),
         worker := Some(Worker(w.at + count, books, outcome != Commits)))
    case SaveCheckpoint => s.(saved := Some(Saved(s.worker.value.at, s.worker.value.books)))
    case Crash => s.(worker := None)
    case Recover(outcome) =>
      var from := if s.saved.Some? then s.saved.value else Saved(0, EMPTY);
      var books := ApplyAll(from.books, s.rs[from.at..]);
      s.(db := FlushedTo(s.db, books, CLEAN, true, outcome),
         worker := if outcome == Commits then Some(Worker(|s.rs|, books, false)) else None)
  }

  // ---- the invariant ---------------------------------------------------------------------------

  /** With no account rows to begin with: none belongs to a user the ledger has not seen, and the tables are the
      projection unless a full flush is due. */
  ghost predicate Inv(s: System) {
    && Typed(s) && AcceptedOnce(s.rs)
    && s.db.accounts.Keys <= ApplyAll(EMPTY, s.rs[..if s.worker.Some? then s.worker.value.at else |s.rs|]).cash.Keys
    && (s.worker.Some? && !s.worker.value.full ==> s.db == Projection(s.worker.value.books))
  }

  lemma {:induction false} ApplySplit(b: Books, x: seq<Outbound>, y: seq<Outbound>)
    ensures ApplyAll(b, x + y) == ApplyAll(ApplyAll(b, x), y)
    decreases |y|
  {
    if y == [] {
      assert x + y == x;
    } else {
      ApplySplit(b, x, y[..|y| - 1]);
      assert (x + y)[..|x + y| - 1] == x + y[..|y| - 1];
    }
  }

  lemma ReplayOn(rs: seq<Outbound>, p: nat, q: nat)
    requires p <= q <= |rs|
    ensures ApplyAll(ApplyAll(EMPTY, rs[..p]), rs[p..q]) == ApplyAll(EMPTY, rs[..q])
    ensures ApplyAll(EMPTY, rs[..p]).cash.Keys <= ApplyAll(EMPTY, rs[..q]).cash.Keys
  {
    ApplySplit(EMPTY, rs[..p], rs[p..q]);
    assert rs[..p] + rs[p..q] == rs[..q];
    TouchedHaveCash(ApplyAll(EMPTY, rs[..p]), rs[p..q]);
  }

  lemma {:induction false} OpenWereAccepted(rs: seq<Outbound>)
    ensures forall id :: id in ApplyAll(EMPTY, rs).open ==> AcceptedIn(rs, id)
    decreases |rs|
  {
    if rs != [] {
      var n := |rs| - 1;
      OpenWereAccepted(rs[..n]);
      forall id | id in ApplyAll(EMPTY, rs).open ensures AcceptedIn(rs, id) {
        if id in ApplyAll(EMPTY, rs[..n]).open {
          var i :| 0 <= i < n && rs[..n][i].OrderAccepted? && rs[..n][i].orderId == id;
          assert rs[i].OrderAccepted? && rs[i].orderId == id;
        } else {
          assert rs[n].OrderAccepted? && rs[n].orderId == id;
        }
      }
    }
  }

  /** While a batch is applied, the rows it has not touched still match. */
  lemma {:induction false} BatchCovers(rs: seq<Outbound>, p: nat, q: nat)
    requires p <= q <= |rs| && AcceptedOnce(rs)
    ensures Covers(Projection(ApplyAll(EMPTY, rs[..p])), ApplyAll(EMPTY, rs[..q]), TouchedBy(rs[p..q]))
    decreases q
  {
    hide Covers, ApplyOne, Touched, Both;
    var base := ApplyAll(EMPTY, rs[..p]);
    if p == q {
      ProjectionCovers(base);
      assert rs[p..q] == [];
    } else {
      var n := q - 1;
      BatchCovers(rs, p, n);
      assert rs[p..q][..n - p] == rs[p..n] && rs[..q][..n] == rs[..n];
      StillFresh(rs, p, n);
      CoversStep(Projection(base), ApplyAll(EMPTY, rs[..n]), TouchedBy(rs[p..n]), rs[n]);
    }
  }

  /** A newly accepted order has no row yet. */
  lemma StillFresh(rs: seq<Outbound>, p: nat, n: nat)
    requires p <= n < |rs| && AcceptedOnce(rs)
    ensures rs[n].OrderAccepted? ==> rs[n].orderId !in Projection(ApplyAll(EMPTY, rs[..p])).orders
  {
    OpenWereAccepted(rs[..p]);
    if rs[n].OrderAccepted? {
      assert !AcceptedIn(rs[..n], rs[n].orderId);
      forall i | 0 <= i < p ensures rs[..p][i] == rs[..n][i] {}
    }
  }

  // ---- each event keeps it ---------------------------------------------------------------------

  lemma ArriveKeeps(s: System, r: Outbound)
    requires Inv(s) && Enabled(s, Arrive(r))
    ensures Inv(Perform(s, Arrive(r)))
  {
    var s' := Perform(s, Arrive(r));
    hide ApplyOne, ApplyAll, Projection;
    forall k | 0 <= k <= |s.rs| ensures s'.rs[..k] == s.rs[..k] {}
    if s.worker == None { ReplayOn(s'.rs, |s.rs|, |s'.rs|); }
    forall i | 0 <= i < |s'.rs| && s'.rs[i].OrderAccepted? ensures !AcceptedIn(s'.rs[..i], s'.rs[i].orderId) {
      assert s'.rs[..i] == s.rs[..i];
      if i < |s.rs| { assert s.rs[i] == s'.rs[i]; }
    }
  }

  /** A batch's flush, if it commits, writes the full projection. */
  lemma BatchFlush(s: System, count: nat)
    requires Inv(s) && s.worker.Some? && s.worker.value.at + count <= |s.rs|
    ensures var w := s.worker.value;
      var batch := s.rs[w.at..w.at + count];
      var books := ApplyAll(w.books, batch);
      && books == ApplyAll(EMPTY, s.rs[..w.at + count])
      && TouchedBy(batch).accounts <= books.cash.Keys
      && Flushed(s.db, books, TouchedBy(batch), w.full) == Projection(books)
      && s.db.accounts.Keys <= books.cash.Keys
  {
    hide ApplyAll, Flushed, TouchedBy, Projection, AcceptedOnce, Covers;
    var w := s.worker.value;
    var batch := s.rs[w.at..w.at + count];
    ReplayOn(s.rs, w.at, w.at + count);
    TouchedHaveCash(w.books, batch);
    var books := ApplyAll(w.books, batch);
    if !w.full {
      BatchCovers(s.rs, w.at, w.at + count);
      IncrementalIsFull(s.db, books, TouchedBy(batch));
    } else {
      FullIsProjection(s.db, books, TouchedBy(batch));
    }
  }

  lemma BatchKeeps(s: System, count: nat, outcome: Outcome)
    requires Inv(s) && Enabled(s, Batch(count, outcome))
    ensures Inv(Perform(s, Batch(count, outcome)))
  {
    hide ApplyAll, Flushed, TouchedBy, AcceptedOnce;
    BatchFlush(s, count);
  }

  lemma RecoverKeeps(s: System, outcome: Outcome)
    requires Inv(s) && Enabled(s, Recover(outcome))
    ensures Inv(Perform(s, Recover(outcome)))
  {
    var from := if s.saved.Some? then s.saved.value else Saved(0, EMPTY);
    assert s.rs[..0] == [] && s.rs[from.at..] == s.rs[from.at..|s.rs|];
    ReplayOn(s.rs, from.at, |s.rs|);
    FullIsProjection(s.db, ApplyAll(EMPTY, s.rs[..|s.rs|]), CLEAN);
    hide ApplyAll, Flushed, AcceptedOnce;
  }

  lemma EventKeeps(s: System, e: Event)
    requires Inv(s) && Enabled(s, e)
    ensures Inv(Perform(s, e))
  {
    match e
    case Arrive(r) => ArriveKeeps(s, r);
    case Batch(count, outcome) => BatchKeeps(s, count, outcome);
    case Recover(outcome) => RecoverKeeps(s, outcome);
    case SaveCheckpoint => hide ApplyAll, Projection, AcceptedOnce;
    case Crash =>
      hide ApplyOne, Projection, AcceptedOnce, ApplyAll;
      if s.worker.Some? { ReplayOn(s.rs, s.worker.value.at, |s.rs|); }
  }

  /** Account rows that were there to begin with change nothing else. */
  lemma EventOver(rows: map<int, int>, s: System, e: Event)
    requires Typed(s) && Enabled(s, e)
    ensures var over := s.(db := Over(rows, s.db));
      && Typed(over) && Enabled(over, e)
      && Perform(over, e) == Perform(s, e).(db := Over(rows, Perform(s, e).db))
  {
    hide Over, Flushed, ApplyAll, TouchedBy;
    match e
    case Batch(count, outcome) =>
      var w := s.worker.value;
      var batch := s.rs[w.at..w.at + count];
      TouchedHaveCash(w.books, batch);
      FlushOver(rows, s.db, ApplyAll(w.books, batch), TouchedBy(batch), w.full);
    case Recover(outcome) =>
      var from := if s.saved.Some? then s.saved.value else Saved(0, EMPTY);
      FlushOver(rows, s.db, ApplyAll(from.books, s.rs[from.at..]), CLEAN, true);
    case _ =>
  }

  ghost predicate Reaches(db: Tables, events: seq<Event>, s: System)
    decreases |events|
  {
    if events == [] then s == Start(db)
    else exists before: System ::
      && Reaches(db, events[..|events| - 1], before) && Typed(before) && Enabled(before, events[|events| - 1])
      && s == Perform(before, events[|events| - 1])
  }

  /** Every reachable state is a sound one laid over the account rows of the beginning. */
  lemma {:induction false} ReachableIsSound(db: Tables, events: seq<Event>, s: System) returns (core: System)
    requires Reaches(db, events, s)
    ensures Inv(core) && s == core.(db := Over(db.accounts, core.db))
    decreases |events|
  {
    hide Inv, Perform, Enabled;
    if events == [] {
      core := Start(db.(accounts := map[]));
      StartsSound(db);
    } else {
      var e := events[|events| - 1];
      var before: System :|
        Reaches(db, events[..|events| - 1], before) && Typed(before) && Enabled(before, e) && s == Perform(before, e);
      var earlier := ReachableIsSound(db, events[..|events| - 1], before);
      EnabledOver(earlier, before, e);
      EventOver(db.accounts, earlier, e);
      EventKeeps(earlier, e);
      core := Perform(earlier, e);
    }
  }

  lemma EnabledOver(s: System, s': System, e: Event)
    requires Inv(s) && s == s'.(db := s.db) && Enabled(s', e)
    ensures Typed(s) && Enabled(s, e)
  {
  }

  lemma StartsSound(db: Tables)
    ensures Inv(Start(db.(accounts := map[])))
    ensures Start(db) == Start(db.(accounts := map[])).(db := Over(db.accounts, db.(accounts := map[])))
  {
    assert db.accounts + map[] == db.accounts;
  }

  /** Whatever the database held, and whatever batches, failures, crashes and recoveries came before, a flush that
      succeeds leaves the full projection of a genesis replay over the first account rows: so it leaves the
      projection itself exactly when all of those belong to users the ledger knows by now. The next flush need
      write only what is touched from then on. */
  lemma SuccessfulFlushIsFull(db: Tables, events: seq<Event>, s: System, e: Event)
    requires Reaches(db, events, s) && Typed(s) && Enabled(s, e)
    requires (e.Batch? && e.outcome == Commits) || (e.Recover? && e.outcome == Commits)
    ensures var s' := Perform(s, e);
      && s'.worker.Some? && s'.worker.value.at <= |s'.rs|
      && s'.worker.value.books == ApplyAll(EMPTY, s'.rs[..s'.worker.value.at])
      && s'.db == Over(db.accounts, Projection(ApplyAll(EMPTY, s'.rs[..s'.worker.value.at])))
      && (s'.db == Projection(s'.worker.value.books) <==> db.accounts.Keys <= s'.worker.value.books.cash.Keys)
    ensures Perform(s, e).worker.value.at == (if e.Batch? then s.worker.value.at + e.count else |s.rs|)
    ensures !Perform(s, e).worker.value.full
  {
    var core := ReachableIsSound(db, events, s);
    EnabledOver(core, s, e);
    EventOver(db.accounts, core, e);
    EventKeeps(core, e);
    hide ApplyAll, Flushed, TouchedBy;
    OverKnown(db.accounts, Perform(core, e).worker.value.books);
  }

  lemma OverKnown(rows: map<int, int>, b: Books)
    ensures Over(rows, Projection(b)) == Projection(b) <==> rows.Keys <= b.cash.Keys
  {
    assert (rows + b.cash).Keys == rows.Keys + b.cash.Keys;
    if rows.Keys <= b.cash.Keys {
      assert forall u :: u in rows.Keys ==> u in b.cash.Keys;
      assert rows + b.cash == b.cash;
    }
  }

  /** Row by row: every balance of the ledger, every position that is not zero, long or short, every open order and
      the fees, and beside them only account rows that were there at first. */
  ghost predicate Shows(t: Tables, first: map<int, int>, b: Books) {
    && (forall u :: u in t.accounts <==> u in first || u in b.cash)
    && (forall u :: u in b.cash ==> t.accounts[u] == b.cash[u])
    && (forall u :: u in first && u !in b.cash ==> t.accounts[u] == first[u])
    && (forall k :: k in t.positions <==> k in b.positions && b.positions[k] != 0)
    && (forall k :: k in t.positions ==> t.positions[k] == b.positions[k])
    && t.orders == b.open && t.fees == Some(b.fees)
  }

  /** A flush that succeeds shows exactly the ledger after the records it has taken. */
  lemma SuccessfulFlushShows(db: Tables, events: seq<Event>, s: System, e: Event)
    requires Reaches(db, events, s) && Typed(s) && Enabled(s, e)
    requires (e.Batch? && e.outcome == Commits) || (e.Recover? && e.outcome == Commits)
    ensures var s' := Perform(s, e); var at := if e.Batch? then s.worker.value.at + e.count else |s.rs|;
      at <= |s.rs| && Shows(s'.db, db.accounts, ApplyAll(EMPTY, s.rs[..at]))
  {
    SuccessfulFlushIsFull(db, events, s, e);
    hide Reaches, ApplyAll, Flushed, TouchedBy;
    var at := if e.Batch? then s.worker.value.at + e.count else |s.rs|;
    ProjectionShows(db.accounts, ApplyAll(EMPTY, s.rs[..at]));
  }

  lemma ProjectionShows(first: map<int, int>, b: Books)
    ensures Shows(Over(first, Projection(b)), first, b)
  {
  }

  lemma CrashReaches(db: Tables, events: seq<Event>, s: System)
    requires Reaches(db, events, s)
    ensures Typed(s) && Enabled(s, Crash) && Reaches(db, events + [Crash], Perform(s, Crash))
    ensures Typed(Perform(s, Crash)) && Enabled(Perform(s, Crash), Recover(Commits))
  {
    var core := ReachableIsSound(db, events, s);
    hide ApplyAll;
    assert (events + [Crash])[..|events|] == events;
  }

  /** After a crash at any moment a recovery that commits has the books of a replay of the whole stream, and shows
      them. */
  lemma RecoveryShows(db: Tables, events: seq<Event>, s: System)
    requires Reaches(db, events, s)
    ensures Typed(s) && Enabled(s, Crash)
    ensures var down := Perform(s, Crash); Typed(down) && Enabled(down, Recover(Commits))
    ensures var up := Perform(Perform(s, Crash), Recover(Commits));
      && up.worker == Some(Worker(|s.rs|, ApplyAll(EMPTY, s.rs), false))
      && Shows(up.db, db.accounts, ApplyAll(EMPTY, s.rs))
  {
    hide Reaches, ApplyAll, Shows, Flushed, TouchedBy, Over, Projection;
    CrashReaches(db, events, s);
    var down := Perform(s, Crash);
    SuccessfulFlushShows(db, events + [Crash], down, Recover(Commits));
    SuccessfulFlushIsFull(db, events + [Crash], down, Recover(Commits));
    assert s.rs[..|s.rs|] == s.rs;
  }

  /** Only a save changes what a recovery starts from, and it makes it the worker's position and books. */
  lemma OnlySavesSave(s: System, e: Event)
    requires Typed(s) && Enabled(s, e)
    ensures e == SaveCheckpoint ==>
      s.worker.Some? && Perform(s, e).saved == Some(Saved(s.worker.value.at, s.worker.value.books))
    ensures e != SaveCheckpoint ==> Perform(s, e).saved == s.saved
  {
    hide ApplyAll, Flushed, TouchedBy;
  }

  /** A database that holds a row of a user the stream never names keeps it through a full flush. */
  lemma StrangerStays()
    ensures var db := Tables(map[9 := 5], map[], map[], None);
      && Reaches(db, [], Start(db)) && Enabled(Start(db), Recover(Commits))
      && Perform(Start(db), Recover(Commits)).db != Projection(EMPTY)
  {
    var db := Tables(map[9 := 5], map[], map[], None);
    assert 9 in Perform(Start(db), Recover(Commits)).db.accounts;
  }

  // ---- the stream is the engine's ------------------------------------------------------------------

  function Arrivals(rs: seq<Outbound>): seq<Event> {
    if rs == [] then [] else Arrivals(rs[..|rs| - 1]) + [Arrive(rs[|rs| - 1])]
  }

  /** Whatever the engine emits may arrive, record by record. */
  lemma {:induction false} AcceptedOnceArrives(db: Tables, rs: seq<Outbound>)
    requires AcceptedOnce(rs)
    ensures Reaches(db, Arrivals(rs), Start(db).(rs := rs))
    decreases |rs|
  {
    if rs != [] {
      var n := |rs| - 1;
      forall i | 0 <= i < n && rs[..n][i].OrderAccepted? ensures !AcceptedIn(rs[..n][..i], rs[..n][i].orderId) {
        assert rs[..n][..i] == rs[..i] && rs[..n][i] == rs[i];
      }
      AcceptedOnceArrives(db, rs[..n]);
      var before := Start(db).(rs := rs[..n]);
      assert rs[..n] + [rs[n]] == rs;
      var events, last := Arrivals(rs), Arrive(rs[n]);
      assert events[..|events| - 1] == Arrivals(rs[..n]) && events[|events| - 1] == last;
      assert rs[n].OrderAccepted? ==> !AcceptedIn(before.rs, rs[n].orderId);
      assert Typed(before) && Enabled(before, last) && Start(db).(rs := rs) == Perform(before, last);
    }
  }

  /** So the consumer's runs over any inbound sequence exist: their guard on arrivals is the engine's promise. */
  lemma EngineOutputArrives(d: Dialect, grant: int, inbound: seq<Inbound>, db: Tables)
    ensures Good(Fresh(grant))
    ensures var out := Run(d, Fresh(grant), inbound).out; Reaches(db, Arrivals(out), Start(db).(rs := out))
  {
    EngineAcceptsOnce(d, grant, inbound);
    AcceptedOnceArrives(db, Run(d, Fresh(grant), inbound).out);
  }
}
