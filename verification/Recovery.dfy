/** The matcher process among its streams: gateway appends, atomic batches whose reply may be lost,
    crashes, checkpoints, recovery one read at a time, and trimming by jobs that read the readers'
    checkpoints one by one while those advance. */
module Recovery {
  import opened Contracts
  import opened EngineSpec
  import opened Snapshots
  import opened Streams

  /** The matcher's checkpoint: both positions and the engine, written in one operation. */
  datatype Checkpoint = Checkpoint(inPos: Id, outPos: Id, state: Snapshot)

  datatype Reader = MatcherReader | GatewayReader | LedgerReader | FanoutReader | ArchiverReader

  datatype Side = InboundSide | OutboundSide

  /** A trim in progress: whose checkpoints are still to be read, and the oldest read so far. */
  datatype Job = Job(side: Side, pending: set<Reader>, oldest: Option<Id>)

  /** `Refused` is a start that the guard turned down, `Stuck` one that ran out of inbound records. */
  datatype Process =
    | Down
    | Refused
    | Stuck
    | Counting(engine: Engine, inFrom: Id, last: Id, anchors: nat)
    | Replaying(engine: Engine, last: Id, left: nat, outLast: Id)
    | Running(engine: Engine, inPos: Id, outPos: Id)

  datatype System = System(
    inbound: Stream<Inbound>, outbound: Stream<Outbound>, process: Process,
    saved: Option<Checkpoint>, others: map<Reader, Id>, jobs: seq<Job>)

  datatype Event =
    | Arrive(id: Id, r: Inbound)
    | Answer(count: nat, ids: seq<Id>)
    | AnswerThenFail(count: nat, ids: seq<Id>)
    | Crash
    | SaveCheckpoint
    | Load
    | CountBatch(count: nat)
    | ReplayBatch(count: nat)
    | ReaderSaves(reader: Reader, position: nat)
    | StartTrim(side: Side)
    | ReadPosition(job: nat, reader: Reader)
    | GiveUp(job: nat)
    | Trim(job: nat, to: nat)

  function ReadersOf(side: Side): set<Reader> {
    match side
    case InboundSide => {MatcherReader}
    case OutboundSide => {MatcherReader, GatewayReader, LedgerReader, FanoutReader, ArchiverReader}
  }

  function Position(s: System, side: Side, reader: Reader): Option<Id> {
    match reader
    case MatcherReader =>
      if s.saved == None then None
      else Some(if side == InboundSide then s.saved.value.inPos else s.saved.value.outPos)
    case _ =>
      if side == OutboundSide && reader in s.others then Some(s.others[reader]) else None
  }

  function IdsOf(s: System, side: Side): seq<Id> {
    if side == InboundSide then s.inbound.ids else s.outbound.ids
  }

  function TrimmedOf(s: System, side: Side): nat {
    if side == InboundSide then s.inbound.trimmed else s.outbound.trimmed
  }

  ghost predicate Typed(s: System) {
    && Sound(s.inbound) && Sound(s.outbound)
    && (s.process.Counting? ==> Good(s.process.engine))
    && (s.process.Replaying? ==> Good(s.process.engine))
    && (s.process.Running? ==> Good(s.process.engine))
  }

  function Start(): System {
    System(Stream([], [], 0), Stream([], [], 0), Down, None, map[], [])
  }

  // ---- what may happen -------------------------------------------------------------------------

  /** The records one step reads. */
  function Batch(s: System, count: nat): seq<Inbound>
    requires Sound(s.inbound) && s.process.Running?
  {
    s.inbound.items[Min(NextIndex(s.inbound, s.process.inPos), BatchEnd(s.inbound, s.process.inPos, count))
                    ..BatchEnd(s.inbound, s.process.inPos, count)]
  }

  ghost predicate MayAnswer(d: Dialect, s: System, count: nat, ids: seq<Id>)
    requires Typed(s)
  {
    && s.process.Running? && Batch(s, count) != []
    && |ids| == |Run(d, s.process.engine, Batch(s, count)).out|
    && Ascending(s.outbound.ids + ids)
  }

  ghost predicate Enabled(d: Dialect, s: System, e: Event)
    requires Typed(s)
  {
    match e
    case Arrive(id, r) => !r.Unrecognised? && Ascending(s.inbound.ids + [id])
    case Answer(count, ids) => MayAnswer(d, s, count, ids)
    case AnswerThenFail(count, ids) => MayAnswer(d, s, count, ids)
    case Crash => true
    case SaveCheckpoint => s.process.Running?
    case Load => s.process.Down?
    case CountBatch(count) => s.process.Counting? && count > 0
    case ReplayBatch(count) => s.process.Replaying? && count > 0
    case ReaderSaves(reader, position) =>
      && reader != MatcherReader && position <= |s.outbound.ids|
      && (reader in s.others ==> !Before(IdAt(s.outbound.ids, position), s.others[reader]))
    case StartTrim(side) => true
    case ReadPosition(job, reader) => job < |s.jobs| && reader in s.jobs[job].pending
    case GiveUp(job) => job < |s.jobs|
    case Trim(job, to) =>
      && job < |s.jobs| && s.jobs[job].pending == {}
      && s.jobs[job].oldest.Some? && s.jobs[job].oldest.value != ZERO
      && (s.jobs[job].side == InboundSide ==> MayTrim(s.inbound, s.jobs[job].oldest.value, to))
      && (s.jobs[job].side == OutboundSide ==> MayTrim(s.outbound, s.jobs[job].oldest.value, to))
  }

  // ---- what happens ----------------------------------------------------------------------------

  /** `resume_positions`, then a new or restored engine. */
  function Loaded(s: System, grant: int): Process
    requires Sound(s.inbound) && Sound(s.outbound)
  {
    var inFrom := if s.saved.Some? then s.saved.value.inPos else ZERO;
    var outFrom := if s.saved.Some? then s.saved.value.outPos else ZERO;
    if !Resumable(s.inbound, inFrom) || !Resumable(s.outbound, outFrom) then Refused
    else
      var engine := if s.saved.Some? then Restored(grant, s.saved.value.state.next, s.saved.value.state.orders)
                    else Fresh(grant);
      Counting(engine, inFrom, outFrom, 0)
  }

  /** One read of the outbound tail. */
  function Counted(s: System, count: nat): Process
    requires Sound(s.outbound) && s.process.Counting?
  {
    var p := s.process;
    var lo, hi := NextIndex(s.outbound, p.last), BatchEnd(s.outbound, p.last, count);
    if lo >= hi then Replaying(p.engine, p.inFrom, p.anchors, p.last)
    else p.(last := s.outbound.ids[hi - 1], anchors := p.anchors + Anchors(s.outbound.items[lo..hi]))
  }

  /** One read of the inbound tail, applied silently. */
  ghost function Replayed(d: Dialect, s: System, count: nat): Process
    requires Typed(s) && s.process.Replaying?
  {
    var p := s.process;
    if p.left == 0 then Running(p.engine, p.last, p.outLast)
    else
      var lo, hi := NextIndex(s.inbound, p.last), BatchEnd(s.inbound, p.last, count);
      if lo >= hi then Stuck
      else
        var to := Min(hi, lo + p.left);
        Replaying(Run(d, p.engine, s.inbound.items[lo..to]).engine, s.inbound.ids[to - 1], p.left - (to - lo),
          p.outLast)
  }

  function Append<T>(s: Stream<T>, ids: seq<Id>, items: seq<T>): Stream<T> {
    s.(ids := s.ids + ids, items := s.items + items)
  }

  function GivenUp(s: System, job: nat): System
    requires job < |s.jobs|
  {
    s.(jobs := s.jobs[..job] + s.jobs[job + 1..])
  }

  /** One more reader's checkpoint has been read. */
  function Lowered(job: Job, reader: Reader, at: Id): Job {
    job.(pending := job.pending - {reader},
         oldest := if job.oldest == None || Before(at, job.oldest.value) then Some(at) else job.oldest)
  }

  /** One step whose append succeeds: the outputs land as one unit and both positions move. */
  ghost function Advanced(d: Dialect, s: System, count: nat, ids: seq<Id>): System
    requires Typed(s) && MayAnswer(d, s, count, ids)
  {
    var step := Run(d, s.process.engine, Batch(s, count));
    s.(outbound := Append(s.outbound, ids, step.out),
       process := Running(step.engine, s.inbound.ids[BatchEnd(s.inbound, s.process.inPos, count) - 1],
                          if ids == [] then s.process.outPos else ids[|ids| - 1]))
  }

  ghost function Perform(d: Dialect, grant: int, s: System, e: Event): System
    requires Typed(s) && Enabled(d, s, e)
  {
    match e
    case Arrive(id, r) => s.(inbound := Append(s.inbound, [id], [r]))
    case Answer(count, ids) => Advanced(d, s, count, ids)
    case AnswerThenFail(count, ids) =>
      var step := Run(d, s.process.engine, Batch(s, count));
      s.(outbound := Append(s.outbound, ids, step.out), process := Down)
    case Crash => s.(process := if s.process.Refused? || s.process.Stuck? then s.process else Down)
    case SaveCheckpoint => s.(saved := Some(Checkpoint(s.process.inPos, s.process.outPos, Take(s.process.engine))))
    case Load => s.(process := Loaded(s, grant))
    case CountBatch(count) => s.(process := Counted(s, count))
    case ReplayBatch(count) => s.(process := Replayed(d, s, count))
    case ReaderSaves(reader, position) => s.(others := s.others[reader := IdAt(s.outbound.ids, position)])
    case StartTrim(side) => s.(jobs := s.jobs + [Job(side, ReadersOf(side), None)])
    case ReadPosition(job, reader) =>
      var at := Position(s, s.jobs[job].side, reader);
      if at == None then GivenUp(s, job) else s.(jobs := s.jobs[job := Lowered(s.jobs[job], reader, at.value)])
    case GiveUp(job) => GivenUp(s, job)
    case Trim(job, to) =>
      if s.jobs[job].side == InboundSide then s.(inbound := s.inbound.(trimmed := to))
      else s.(outbound := s.outbound.(trimmed := to))
  }

  // ---- the invariant ---------------------------------------------------------------------------

  /** What a fresh engine makes of the first `k` inbound records. */
  ghost function After(d: Dialect, grant: int, s: System, k: nat): Step
    requires k <= |s.inbound.items|
  {
    Run(d, Fresh(grant), s.inbound.items[..k])
  }

  function Answered(s: System): nat {
    Anchors(s.outbound.items)
  }

  /** The outbound stream is a fresh engine's answer to the first `Answered` inbound records. */
  ghost predicate Faithful(d: Dialect, grant: int, s: System) {
    && AllRecognised(s.inbound.items)
    && Answered(s) <= |s.inbound.items|
    && s.outbound.items == After(d, grant, s, Answered(s)).out
  }

  /** `pos` is where a reader stands after `k` records. */
  ghost predicate At(ids: seq<Id>, pos: Id, k: nat) {
    k <= |ids| && pos == IdAt(ids, k)
  }

  /** The checkpoint describes one moment: the first `j` records answered, `j` read off its position. */
  ghost predicate SavedSound(d: Dialect, grant: int, s: System)
    requires Sound(s.inbound)
  {
    s.saved.Some? ==>
      var cp := s.saved.value;
      var j := Rank(s.inbound.ids, cp.inPos);
      && j <= Answered(s) && At(s.inbound.ids, cp.inPos, j)
      && At(s.outbound.ids, cp.outPos, |After(d, grant, s, j).out|)
      && cp.state == Take(After(d, grant, s, j).engine)
  }

  ghost predicate OthersSound(s: System) {
    forall r :: r in s.others ==> At(s.outbound.ids, s.others[r], Rank(s.outbound.ids, s.others[r]))
  }

  /** A trimmed stream still holds the record this reader saved as its position. */
  ghost predicate KeptFor(s: System, side: Side, reader: Reader) {
    TrimmedOf(s, side) == 0 ||
    (Position(s, side, reader).Some? && TrimmedOf(s, side) < Rank(IdsOf(s, side), Position(s, side, reader).value))
  }

  ghost predicate Kept(s: System) {
    forall side, reader :: reader in ReadersOf(side) ==> KeptFor(s, side, reader)
  }

  /** Nobody whose checkpoint a job has read is now behind the oldest it read. */
  ghost predicate JobSound(s: System, job: Job) {
    forall r :: r in ReadersOf(job.side) - job.pending ==>
      job.oldest.Some? && Position(s, job.side, r).Some? && !Before(Position(s, job.side, r).value, job.oldest.value)
  }

  ghost predicate JobsSound(s: System) {
    forall i :: 0 <= i < |s.jobs| ==> JobSound(s, s.jobs[i])
  }

  /** A recovering process has not gone back behind the checkpoint. */
  ghost predicate Beyond(s: System, inAt: nat) {
    s.saved.Some? ==> Rank(s.inbound.ids, s.saved.value.inPos) <= inAt
  }

  ghost predicate ProcessSound(d: Dialect, grant: int, s: System)
    requires Typed(s)
  {
    match s.process
    case Down => true
    case Refused => false
    case Stuck => false
    case Counting(engine, inFrom, last, anchors) =>
      var j, p := Rank(s.inbound.ids, inFrom), Rank(s.outbound.ids, last);
      && j <= Answered(s) && At(s.inbound.ids, inFrom, j) && engine == After(d, grant, s, j).engine
      && At(s.outbound.ids, last, p) && Anchors(s.outbound.items[..p]) == j + anchors
      && Beyond(s, j) && (s.saved.Some? ==> Rank(s.outbound.ids, s.saved.value.outPos) <= p)
    case Replaying(engine, last, left, outLast) =>
      var r := Rank(s.inbound.ids, last);
      && r + left == Answered(s) && r <= |s.inbound.ids| && At(s.inbound.ids, last, r)
      && engine == After(d, grant, s, r).engine
      && outLast == LastGenerated(s.outbound.ids) && Beyond(s, r)
    case Running(engine, inPos, outPos) =>
      && Answered(s) <= |s.inbound.items| && engine == After(d, grant, s, Answered(s)).engine
      && At(s.inbound.ids, inPos, Answered(s)) && outPos == LastGenerated(s.outbound.ids)
  }

  ghost predicate Inv(d: Dialect, grant: int, s: System) {
    && Typed(s) && Faithful(d, grant, s) && SavedSound(d, grant, s) && OthersSound(s)
    && Kept(s) && JobsSound(s) && ProcessSound(d, grant, s)
  }

  // ---- facts about prefixes and positions ------------------------------------------------------

  lemma RankOf(ids: seq<Id>, pos: Id, k: nat)
    requires Ascending(ids) && At(ids, pos, k)
    ensures Rank(ids, pos) == k
  {
    RankAt(ids, k);
  }

  lemma AtExtends(ids: seq<Id>, more: seq<Id>, pos: Id, k: nat)
    requires At(ids, pos, k) && Ascending(ids + more)
    ensures At(ids + more, pos, k) && Rank(ids + more, pos) == k && Rank(ids, pos) == k
  {
    AscendingPrefix(ids + more, |ids|);
    assert (ids + more)[..|ids|] == ids;
    RankAt(ids, k);
    RankAt(ids + more, k);
  }

  /** Everything up to an answered record is an answered prefix of the outbound stream. */
  lemma PrefixAnswered(d: Dialect, grant: int, s: System, j: nat)
    requires Faithful(d, grant, s) && j <= Answered(s)
    ensures var out := After(d, grant, s, j).out;
      |out| <= |s.outbound.items| && s.outbound.items[..|out|] == out && Anchors(out) == j
  {
    var k := Answered(s);
    var items := s.inbound.items;
    RunSplit(d, Fresh(grant), items[..j], items[j..k]);
    assert items[..j] + items[j..k] == items[..k];
    AnchorsCountRecords(d, Fresh(grant), items[..j]);
    hide Run, Anchors;
    assert AllRecognised(items[..j]);
  }

  lemma AfterExtends(d: Dialect, grant: int, s: System, s': System, j: nat)
    requires j <= |s.inbound.items| <= |s'.inbound.items| && s'.inbound.items[..|s.inbound.items|] == s.inbound.items
    ensures After(d, grant, s', j) == After(d, grant, s, j)
  {
    assert s'.inbound.items[..j] == s.inbound.items[..j];
  }

  /** Continuing from an answered prefix answers the longer one. */
  lemma AfterContinues(d: Dialect, grant: int, s: System, j: nat, to: nat)
    requires j <= to <= |s.inbound.items|
    ensures Run(d, After(d, grant, s, j).engine, s.inbound.items[j..to]).engine == After(d, grant, s, to).engine
    ensures After(d, grant, s, to).out
            == After(d, grant, s, j).out + Run(d, After(d, grant, s, j).engine, s.inbound.items[j..to]).out
  {
    hide Run, Good, Fresh;
    var items := s.inbound.items;
    FreshIsGood(grant);
    RunSplit(d, Fresh(grant), items[..j], items[j..to]);
    assert items[..j] + items[j..to] == items[..to];
  }

  // ---- each event keeps the invariant ----------------------------------------------------------

  lemma StartsSound(d: Dialect, grant: int)
    ensures Inv(d, grant, Start())
  {
    assert Start().inbound.items[..0] == [];
  }

  /** `s'` is `s` with records appended to its streams, whatever its process now does. */
  ghost predicate Grown(s: System, s': System, inIds: seq<Id>, inItems: seq<Inbound>, outIds: seq<Id>,
                        outItems: seq<Outbound>)
  {
    && s'.inbound == Append(s.inbound, inIds, inItems) && s'.outbound == Append(s.outbound, outIds, outItems)
    && |inIds| == |inItems| && |outIds| == |outItems|
    && Ascending(s.inbound.ids + inIds) && Ascending(s.outbound.ids + outIds)
    && s'.saved == s.saved && s'.others == s.others && s'.jobs == s.jobs
  }

  lemma SavedGrows(d: Dialect, grant: int, s: System, s': System, inIds: seq<Id>, inItems: seq<Inbound>,
                   outIds: seq<Id>, outItems: seq<Outbound>)
    requires Sound(s.inbound) && SavedSound(d, grant, s) && Faithful(d, grant, s)
    requires Grown(s, s', inIds, inItems, outIds, outItems) && Sound(s'.inbound) && Answered(s) <= Answered(s')
    ensures SavedSound(d, grant, s')
  {
    hide Run, Anchors, Rank, Take, Ascending, Good;
    if s.saved.Some? {
      var cp := s.saved.value;
      var j := Rank(s.inbound.ids, cp.inPos);
      AtExtends(s.inbound.ids, inIds, cp.inPos, j);
      AfterExtends(d, grant, s, s', j);
      AtExtends(s.outbound.ids, outIds, cp.outPos, |After(d, grant, s, j).out|);
    }
  }

  lemma OthersGrow(s: System, s': System, inIds: seq<Id>, inItems: seq<Inbound>, outIds: seq<Id>,
                  outItems: seq<Outbound>)
    requires OthersSound(s) && Grown(s, s', inIds, inItems, outIds, outItems)
    ensures OthersSound(s')
  {
    hide Rank, Ascending;
    forall r | r in s'.others ensures At(s'.outbound.ids, s'.others[r], Rank(s'.outbound.ids, s'.others[r])) {
      AtExtends(s.outbound.ids, outIds, s.others[r], Rank(s.outbound.ids, s.others[r]));
    }
  }

  /** A saved position is one the stream has issued. */
  lemma PositionAt(d: Dialect, grant: int, s: System, side: Side, reader: Reader)
    requires Typed(s) && SavedSound(d, grant, s) && OthersSound(s) && Position(s, side, reader).Some?
    ensures var pos := Position(s, side, reader).value; At(IdsOf(s, side), pos, Rank(IdsOf(s, side), pos))
  {
    hide Run, Anchors, Rank, Take, Ascending, Good;
    if reader.MatcherReader? && side == OutboundSide {
      var cp := s.saved.value;
      RankOf(s.outbound.ids, cp.outPos, |After(d, grant, s, Rank(s.inbound.ids, cp.inPos)).out|);
    }
  }

  lemma KeptGrows(d: Dialect, grant: int, s: System, s': System, inIds: seq<Id>, inItems: seq<Inbound>,
                  outIds: seq<Id>, outItems: seq<Outbound>)
    requires Typed(s) && SavedSound(d, grant, s) && OthersSound(s) && Kept(s)
    requires Grown(s, s', inIds, inItems, outIds, outItems)
    ensures Kept(s')
  {
    hide Rank, Ascending, SavedSound, OthersSound, Typed;
    forall side, reader | reader in ReadersOf(side) ensures KeptFor(s', side, reader) {
      assert KeptFor(s, side, reader);
      if Position(s, side, reader).Some? {
        var pos := Position(s, side, reader).value;
        PositionAt(d, grant, s, side, reader);
        AtExtends(IdsOf(s, side), if side == InboundSide then inIds else outIds, pos, Rank(IdsOf(s, side), pos));
      }
    }
  }

  lemma JobsSame(s: System, s': System)
    requires JobsSound(s) && s'.saved == s.saved && s'.others == s.others && s'.jobs == s.jobs
    ensures JobsSound(s')
  {
    forall i | 0 <= i < |s'.jobs| ensures JobSound(s', s'.jobs[i]) {
      assert JobSound(s, s.jobs[i]);
      forall r | r in ReadersOf(s'.jobs[i].side) - s'.jobs[i].pending
        ensures Position(s', s'.jobs[i].side, r) == Position(s, s'.jobs[i].side, r) {}
    }
  }

  /** Everything but the process survives appends that leave the outbound stream faithful. */
  lemma RestGrows(d: Dialect, grant: int, s: System, s': System, inIds: seq<Id>, inItems: seq<Inbound>,
                  outIds: seq<Id>, outItems: seq<Outbound>)
    requires Inv(d, grant, s) && Grown(s, s', inIds, inItems, outIds, outItems)
    requires Typed(s') && Faithful(d, grant, s') && ProcessSound(d, grant, s') && Answered(s) <= Answered(s')
    ensures Inv(d, grant, s')
  {
    SavedGrows(d, grant, s, s', inIds, inItems, outIds, outItems);
    OthersGrow(s, s', inIds, inItems, outIds, outItems);
    KeptGrows(d, grant, s, s', inIds, inItems, outIds, outItems);
    JobsSame(s, s');
    hide SavedSound, OthersSound, Kept, JobsSound, ProcessSound, Faithful, Typed, Grown;
  }

  lemma SoundAppend<T>(s: Stream<T>, ids: seq<Id>, items: seq<T>)
    requires Sound(s) && |ids| == |items| && Ascending(s.ids + ids)
    ensures Sound(Append(s, ids, items))
  {
  }

  lemma ArriveKeeps(d: Dialect, grant: int, s: System, id: Id, r: Inbound)
    requires Inv(d, grant, s) && Enabled(d, s, Arrive(id, r))
    ensures Inv(d, grant, Perform(d, grant, s, Arrive(id, r)))
  {
    hide Run, Anchors, Rank, Good, Take, Ascending, SavedSound, OthersSound, Kept, JobsSound, KeptFor;
    var s' := Perform(d, grant, s, Arrive(id, r));
    SoundAppend(s.inbound, [id], [r]);
    AfterExtends(d, grant, s, s', Answered(s));
    assert s.outbound.ids + [] == s.outbound.ids && s.outbound.items + [] == s.outbound.items;
    ArriveProcess(d, grant, s, s', id, r);
    RestGrows(d, grant, s, s', [id], [r], [], []);
  }

  lemma ArriveProcess(d: Dialect, grant: int, s: System, s': System, id: Id, r: Inbound)
    requires Typed(s) && Typed(s') && ProcessSound(d, grant, s) && Faithful(d, grant, s)
    requires s' == s.(inbound := Append(s.inbound, [id], [r])) && Ascending(s.inbound.ids + [id])
    requires SavedSound(d, grant, s)
    ensures ProcessSound(d, grant, s')
  {
    hide Run, Anchors, Good, Take, Ascending;
    var ids := s.inbound.ids;
    if s.saved.Some? {
      AtExtends(ids, [id], s.saved.value.inPos, Rank(ids, s.saved.value.inPos));
    }
    match s.process
    case Counting(engine, inFrom, last, anchors) =>
      AtExtends(ids, [id], inFrom, Rank(ids, inFrom));
      AfterExtends(d, grant, s, s', Rank(ids, inFrom));
    case Replaying(engine, last, left, outLast) =>
      AtExtends(ids, [id], last, Rank(ids, last));
      AfterExtends(d, grant, s, s', Rank(ids, last));
    case Running(engine, inPos, outPos) =>
      AtExtends(ids, [id], inPos, Answered(s));
      AfterExtends(d, grant, s, s', Answered(s));
    case _ =>
  }

  /** A read from a position that the checkpoint does not pass misses nothing. */
  lemma InboundReadsOn(d: Dialect, grant: int, s: System, pos: Id, k: nat)
    requires Typed(s) && Kept(s) && At(s.inbound.ids, pos, k) && Beyond(s, k)
    ensures NextIndex(s.inbound, pos) == k == Rank(s.inbound.ids, pos)
  {
    hide Rank, Ascending;
    RankOf(s.inbound.ids, pos, k);
    assert KeptFor(s, InboundSide, MatcherReader);
  }

  lemma OutboundReadsOn(d: Dialect, grant: int, s: System, pos: Id, p: nat)
    requires Typed(s) && Kept(s) && At(s.outbound.ids, pos, p)
    requires s.saved.Some? ==> Rank(s.outbound.ids, s.saved.value.outPos) <= p
    ensures NextIndex(s.outbound, pos) == p == Rank(s.outbound.ids, pos)
  {
    hide Rank, Ascending;
    RankOf(s.outbound.ids, pos, p);
    assert KeptFor(s, OutboundSide, MatcherReader);
  }

  /** What a step reads and answers. */
  lemma BatchFacts(d: Dialect, grant: int, s: System, count: nat, ids: seq<Id>)
    requires Inv(d, grant, s) && MayAnswer(d, s, count, ids)
    ensures var k := Answered(s); var e := BatchEnd(s.inbound, s.process.inPos, count);
      && k < e <= |s.inbound.items| && Batch(s, count) == s.inbound.items[k..e]
      && Run(d, s.process.engine, Batch(s, count)).engine == After(d, grant, s, e).engine
      && s.outbound.items + Run(d, s.process.engine, Batch(s, count)).out == After(d, grant, s, e).out
      && Anchors(After(d, grant, s, e).out) == e
  {
    hide Run, Anchors, Rank, Good, Take, Ascending, OthersSound, JobsSound;
    var k := Answered(s);
    InboundReadsOn(d, grant, s, s.process.inPos, k);
    hide Kept, SavedSound;
    var e := BatchEnd(s.inbound, s.process.inPos, count);
    assert k < e;
    AfterContinues(d, grant, s, k, e);
    NothingAnswered(d, grant, s);
    AnchorsCountRecords(d, Fresh(grant), s.inbound.items[..e]);
    assert AllRecognised(s.inbound.items[..e]);
  }

  lemma AnswerKeeps(d: Dialect, grant: int, s: System, count: nat, ids: seq<Id>)
    requires Inv(d, grant, s) && MayAnswer(d, s, count, ids)
    ensures Inv(d, grant, Perform(d, grant, s, Answer(count, ids)))
    ensures Inv(d, grant, Perform(d, grant, s, AnswerThenFail(count, ids)))
  {
    hide Run, Anchors, Rank, Good, Take, Ascending, SavedSound, OthersSound, Kept, JobsSound, Batch, NextIndex,
      BatchEnd;
    var lost, done := Perform(d, grant, s, AnswerThenFail(count, ids)), Perform(d, grant, s, Answer(count, ids));
    AnswerSound(d, grant, s, count, ids);
    AnswerProcess(d, grant, s, count, ids);
    var out := Run(d, s.process.engine, Batch(s, count)).out;
    assert s.inbound.ids + [] == s.inbound.ids && s.inbound.items + [] == s.inbound.items;
    assert Grown(s, lost, [], [], ids, out) && Grown(s, done, [], [], ids, out);
    hide ProcessSound, Faithful, Grown, Typed, Perform;
    RestGrows(d, grant, s, lost, [], [], ids, out);
    RestGrows(d, grant, s, done, [], [], ids, out);
  }

  lemma AnswerSound(d: Dialect, grant: int, s: System, count: nat, ids: seq<Id>)
    requires Inv(d, grant, s) && MayAnswer(d, s, count, ids)
    ensures var done := Advanced(d, s, count, ids);
      && Sound(done.outbound) && Faithful(d, grant, done)
      && Answered(s) < Answered(done) == BatchEnd(s.inbound, s.process.inPos, count)
  {
    BatchFacts(d, grant, s, count, ids);
    hide Run, Anchors, Rank, Good, Take, Ascending, SavedSound, OthersSound, Kept, JobsSound, Batch, NextIndex,
      BatchEnd;
    SoundAppend(s.outbound, ids, Run(d, s.process.engine, Batch(s, count)).out);
  }

  lemma AnswerProcess(d: Dialect, grant: int, s: System, count: nat, ids: seq<Id>)
    requires Inv(d, grant, s) && MayAnswer(d, s, count, ids)
    ensures var done := Advanced(d, s, count, ids); Typed(done) && ProcessSound(d, grant, done)
  {
    hide Run, Anchors, Rank, Good, Take, Ascending, Inv, Batch, NextIndex, BatchEnd, Faithful, Perform, ProcessSound,
      At, SavedSound, OthersSound, Kept, JobsSound, Typed;
    InvHasJobs(d, grant, s);
    BatchFacts(d, grant, s, count, ids);
    AnswerSound(d, grant, s, count, ids);
    var done, e := Advanced(d, s, count, ids), BatchEnd(s.inbound, s.process.inPos, count);
    RunningLast(d, grant, s, ids);
    AfterExtends(d, grant, s, done, e);
    StandsAtEnd(d, grant, done, e);
  }

  lemma RunningLast(d: Dialect, grant: int, s: System, ids: seq<Id>)
    requires Inv(d, grant, s) && s.process.Running?
    ensures LastGenerated(s.outbound.ids + ids) == if ids == [] then s.process.outPos else ids[|ids| - 1]
  {
    assert ids == [] ==> s.outbound.ids + ids == s.outbound.ids;
  }

  lemma StandsAtEnd(d: Dialect, grant: int, s: System, e: nat)
    requires Sound(s.inbound) && Sound(s.outbound) && e <= |s.inbound.items| && Answered(s) == e
    requires s.process == Running(After(d, grant, s, e).engine, IdAt(s.inbound.ids, e), LastGenerated(s.outbound.ids))
    ensures Typed(s) && ProcessSound(d, grant, s)
  {
    hide Run, Anchors, Rank, Good, Take, Ascending;
    NothingAnswered(d, grant, s);
  }

  lemma CrashKeeps(d: Dialect, grant: int, s: System)
    requires Inv(d, grant, s)
    ensures Inv(d, grant, Perform(d, grant, s, Crash))
  {
    hide Run, Anchors, Rank, Good, Take, Ascending;
    SameRecords(d, grant, s, Perform(d, grant, s, Crash));
  }

  /** Nothing but the process depends on the process. */
  lemma SameRecords(d: Dialect, grant: int, s: System, s': System)
    requires Inv(d, grant, s) && s' == s.(process := s'.process)
    requires Typed(s') && ProcessSound(d, grant, s')
    ensures Inv(d, grant, s')
  {
    hide Run, Anchors, Rank, Good, Take, Ascending;
    JobsSame(s, s');
    hide JobsSound;
    forall side, reader | reader in ReadersOf(side) ensures KeptFor(s', side, reader) {
      assert KeptFor(s, side, reader);
    }
  }

  /** Each reader's saved position moves forward or stays. */
  ghost predicate Advances(s: System, s': System) {
    && s'.inbound == s.inbound && s'.outbound == s.outbound
    && forall side, r :: Position(s, side, r).Some? ==>
         Position(s', side, r).Some? && !Before(Position(s', side, r).value, Position(s, side, r).value)
  }

  lemma RankMonotone(ids: seq<Id>, a: Id, b: Id)
    requires Ascending(ids) && !Before(b, a)
    ensures Rank(ids, a) <= Rank(ids, b)
  {
    RankSplits(ids, a);
    RankSplits(ids, b);
    var ra, rb := Rank(ids, a), Rank(ids, b);
    assert ra == 0 || !Before(b, ids[ra - 1]);
  }

  lemma IdAtMonotone(ids: seq<Id>, j: nat, k: nat)
    requires Ascending(ids) && j <= k <= |ids|
    ensures !Before(IdAt(ids, k), IdAt(ids, j))
  {
  }

  lemma KeptAdvances(s: System, s': System)
    requires Typed(s) && Kept(s) && Advances(s, s')
    ensures Kept(s')
  {
    hide Rank, Ascending;
    forall side, r | r in ReadersOf(side) ensures KeptFor(s', side, r) {
      assert KeptFor(s, side, r);
      if Position(s, side, r).Some? {
        RankMonotone(IdsOf(s, side), Position(s, side, r).value, Position(s', side, r).value);
      }
    }
  }

  lemma JobsAdvance(s: System, s': System)
    requires JobsSound(s) && Advances(s, s') && s'.jobs == s.jobs
    ensures JobsSound(s')
  {
    forall i | 0 <= i < |s'.jobs| ensures JobSound(s', s'.jobs[i]) {
      assert JobSound(s, s.jobs[i]);
    }
  }

  lemma CheckpointKeeps(d: Dialect, grant: int, s: System)
    requires Inv(d, grant, s) && s.process.Running?
    ensures Inv(d, grant, Perform(d, grant, s, SaveCheckpoint))
  {
    hide Run, Anchors, Good, Take, Ascending, Rank, Kept, JobsSound;
    var s' := Perform(d, grant, s, SaveCheckpoint);
    var k := Answered(s);
    RankOf(s.inbound.ids, s.process.inPos, k);
    CheckpointAdvances(d, grant, s, s');
    KeptAdvances(s, s');
    JobsAdvance(s, s');
  }

  lemma CheckpointAdvances(d: Dialect, grant: int, s: System, s': System)
    requires Inv(d, grant, s) && s.process.Running? && s' == Perform(d, grant, s, SaveCheckpoint)
    ensures Advances(s, s')
  {
    hide Run, Anchors, Good, Take, Ascending, Rank, Kept, JobsSound, Before;
    forall side, r | Position(s, side, r).Some?
      ensures Position(s', side, r).Some? && !Before(Position(s', side, r).value, Position(s, side, r).value)
    {
      PositionAt(d, grant, s, side, r);
      var j := Rank(IdsOf(s, side), Position(s, side, r).value);
      if r.MatcherReader? && side == InboundSide {
        IdAtMonotone(s.inbound.ids, j, Answered(s));
      } else if r.MatcherReader? {
        IdAtMonotone(s.outbound.ids, j, |s.outbound.ids|);
      } else {
        IdAtMonotone(s.outbound.ids, j, j);
      }
    }
  }

  lemma ReaderSavesKeeps(d: Dialect, grant: int, s: System, reader: Reader, position: nat)
    requires Inv(d, grant, s) && Enabled(d, s, ReaderSaves(reader, position))
    ensures Inv(d, grant, Perform(d, grant, s, ReaderSaves(reader, position)))
  {
    hide Run, Anchors, Good, Take, Ascending, Rank, Kept, JobsSound;
    var s' := Perform(d, grant, s, ReaderSaves(reader, position));
    RankAt(s.outbound.ids, position);
    assert Advances(s, s') by {
      forall side, r | Position(s, side, r).Some?
        ensures Position(s', side, r).Some? && !Before(Position(s', side, r).value, Position(s, side, r).value)
      {
      }
    }
    KeptAdvances(s, s');
    JobsAdvance(s, s');
  }

  // ---- recovery --------------------------------------------------------------------------------

  /** The guard never turns the matcher away. */
  lemma NeverRefused(d: Dialect, grant: int, s: System)
    requires Inv(d, grant, s)
    ensures Loaded(s, grant).Counting?
  {
    hide Run, Anchors, Good, Take, Ascending, Rank;
    assert KeptFor(s, InboundSide, MatcherReader) && KeptFor(s, OutboundSide, MatcherReader);
    if s.saved.Some? {
      PositionAt(d, grant, s, InboundSide, MatcherReader);
      PositionAt(d, grant, s, OutboundSide, MatcherReader);
      GuardAtEntry(s.inbound, Rank(s.inbound.ids, s.saved.value.inPos));
      GuardAtEntry(s.outbound, Rank(s.outbound.ids, s.saved.value.outPos));
    }
  }

  lemma LoadKeeps(d: Dialect, grant: int, s: System)
    requires Inv(d, grant, s) && s.process.Down?
    ensures Inv(d, grant, Perform(d, grant, s, Load))
  {
    hide Run, Anchors, Good, Take, Ascending, Rank, Kept, JobsSound, Restored, OthersSound, Resumable;
    NeverRefused(d, grant, s);
    LoadedSound(d, grant, s);
    SameRecords(d, grant, s, Perform(d, grant, s, Load));
  }

  lemma LoadedSound(d: Dialect, grant: int, s: System)
    requires Inv(d, grant, s) && Loaded(s, grant).Counting?
    ensures var s' := s.(process := Loaded(s, grant)); Typed(s') && ProcessSound(d, grant, s')
  {
    hide Run, Good, Take, Ascending, Rank, Kept, JobsSound, Restored, OthersSound, Resumable, Anchors;
    var s' := s.(process := Loaded(s, grant));
    var j := if s.saved.Some? then Rank(s.inbound.ids, s.saved.value.inPos) else 0;
    PrefixAnswered(d, grant, s, j);
    if s.saved.Some? {
      RestoreUndoesTake(After(d, grant, s, j).engine);
      RankOf(s.outbound.ids, s.saved.value.outPos, |After(d, grant, s, j).out|);
    } else {
      NothingAnswered(d, grant, s);
    }
  }

  lemma NothingAnswered(d: Dialect, grant: int, s: System)
    requires Sound(s.inbound) && Sound(s.outbound)
    ensures After(d, grant, s, 0) == Step(Fresh(grant), []) && Anchors(s.outbound.items[..0]) == 0
    ensures Rank(s.inbound.ids, ZERO) == 0 && Rank(s.outbound.ids, ZERO) == 0 && Good(Fresh(grant))
  {
    RankAt(s.inbound.ids, 0);
    RankAt(s.outbound.ids, 0);
  }

  lemma CountKeeps(d: Dialect, grant: int, s: System, count: nat)
    requires Inv(d, grant, s) && s.process.Counting? && count > 0
    ensures Inv(d, grant, Perform(d, grant, s, CountBatch(count)))
  {
    hide Run, Anchors, Good, Take, Ascending, Rank, SavedSound, JobsSound, OthersSound;
    var s' := Perform(d, grant, s, CountBatch(count));
    var p := Rank(s.outbound.ids, s.process.last);
    OutboundReadsOn(d, grant, s, s.process.last, p);
    hide Kept;
    var hi := BatchEnd(s.outbound, s.process.last, count);
    if p < hi {
      assert s.outbound.items[..p] + s.outbound.items[p..hi] == s.outbound.items[..hi];
      AnchorsAdd(s.outbound.items[..p], s.outbound.items[p..hi]);
      RankOf(s.outbound.ids, s'.process.last, hi);
    } else {
      assert s.outbound.items[..p] == s.outbound.items;
    }
    SameRecords(d, grant, s, s');
  }

  /** The anchors never outnumber the inbound records still there to be replayed. */
  lemma NeverStuck(d: Dialect, grant: int, s: System, count: nat)
    requires Inv(d, grant, s) && s.process.Replaying? && count > 0
    ensures !Replayed(d, s, count).Stuck?
  {
    hide Run, Anchors, Good, Take, Ascending, Rank, SavedSound, JobsSound, OthersSound;
    InboundReadsOn(d, grant, s, s.process.last, Rank(s.inbound.ids, s.process.last));
  }

  lemma ReplayKeeps(d: Dialect, grant: int, s: System, count: nat)
    requires Inv(d, grant, s) && s.process.Replaying? && count > 0
    ensures Inv(d, grant, Perform(d, grant, s, ReplayBatch(count)))
  {
    hide Run, Anchors, Good, Take, Ascending, Rank, SavedSound, JobsSound, OthersSound;
    var s' := Perform(d, grant, s, ReplayBatch(count));
    var r := Rank(s.inbound.ids, s.process.last);
    InboundReadsOn(d, grant, s, s.process.last, r);
    hide Kept;
    if s.process.left > 0 {
      var to := Min(BatchEnd(s.inbound, s.process.last, count), r + s.process.left);
      AfterContinues(d, grant, s, r, to);
      RankOf(s.inbound.ids, s'.process.last, to);
    }
    SameRecords(d, grant, s, s');
  }

  // ---- trimming --------------------------------------------------------------------------------

  lemma StartTrimKeeps(d: Dialect, grant: int, s: System, side: Side)
    requires Inv(d, grant, s)
    ensures Inv(d, grant, Perform(d, grant, s, StartTrim(side)))
  {
    var s' := Perform(d, grant, s, StartTrim(side));
    forall i | 0 <= i < |s'.jobs| ensures JobSound(s', s'.jobs[i]) {
      if i < |s.jobs| { JobSame(s, s', s.jobs[i]); }
    }
    SameButJobs(d, grant, s, s');
  }

  lemma JobSame(s: System, s': System, job: Job)
    requires s'.saved == s.saved && s'.others == s.others && JobSound(s, job)
    ensures JobSound(s', job)
  {
    forall r | r in ReadersOf(job.side) - job.pending ensures Position(s', job.side, r) == Position(s, job.side, r) {}
  }

  lemma SameButJobs(d: Dialect, grant: int, s: System, s': System)
    requires Inv(d, grant, s) && s' == s.(jobs := s'.jobs) && JobsSound(s')
    ensures Inv(d, grant, s')
  {
    hide Run, Anchors, Rank, Good, Take, Ascending, JobsSound;
    forall side, reader | reader in ReadersOf(side) ensures KeptFor(s', side, reader) {
      assert KeptFor(s, side, reader);
    }
  }

  lemma GiveUpKeeps(d: Dialect, grant: int, s: System, job: nat)
    requires Inv(d, grant, s) && job < |s.jobs|
    ensures Inv(d, grant, GivenUp(s, job))
  {
    hide Inv;
    InvHasJobs(d, grant, s);
    var s' := GivenUp(s, job);
    forall i | 0 <= i < |s'.jobs| ensures JobSound(s', s'.jobs[i]) {
      JobSame(s, s', if i < job then s.jobs[i] else s.jobs[i + 1]);
    }
    SameButJobs(d, grant, s, s');
  }

  lemma ReadPositionKeeps(d: Dialect, grant: int, s: System, job: nat, reader: Reader)
    requires Inv(d, grant, s) && job < |s.jobs| && reader in s.jobs[job].pending
    ensures Inv(d, grant, Perform(d, grant, s, ReadPosition(job, reader)))
  {
    hide Inv, JobsSound;
    InvHasJobs(d, grant, s);
    var at := Position(s, s.jobs[job].side, reader);
    if at == None {
      GiveUpKeeps(d, grant, s, job);
    } else {
      var s' := s.(jobs := s.jobs[job := Lowered(s.jobs[job], reader, at.value)]);
      ReadJobs(s, s', job, reader);
      SameButJobs(d, grant, s, s');
    }
  }

  lemma ReadJobs(s: System, s': System, job: nat, reader: Reader)
    requires JobsSound(s) && job < |s.jobs| && reader in s.jobs[job].pending
    requires Position(s, s.jobs[job].side, reader).Some?
    requires s' == s.(jobs := s.jobs[job := Lowered(s.jobs[job], reader, Position(s, s.jobs[job].side, reader).value)])
    ensures JobsSound(s')
  {
    hide JobSound;
    forall i | 0 <= i < |s'.jobs| ensures JobSound(s', s'.jobs[i]) {
      assert JobSound(s, s.jobs[i]);
      if i != job { JobSame(s, s', s.jobs[i]); } else { ReadOne(s, s', s.jobs[job], reader); }
    }
  }

  lemma InvHasJobs(d: Dialect, grant: int, s: System)
    requires Inv(d, grant, s)
    ensures JobsSound(s) && Typed(s) && Sound(s.inbound) && Sound(s.outbound)
  {
  }

  lemma ReadOne(s: System, s': System, j: Job, reader: Reader)
    requires JobSound(s, j) && reader in j.pending && Position(s, j.side, reader).Some?
    requires s'.saved == s.saved && s'.others == s.others
    ensures JobSound(s', Lowered(j, reader, Position(s, j.side, reader).value))
  {
    forall r | r in ReadersOf(j.side) ensures Position(s', j.side, r) == Position(s, j.side, r) {}
  }

  /** A trim removes nothing at or after any listed reader's saved position. */
  lemma TrimKeeps(d: Dialect, grant: int, s: System, job: nat, to: nat)
    requires Inv(d, grant, s) && Enabled(d, s, Trim(job, to))
    ensures Inv(d, grant, Perform(d, grant, s, Trim(job, to)))
  {
    hide Run, Anchors, Rank, Good, Take, Ascending, SavedSound, OthersSound, ProcessSound, Faithful, KeptFor;
    var s' := Perform(d, grant, s, Trim(job, to));
    JobsSame(s, s');
    assert Typed(s');
    hide MayTrim, JobsSound, Typed;
    forall side, r | r in ReadersOf(side) ensures KeptFor(s', side, r) {
      assert KeptFor(s, side, r);
      if side == s.jobs[job].side { TrimKeepsReader(d, grant, s, job, to, r); } else { KeptSame(s, s', side, r); }
    }
    SameButTrimmed(d, grant, s, s');
  }

  lemma KeptSame(s: System, s': System, side: Side, r: Reader)
    requires KeptFor(s, side, r) && s'.saved == s.saved && s'.others == s.others
    requires IdsOf(s', side) == IdsOf(s, side) && TrimmedOf(s', side) == TrimmedOf(s, side)
    ensures KeptFor(s', side, r)
  {
  }

  lemma TrimKeepsReader(d: Dialect, grant: int, s: System, job: nat, to: nat, r: Reader)
    requires Inv(d, grant, s) && Enabled(d, s, Trim(job, to)) && r in ReadersOf(s.jobs[job].side)
    ensures KeptFor(Perform(d, grant, s, Trim(job, to)), s.jobs[job].side, r)
  {
    hide Run, Anchors, Rank, Good, Take, Ascending, ProcessSound, Faithful;
    var j := s.jobs[job];
    assert JobSound(s, j) && KeptFor(s, j.side, r);
    PositionAt(d, grant, s, j.side, r);
    hide SavedSound, OthersSound, MayTrim;
    var pos := Position(s, j.side, r).value;
    if j.side == InboundSide { TrimKeepsPosition(s.inbound, j.oldest.value, to, Rank(s.inbound.ids, pos)); }
    else { TrimKeepsPosition(s.outbound, j.oldest.value, to, Rank(s.outbound.ids, pos)); }
  }

  lemma SameButTrimmed(d: Dialect, grant: int, s: System, s': System)
    requires Inv(d, grant, s) && Typed(s') && Kept(s') && JobsSound(s')
    requires s' == s.(inbound := s.inbound.(trimmed := s'.inbound.trimmed),
      outbound := s.outbound.(trimmed := s'.outbound.trimmed))
    ensures Inv(d, grant, s')
  {
    hide Run, Anchors, Rank, Good, Take, Ascending, Kept, JobsSound;
  }

  // ---- runs ------------------------------------------------------------------------------------

  lemma EventKeeps(d: Dialect, grant: int, s: System, e: Event)
    requires Inv(d, grant, s) && Enabled(d, s, e)
    ensures Inv(d, grant, Perform(d, grant, s, e))
  {
    hide Inv, Rank, Run, Anchors, Ascending, Good;
    match e
    case Arrive(id, r) => ArriveKeeps(d, grant, s, id, r);
    case Answer(count, ids) => AnswerKeeps(d, grant, s, count, ids);
    case AnswerThenFail(count, ids) => AnswerKeeps(d, grant, s, count, ids);
    case Crash => CrashKeeps(d, grant, s);
    case SaveCheckpoint => CheckpointKeeps(d, grant, s);
    case Load => LoadKeeps(d, grant, s);
    case CountBatch(count) => CountKeeps(d, grant, s, count);
    case ReplayBatch(count) => ReplayKeeps(d, grant, s, count);
    case ReaderSaves(reader, position) => ReaderSavesKeeps(d, grant, s, reader, position);
    case StartTrim(side) => StartTrimKeeps(d, grant, s, side);
    case ReadPosition(job, reader) => ReadPositionKeeps(d, grant, s, job, reader);
    case GiveUp(job) => GiveUpKeeps(d, grant, s, job);
    case Trim(job, to) => TrimKeeps(d, grant, s, job, to);
  }

  /** `events` can happen one after the other from the start, and lead to `s`. */
  ghost predicate Reaches(d: Dialect, grant: int, events: seq<Event>, s: System)
    decreases |events|
  {
    if events == [] then s == Start()
    else exists before: System ::
      && Reaches(d, grant, events[..|events| - 1], before) && Typed(before)
      && Enabled(d, before, events[|events| - 1]) && s == Perform(d, grant, before, events[|events| - 1])
  }

  lemma {:induction false} ReachableIsSound(d: Dialect, grant: int, events: seq<Event>, s: System)
    requires Reaches(d, grant, events, s)
    ensures Inv(d, grant, s)
    decreases |events|
  {
    hide Inv, Perform, Enabled;
    if events == [] {
      StartsSound(d, grant);
    } else {
      var e := events[|events| - 1];
      var before: System :|
        Reaches(d, grant, events[..|events| - 1], before) && Typed(before) && Enabled(d, before, e)
          && s == Perform(d, grant, before, e);
      ReachableIsSound(d, grant, events[..|events| - 1], before);
      EventKeeps(d, grant, before, e);
    }
  }

  /** Exactly once: whatever happened, the outbound stream is a fresh engine's output on a prefix of the
      inbound stream, and a running matcher stands exactly at the end of that prefix. */
  lemma ExactlyOnce(d: Dialect, grant: int, events: seq<Event>, s: System)
    requires Reaches(d, grant, events, s)
    ensures Answered(s) <= |s.inbound.items|
    ensures s.outbound.items == Run(d, Fresh(grant), s.inbound.items[..Answered(s)]).out
    ensures s.process.Running? ==>
      && s.process.engine == Run(d, Fresh(grant), s.inbound.items[..Answered(s)]).engine
      && |s.inbound.ids| == |s.inbound.items| && s.process.inPos == IdAt(s.inbound.ids, Answered(s))
      && s.process.outPos == LastGenerated(s.outbound.ids)
  {
    ReachableIsSound(d, grant, events, s);
  }

  /** No start is refused and no recovery runs out of records. */
  lemma RecoveryAlwaysProceeds(d: Dialect, grant: int, events: seq<Event>, s: System, count: nat)
    requires Reaches(d, grant, events, s) && count > 0
    ensures !s.process.Refused? && !s.process.Stuck?
    ensures Sound(s.inbound) && Sound(s.outbound) && Typed(s)
    ensures Loaded(s, grant).Counting?
    ensures s.process.Replaying? ==> !Replayed(d, s, count).Stuck?
  {
    hide Run, Anchors, Rank, Good, Take;
    ReachableIsSound(d, grant, events, s);
    NeverRefused(d, grant, s);
    if s.process.Replaying? { NeverStuck(d, grant, s, count); }
  }

  /** No record after a listed reader's saved position is ever trimmed, so its restart is not refused. */
  lemma TrimIsSafe(d: Dialect, grant: int, events: seq<Event>, s: System, reader: Reader)
    requires Reaches(d, grant, events, s)
    ensures Sound(s.inbound) && Sound(s.outbound)
    ensures var at := Position(s, OutboundSide, reader);
      (at.Some? ==> Resumable(s.outbound, at.value) && NothingLost(s.outbound, at.value))
      && (at == None ==> s.outbound.trimmed == 0)
    ensures var at := Position(s, InboundSide, MatcherReader);
      (at.Some? ==> Resumable(s.inbound, at.value) && NothingLost(s.inbound, at.value))
      && (at == None ==> s.inbound.trimmed == 0)
  {
    hide Run, Anchors, Rank, Good, Take, Ascending, SavedSound, OthersSound, JobsSound, ProcessSound, Faithful;
    ReachableIsSound(d, grant, events, s);
    PositionKept(d, grant, s, OutboundSide, reader);
    PositionKept(d, grant, s, InboundSide, MatcherReader);
  }

  lemma PositionKept(d: Dialect, grant: int, s: System, side: Side, reader: Reader)
    requires Inv(d, grant, s) && reader in ReadersOf(side)
    ensures var at := Position(s, side, reader);
      && (at == None ==> TrimmedOf(s, side) == 0)
      && (at.Some? && side == InboundSide ==> Resumable(s.inbound, at.value) && NothingLost(s.inbound, at.value))
      && (at.Some? && side == OutboundSide ==> Resumable(s.outbound, at.value) && NothingLost(s.outbound, at.value))
  {
    hide Run, Anchors, Rank, Good, Take, Ascending, SavedSound, OthersSound, JobsSound, ProcessSound, Faithful;
    assert KeptFor(s, side, reader);
    if Position(s, side, reader).Some? {
      var at := Position(s, side, reader).value;
      PositionAt(d, grant, s, side, reader);
      if side == InboundSide {
        GuardAtEntry(s.inbound, Rank(s.inbound.ids, at));
        GuardIsExact(s.inbound, at);
      } else {
        GuardAtEntry(s.outbound, Rank(s.outbound.ids, at));
        GuardIsExact(s.outbound, at);
      }
    }
  }

  // ---- a start is from the last save ---------------------------------------------------------------

  /** Where in these events the last checkpoint was saved. */
  function LastSave(events: seq<Event>): (i: Option<nat>)
    ensures i.Some? ==> i.value < |events| && events[i.value] == SaveCheckpoint
    decreases |events|
  {
    if events == [] then None
    else if events[|events| - 1] == SaveCheckpoint then Some(|events| - 1)
    else LastSave(events[..|events| - 1])
  }

  /** `at` is the running system whose checkpoint was saved last. */
  ghost predicate SavedLast(d: Dialect, grant: int, events: seq<Event>, at: System)
    requires LastSave(events).Some?
  {
    Reaches(d, grant, events[..LastSave(events).value], at) && at.process.Running?
  }

  ghost predicate HoldsSave(s: System, at: System)
    requires at.process.Running?
  {
    s.saved == Some(Checkpoint(at.process.inPos, at.process.outPos, Take(at.process.engine)))
  }

  lemma OnlySavesSave(d: Dialect, grant: int, s: System, e: Event)
    requires Typed(s) && Enabled(d, s, e)
    ensures e == SaveCheckpoint ==> s.process.Running? && HoldsSave(Perform(d, grant, s, e), s)
    ensures e != SaveCheckpoint ==> Perform(d, grant, s, e).saved == s.saved
  {
    hide Typed, MayAnswer, Take, Sound, Loaded, Counted, Replayed, Ascending;
  }

  /** An event that saves nothing leaves the last save the last. */
  lemma SaveStands(d: Dialect, grant: int, events: seq<Event>, before: System, s: System, at: System)
    requires events != [] && events[|events| - 1] != SaveCheckpoint && LastSave(events).Some?
    requires SavedLast(d, grant, events[..|events| - 1], at)
    requires at.process.Running? && HoldsSave(before, at) && s.saved == before.saved
    ensures SavedLast(d, grant, events, at) && HoldsSave(s, at)
  {
    hide Reaches, Take;
    var i := LastSave(events).value;
    assert events[..|events| - 1][..i] == events[..i];
  }

  lemma {:induction false} SavedIsLast(d: Dialect, grant: int, events: seq<Event>, s: System)
    requires Reaches(d, grant, events, s)
    ensures LastSave(events) == None ==> s.saved == None
    ensures LastSave(events).Some? ==> exists at: System :: SavedLast(d, grant, events, at) && HoldsSave(s, at)
    decreases |events|
  {
    if events != [] {
      hide Typed, Enabled, Perform, Take;
      var n := |events| - 1;
      var before: System :|
        Reaches(d, grant, events[..n], before) && Typed(before) && Enabled(d, before, events[n])
          && s == Perform(d, grant, before, events[n]);
      OnlySavesSave(d, grant, before, events[n]);
      hide Reaches;
      if events[n] == SaveCheckpoint {
        assert SavedLast(d, grant, events, before) && HoldsSave(s, before);
      } else {
        SavedIsLast(d, grant, events[..n], before);
        if LastSave(events).Some? {
          hide SavedLast, HoldsSave;
          var at: System :| SavedLast(d, grant, events[..n], at) && HoldsSave(before, at);
          SaveStands(d, grant, events, before, s, at);
        }
      }
    }
  }

  lemma RunningGrant(d: Dialect, grant: int, s: System)
    requires Inv(d, grant, s) && s.process.Running?
    ensures Good(s.process.engine) && s.process.engine.grant == grant
  {
    hide Anchors, Rank, Good, Take, Ascending, SavedSound, OthersSound, Kept, JobsSound;
  }

  /** Whatever happened since, a start takes up the very engine and the two positions that the last save found in
      the running matcher; without a save it takes a fresh engine and the beginnings of both streams. */
  lemma StartsFromTheLastSave(d: Dialect, grant: int, events: seq<Event>, s: System)
    requires Reaches(d, grant, events, s)
    ensures Typed(s)
    ensures LastSave(events) == None ==> Loaded(s, grant) == Counting(Fresh(grant), ZERO, ZERO, 0)
    ensures LastSave(events).Some? ==>
      exists at: System :: SavedLast(d, grant, events, at)
        && Loaded(s, grant) == Counting(at.process.engine, at.process.inPos, at.process.outPos, 0)
  {
    hide Inv, Resumable, Take, Run, Sound, Restored, Reaches;
    RecoveryAlwaysProceeds(d, grant, events, s, 1);
    SavedIsLast(d, grant, events, s);
    if LastSave(events).Some? {
      var at: System :| SavedLast(d, grant, events, at) && HoldsSave(s, at);
      ReachableIsSound(d, grant, events[..LastSave(events).value], at);
      RunningGrant(d, grant, at);
      RestoreUndoesTake(at.process.engine);
    }
  }
}
