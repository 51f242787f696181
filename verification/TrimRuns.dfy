/** A trim job that is left alone removes what it may: everything older than every listed reader's position. */
module TrimRuns {
  import opened Contracts
  import opened EngineSpec
  import opened Streams
  import opened Recovery
  import opened MatcherReturns

  /** No listed reader's saved position is before this one, and one of them is this one. */
  ghost predicate IsOldest(s: System, side: Side, readers: set<Reader>, oldest: Id) {
    && (exists r :: r in readers && Position(s, side, r) == Some(oldest))
    && forall r :: r in readers ==>
         Position(s, side, r).Some? && !Before(Position(s, side, r).value, oldest)
  }

  lemma OldestIsOne(s: System, side: Side, readers: set<Reader>, a: Id, b: Id)
    requires IsOldest(s, side, readers, a) && IsOldest(s, side, readers, b)
    ensures a == b
  {
    var r :| r in readers && Position(s, side, r) == Some(a);
    var q :| q in readers && Position(s, side, q) == Some(b);
    assert !Before(a, b) && !Before(b, a);
  }

  /** Only this job differs. */
  ghost predicate SameButJob(s: System, t: System, job: nat) {
    job < |s.jobs| && |t.jobs| == |s.jobs| && t == s.(jobs := s.jobs[job := t.jobs[job]])
  }

  /** The job has read the checkpoints of these readers, and knows the oldest position among them. */
  ghost predicate HasRead(s: System, job: nat, readers: set<Reader>)
    requires job < |s.jobs|
  {
    var j := s.jobs[job];
    if readers == {} then j.oldest == None
    else j.oldest.Some? && IsOldest(s, j.side, readers, j.oldest.value)
  }

  lemma ReadStep(d: Dialect, grant: int, s: System, job: nat, readers: set<Reader>, r: Reader)
    requires Typed(s) && job < |s.jobs| && HasRead(s, job, readers)
    requires r in s.jobs[job].pending && r !in readers && Position(s, s.jobs[job].side, r).Some?
    ensures Enabled(d, s, ReadPosition(job, r))
    ensures var t := Perform(d, grant, s, ReadPosition(job, r));
      && SameButJob(s, t, job) && Typed(t) && HasRead(t, job, readers + {r})
      && t.jobs[job].side == s.jobs[job].side && t.jobs[job].pending == s.jobs[job].pending - {r}
  {
    hide Sound, Good;
    var side, t := s.jobs[job].side, Perform(d, grant, s, ReadPosition(job, r));
    var at, oldest := Position(s, side, r).value, t.jobs[job].oldest.value;
    forall q ensures Position(t, side, q) == Position(s, side, q) {}
    if readers == {} {
      assert IsOldest(t, side, readers + {r}, oldest) by { assert r in readers + {r}; }
    } else {
      assert IsOldest(t, side, readers + {r}, oldest) by {
        if oldest == at { assert r in readers + {r}; }
        else {
          var q :| q in readers && Position(s, side, q) == Some(oldest);
          assert q in readers + {r};
        }
      }
    }
  }

  lemma {:induction false} ReadsAll(d: Dialect, grant: int, s: System, job: nat, readers: set<Reader>)
    returns (events: seq<Event>, t: System)
    requires Typed(s) && job < |s.jobs| && HasRead(s, job, readers) && s.jobs[job].pending !! readers
    requires forall r :: r in s.jobs[job].pending ==> Position(s, s.jobs[job].side, r).Some?
    ensures Leads(d, grant, s, events, t) && SameButJob(s, t, job) && Typed(t)
    ensures t.jobs[job].pending == {} && t.jobs[job].side == s.jobs[job].side
    ensures HasRead(t, job, readers + s.jobs[job].pending)
    decreases s.jobs[job].pending
  {
    hide Typed, Enabled, Perform, Leads, HasRead;
    var pending := s.jobs[job].pending;
    if pending == {} {
      assert readers + pending == readers;
      StaysThere(d, grant, s);
      events, t := [], s;
    } else {
      var r :| r in pending;
      ReadStep(d, grant, s, job, readers, r);
      OneStep(d, grant, s, ReadPosition(job, r));
      var next := Perform(d, grant, s, ReadPosition(job, r));
      assert forall q :: Position(next, next.jobs[job].side, q) == Position(s, s.jobs[job].side, q);
      var rest;
      rest, t := ReadsAll(d, grant, next, job, readers + {r});
      LeadsOn(d, grant, s, [ReadPosition(job, r)], next, rest, t);
      assert readers + {r} + (pending - {r}) == readers + pending;
      events := [ReadPosition(job, r)] + rest;
    }
  }

  lemma StaysThere(d: Dialect, grant: int, s: System)
    ensures Leads(d, grant, s, [], s)
  {
  }

  lemma StartStep(d: Dialect, grant: int, s: System, side: Side)
    requires Typed(s)
    ensures Enabled(d, s, StartTrim(side))
    ensures var t := Perform(d, grant, s, StartTrim(side));
      && t == s.(jobs := t.jobs) && |t.jobs| == |s.jobs| + 1 && Typed(t)
      && t.jobs[|s.jobs|] == Job(side, ReadersOf(side), None) && HasRead(t, |s.jobs|, {})
  {
    hide Sound, Good;
  }

  ghost predicate MayTrimSide(s: System, side: Side, oldest: Id, to: nat)
    requires Typed(s)
  {
    if side == InboundSide then MayTrim(s.inbound, oldest, to) else MayTrim(s.outbound, oldest, to)
  }

  /** That side's stream has lost everything before `to`, and nothing else has changed. */
  ghost predicate TrimmedTo(s: System, t: System, side: Side, to: nat) {
    t == if side == InboundSide then s.(inbound := s.inbound.(trimmed := to), jobs := t.jobs)
         else s.(outbound := s.outbound.(trimmed := to), jobs := t.jobs)
  }

  lemma TrimStep(d: Dialect, grant: int, s: System, job: nat, side: Side, oldest: Id, to: nat)
    requires Typed(s) && job < |s.jobs| && s.jobs[job] == Job(side, {}, Some(oldest)) && oldest != ZERO
    requires MayTrimSide(s, side, oldest, to)
    ensures Enabled(d, s, Trim(job, to)) && TrimmedTo(s, Perform(d, grant, s, Trim(job, to)), side, to)
  {
    hide Sound, Good;
  }

  /** When every listed reader has saved a position, a job can trim any prefix of records older than the oldest of
      them, and nothing else is touched. */
  lemma TrimHappens(d: Dialect, grant: int, s: System, side: Side, oldest: Id, to: nat)
    returns (events: seq<Event>, t: System)
    requires Typed(s) && IsOldest(s, side, ReadersOf(side), oldest) && oldest != ZERO
    requires MayTrimSide(s, side, oldest, to)
    ensures Leads(d, grant, s, events, t) && TrimmedTo(s, t, side, to)
  {
    hide Typed, Enabled, Perform, Leads, MayTrim, Before, Position;
    var job := |s.jobs|;
    StartStep(d, grant, s, side);
    OneStep(d, grant, s, StartTrim(side));
    var started := Perform(d, grant, s, StartTrim(side));
    SamePositions(s, started);
    var readings, ready := ReadsAll(d, grant, started, job, {});
    SamePositions(s, ready);
    assert {} + ReadersOf(side) == ReadersOf(side);
    OldestIsOne(s, side, ReadersOf(side), oldest, ready.jobs[job].oldest.value);
    assert ready.jobs[job] == Job(side, {}, Some(oldest));
    TrimStep(d, grant, ready, job, side, oldest, to);
    OneStep(d, grant, ready, Trim(job, to));
    t := Perform(d, grant, ready, Trim(job, to));
    LeadsOn(d, grant, s, [StartTrim(side)], started, readings, ready);
    LeadsOn(d, grant, s, [StartTrim(side)] + readings, ready, [Trim(job, to)], t);
    events := [StartTrim(side)] + readings + [Trim(job, to)];
  }

  lemma SamePositions(s: System, t: System)
    requires t == s.(jobs := t.jobs)
    ensures forall side, r :: Position(t, side, r) == Position(s, side, r)
  {
  }

  /** A saved position is moved by its own reader's save and by nothing else, and to where that reader stood. */
  lemma OnlySavesMovePositions(d: Dialect, grant: int, s: System, e: Event, side: Side, r: Reader)
    requires Typed(s) && Enabled(d, s, e)
    ensures var t := Perform(d, grant, s, e);
      && (e.ReaderSaves? && e.reader == r && side == OutboundSide ==>
            e.position <= |s.outbound.ids| && Position(t, side, r) == Some(IdAt(s.outbound.ids, e.position)))
      && (e.SaveCheckpoint? && r == MatcherReader ==>
            s.process.Running?
            && Position(t, side, r) == Some(if side == InboundSide then s.process.inPos else s.process.outPos))
      && (!(e.ReaderSaves? && e.reader == r && side == OutboundSide) && !(e.SaveCheckpoint? && r == MatcherReader) ==>
            Position(t, side, r) == Position(s, side, r))
  {
    hide Typed, MayAnswer, Sound, Loaded, Counted, Replayed, Ascending;
    OnlySavesSave(d, grant, s, e);
  }
}
