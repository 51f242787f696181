/** A matcher that crashed comes back: its own steps lead from any reachable crash to the state before it. */
module MatcherReturns {
  import opened Contracts
  import opened EngineSpec
  import opened Snapshots
  import opened Streams
  import opened Recovery

  /** These events can happen one after the other from `s`, and lead to `t`. */
  ghost predicate Leads(d: Dialect, grant: int, s: System, events: seq<Event>, t: System)
    decreases |events|
  {
    if events == [] then s == t
    else
      Typed(s) && Enabled(d, s, events[0]) && Leads(d, grant, Perform(d, grant, s, events[0]), events[1..], t)
  }

  lemma {:induction false} LeadsOn(d: Dialect, grant: int, s: System, a: seq<Event>, t: System, b: seq<Event>,
                                   u: System)
    requires Leads(d, grant, s, a, t) && Leads(d, grant, t, b, u)
    ensures Leads(d, grant, s, a + b, u)
    decreases |a|
  {
    hide Typed, Enabled, Perform;
    if a == [] {
      assert a + b == b;
    } else {
      LeadsOn(d, grant, Perform(d, grant, s, a[0]), a[1..], t, b, u);
      assert (a + b)[1..] == a[1..] + b;
    }
  }

  lemma OneStep(d: Dialect, grant: int, s: System, e: Event)
    requires Typed(s) && Enabled(d, s, e)
    ensures Leads(d, grant, s, [e], Perform(d, grant, s, e))
  {
    hide Typed, Enabled, Perform;
    assert [e][1..] == [];
  }

  /** Only the process differs. */
  ghost predicate SameButProcess(s: System, t: System) {
    t == s.(process := t.process)
  }

  /** One read of the outbound tail ends the count, or leaves less to read. */
  lemma CountStep(d: Dialect, grant: int, s: System, count: nat)
    requires Inv(d, grant, s) && s.process.Counting? && count > 0
    ensures Typed(s) && Enabled(d, s, CountBatch(count))
    ensures var t := Perform(d, grant, s, CountBatch(count));
      && Inv(d, grant, t) && SameButProcess(s, t) && (t.process.Counting? || t.process.Replaying?)
      && (t.process.Counting? ==> Rank(s.outbound.ids, s.process.last) < Rank(t.outbound.ids, t.process.last))
  {
    hide Run, Anchors, Good, Take, Ascending, Rank, SavedSound, JobsSound, OthersSound;
    CountKeeps(d, grant, s, count);
    var p := Rank(s.outbound.ids, s.process.last);
    OutboundReadsOn(d, grant, s, s.process.last, p);
    var hi := BatchEnd(s.outbound, s.process.last, count);
    if p < hi { RankOf(s.outbound.ids, s.outbound.ids[hi - 1], hi); }
  }

  lemma {:induction false} CountsOut(d: Dialect, grant: int, s: System, count: nat)
    returns (events: seq<Event>, t: System)
    requires Inv(d, grant, s) && s.process.Counting? && count > 0
    ensures Leads(d, grant, s, events, t) && Inv(d, grant, t) && t.process.Replaying? && SameButProcess(s, t)
    decreases |s.outbound.ids| - Rank(s.outbound.ids, s.process.last)
  {
    hide Inv, Typed, Enabled, Perform, Rank, Leads;
    CountStep(d, grant, s, count);
    var next := Perform(d, grant, s, CountBatch(count));
    OneStep(d, grant, s, CountBatch(count));
    if next.process.Replaying? {
      events, t := [CountBatch(count)], next;
    } else {
      var rest;
      rest, t := CountsOut(d, grant, next, count);
      LeadsOn(d, grant, s, [CountBatch(count)], next, rest, t);
      events := [CountBatch(count)] + rest;
    }
  }

  /** One read of the inbound tail finishes, or leaves fewer records owed. */
  lemma ReplayStep(d: Dialect, grant: int, s: System, count: nat)
    requires Inv(d, grant, s) && s.process.Replaying? && count > 0
    ensures Typed(s) && Enabled(d, s, ReplayBatch(count))
    ensures var t := Perform(d, grant, s, ReplayBatch(count));
      && Inv(d, grant, t) && SameButProcess(s, t)
      && (t.process.Running? || (t.process.Replaying? && t.process.left < s.process.left))
  {
    hide Run, Anchors, Good, Take, Ascending, Rank, SavedSound, JobsSound, OthersSound;
    ReplayKeeps(d, grant, s, count);
    InboundReadsOn(d, grant, s, s.process.last, Rank(s.inbound.ids, s.process.last));
  }

  lemma {:induction false} ReplaysOut(d: Dialect, grant: int, s: System, count: nat)
    returns (events: seq<Event>, t: System)
    requires Inv(d, grant, s) && s.process.Replaying? && count > 0
    ensures Leads(d, grant, s, events, t) && Inv(d, grant, t) && t.process.Running? && SameButProcess(s, t)
    decreases s.process.left
  {
    hide Inv, Typed, Enabled, Perform, Leads;
    ReplayStep(d, grant, s, count);
    var next := Perform(d, grant, s, ReplayBatch(count));
    OneStep(d, grant, s, ReplayBatch(count));
    if next.process.Running? {
      events, t := [ReplayBatch(count)], next;
    } else {
      var rest;
      rest, t := ReplaysOut(d, grant, next, count);
      LeadsOn(d, grant, s, [ReplayBatch(count)], next, rest, t);
      events := [ReplayBatch(count)] + rest;
    }
  }

  lemma LoadStep(d: Dialect, grant: int, s: System)
    requires Inv(d, grant, s) && s.process.Down?
    ensures Typed(s) && Enabled(d, s, Load)
    ensures var t := Perform(d, grant, s, Load); Inv(d, grant, t) && SameButProcess(s, t) && t.process.Counting?
  {
    hide Run, Anchors, Good, Take, Ascending, Rank, SavedSound, JobsSound, OthersSound, Kept, Restored, Resumable;
    LoadKeeps(d, grant, s);
    NeverRefused(d, grant, s);
  }

  /** From any reachable stop, whatever the batch size, loading, counting and replaying end in a running matcher,
      with nothing else changed. */
  lemma ComesUp(d: Dialect, grant: int, s: System, count: nat) returns (events: seq<Event>, t: System)
    requires Inv(d, grant, s) && s.process.Down? && count > 0
    ensures Leads(d, grant, s, events, t) && Inv(d, grant, t) && t.process.Running? && SameButProcess(s, t)
  {
    hide Inv, Typed, Enabled, Perform, Leads;
    LoadStep(d, grant, s);
    OneStep(d, grant, s, Load);
    var loaded := Perform(d, grant, s, Load);
    var counts, counted := CountsOut(d, grant, loaded, count);
    var replays;
    replays, t := ReplaysOut(d, grant, counted, count);
    LeadsOn(d, grant, s, [Load], loaded, counts, counted);
    LeadsOn(d, grant, s, [Load] + counts, counted, replays, t);
    events := [Load] + counts + replays;
  }

  /** Where a running matcher stands follows from the streams. */
  lemma RunningIs(d: Dialect, grant: int, s: System, t: System)
    requires Inv(d, grant, s) && Inv(d, grant, t) && s.process.Running? && t.process.Running? && SameButProcess(s, t)
    ensures s == t
  {
    hide Run, Anchors, Good, Take, Ascending, Rank, SavedSound, JobsSound, OthersSound, Kept, Faithful;
  }

  lemma CrashStep(d: Dialect, grant: int, s: System)
    requires Inv(d, grant, s) && s.process.Running?
    ensures Typed(s) && Enabled(d, s, Crash)
    ensures var t := Perform(d, grant, s, Crash); Inv(d, grant, t) && SameButProcess(s, t) && t.process.Down?
  {
    hide Run, Anchors, Good, Take, Ascending, Rank, SavedSound, JobsSound, OthersSound, Kept;
    CrashKeeps(d, grant, s);
  }

  /** A crash and the recovery that follows it change nothing: whatever the batch size, they lead a running matcher
      back to the very system it crashed in, its engine and both positions included. */
  lemma CrashAndBack(d: Dialect, grant: int, events: seq<Event>, s: System, count: nat) returns (back: seq<Event>)
    requires Reaches(d, grant, events, s) && s.process.Running? && count > 0
    ensures Leads(d, grant, s, [Crash] + back, s)
  {
    hide Inv, Typed, Enabled, Perform, Leads;
    ReachableIsSound(d, grant, events, s);
    CrashStep(d, grant, s);
    OneStep(d, grant, s, Crash);
    var crashed := Perform(d, grant, s, Crash);
    var t;
    back, t := ComesUp(d, grant, crashed, count);
    LeadsOn(d, grant, s, [Crash], crashed, back, t);
    RunningIs(d, grant, s, t);
  }

  // ---- a record is answered ------------------------------------------------------------------------

  /** The system once one more record has arrived and been answered. */
  ghost function AnsweredOne(d: Dialect, s: System, id: Id, r: Inbound, ids: seq<Id>): System
    requires s.process.Running? && Good(s.process.engine)
  {
    var step := Apply(d, s.process.engine, r);
    s.(inbound := Append(s.inbound, [id], [r]), outbound := Append(s.outbound, ids, step.out),
       process := Running(step.engine, id, if ids == [] then s.process.outPos else ids[|ids| - 1]))
  }

  lemma RunOfOne(d: Dialect, e: Engine, r: Inbound)
    requires Good(e)
    ensures Run(d, e, [r]) == Apply(d, e, r)
  {
    RunOne(d, e, [], r);
    hide Apply, Good;
    assert [] + [r] == [r];
  }

  lemma ReadsTheArrival(d: Dialect, grant: int, s: System, id: Id, r: Inbound, count: nat)
    requires Inv(d, grant, s) && s.process.Running? && Answered(s) == |s.inbound.items| && count > 0
    requires Enabled(d, s, Arrive(id, r))
    ensures var t := Perform(d, grant, s, Arrive(id, r));
      && Inv(d, grant, t) && Batch(t, count) == [r] && Good(s.process.engine)
      && BatchEnd(t.inbound, t.process.inPos, count) == |t.inbound.ids|
  {
    hide Run, Anchors, Good, Ascending, Rank, JobsSound, OthersSound;
    ArriveKeeps(d, grant, s, id, r);
    var t := Perform(d, grant, s, Arrive(id, r));
    InboundReadsOn(d, grant, t, t.process.inPos, Answered(s));
    var k := |s.inbound.items|;
    assert t.inbound.items[k..k + 1] == [r];
  }

  /** Once the matcher has answered everything, the next record to arrive is answered by the engine's own step: its
      outputs are appended in one piece, and both positions move to the record and to the last output. */
  lemma ArrivalIsAnswered(d: Dialect, grant: int, events: seq<Event>, s: System, id: Id, r: Inbound, count: nat,
                          ids: seq<Id>)
    requires Reaches(d, grant, events, s) && s.process.Running? && Answered(s) == |s.inbound.items| && count > 0
    requires Typed(s) && Enabled(d, s, Arrive(id, r)) && Good(s.process.engine)
    requires |ids| == |Apply(d, s.process.engine, r).out| && Ascending(s.outbound.ids + ids)
    ensures Leads(d, grant, s, [Arrive(id, r)] + [Answer(count, ids)], AnsweredOne(d, s, id, r, ids))
  {
    hide Inv, Apply, Good, Ascending, Sound, Leads, Run, Batch, BatchEnd, Rank;
    ReachableIsSound(d, grant, events, s);
    ReadsTheArrival(d, grant, s, id, r, count);
    OneStep(d, grant, s, Arrive(id, r));
    var t := Perform(d, grant, s, Arrive(id, r));
    InvIsTyped(d, grant, t);
    RunOfOne(d, s.process.engine, r);
    OneStep(d, grant, t, Answer(count, ids));
    LeadsOn(d, grant, s, [Arrive(id, r)], t, [Answer(count, ids)], Perform(d, grant, t, Answer(count, ids)));
  }

  lemma InvIsTyped(d: Dialect, grant: int, s: System)
    requires Inv(d, grant, s)
    ensures Typed(s)
  {
  }
}
