/** The runner's loops around a real matcher object: counting anchors, recovering, and one live step. */
module MatcherRunner {
  import opened Contracts
  import opened EngineSpec
  import opened Snapshots
  import opened Streams
  import opened Recovery
  import opened NaiveAdapter

  /** The records a read after `after` may still return, in order. */
  function Tail<T>(s: Stream<T>, after: Id): seq<T>
    requires Sound(s)
  {
    s.items[Min(NextIndex(s, after), |s.items|)..]
  }

  /** How a read loop that started after `from` stands once it has seen `k` records. */
  ghost predicate ReadTo<T>(s: Stream<T>, from: Id, last: Id, k: nat) {
    && Sound(s) && k <= |Tail(s, from)|
    && if k == 0 then last == from else last == s.ids[NextIndex(s, from) + k - 1]
  }

  /** `read_records`: up to `count` retained records after `last`, each with its id. */
  method ReadBatch<T>(s: Stream<T>, last: Id, count: nat, ghost from: Id, ghost k: nat)
      returns (batch: seq<T>, ids: seq<Id>)
    requires ReadTo(s, from, last, k) && count > 0
    ensures |ids| == |batch| && k + |batch| <= |Tail(s, from)| && batch == Tail(s, from)[k..k + |batch|]
    ensures batch == [] ==> k == |Tail(s, from)|
    ensures forall i :: 0 <= i < |ids| ==> ReadTo(s, from, ids[i], k + i + 1)
  {
    NextAfter(s, from, last, k);
    hide Rank;
    var lo, hi := NextIndex(s, last), BatchEnd(s, last, count);
    if lo >= hi {
      return [], [];
    }
    batch, ids := s.items[lo..hi], s.ids[lo..hi];
    SameBatch(s.items, NextIndex(s, from), k, hi - lo);
  }

  lemma SameBatch<T>(items: seq<T>, start: nat, k: nat, n: nat)
    requires start + k + n <= |items|
    ensures items[start..][k..k + n] == items[start + k..start + k + n]
  {
  }

  lemma NextAfter<T>(s: Stream<T>, from: Id, last: Id, k: nat)
    requires ReadTo(s, from, last, k)
    ensures NextIndex(s, from) <= |s.ids| && NextIndex(s, last) == NextIndex(s, from) + k
  {
    if k > 0 {
      RankAt(s.ids, NextIndex(s, from) + k);
    }
  }

  /** Anchors strictly after `after`, and the last id seen. */
  method CountAnchorsAfter(s: Stream<Outbound>, after: Id, count: nat) returns (anchors: nat, last: Id)
    requires Sound(s) && count > 0
    ensures anchors == Anchors(Tail(s, after))
    ensures last == if Tail(s, after) == [] then after else LastGenerated(s.ids)
  {
    last, anchors := after, 0;
    ghost var tail := Tail(s, after);
    ghost var k := 0;
    hide Rank, Anchors, ReadTo;
    StartReading(s, after);
    while true
      invariant k <= |tail| && ReadTo(s, after, last, k) && anchors == Anchors(tail[..k])
      decreases |tail| - k
    {
      var batch, ids := ReadBatch(s, last, count, after, k);
      if batch == [] {
        assert tail[..k] == tail;
        DoneReading(s, after, last);
        return;
      }
      var more := CountAnchors(batch);
      AnchorsAdd(tail[..k], batch);
      assert tail[..k] + batch == tail[..k + |batch|];
      anchors, last, k := anchors + more, ids[|ids| - 1], k + |batch|;
    }
  }

  lemma StartReading<T>(s: Stream<T>, from: Id)
    requires Sound(s)
    ensures ReadTo(s, from, from, 0) && Anchors([]) == 0
  {
  }

  lemma DoneReading<T>(s: Stream<T>, from: Id, last: Id)
    requires Sound(s) && ReadTo(s, from, last, |Tail(s, from)|)
    ensures last == if Tail(s, from) == [] then from else LastGenerated(s.ids)
  {
  }

  method CountAnchors(batch: seq<Outbound>) returns (n: nat)
    ensures n == Anchors(batch)
  {
    n := 0;
    for i := 0 to |batch|
      invariant n == Anchors(batch[..i])
    {
      assert batch[..i + 1][..i] == batch[..i];
      n := n + if IsAnchor(batch[i]) then 1 else 0;
    }
    assert batch[..|batch|] == batch;
  }

  datatype Outcome = RecoverRefused | RecoverStuck | Recovered(replayed: nat)

  class Matcher {
    const grant: int
    const batchSize: nat
    var matcher: NaiveMatcher
    var lastInboundId: Id
    var lastOutboundId: Id

    ghost predicate Valid()
      reads this, matcher, matcher.repr, matcher.objects
    {
      matcher.Valid() && matcher.grant == grant && batchSize > 0
    }

    constructor (grant: int, batchSize: nat)
      requires batchSize > 0
      ensures Valid() && matcher.state == Fresh(grant) && lastInboundId == ZERO && lastOutboundId == ZERO
      ensures this.grant == grant && fresh(matcher)
    {
      this.grant, this.batchSize := grant, batchSize;
      lastInboundId, lastOutboundId := ZERO, ZERO;
      matcher := new NaiveMatcher(grant);
    }

    /** `apply` over a batch, in order. */
    method ApplyAll(batch: seq<Inbound>) returns (out: seq<Outbound>)
      requires Valid()
      modifies matcher, matcher.repr, matcher.objects
      ensures Valid() && fresh(matcher.repr - old(matcher.repr)) && fresh(matcher.objects - old(matcher.objects))
      ensures EngineSpec.Step(matcher.state, out) == Run(Naive, old(matcher.state), batch)
    {
      out := [];
      ghost var start := matcher.state;
      assert batch[..0] == [];
      hide NaiveMatcher.Represents, Good, Apply;
      for i := 0 to |batch|
        invariant Valid() && fresh(matcher.repr - old(matcher.repr)) && fresh(matcher.objects - old(matcher.objects))
        invariant Good(start) && EngineSpec.Step(matcher.state, out) == Run(Naive, start, batch[..i])
      {
        RunOne(Naive, start, batch[..i], batch[i]);
        assert batch[..i + 1] == batch[..i] + [batch[i]];
        var more := matcher.Apply(batch[i]);
        out := out + more;
      }
      assert batch[..|batch|] == batch;
    }
  
    lemma GoodState()
      requires Valid()
      ensures Good(matcher.state) && batchSize > 0
    {
    }

    /** Replay `left` records, silently; `ok` is false where the source raises for want of records. */
    method Replay(inbound: Stream<Inbound>, from: Id, left: nat) returns (ok: bool, last: Id)
      requires Valid() && Sound(inbound)
      modifies matcher, matcher.repr, matcher.objects
      ensures Valid() && fresh(matcher.repr - old(matcher.repr)) && fresh(matcher.objects - old(matcher.objects))
      ensures ok <==> left <= |Tail(inbound, from)|
      ensures ok ==> ReadTo(inbound, from, last, left)
      ensures ok ==> matcher.state == Run(Naive, old(matcher.state), Tail(inbound, from)[..left]).engine
    {
      hide NaiveMatcher.Valid, Valid, Good, Rank, ReadTo, Tail, ReplayedTo, Run, Sound;
      last := from;
      ghost var tail := Tail(inbound, from);
      ghost var start := matcher.state;
      var replayed := 0;
      StartReading(inbound, from);
      GoodState();
      StartReplaying(start, tail);
      while replayed < left
        invariant Valid() && fresh(matcher.repr - old(matcher.repr)) && fresh(matcher.objects - old(matcher.objects))
        invariant replayed <= left && replayed <= |tail| && ReadTo(inbound, from, last, replayed)
        invariant ReplayedTo(start, tail, replayed, matcher.state)
      {
        var batch, ids := ReadBatch(inbound, last, batchSize, from, replayed);
        if batch == [] {
          return false, last;
        }
        var take := Min(left - replayed, |batch|);
        ReplayOn(start, tail, replayed, matcher.state, batch, take);
        var _ := ApplyAll(batch[..take]);
        last, replayed := ids[take - 1], replayed + take;
      }
      DoneReplaying(start, tail, replayed, matcher.state);
      return true, last;
    }

    /** Restore the checkpoint, then replay the answered tail. `e` is the engine the checkpoint saved. */
    method Recover(inbound: Stream<Inbound>, outbound: Stream<Outbound>, saved: Option<Checkpoint>, ghost e: Engine)
        returns (outcome: Outcome)
      requires batchSize > 0 && Sound(inbound) && Sound(outbound) && Good(e) && e.grant == grant
      requires if saved.Some? then saved.value.state == Take(e) else e == Fresh(grant)
      modifies this
      ensures var inFrom := if saved.Some? then saved.value.inPos else ZERO;
        var outFrom := if saved.Some? then saved.value.outPos else ZERO;
        var n := Anchors(Tail(outbound, outFrom));
        && outcome == (if !Resumable(inbound, inFrom) || !Resumable(outbound, outFrom) then RecoverRefused
                       else if n > |Tail(inbound, inFrom)| then RecoverStuck else Recovered(n))
        && (outcome.Recovered? ==>
              && Valid() && fresh(matcher) && fresh(matcher.repr) && fresh(matcher.objects)
              && matcher.state == Run(Naive, e, Tail(inbound, inFrom)[..n]).engine
              && ReadTo(inbound, inFrom, lastInboundId, n)
              && lastOutboundId == if Tail(outbound, outFrom) == [] then outFrom else LastGenerated(outbound.ids))
    {
      hide Rank, Resumable, NaiveMatcher.Represents, Good, ReadTo, Tail, Run;
      var inFrom := if saved.Some? then saved.value.inPos else ZERO;
      var outFrom := if saved.Some? then saved.value.outPos else ZERO;
      if !Resumable(inbound, inFrom) || !Resumable(outbound, outFrom) {
        return RecoverRefused;
      }
      matcher := Restart(grant, saved, e);
      var answered, lastOutbound := CountAnchorsAfter(outbound, outFrom, batchSize);
      var ok, last := Replay(inbound, inFrom, answered);
      if !ok {
        return RecoverStuck;
      }
      lastInboundId, lastOutboundId := last, lastOutbound;
      return Recovered(answered);
    }

    /** One read, match, append cycle; `landed` and `ids` are the store's answer to the append. */
    method Step(inbound: Stream<Inbound>, landed: bool, ids: seq<Id>) returns (outputs: seq<Outbound>)
      requires Valid() && Sound(inbound)
      modifies this, matcher, matcher.repr, matcher.objects
      ensures var lo := Min(NextIndex(inbound, old(lastInboundId)), |inbound.items|);
        var hi := Max(lo, BatchEnd(inbound, old(lastInboundId), batchSize));
        && hi <= |inbound.items|
        && EngineSpec.Step(matcher.state, outputs) == Run(Naive, old(matcher.state), inbound.items[lo..hi])
        && (landed && lo < hi ==>
              && lastInboundId == inbound.ids[hi - 1]
              && lastOutboundId == if ids == [] then old(lastOutboundId) else ids[|ids| - 1])
        && (!landed || lo == hi ==> lastInboundId == old(lastInboundId) && lastOutboundId == old(lastOutboundId))
      ensures Valid() && matcher == old(matcher)
    {
      hide Rank, NaiveMatcher.Represents, Good;
      var lo := Min(NextIndex(inbound, lastInboundId), |inbound.items|);
      var hi := Max(lo, BatchEnd(inbound, lastInboundId, batchSize));
      var batch := inbound.items[lo..hi];
      outputs := ApplyAll(batch);
      if batch != [] && landed {
        if ids != [] {
          lastOutboundId := ids[|ids| - 1];
        }
        lastInboundId := inbound.ids[hi - 1];
      }
    }
  }

  /** `e` is what `start` becomes on the first `k` records of `tail`. */
  ghost predicate ReplayedTo(start: Engine, tail: seq<Inbound>, k: nat, e: Engine) {
    k <= |tail| && Good(start) && e == Run(Naive, start, tail[..k]).engine
  }

  lemma StartReplaying(start: Engine, tail: seq<Inbound>)
    requires Good(start)
    ensures ReplayedTo(start, tail, 0, start)
  {
    assert tail[..0] == [];
  }

  lemma ReplayOn(start: Engine, tail: seq<Inbound>, k: nat, e: Engine, batch: seq<Inbound>, take: nat)
    requires ReplayedTo(start, tail, k, e) && take <= |batch| && k + |batch| <= |tail| && batch == tail[k..k + |batch|]
    ensures Good(e) && ReplayedTo(start, tail, k + take, Run(Naive, e, batch[..take]).engine)
  {
    hide Run;
    RunSplit(Naive, start, tail[..k], batch[..take]);
    assert tail[..k] + batch[..take] == tail[..k + take];
  }

  lemma DoneReplaying(start: Engine, tail: seq<Inbound>, k: nat, e: Engine)
    requires ReplayedTo(start, tail, k, e)
    ensures k <= |tail| && Good(start) && e == Run(Naive, start, tail[..k]).engine
  {
  }

  /** A new matcher, or the one the checkpoint saved. */
  method Restart(grant: int, saved: Option<Checkpoint>, ghost e: Engine) returns (m: NaiveMatcher)
    requires Good(e) && e.grant == grant
    requires if saved.Some? then saved.value.state == Take(e) else e == Fresh(grant)
    ensures fresh(m) && fresh(m.repr) && fresh(m.objects) && m.Valid() && m.state == e && m.grant == grant
  {
    if saved.Some? {
      RestoreUndoesTake(e);
      hide Take, Good, NaiveMatcher.Represents, Acceptable;
      var ok;
      ok, m := NaiveMatcher.Restore(saved.value.state, grant);
    } else {
      m := new NaiveMatcher(grant);
    }
  }

  /** In a reachable system the runner's recovery succeeds, on the engine and at the positions that
      the state machine says. */
  lemma RecoverAgrees(grant: int, s: System)
    requires Inv(Naive, grant, s)
    ensures var inFrom := if s.saved.Some? then s.saved.value.inPos else ZERO;
      var outFrom := if s.saved.Some? then s.saved.value.outPos else ZERO;
      var j := Rank(s.inbound.ids, inFrom);
      var n := Anchors(Tail(s.outbound, outFrom));
      && Resumable(s.inbound, inFrom) && Resumable(s.outbound, outFrom)
      && j + n == Answered(s) <= |s.inbound.items| && n <= |Tail(s.inbound, inFrom)|
      && (s.saved.Some? ==> s.saved.value.state == Take(After(Naive, grant, s, j).engine))
      && Run(Naive, After(Naive, grant, s, j).engine, Tail(s.inbound, inFrom)[..n]).engine
         == After(Naive, grant, s, Answered(s)).engine
  {
    hide Run, Anchors, Rank, Good, Take, Ascending, OthersSound, JobsSound, Resumable, SavedSound, Kept, KeptFor,
      Restored, Faithful, Tail;
    var inFrom := if s.saved.Some? then s.saved.value.inPos else ZERO;
    var outFrom := if s.saved.Some? then s.saved.value.outPos else ZERO;
    NeverRefused(Naive, grant, s);
    LoadedSound(Naive, grant, s);
    var j, p := Rank(s.inbound.ids, inFrom), Rank(s.outbound.ids, outFrom);
    InboundReadsOn(Naive, grant, s, inFrom, j);
    OutboundReadsOn(Naive, grant, s, outFrom, p);
    SavedAt(grant, s);
    TailsAnswer(grant, s, inFrom, outFrom, j, p);
  }

  lemma SavedAt(grant: int, s: System)
    requires Inv(Naive, grant, s)
    ensures Answered(s) <= |s.inbound.items|
    ensures s.saved.Some? ==> var j := Rank(s.inbound.ids, s.saved.value.inPos);
      j <= |s.inbound.items| && s.saved.value.state == Take(After(Naive, grant, s, j).engine)
  {
    hide Run, Anchors, Rank, Good, Take, Ascending;
  }

  lemma TailsAnswer(grant: int, s: System, inFrom: Id, outFrom: Id, j: nat, p: nat)
    requires Sound(s.inbound) && Sound(s.outbound) && Answered(s) <= |s.inbound.items|
    requires NextIndex(s.inbound, inFrom) == j <= Answered(s)
      && NextIndex(s.outbound, outFrom) == p <= |s.outbound.items|
    requires Anchors(s.outbound.items[..p]) == j
    ensures var n := Anchors(Tail(s.outbound, outFrom));
      && j + n == Answered(s) && n <= |Tail(s.inbound, inFrom)|
      && Run(Naive, After(Naive, grant, s, j).engine, Tail(s.inbound, inFrom)[..n]).engine
         == After(Naive, grant, s, Answered(s)).engine
  {
    hide Run, Anchors, Rank, Ascending, Good;
    var out := s.outbound.items;
    AnchorsAdd(out[..p], out[p..]);
    assert out[..p] + out[p..] == out;
    AfterContinues(Naive, grant, s, j, Answered(s));
    assert Tail(s.inbound, inFrom)[..Answered(s) - j] == s.inbound.items[j..Answered(s)];
  }
}
