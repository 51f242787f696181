/** A Redis stream: everything ever appended, under ascending ids, less a trimmed prefix. */
module Streams {
  import opened Contracts

  type Id = (nat, nat)

  const ZERO: Id := (0, 0)

  predicate Before(a: Id, b: Id) {
    a.0 < b.0 || (a.0 == b.0 && a.1 < b.1)
  }

  ghost predicate Ascending(ids: seq<Id>) {
    && (forall i :: 0 <= i < |ids| ==> Before(ZERO, ids[i]))
    && (forall i, j :: 0 <= i < j < |ids| ==> Before(ids[i], ids[j]))
  }

  /** `items[trimmed..]` is what a reader can still see. */
  datatype Stream<T> = Stream(ids: seq<Id>, items: seq<T>, trimmed: nat)

  ghost predicate Sound<T>(s: Stream<T>) {
    |s.ids| == |s.items| && s.trimmed <= |s.ids| && Ascending(s.ids)
  }

  /** The position of a reader that has applied the first `k` records. */
  function IdAt(ids: seq<Id>, k: nat): Id
    requires k <= |ids|
  {
    if k == 0 then ZERO else ids[k - 1]
  }

  function LastGenerated(ids: seq<Id>): Id {
    IdAt(ids, |ids|)
  }

  /** How many records are at or before `after`. */
  function Rank(ids: seq<Id>, after: Id): (k: nat)
    ensures k <= |ids|
    decreases |ids|
  {
    if ids == [] then 0
    else if Before(after, ids[|ids| - 1]) then Rank(ids[..|ids| - 1], after)
    else |ids|
  }

  lemma {:induction false} RankSplits(ids: seq<Id>, after: Id)
    requires Ascending(ids)
    ensures forall i :: 0 <= i < |ids| ==> (i < Rank(ids, after) <==> !Before(after, ids[i]))
    decreases |ids|
  {
    if ids != [] {
      var init := ids[..|ids| - 1];
      RankSplits(init, after);
      assert forall i :: 0 <= i < |init| ==> init[i] == ids[i];
    }
  }

  lemma RankAt(ids: seq<Id>, k: nat)
    requires Ascending(ids) && k <= |ids|
    ensures Rank(ids, IdAt(ids, k)) == k
  {
    var after := IdAt(ids, k);
    RankSplits(ids, after);
    assert forall i :: 0 <= i < k ==> !Before(after, ids[i]);
    assert forall i :: k <= i < |ids| ==> Before(after, ids[i]);
  }

  lemma AscendingPrefix(ids: seq<Id>, k: nat)
    requires Ascending(ids) && k <= |ids|
    ensures Ascending(ids[..k])
  {
  }

  // ---- reading and trimming --------------------------------------------------------------------

  /** The index of the first record a read after `after` returns: lost records are skipped silently. */
  function NextIndex<T>(s: Stream<T>, after: Id): nat {
    Max(s.trimmed, Rank(s.ids, after))
  }

  /** `XRANGE (after +` with a count: the index just past the batch. */
  function BatchEnd<T>(s: Stream<T>, after: Id, count: nat): nat
    requires s.trimmed <= |s.ids|
  {
    Min(NextIndex(s, after) + count, |s.ids|)
  }

  /** `ensure_resumable`: a stream that lost entries must still hold `after` itself or something older. */
  predicate Resumable<T>(s: Stream<T>, after: Id)
    requires s.trimmed <= |s.ids|
  {
    s.trimmed == 0 ||
    !Before(after, if s.trimmed < |s.ids| then s.ids[s.trimmed] else LastGenerated(s.ids))
  }

  /** Every record newer than `after` is retained. */
  ghost predicate NothingLost<T>(s: Stream<T>, after: Id)
    requires s.trimmed <= |s.ids|
  {
    forall i :: 0 <= i < s.trimmed ==> !Before(after, s.ids[i])
  }

  /** The guard accepts exactly the safe positions, less those that are themselves trimmed while
      something newer remains. */
  lemma GuardIsExact<T>(s: Stream<T>, after: Id)
    requires Sound(s)
    ensures Resumable(s, after) <==>
            NothingLost(s, after)
            && (0 < s.trimmed < |s.ids| ==> !Before(after, s.ids[s.trimmed]))
    ensures Resumable(s, after) ==> NextIndex(s, after) == Rank(s.ids, after)
  {
    RankSplits(s.ids, after);
    if Resumable(s, after) && s.trimmed > 0 {
      forall i | 0 <= i < s.trimmed ensures !Before(after, s.ids[i]) {
        if s.trimmed < |s.ids| { assert Before(s.ids[i], s.ids[s.trimmed]); }
        else if i < |s.ids| - 1 { assert Before(s.ids[i], s.ids[|s.ids| - 1]); }
      }
    }
    if NothingLost(s, after) && s.trimmed > 0 {
      assert !Before(after, s.ids[s.trimmed - 1]);
    }
  }

  /** For a reader's own saved position the guard asks that its record was not trimmed. */
  lemma GuardAtEntry<T>(s: Stream<T>, k: nat)
    requires Sound(s) && k <= |s.ids|
    ensures Resumable(s, IdAt(s.ids, k)) <==> s.trimmed == 0 || s.trimmed < k || k == |s.ids|
  {
    RankAt(s.ids, k);
    RankSplits(s.ids, IdAt(s.ids, k));
  }

  /** `XTRIM MINID ~`: removes some prefix of records older than `minid`. */
  predicate MayTrim<T>(s: Stream<T>, minid: Id, to: nat)
    requires s.trimmed <= |s.ids|
  {
    s.trimmed <= to <= |s.ids| && forall i :: s.trimmed <= i < to ==> Before(s.ids[i], minid)
  }

  /** A trim below a position keeps the position's own record. */
  lemma TrimKeepsPosition<T>(s: Stream<T>, minid: Id, to: nat, k: nat)
    requires Sound(s) && MayTrim(s, minid, to) && k <= |s.ids| && !Before(IdAt(s.ids, k), minid)
    requires s.trimmed == 0 || s.trimmed < k
    ensures to == 0 || to < k
  {
    if s.trimmed < to {
      var last := s.ids[to - 1];
      assert Before(last, minid) && Before(last, IdAt(s.ids, k));
      assert forall j :: 0 <= j < to ==> !Before(last, s.ids[j]);
    }
  }
}
