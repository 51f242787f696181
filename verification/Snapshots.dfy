/** What a snapshot says about an engine, and the engine a snapshot restores. */
module Snapshots {
  import opened Contracts
  import opened PriceTime
  import opened EngineSpec

  datatype SnapshotOrder = SnapshotOrder(
    orderId: int, client: int, user: int, symbol: int, side: int, indexed: bool,
    price: int, remaining: int, createdAt: int)

  datatype Snapshot = Snapshot(next: int, orders: seq<SnapshotOrder>)

  // ---- ids in ascending order ----------------------------------------------------------------

  ghost predicate AscendingIds(ids: seq<int>) {
    forall i, j :: 0 <= i < j < |ids| ==> ids[i] < ids[j]
  }

  ghost predicate Lists(ids: seq<int>, s: set<int>) {
    AscendingIds(ids) && forall x :: x in ids <==> x in s
  }

  lemma LeastOf(s: set<int>) returns (least: int)
    requires s != {}
    ensures least in s && forall x :: x in s ==> least <= x
    decreases |s|
  {
    least := Member(s);
    if s != {least} {
      var rest := s - {least};
      assert s == rest + {least};
      var l := LeastOf(rest);
      least := if l < least then l else least;
    }
  }

  lemma SortedExists(s: set<int>)
    ensures exists ids :: Lists(ids, s)
    decreases |s|
  {
    if s == {} {
      assert Lists([], s);
    } else {
      var least := LeastOf(s);
      SortedExists(s - {least});
      var rest :| Lists(rest, s - {least});
      PrependLists(least, rest, s);
    }
  }

  lemma PrependLists(least: int, rest: seq<int>, s: set<int>)
    requires least in s && Lists(rest, s - {least}) && forall x :: x in s ==> least <= x
    ensures Lists([least] + rest, s)
  {
    forall i | 0 <= i < |rest| ensures least < rest[i] {
      var x := rest[i];
      assert x in rest;
    }
    forall x ensures x in [least] + rest <==> x in s {
      assert x in [least] + rest <==> x == least || x in rest;
    }
  }

  lemma HasMember(a: seq<int>)
    ensures a == [] || exists x :: x in a
  {
    if a != [] {
      var x := a[0];
      assert x in a;
    }
  }

  /** Two ascending lists of the same ids are the same list. */
  lemma {:induction false} ListsUnique(a: seq<int>, b: seq<int>, s: set<int>)
    requires Lists(a, s) && Lists(b, s)
    ensures a == b
    decreases |a|
  {
    if a == [] {
      HasMember(b);
    } else {
      assert a[0] in a && a[0] in b;
      assert b[0] in b && b[0] in a;
      assert a[0] == b[0];
      TailLists(a, s);
      TailLists(b, s);
      ListsUnique(a[1..], b[1..], s - {a[0]});
      assert a == [a[0]] + a[1..] && b == [b[0]] + b[1..];
    }
  }

  lemma TailLists(a: seq<int>, s: set<int>)
    requires Lists(a, s) && a != []
    ensures Lists(a[1..], s - {a[0]})
  {
    forall x ensures x in a[1..] <==> x in s - {a[0]} {
      if x in s && x != a[0] {
        assert x in a;
        var i :| 0 <= i < |a| && a[i] == x;
        assert a[1..][i - 1] == x;
      }
    }
  }

  ghost function Sorted(s: set<int>): (ids: seq<int>)
    ensures Lists(ids, s)
  {
    SortedExists(s);
    var ids :| Lists(ids, s);
    ids
  }

  // ---- taking and restoring ------------------------------------------------------------------

  function Row(e: Engine, id: int): SnapshotOrder
    requires id in e.live
  {
    var o := e.live[id];
    SnapshotOrder(id, o.client, o.user, o.symbol, o.side,
                  Key(o) in e.index && e.index[Key(o)] == id, o.price, o.remaining, o.createdAt)
  }

  function Rows(e: Engine, ids: seq<int>): seq<SnapshotOrder>
    requires forall k :: 0 <= k < |ids| ==> ids[k] in e.live
  {
    seq(|ids|, k requires 0 <= k < |ids| => Row(e, ids[k]))
  }

  ghost function Take(e: Engine): Snapshot {
    var ids := Sorted(e.live.Keys);
    assert forall k :: 0 <= k < |ids| ==> ids[k] in ids;
    Snapshot(e.next, Rows(e, ids))
  }

  function OrderOf(r: SnapshotOrder): Order {
    Order(r.client, r.user, r.symbol, r.side, r.price, r.remaining, r.createdAt)
  }

  /** One restored order joins the table; a flagged one claims its client id. */
  function Load(e: Engine, r: SnapshotOrder): Engine {
    e.(live := e.live[r.orderId := OrderOf(r)],
       index := if r.indexed then e.index[(r.user, r.client) := r.orderId] else e.index)
  }

  /** Orders are re-added oldest first. */
  function Restored(grant: int, next: int, rows: seq<SnapshotOrder>): Engine {
    if rows == [] then Engine(next, map[], map[], grant)
    else Load(Restored(grant, next, rows[..|rows| - 1]), rows[|rows| - 1])
  }

  lemma RestoredOne(grant: int, next: int, rows: seq<SnapshotOrder>, k: nat)
    requires k < |rows|
    ensures Restored(grant, next, rows[..k + 1]) == Load(Restored(grant, next, rows[..k]), rows[k])
  {
    assert rows[..k + 1][..k] == rows[..k];
  }

  /** What both engines accept: ids positive, ascending and below `next`, and orders that could rest. */
  predicate AcceptableRow(s: Snapshot, k: nat)
    requires k < |s.orders|
  {
    var r := s.orders[k];
    && (if k == 0 then 0 else s.orders[k - 1].orderId) < r.orderId < s.next
    && (r.side == BUY || r.side == SELL)
    && r.price > 0 && r.remaining > 0
  }

  predicate Acceptable(s: Snapshot) {
    forall k: nat :: k < |s.orders| ==> AcceptableRow(s, k)
  }

  lemma {:induction false} RestoredPrefix(e: Engine, ids: seq<int>)
    requires Good(e) && AscendingIds(ids) && forall k :: 0 <= k < |ids| ==> ids[k] in e.live
    ensures var r := Restored(e.grant, e.next, Rows(e, ids));
      && r.next == e.next && r.grant == e.grant
      && r.live == (map id | id in e.live && id in ids :: e.live[id])
      && r.index == (map k | k in e.index && e.index[k] in ids :: e.index[k])
    decreases |ids|
  {
    if ids != [] {
      var n := |ids| - 1;
      var init, last := ids[..n], ids[n];
      RestoredPrefix(e, init);
      assert Rows(e, ids)[..n] == Rows(e, init) && Rows(e, ids)[n] == Row(e, last);
      assert ids == init + [last];
      assert forall x :: x in ids <==> x in init || x == last;
      assert last !in init;
      IndexGrows(e, init, last, ids);
      LiveGrows(e.live, init, last, ids);
      hide Good, Rows, Row;
    }
  }

  lemma LiveGrows(live: Orders, init: seq<int>, last: int, ids: seq<int>)
    requires last in live && forall x :: x in ids <==> x in init || x == last
    ensures (map id | id in live && id in ids :: live[id])
            == (map id | id in live && id in init :: live[id])[last := live[last]]
  {
    assert forall x :: x in ids <==> x in init || x == last;
    var a := map id | id in live && id in ids :: live[id];
    var b := (map id | id in live && id in init :: live[id])[last := live[last]];
    forall id ensures id in a <==> id in b {}
    forall id | id in a ensures a[id] == b[id] {}
  }

  /** The index entries that reach one of `ids` are those that reached an earlier one, and the entry
      the last order owns, if it owns one. */
  lemma IndexGrows(e: Engine, init: seq<int>, last: int, ids: seq<int>)
    requires Good(e) && last in e.live && last !in init
    requires forall x :: x in ids <==> x in init || x == last
    ensures var before := map k | k in e.index && e.index[k] in init :: e.index[k];
      (map k | k in e.index && e.index[k] in ids :: e.index[k])
      == if Row(e, last).indexed then before[Key(e.live[last]) := last] else before
  {
    assert forall k :: k in e.index && e.index[k] == last ==> k == Key(e.live[last]);
  }

  /** Restoring a snapshot gives back the very engine it was taken from. */
  lemma RestoreUndoesTake(e: Engine)
    requires Good(e)
    ensures Acceptable(Take(e))
    ensures Restored(e.grant, Take(e).next, Take(e).orders) == e
  {
    var ids := Sorted(e.live.Keys);
    forall k | 0 <= k < |ids| ensures ids[k] in e.live { assert ids[k] in ids; }
    RestoredPrefix(e, ids);
    forall id | id in e.live ensures id in ids {}
    assert (map id | id in e.live && id in ids :: e.live[id]) == e.live;
    forall k | k in e.index ensures e.index[k] in ids {}
    assert (map k | k in e.index && e.index[k] in ids :: e.index[k]) == e.index;
  }

  /** From then on it answers every sequence of records exactly as the original would have. */
  lemma SnapshotIsTransparent(d: Dialect, e: Engine, rs: seq<Inbound>)
    requires Good(e)
    ensures var r := Restored(e.grant, Take(e).next, Take(e).orders);
      Good(r) && Run(d, r, rs) == Run(d, e, rs)
  {
    RestoreUndoesTake(e);
  }
}
