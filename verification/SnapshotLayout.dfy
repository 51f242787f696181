/** Where everything stands in the bytes of an engine's snapshot. */
module SnapshotLayout {
  import opened EngineSpec
  import opened LittleEndian
  import opened Snapshots
  import opened SnapshotCodec
  import opened SnapshotBytes

  /** The unsigned field of `width` bytes at `offset`. */
  function FieldIn(b: seq<Byte>, offset: nat, width: nat): (v: nat)
    requires offset + width <= |b|
    ensures FitsUnsigned(v, width)
  {
    ValueOf(b[offset..offset + width])
  }

  /** Its bytes are least significant first: byte `i` is what is left of the value after `i` bytes are shifted
      out, modulo 256. */
  lemma {:induction false} LeastSignificantFirst(b: seq<Byte>, i: nat)
    requires i < |b|
    ensures b[i] == Shift(ValueOf(b), i) % 256
  {
    assert ValueOf(b) % 256 == b[0] && ValueOf(b) / 256 == ValueOf(b[1..]);
    if i > 0 { LeastSignificantFirst(b[1..], i - 1); }
  }

  lemma Offsets()
    ensures Size(ROW[..0]) == 0 && Size(ROW[..1]) == 8 && Size(ROW[..2]) == 16 && Size(ROW[..3]) == 24
    ensures Size(ROW[..4]) == 26 && Size(ROW[..5]) == 27 && Size(ROW[..6]) == 28 && Size(ROW[..7]) == 36
    ensures Size(ROW[..8]) == 44
  {
    hide Size;
    assert Size(ROW[..0]) == 0 by { assert ROW[..0] == []; NoWidths(); }
    SizeStep(ROW, 0);
    SizeStep(ROW, 1);
    SizeStep(ROW, 2);
    SizeStep(ROW, 3);
    SizeStep(ROW, 4);
    SizeStep(ROW, 5);
    SizeStep(ROW, 6);
    SizeStep(ROW, 7);
  }

  lemma NoWidths()
    ensures Size([]) == 0
  {
  }

  /** One order in its 52 bytes. */
  ghost predicate OrderAt(b: seq<Byte>, o: nat, r: SnapshotOrder) {
    && o + 52 <= |b|
    && FieldIn(b, o, 8) == r.orderId && FieldIn(b, o + 8, 8) == r.client && FieldIn(b, o + 16, 8) == r.user
    && ToSigned(FieldIn(b, o + 24, 2), 2) == r.symbol && FieldIn(b, o + 26, 1) == r.side
    && FieldIn(b, o + 27, 1) == (if r.indexed then 1 else 0)
    && ToSigned(FieldIn(b, o + 28, 8), 8) == r.price && ToSigned(FieldIn(b, o + 36, 8), 8) == r.remaining
    && ToSigned(FieldIn(b, o + 44, 8), 8) == r.createdAt
  }

  lemma RowField(r: SnapshotOrder, k: nat)
    requires RowFits(r) && k < |ROW|
    ensures Size(ROW[..k]) + ROW[k] <= ROW_SIZE && FieldIn(PackRow(r), Size(ROW[..k]), ROW[k]) == FieldsOf(r)[k]
  {
    hide FieldsOf, PutAll, GetAll, RowFits;
    Sizes();
    FieldsFit(r);
    GetAllUndoesPutAll(FieldsOf(r), ROW);
    FieldAt(PackRow(r), ROW, k);
  }

  lemma RowFields(r: SnapshotOrder)
    requires RowFits(r)
    ensures var b, v := PackRow(r), FieldsOf(r);
      && FieldIn(b, 0, 8) == v[0] && FieldIn(b, 8, 8) == v[1] && FieldIn(b, 16, 8) == v[2]
      && FieldIn(b, 24, 2) == v[3] && FieldIn(b, 26, 1) == v[4] && FieldIn(b, 27, 1) == v[5]
      && FieldIn(b, 28, 8) == v[6] && FieldIn(b, 36, 8) == v[7] && FieldIn(b, 44, 8) == v[8]
  {
    hide FieldsOf, PackRow, FieldIn, RowFits, Size;
    Offsets();
    RowField(r, 0);
    RowField(r, 1);
    RowField(r, 2);
    RowField(r, 3);
    RowField(r, 4);
    RowField(r, 5);
    RowField(r, 6);
    RowField(r, 7);
    RowField(r, 8);
  }

  lemma RowStands(r: SnapshotOrder)
    requires RowFits(r)
    ensures OrderAt(PackRow(r), 0, r)
  {
    RowFields(r);
    hide PackRow, FieldIn, Pow256;
  }

  lemma MovesAlong(b: seq<Byte>, o: nat, r: SnapshotOrder)
    requires o + ROW_SIZE <= |b| && OrderAt(b[o..o + ROW_SIZE], 0, r)
    ensures OrderAt(b, o, r)
  {
    hide ValueOf, ToSigned, Pow256;
    SliceOfSlice(b, o, o + 52, 0, 8);
    SliceOfSlice(b, o, o + 52, 8, 16);
    SliceOfSlice(b, o, o + 52, 16, 24);
    SliceOfSlice(b, o, o + 52, 24, 26);
    SliceOfSlice(b, o, o + 52, 26, 27);
    SliceOfSlice(b, o, o + 52, 27, 28);
    SliceOfSlice(b, o, o + 52, 28, 36);
    SliceOfSlice(b, o, o + 52, 36, 44);
    SliceOfSlice(b, o, o + 52, 44, 52);
  }

  lemma {:induction false} RowIsPacked(head: seq<Byte>, rows: seq<SnapshotOrder>, i: nat)
    requires |head| == HEAD_SIZE && RowsFit(rows) && i < |rows|
    ensures RowBytes(head + PackRows(rows), i) == PackRow(rows[i])
    decreases |rows|
  {
    hide PackRow, RowFits;
    var n := |rows| - 1;
    var init, last := PackRows(rows[..n]), PackRow(rows[n]);
    var b := head + PackRows(rows);
    assert b == (head + init) + last;
    if i == n {
      assert RowBytes(b, i) == last;
    } else {
      RowIsPacked(head, rows[..n], i);
      assert RowBytes(b, i) == RowBytes(head + init, i);
    }
  }

  /** What the bytes say of one resting order. */
  ghost predicate LiveAt(b: seq<Byte>, o: nat, e: Engine, id: int) {
    && o + 52 <= |b| && id in e.live
    && var order := e.live[id];
       && FieldIn(b, o, 8) == id && FieldIn(b, o + 8, 8) == order.client && FieldIn(b, o + 16, 8) == order.user
       && ToSigned(FieldIn(b, o + 24, 2), 2) == order.symbol && FieldIn(b, o + 26, 1) == order.side
       && FieldIn(b, o + 27, 1)
          == (if (order.user, order.client) in e.index && e.index[(order.user, order.client)] == id then 1 else 0)
       && ToSigned(FieldIn(b, o + 28, 8), 8) == order.price
       && ToSigned(FieldIn(b, o + 36, 8), 8) == order.remaining
       && ToSigned(FieldIn(b, o + 44, 8), 8) == order.createdAt
  }

  lemma TakenCount(e: Engine)
    requires Good(e)
    ensures var ids := Sorted(e.live.Keys);
      && Take(e).next == e.next && |Take(e).orders| == |ids| == |e.live|
      && forall i :: 0 <= i < |ids| ==> ids[i] in e.live && Take(e).orders[i] == Row(e, ids[i])
  {
    var ids := Sorted(e.live.Keys);
    SortedCount(ids, e.live.Keys);
    assert |e.live.Keys| == |e.live|;
    forall i | 0 <= i < |ids| ensures ids[i] in e.live { assert ids[i] in ids; }
  }

  /** The bytes of an engine's snapshot begin with `QAS1`, the next id in eight bytes and the number of orders in
      four, and have 52 bytes for each order. */
  lemma HeadLaidOut(e: Engine)
    requires Good(e) && InRange(Take(e))
    ensures Pack(Take(e)).Some?
    ensures var b := Pack(Take(e)).value;
      && |b| == 16 + 52 * |e.live|
      && b[..4] == [0x51, 0x41, 0x53, 0x31] && FieldIn(b, 4, 8) == e.next && FieldIn(b, 12, 4) == |e.live|
  {
    TakenCount(e);
    BytesRestoreEngine(e);
    hide Take, Pack, Unpack, PackRows, GetAll, FieldIn, RowFits, Good;
    var s, b := Take(e), PackSorted(Take(e));
    var head := Head(s.next, |s.orders|);
    HeadBack(s.next, |s.orders|);
    hide Head;
    assert b[..4] == head[..4] && b[4..HEAD_SIZE] == head[4..];
    HeadAt(b);
    HeadIn(b);
  }

  /** The orders follow by ascending id, each with every field where the layout puts it. */
  lemma OrderLaidOut(e: Engine, i: nat)
    requires Good(e) && InRange(Take(e)) && i < |e.live|
    ensures Pack(Take(e)).Some? && |Sorted(e.live.Keys)| == |e.live|
    ensures LiveAt(Pack(Take(e)).value, 16 + 52 * i, e, Sorted(e.live.Keys)[i])
  {
    hide Take, Pack, Unpack, PackRows, PackRow, Sorted, FieldIn, RowFits, Good, OrderAt, LiveAt, Row, Restored,
      Acceptable, Lists, Head, Pow256;
    TakenCount(e);
    BytesRestoreEngine(e);
    var s, b := Take(e), PackSorted(Take(e));
    RowIsPacked(Head(s.next, |s.orders|), s.orders, i);
    assert RowFits(s.orders[i]);
    RowStands(s.orders[i]);
    MovesAlong(b, HEAD_SIZE + ROW_SIZE * i, s.orders[i]);
    RowSays(b, 16 + 52 * i, e, Sorted(e.live.Keys)[i]);
  }

  lemma RowSays(b: seq<Byte>, o: nat, e: Engine, id: int)
    requires id in e.live && OrderAt(b, o, Row(e, id))
    ensures LiveAt(b, o, e, id)
  {
    hide FieldIn;
  }

  lemma HeadIn(b: seq<Byte>)
    requires |b| >= 16
    ensures FieldIn(b, 4, 8) == ValueOf(b[4..12]) && FieldIn(b, 12, 4) == ValueOf(b[12..16])
  {
  }

  lemma {:induction false} SortedCount(ids: seq<int>, s: set<int>)
    requires Lists(ids, s)
    ensures |ids| == |s|
    decreases |ids|
  {
    if ids == [] {
      assert forall x :: x in ids <==> x in s;
      assert s == {};
    } else {
      assert ids[0] in ids;
      TailLists(ids, s);
      SortedCount(ids[1..], s - {ids[0]});
    }
  }
}
