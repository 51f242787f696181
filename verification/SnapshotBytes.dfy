/** The loops that write and read snapshot bytes: the Python unpacker and the C++ worker's two. */
module SnapshotBytes {
  import opened Contracts
  import opened EngineSpec
  import opened LittleEndian
  import opened Snapshots
  import opened SnapshotCodec

  /** The first `k` rows have been read and are in order; `previous` is the last id seen. */
  ghost predicate ReadSoFar(orders: seq<SnapshotOrder>, previous: int, data: seq<Byte>, next: int, count: nat, k: nat) {
    && |data| == HEAD_SIZE + ROW_SIZE * count && |orders| == k <= count
    && (forall i: nat :: i < k ==> orders[i] == RowAt(data, i))
    && AscendingBelow(orders, next)
    && previous == if k == 0 then 0 else orders[k - 1].orderId
  }

  lemma ReadNext(orders: seq<SnapshotOrder>, previous: int, data: seq<Byte>, next: int, count: nat, k: nat,
                 row: SnapshotOrder)
    requires ReadSoFar(orders, previous, data, next, count, k) && k < count && row == RowAt(data, k)
    ensures previous < row.orderId < next ==> ReadSoFar(orders + [row], row.orderId, data, next, count, k + 1)
    ensures !(previous < row.orderId < next) ==> !AscendingBelow(RowsOf(data, count), next)
  {
    hide RowAt;
    var all := orders + [row];
    forall i: nat | i < k ensures Follows(all, next, i) { assert Follows(orders, next, i); }
    if previous < row.orderId < next {
      assert Follows(all, next, k);
    } else {
      assert !Follows(RowsOf(data, count), next, k);
    }
  }

  lemma ReadAll(orders: seq<SnapshotOrder>, previous: int, data: seq<Byte>, next: int, count: nat)
    requires ReadSoFar(orders, previous, data, next, count, count)
    ensures orders == RowsOf(data, count) && AscendingBelow(orders, next)
  {
    hide RowAt;
  }

  lemma UnpackedRows(data: seq<Byte>, next: nat, count: nat)
    requires |data| >= HEAD_SIZE && data[..4] == MAGIC && |data| == HEAD_SIZE + ROW_SIZE * count
    requires Size(HEAD) == HEAD_SIZE - 4 && GetAll(data[4..HEAD_SIZE], HEAD) == [next, count]
    ensures Unpack(data) == if AscendingBelow(RowsOf(data, count), next)
                            then Some(Snapshot(next, RowsOf(data, count))) else None
  {
    hide GetAll, AscendingBelow, RowAt;
  }

  // ---- Python ----------------------------------------------------------------------------------

  /** `unpack`: check the head, then each row against the one before. */
  method UnpackBytes(data: seq<Byte>) returns (s: Option<Snapshot>)
    ensures s == Unpack(data)
  {
    Sizes();
    hide GetAll, Size, ReadSoFar, AscendingBelow, RowAt, RowsOf;
    if |data| < HEAD_SIZE {
      return None;
    }
    var head := GetAll(data[4..HEAD_SIZE], HEAD);
    if data[..4] != MAGIC {
      return None;
    }
    if |data| != HEAD_SIZE + ROW_SIZE * head[1] {
      return None;
    }
    HeadFields(head);
    UnpackedRows(data, head[0], head[1]);
    s := UnpackRows(data, head[0], head[1]);
  }

  method UnpackRows(data: seq<Byte>, next: nat, count: nat) returns (s: Option<Snapshot>)
    requires |data| == HEAD_SIZE + ROW_SIZE * count
    ensures s == if AscendingBelow(RowsOf(data, count), next) then Some(Snapshot(next, RowsOf(data, count))) else None
  {
    var orders: seq<SnapshotOrder> := [];
    var previous := 0;
    assert ReadSoFar(orders, previous, data, next, count, 0);
    hide ReadSoFar, AscendingBelow, RowAt, RowsOf;
    for index := 0 to count
      invariant ReadSoFar(orders, previous, data, next, count, index)
    {
      var order := RowAt(data, index);
      ReadNext(orders, previous, data, next, count, index, order);
      if order.orderId <= previous || order.orderId >= next {
        return None;
      }
      previous := order.orderId;
      orders := orders + [order];
    }
    ReadAll(orders, previous, data, next, count);
    return Some(Snapshot(next, orders));
  }

  // ---- C++: writing ----------------------------------------------------------------------------

  /** `out` is `start` with the first `k` fields written after it. */
  ghost predicate BytesOf(out: seq<Byte>, start: seq<Byte>, values: seq<nat>, widths: seq<nat>, k: nat) {
    k <= |values| == |widths| && out == start + PutAll(values[..k], widths[..k])
  }

  lemma NothingWritten(start: seq<Byte>, values: seq<nat>, widths: seq<nat>)
    requires |values| == |widths|
    ensures BytesOf(start, start, values, widths, 0)
  {
  }

  lemma {:induction false} PutAllStep(values: seq<nat>, widths: seq<nat>, k: nat)
    requires |values| == |widths| && k < |values|
    ensures PutAll(values[..k + 1], widths[..k + 1])
      == PutAll(values[..k], widths[..k]) + LowBytes(values[k], widths[k])
  {
    if k > 0 {
      PutAllStep(values[1..], widths[1..], k - 1);
      assert values[..k + 1][1..] == values[1..][..k] && widths[..k + 1][1..] == widths[1..][..k];
      assert values[..k][1..] == values[1..][..k - 1] && widths[..k][1..] == widths[1..][..k - 1];
    } else {
      assert values[..1][1..] == [] && widths[..1][1..] == [];
    }
  }

  method PutField(out: seq<Byte>, value: nat, width: nat, ghost start: seq<Byte>, ghost values: seq<nat>,
                  ghost widths: seq<nat>, ghost k: nat) returns (r: seq<Byte>)
    requires BytesOf(out, start, values, widths, k) && k < |values| && values[k] == value && widths[k] == width
    ensures BytesOf(r, start, values, widths, k + 1)
  {
    PutAllStep(values, widths, k);
    r := PutLe(out, value, width);
  }

  lemma AllWritten(out: seq<Byte>, start: seq<Byte>, values: seq<nat>, widths: seq<nat>)
    requires BytesOf(out, start, values, widths, |values|)
    ensures out == start + PutAll(values, widths)
  {
    assert values[..|values|] == values && widths[..|widths|] == widths;
  }

  method WriteRow(start: seq<Byte>, o: SnapshotOrder) returns (out: seq<Byte>)
    requires RowFits(o)
    ensures out == start + PackRow(o)
  {
    hide BytesOf, FitsSigned, Pow256;
    ghost var values := FieldsOf(o);
    NothingWritten(start, values, ROW);
    out := PutField(start, o.orderId, 8, start, values, ROW, 0);
    out := PutField(out, o.client, 8, start, values, ROW, 1);
    out := PutField(out, o.user, 8, start, values, ROW, 2);
    out := PutField(out, ToUnsigned(o.symbol, 2), 2, start, values, ROW, 3);
    out := PutField(out, o.side, 1, start, values, ROW, 4);
    out := PutField(out, if o.indexed then 1 else 0, 1, start, values, ROW, 5);
    out := PutField(out, ToUnsigned(o.price, 8), 8, start, values, ROW, 6);
    out := PutField(out, ToUnsigned(o.remaining, 8), 8, start, values, ROW, 7);
    out := PutField(out, ToUnsigned(o.createdAt, 8), 8, start, values, ROW, 8);
    AllWritten(out, start, values, ROW);
  }

  /** `StreamEngine::snapshot`'s bytes are the Python packer's. */
  method Encode(s: Snapshot) returns (out: seq<Byte>)
    requires InRange(s) && AscendingBelow(s.orders, s.next)
    ensures Pack(s) == Some(out)
  {
    out := EncodeRows(s);
    hide InRange, PackSorted;
    AscendingIsSorted(s.orders, s.next);
    SortedAlready(s.orders);
  }

  method EncodeRows(s: Snapshot) returns (out: seq<Byte>)
    requires InRange(s)
    ensures out == PackSorted(s)
  {
    hide Head, PackRow, RowFits, PackRows;
    out := WriteHead(s.next, |s.orders|);
    assert PackRows(s.orders[..0]) == [] by { PackNoRows(); assert s.orders[..0] == []; }
    for k := 0 to |s.orders|
      invariant out == Head(s.next, |s.orders|) + PackRows(s.orders[..k])
    {
      out := WriteRow(out, s.orders[k]);
      PackRowsOne(s.orders[..k], s.orders[k]);
      assert s.orders[..k + 1] == s.orders[..k] + [s.orders[k]];
    }
    assert s.orders[..|s.orders|] == s.orders;
  }

  lemma PackNoRows()
    ensures PackRows([]) == []
  {
  }

  method WriteHead(next: nat, count: nat) returns (out: seq<Byte>)
    ensures out == Head(next, count)
  {
    ghost var values := [next, count];
    hide BytesOf;
    NothingWritten(MAGIC, values, HEAD);
    out := PutField(MAGIC, next, 8, MAGIC, values, HEAD, 0);
    out := PutField(out, count, 4, MAGIC, values, HEAD, 1);
    AllWritten(out, MAGIC, values, HEAD);
  }

  // ---- C++: reading ----------------------------------------------------------------------------

  lemma SliceOfSlice<T>(s: seq<T>, lo: nat, hi: nat, i: nat, j: nat)
    requires lo <= hi <= |s| && i <= j <= hi - lo
    ensures s[lo..hi][i..j] == s[lo + i..lo + j]
  {
    var a, b := s[lo..hi][i..j], s[lo + i..lo + j];
    forall k | 0 <= k < j - i ensures a[k] == b[k] {
      assert a[k] == s[lo..hi][i + k] && b[k] == s[lo + i + k];
    }
  }

  lemma FirstField(b: seq<Byte>, widths: seq<nat>)
    requires |b| == Size(widths) && widths != []
    ensures Size(widths[..0]) == 0 && widths[0] <= |b| && GetAll(b, widths)[0] == ValueOf(b[0..widths[0]])
  {
    hide ValueOf, Pow256;
    assert widths[..0] == [];
  }

  lemma LaterField(b: seq<Byte>, widths: seq<nat>, k: nat)
    requires |b| == Size(widths) && 0 < k < |widths|
    ensures widths[0] <= |b| && |b[widths[0]..]| == Size(widths[1..])
    ensures GetAll(b, widths)[k] == GetAll(b[widths[0]..], widths[1..])[k - 1]
    ensures Size(widths[..k]) == widths[0] + Size(widths[1..][..k - 1])
  {
    hide ValueOf, Pow256;
    assert widths[..k][1..] == widths[1..][..k - 1];
  }

  lemma {:induction false} FieldAt(b: seq<Byte>, widths: seq<nat>, k: nat)
    requires |b| == Size(widths) && k < |widths|
    ensures var at := Size(widths[..k]);
      at + widths[k] <= |b| && GetAll(b, widths)[k] == ValueOf(b[at..at + widths[k]])
  {
    hide ValueOf, GetAll, Size;
    if k == 0 {
      FirstField(b, widths);
    } else {
      LaterField(b, widths, k);
      var at := Size(widths[1..][..k - 1]);
      FieldAt(b[widths[0]..], widths[1..], k - 1);
      SameField(b, widths[0], at, widths[k], GetAll(b, widths)[k]);
    }
  }

  lemma SameField(b: seq<Byte>, first: nat, at: nat, width: nat, value: nat)
    requires first + at + width <= |b| && value == ValueOf(b[first..][at..at + width])
    ensures value == ValueOf(b[first + at..first + at + width])
  {
    hide ValueOf;
    SliceOfSlice(b, first, |b|, at, at + width);
    assert b[first..|b|] == b[first..];
  }

  /** `values` are the fields of the row at `base`. */
  ghost predicate FieldsAt(values: seq<nat>, data: seq<Byte>, base: nat) {
    && base + ROW_SIZE <= |data| && Size(ROW) == ROW_SIZE
    && values == GetAll(data[base..base + ROW_SIZE], ROW) && Fit(values, ROW)
  }

  /** Reading `width` bytes at `offset` gives field `k` of the row that starts at `base`. */
  method GetField(data: seq<Byte>, offset: nat, width: nat, ghost base: nat, ghost values: seq<nat>, ghost k: nat)
      returns (v: nat)
    requires FieldsAt(values, data, base) && k < |ROW| && width == ROW[k]
    requires offset == base + Size(ROW[..k])
    ensures k < |values| && v == values[k]
    ensures offset + width == base + Size(ROW[..k + 1])
  {
    hide Pow256, GetAll;
    FieldAt(data[base..base + ROW_SIZE], ROW, k);
    SizeStep(ROW, k);
    SliceOfSlice(data, base, base + ROW_SIZE, Size(ROW[..k]), Size(ROW[..k]) + width);
    hide Size, ValueOf;
    var ok;
    ok, v := GetLe(data, offset, width);
  }

  lemma {:induction false} SizeStep(widths: seq<nat>, k: nat)
    requires k < |widths|
    ensures Size(widths[..k + 1]) == Size(widths[..k]) + widths[k]
  {
    if k > 0 {
      SizeStep(widths[1..], k - 1);
      assert widths[..k + 1][1..] == widths[1..][..k] && widths[..k][1..] == widths[1..][..k - 1];
    } else {
      assert widths[..1][1..] == [];
    }
  }

  method ReadAmounts(data: seq<Byte>, base: nat, ghost values: seq<nat>)
    returns (price: nat, remaining: nat, createdAt: nat)
    requires FieldsAt(values, data, base)
    ensures |values| == 9 && price == values[6] && remaining == values[7] && createdAt == values[8]
  {
    SizeOfKeys();
    assert |values| == 9;
    hide Size, FieldsAt;
    price := GetField(data, base + 28, 8, base, values, 6);
    remaining := GetField(data, base + 36, 8, base, values, 7);
    createdAt := GetField(data, base + 44, 8, base, values, 8);
  }

  lemma SizeOfKeys()
    ensures Size(ROW[..6]) == 28
  {
    SizeSplit(ROW, 6);
    assert ROW[6..] == [8, 8, 8] && Size([8, 8, 8]) == 8 + Size([8, 8]);
    Sizes();
  }

  method ReadRow(data: seq<Byte>, base: nat) returns (o: SnapshotOrder)
    requires base + ROW_SIZE <= |data|
    ensures o == UnpackRow(data[base..base + ROW_SIZE])
  {
    assert ROW[..0] == [] && Size([]) == 0;
    Sizes();
    ghost var values := GetAll(data[base..base + ROW_SIZE], ROW);
    hide Size, GetAll, FieldsAt, Fit, UnpackRow;
    UnpackedFields(data, base, values);
    hide FitsSigned, Pow256, ToSigned;
    var orderId := GetField(data, base, 8, base, values, 0);
    var client := GetField(data, base + 8, 8, base, values, 1);
    var user := GetField(data, base + 16, 8, base, values, 2);
    var symbol := GetField(data, base + 24, 2, base, values, 3);
    var side := GetField(data, base + 26, 1, base, values, 4);
    var indexed := GetField(data, base + 27, 1, base, values, 5);
    var price, remaining, createdAt := ReadAmounts(data, base, values);
    o := SnapshotOrder(orderId, client, user, ToSigned(symbol, 2), side, indexed != 0,
                       ToSigned(price, 8), ToSigned(remaining, 8), ToSigned(createdAt, 8));
  }

  lemma UnpackedFields(data: seq<Byte>, base: nat, values: seq<nat>)
    requires base + ROW_SIZE <= |data| && Size(ROW) == ROW_SIZE
    requires values == GetAll(data[base..base + ROW_SIZE], ROW)
    ensures FieldsAt(values, data, base) && |values| == 9
    ensures FitsUnsigned(values[3], 2) && FitsUnsigned(values[6], 8) && FitsUnsigned(values[7], 8)
      && FitsUnsigned(values[8], 8)
    ensures UnpackRow(data[base..base + ROW_SIZE]) == SnapshotOrder(
      values[0], values[1], values[2], ToSigned(values[3], 2), values[4], values[5] != 0,
      ToSigned(values[6], 8), ToSigned(values[7], 8), ToSigned(values[8], 8))
  {
    hide Size, GetAll, ToSigned;
    assert values[3] < Pow256(ROW[3]) && values[6] < Pow256(ROW[6]) && values[7] < Pow256(ROW[7])
      && values[8] < Pow256(ROW[8]);
  }

  /** `restore` reads the rows the Python unpacker reads, and refuses the same bytes. */
  method Decode(data: seq<Byte>) returns (s: Option<Snapshot>)
    ensures s == Unpack(data)
  {
    if |data| < 4 || data[..4] != MAGIC {
      return None;
    }
    var headOk, next := GetLe(data, 4, 8);
    var countOk, count := GetLe(data, 12, 4);
    if !headOk || !countOk {
      return None;
    }
    HeadAt(data);
    hide GetAll, ValueOf, Size, AscendingBelow, RowAt, RowsOf;
    if |data| != HEAD_SIZE + ROW_SIZE * count {
      return None;
    }
    UnpackedRows(data, next, count);
    s := DecodeRows(data, next, count);
  }

  method DecodeRows(data: seq<Byte>, next: nat, count: nat) returns (s: Option<Snapshot>)
    requires |data| == HEAD_SIZE + ROW_SIZE * count
    ensures s == if AscendingBelow(RowsOf(data, count), next) then Some(Snapshot(next, RowsOf(data, count))) else None
  {
    var orders: seq<SnapshotOrder> := [];
    var previous := 0;
    var offset := HEAD_SIZE;
    assert ReadSoFar(orders, previous, data, next, count, 0);
    hide ReadSoFar, AscendingBelow, RowAt, RowsOf, UnpackRow;
    for i := 0 to count
      invariant ReadSoFar(orders, previous, data, next, count, i) && offset == HEAD_SIZE + ROW_SIZE * i
    {
      var order := ReadRow(data, offset);
      offset := offset + ROW_SIZE;
      RowAtIs(data, i);
      ReadNext(orders, previous, data, next, count, i, order);
      if order.orderId <= previous || order.orderId >= next {
        return None;
      }
      previous := order.orderId;
      orders := orders + [order];
    }
    ReadAll(orders, previous, data, next, count);
    return Some(Snapshot(next, orders));
  }

  lemma RowAtIs(b: seq<Byte>, i: nat)
    requires Holds(b, i)
    ensures var base := HEAD_SIZE + ROW_SIZE * i;
      RowAt(b, i) == UnpackRow(b[base..base + ROW_SIZE])
  {
    hide UnpackRow;
    assert HEAD_SIZE + ROW_SIZE * i + ROW_SIZE == HEAD_SIZE + ROW_SIZE * (i + 1);
  }

  lemma HeadAt(data: seq<Byte>)
    requires |data| >= HEAD_SIZE
    ensures Size(HEAD) == HEAD_SIZE - 4
    ensures GetAll(data[4..HEAD_SIZE], HEAD) == [ValueOf(data[4..12]), ValueOf(data[12..16])]
  {
    Sizes();
    var b := data[4..HEAD_SIZE];
    assert b[..8] == data[4..12] && b[8..] == data[12..16] && b[8..][..4] == b[8..] && b[8..][4..] == [];
    assert HEAD[1..] == [4] && [4][1..] == [];
  }

  // ---- the engine behind the bytes -------------------------------------------------------------

  /** Whatever engine a snapshot was taken from, its bytes restore that engine. */
  lemma BytesRestoreEngine(e: Engine)
    requires Good(e) && InRange(Take(e))
    ensures Pack(Take(e)) == Some(PackSorted(Take(e))) && Unpack(Pack(Take(e)).value) == Some(Take(e))
    ensures Acceptable(Take(e)) && Restored(e.grant, Take(e).next, Take(e).orders) == e
  {
    RestoreUndoesTake(e);
    var s := Take(e);
    assert AscendingBelow(s.orders, s.next) by {
      hide Take;
      forall i: nat | i < |s.orders| ensures Follows(s.orders, s.next, i) { assert AcceptableRow(s, i); }
    }
    AscendingIsSorted(s.orders, s.next);
    SortedAlready(s.orders);
    UnpackUndoesPackSorted(s);
  }
}
