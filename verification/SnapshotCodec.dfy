/** The byte format of a snapshot, as the Python packer and the C++ worker both write and read it. */
module SnapshotCodec {
  import opened Contracts
  import opened LittleEndian
  import opened Snapshots

  const MAGIC: seq<Byte> := [0x51, 0x41, 0x53, 0x31]
  const HEAD: seq<nat> := [8, 4]
  const ROW: seq<nat> := [8, 8, 8, 2, 1, 1, 8, 8, 8]
  const HEAD_SIZE := 16
  const ROW_SIZE := 52

  lemma Sizes()
    ensures Size(HEAD) == HEAD_SIZE - 4 && Size(ROW) == ROW_SIZE
  {
    assert ROW[1..] == [8, 8, 2, 1, 1, 8, 8, 8] && ROW[2..] == [8, 2, 1, 1, 8, 8, 8];
    SizeSplit(ROW, 3);
    SizeSplit(ROW[3..], 3);
    assert ROW[3..][3..] == [8, 8, 8] && ROW[3..][..3] == [2, 1, 1] && ROW[..3] == [8, 8, 8];
    assert Size([8, 8, 8]) == 8 + Size([8, 8]) && Size([2, 1, 1]) == 2 + Size([1, 1]);
  }

  lemma {:induction false} SizeSplit(widths: seq<nat>, k: nat)
    requires k <= |widths|
    ensures Size(widths) == Size(widths[..k]) + Size(widths[k..])
  {
    if k > 0 {
      SizeSplit(widths[1..], k - 1);
      assert widths[..k][1..] == widths[1..][..k - 1] && widths[1..][k - 1..] == widths[k..];
    }
  }

  // ---- one row ---------------------------------------------------------------------------------

  predicate RowFits(r: SnapshotOrder) {
    && FitsUnsigned(r.orderId, 8) && FitsUnsigned(r.client, 8) && FitsUnsigned(r.user, 8)
    && FitsSigned(r.symbol, 2) && FitsUnsigned(r.side, 1)
    && FitsSigned(r.price, 8) && FitsSigned(r.remaining, 8) && FitsSigned(r.createdAt, 8)
  }

  function FieldsOf(r: SnapshotOrder): (values: seq<nat>)
    requires RowFits(r)
    ensures |values| == |ROW|
  {
    [r.orderId, r.client, r.user, ToUnsigned(r.symbol, 2), r.side, if r.indexed then 1 else 0,
     ToUnsigned(r.price, 8), ToUnsigned(r.remaining, 8), ToUnsigned(r.createdAt, 8)]
  }

  function RowFrom(values: seq<nat>): (r: SnapshotOrder)
    requires Fit(values, ROW)
    ensures RowFits(r)
  {
    assert values[3] < Pow256(ROW[3]) && values[4] < Pow256(ROW[4]) && values[0] < Pow256(ROW[0])
      && values[1] < Pow256(ROW[1])
      && values[2] < Pow256(ROW[2]) && values[6] < Pow256(ROW[6]) && values[7] < Pow256(ROW[7])
        && values[8] < Pow256(ROW[8]);
    SnapshotOrder(values[0], values[1], values[2], ToSigned(values[3], 2), values[4], values[5] != 0,
                  ToSigned(values[6], 8), ToSigned(values[7], 8), ToSigned(values[8], 8))
  }

  lemma FieldsFit(r: SnapshotOrder)
    requires RowFits(r)
    ensures Fit(FieldsOf(r), ROW) && RowFrom(FieldsOf(r)) == r
  {
    assert Pow256(1) == 256;
    var v := FieldsOf(r);
    forall i | 0 <= i < |v| ensures v[i] < Pow256(ROW[i]) {
      assert i in {0, 1, 2, 3, 4, 5, 6, 7, 8};
    }
  }

  /** Reading and writing back reproduces the fields exactly when the flag byte is 0 or 1. */
  lemma FieldsBack(values: seq<nat>)
    requires Fit(values, ROW)
    ensures FieldsOf(RowFrom(values)) == values <==> values[5] <= 1
  {
    var back := FieldsOf(RowFrom(values));
    assert values[3] < Pow256(ROW[3]) && values[6] < Pow256(ROW[6]) && values[7] < Pow256(ROW[7])
      && values[8] < Pow256(ROW[8]);
    SignedBack(values[3], 2);
    SignedBack(values[6], 8);
    SignedBack(values[7], 8);
    SignedBack(values[8], 8);
    assert back[..5] == values[..5] && back[6..] == values[6..];
    assert values[5] <= 1 ==> back == values;
  }

  function PackRow(r: SnapshotOrder): (b: seq<Byte>)
    requires RowFits(r)
    ensures |b| == ROW_SIZE
  {
    Sizes();
    PutAll(FieldsOf(r), ROW)
  }

  function UnpackRow(b: seq<Byte>): (r: SnapshotOrder)
    requires |b| == ROW_SIZE
    ensures RowFits(r)
  {
    Sizes();
    RowFrom(GetAll(b, ROW))
  }

  /** The flag byte. */
  function FlagOf(b: seq<Byte>): nat
    requires |b| == ROW_SIZE
  {
    Sizes();
    GetAll(b, ROW)[5]
  }

  lemma UnpackRowUndoesPackRow(r: SnapshotOrder)
    requires RowFits(r)
    ensures UnpackRow(PackRow(r)) == r
  {
    FieldsFit(r);
    GetAllUndoesPutAll(FieldsOf(r), ROW);
  }

  lemma PackRowUndoesUnpackRow(b: seq<Byte>)
    requires |b| == ROW_SIZE
    ensures PackRow(UnpackRow(b)) == b <==> FlagOf(b) <= 1
  {
    hide RowFrom, FieldsOf;
    Sizes();
    var values := GetAll(b, ROW);
    FieldsBack(values);
    PutAllUndoesGetAll(b, ROW);
    FieldsFit(RowFrom(values));
    GetAllUndoesPutAll(FieldsOf(RowFrom(values)), ROW);
  }

  // ---- rows ------------------------------------------------------------------------------------

  predicate RowsFit(rows: seq<SnapshotOrder>) {
    forall i :: 0 <= i < |rows| ==> RowFits(rows[i])
  }

  function PackRows(rows: seq<SnapshotOrder>): (b: seq<Byte>)
    requires RowsFit(rows)
    ensures |b| == ROW_SIZE * |rows|
  {
    if rows == [] then [] else PackRows(rows[..|rows| - 1]) + PackRow(rows[|rows| - 1])
  }

  /** The buffer reaches past row `i`. */
  predicate Holds(b: seq<Byte>, i: nat) {
    HEAD_SIZE + ROW_SIZE * (i + 1) <= |b|
  }

  function RowBytes(b: seq<Byte>, i: nat): (row: seq<Byte>)
    requires Holds(b, i)
    ensures |row| == ROW_SIZE
  {
    b[HEAD_SIZE + ROW_SIZE * i..HEAD_SIZE + ROW_SIZE * (i + 1)]
  }

  function RowAt(b: seq<Byte>, i: nat): (r: SnapshotOrder)
    requires Holds(b, i)
    ensures RowFits(r)
  {
    UnpackRow(RowBytes(b, i))
  }

  lemma {:induction false} RowOfPacked(head: seq<Byte>, rows: seq<SnapshotOrder>, i: nat)
    requires |head| == HEAD_SIZE && RowsFit(rows) && i < |rows|
    ensures RowAt(head + PackRows(rows), i) == rows[i]
    decreases |rows|
  {
    var n := |rows| - 1;
    var init, last := PackRows(rows[..n]), PackRow(rows[n]);
    var b := head + PackRows(rows);
    assert b == (head + init) + last;
    if i == n {
      UnpackRowUndoesPackRow(rows[n]);
      assert RowBytes(b, i) == last;
    } else {
      RowOfPacked(head, rows[..n], i);
      assert RowBytes(b, i) == RowBytes(head + init, i);
    }
  }

  function RowsOf(b: seq<Byte>, count: nat): (rows: seq<SnapshotOrder>)
    requires |b| == HEAD_SIZE + ROW_SIZE * count
    ensures RowsFit(rows)
  {
    seq(count, i requires 0 <= i < count => RowAt(b, i))
  }

  ghost predicate FlagsAreBits(b: seq<Byte>, count: nat)
    requires |b| == HEAD_SIZE + ROW_SIZE * count
  {
    forall i: nat :: i < count ==> FlagOf(RowBytes(b, i)) <= 1
  }

  /** Writing back what was read reproduces the body exactly when every flag byte is 0 or 1. */
  lemma {:induction false} PackedBack(b: seq<Byte>, count: nat)
    requires |b| == HEAD_SIZE + ROW_SIZE * count
    ensures PackRows(RowsOf(b, count)) == b[HEAD_SIZE..] <==> FlagsAreBits(b, count)
    decreases count
  {
    if count > 0 {
      hide PackRow, FlagOf, UnpackRow, FlagsAreBits, RowFits, RowBytes, PackRows, RowsOf;
      var n := count - 1;
      var init, row := b[..HEAD_SIZE + ROW_SIZE * n], UnpackRow(RowBytes(b, n));
      PackedBack(init, n);
      PackRowUndoesUnpackRow(RowBytes(b, n));
      RowsSplit(b, init, n);
      PackRowsOne(RowsOf(init, n), row);
      SameSplit(PackRows(RowsOf(init, n)), PackRow(row), init[HEAD_SIZE..], RowBytes(b, n));
      FlagsSplit(b, init, n);
    } else {
      assert b[HEAD_SIZE..] == [] && RowsOf(b, 0) == [];
    }
  }

  lemma RowsSplit(b: seq<Byte>, init: seq<Byte>, n: nat)
    requires |b| == HEAD_SIZE + ROW_SIZE * (n + 1) && init == b[..HEAD_SIZE + ROW_SIZE * n]
    ensures RowsOf(b, n + 1) == RowsOf(init, n) + [UnpackRow(RowBytes(b, n))]
    ensures b[HEAD_SIZE..] == init[HEAD_SIZE..] + RowBytes(b, n)
  {
    hide UnpackRow, RowFits;
    forall i: nat | i < n ensures RowBytes(init, i) == RowBytes(b, i) {}
  }

  lemma PackRowsOne(rows: seq<SnapshotOrder>, r: SnapshotOrder)
    requires RowsFit(rows) && RowFits(r)
    ensures PackRows(rows + [r]) == PackRows(rows) + PackRow(r)
  {
    assert (rows + [r])[..|rows|] == rows;
  }

  lemma SameSplit<T>(a: seq<T>, b: seq<T>, c: seq<T>, d: seq<T>)
    requires |a| == |c|
    ensures a + b == c + d <==> a == c && b == d
  {
    if a + b == c + d {
      assert a == (a + b)[..|a|] == c && b == (a + b)[|a|..] == d;
    }
  }

  lemma FlagsSplit(b: seq<Byte>, init: seq<Byte>, n: nat)
    requires |b| == HEAD_SIZE + ROW_SIZE * (n + 1) && init == b[..HEAD_SIZE + ROW_SIZE * n]
    ensures FlagsAreBits(b, n + 1) <==> FlagsAreBits(init, n) && FlagOf(RowBytes(b, n)) <= 1
  {
    hide FlagOf;
    forall i: nat | i < n ensures RowBytes(init, i) == RowBytes(b, i) {}
  }

  // ---- whole snapshots -------------------------------------------------------------------------

  /** Every value fits its field. */
  predicate InRange(s: Snapshot) {
    FitsUnsigned(s.next, 8) && FitsUnsigned(|s.orders|, 4) && RowsFit(s.orders)
  }

  predicate AscendingBelow(rows: seq<SnapshotOrder>, next: int) {
    forall i: nat :: i < |rows| ==> Follows(rows, next, i)
  }

  predicate Follows(rows: seq<SnapshotOrder>, next: int, i: nat)
    requires i < |rows|
  {
    (if i == 0 then 0 else rows[i - 1].orderId) < rows[i].orderId < next
  }

  function Head(next: nat, count: nat): (b: seq<Byte>)
    ensures |b| == HEAD_SIZE
  {
    Sizes();
    MAGIC + PutAll([next, count], HEAD)
  }

  /** The bytes of rows that are already in order. */
  function PackSorted(s: Snapshot): (b: seq<Byte>)
    requires InRange(s)
    ensures |b| == HEAD_SIZE + ROW_SIZE * |s.orders|
  {
    Head(s.next, |s.orders|) + PackRows(s.orders)
  }

  function InsertRow(r: SnapshotOrder, rows: seq<SnapshotOrder>): (all: seq<SnapshotOrder>)
    ensures multiset(all) == multiset([r] + rows) && |all| == |rows| + 1
  {
    if rows == [] || r.orderId <= rows[0].orderId then [r] + rows
    else
      assert rows == [rows[0]] + rows[1..];
      [rows[0]] + InsertRow(r, rows[1..])
  }

  /** Stable, by order id. */
  function SortRows(rows: seq<SnapshotOrder>): (sorted: seq<SnapshotOrder>)
    ensures multiset(sorted) == multiset(rows) && |sorted| == |rows|
  {
    if rows == [] then []
    else
      assert rows == [rows[0]] + rows[1..];
      InsertRow(rows[0], SortRows(rows[1..]))
  }

  ghost predicate NonDescending(rows: seq<SnapshotOrder>) {
    forall i, j :: 0 <= i < j < |rows| ==> rows[i].orderId <= rows[j].orderId
  }

  ghost predicate DistinctIds(rows: seq<SnapshotOrder>) {
    forall i, j :: 0 <= i < j < |rows| ==> rows[i].orderId != rows[j].orderId
  }

  lemma {:induction false} InsertSorts(r: SnapshotOrder, rows: seq<SnapshotOrder>)
    requires NonDescending(rows)
    ensures NonDescending(InsertRow(r, rows))
  {
    if rows != [] && r.orderId > rows[0].orderId {
      InsertSorts(r, rows[1..]);
      var tail := InsertRow(r, rows[1..]);
      forall i | 0 <= i < |tail| ensures rows[0].orderId <= tail[i].orderId {
        assert tail[i] in multiset(tail);
        assert tail[i] in multiset([r] + rows[1..]);
        assert tail[i] in [r] + rows[1..];
      }
    }
  }

  lemma {:induction false} SortSorts(rows: seq<SnapshotOrder>)
    ensures NonDescending(SortRows(rows))
  {
    if rows != [] {
      SortSorts(rows[1..]);
      InsertSorts(rows[0], SortRows(rows[1..]));
    }
  }

  lemma {:induction false} SortedAlready(rows: seq<SnapshotOrder>)
    requires NonDescending(rows)
    ensures SortRows(rows) == rows
  {
    if rows != [] {
      SortedAlready(rows[1..]);
      assert rows == [rows[0]] + rows[1..];
    }
  }

  function SortedSnapshot(s: Snapshot): Snapshot {
    s.(orders := SortRows(s.orders))
  }

  lemma SortedInRange(s: Snapshot)
    requires InRange(s)
    ensures InRange(SortedSnapshot(s))
  {
    var sorted := SortRows(s.orders);
    forall i | 0 <= i < |sorted| ensures RowFits(sorted[i]) {
      assert sorted[i] in multiset(sorted) && sorted[i] in multiset(s.orders);
      assert sorted[i] in s.orders;
    }
  }

  /** `pack`; `None` where a value does not fit its field. */
  function Pack(s: Snapshot): (b: Option<seq<Byte>>)
    ensures b.Some? <==> InRange(s)
  {
    if InRange(s) then
      SortedInRange(s);
      Some(PackSorted(SortedSnapshot(s)))
    else None
  }

  /** `unpack`; `None` where it raises. */
  function Unpack(b: seq<Byte>): (s: Option<Snapshot>) {
    if |b| < HEAD_SIZE || b[..4] != MAGIC then None
    else
      Sizes();
      var head := GetAll(b[4..HEAD_SIZE], HEAD);
      if |b| != HEAD_SIZE + ROW_SIZE * head[1] then None
      else
        var rows := RowsOf(b, head[1]);
        if AscendingBelow(rows, head[0]) then Some(Snapshot(head[0], rows)) else None
  }

  lemma HeadBack(next: nat, count: nat)
    requires FitsUnsigned(next, 8) && FitsUnsigned(count, 4)
    ensures Head(next, count)[..4] == MAGIC
    ensures Size(HEAD) == HEAD_SIZE - 4 && GetAll(Head(next, count)[4..], HEAD) == [next, count]
  {
    Sizes();
    assert Fit([next, count], HEAD);
    GetAllUndoesPutAll([next, count], HEAD);
    assert Head(next, count)[4..] == PutAll([next, count], HEAD);
  }

  /** Rows in order are read back as they were written, and refused otherwise. */
  lemma UnpackUndoesPackSorted(s: Snapshot)
    requires InRange(s)
    ensures Unpack(PackSorted(s)) == if AscendingBelow(s.orders, s.next) then Some(s) else None
  {
    hide RowAt, PackRows, Head, GetAll, RowFits, AscendingBelow;
    var head, b := Head(s.next, |s.orders|), PackSorted(s);
    HeadBack(s.next, |s.orders|);
    assert b[..4] == head[..4] && b[4..HEAD_SIZE] == head[4..];
    forall i: nat | i < |s.orders| ensures RowAt(b, i) == s.orders[i] { RowOfPacked(head, s.orders, i); }
    assert RowsOf(b, |s.orders|) == s.orders;
  }

  /** Every id is issued: positive and below the next one. */
  ghost predicate Issued(rows: seq<SnapshotOrder>, next: int) {
    forall i :: 0 <= i < |rows| ==> 0 < rows[i].orderId < next
  }

  lemma AscendingIffDistinct(rows: seq<SnapshotOrder>, next: int)
    requires NonDescending(rows)
    ensures AscendingBelow(rows, next) <==> DistinctIds(rows) && Issued(rows, next)
  {
    if AscendingBelow(rows, next) {
      forall i, j | 0 <= i < j < |rows| ensures rows[i].orderId < rows[j].orderId {
        Climbs(rows, next, i, j);
      }
      forall i | 0 <= i < |rows| ensures 0 < rows[i].orderId < next {
        assert Follows(rows, next, i);
        if i > 0 { Climbs(rows, next, 0, i); }
      }
    }
  }

  lemma {:induction false} Climbs(rows: seq<SnapshotOrder>, next: int, i: nat, j: nat)
    requires AscendingBelow(rows, next) && i < j < |rows|
    ensures 0 < rows[0].orderId && rows[i].orderId < rows[j].orderId < next
    decreases j
  {
    assert Follows(rows, next, j) && Follows(rows, next, 0);
    if i < j - 1 { Climbs(rows, next, i, j - 1); }
  }

  /** Packing then unpacking gives the snapshot back in id order, exactly when its ids are distinct and issued. */
  lemma RoundTrip(s: Snapshot)
    requires InRange(s)
    ensures NonDescending(SortRows(s.orders)) && multiset(SortRows(s.orders)) == multiset(s.orders)
    ensures Unpack(Pack(s).value) == Some(SortedSnapshot(s)) <==> DistinctIds(s.orders) && Issued(s.orders, s.next)
    ensures Unpack(Pack(s).value).Some? ==> Unpack(Pack(s).value) == Some(SortedSnapshot(s))
  {
    hide InRange, PackSorted, Unpack, AscendingBelow;
    SortSorts(s.orders);
    SortedInRange(s);
    UnpackUndoesPackSorted(SortedSnapshot(s));
    AscendingIffDistinct(SortRows(s.orders), s.next);
    SameIds(s.orders, s.next);
  }

  ghost function IdsOf(rows: seq<SnapshotOrder>): multiset<int> {
    if rows == [] then multiset{} else IdsOf(rows[1..]) + multiset{rows[0].orderId}
  }

  lemma {:induction false} InsertKeepsIds(r: SnapshotOrder, rows: seq<SnapshotOrder>)
    ensures IdsOf(InsertRow(r, rows)) == IdsOf(rows) + multiset{r.orderId}
  {
    if rows == [] || r.orderId <= rows[0].orderId {
      assert ([r] + rows)[1..] == rows;
    } else {
      InsertKeepsIds(r, rows[1..]);
    }
  }

  lemma {:induction false} SortKeepsIds(rows: seq<SnapshotOrder>)
    ensures IdsOf(SortRows(rows)) == IdsOf(rows)
  {
    if rows != [] {
      SortKeepsIds(rows[1..]);
      InsertKeepsIds(rows[0], SortRows(rows[1..]));
    }
  }

  ghost predicate OnceEach(ids: multiset<int>) {
    forall x :: x in ids ==> ids[x] <= 1
  }

  lemma {:induction false} IdsInRows(rows: seq<SnapshotOrder>)
    ensures forall x :: x in IdsOf(rows) <==> exists i :: 0 <= i < |rows| && rows[i].orderId == x
  {
    if rows != [] {
      IdsInRows(rows[1..]);
      forall x ensures x in IdsOf(rows) <==> exists i :: 0 <= i < |rows| && rows[i].orderId == x {
        if i :| 0 <= i < |rows| && rows[i].orderId == x {
          assert i > 0 ==> rows[1..][i - 1].orderId == x;
        }
        if x in IdsOf(rows[1..]) {
          var i :| 0 <= i < |rows[1..]| && rows[1..][i].orderId == x;
          assert rows[i + 1].orderId == x;
        }
      }
    }
  }

  lemma {:induction false} DistinctByCount(rows: seq<SnapshotOrder>)
    ensures DistinctIds(rows) <==> OnceEach(IdsOf(rows))
  {
    if rows != [] {
      var x, rest := rows[0].orderId, rows[1..];
      DistinctByCount(rest);
      IdsInRows(rest);
      assert DistinctIds(rows) <==> DistinctIds(rest) && x !in IdsOf(rest) by {
        assert forall j :: 0 < j < |rows| ==> rows[j] == rest[j - 1];
        assert forall j :: 0 <= j < |rest| ==> rest[j] == rows[j + 1];
      }
      assert OnceEach(IdsOf(rows)) <==> OnceEach(IdsOf(rest)) && x !in IdsOf(rest) by {
        assert IdsOf(rows)[x] == IdsOf(rest)[x] + 1;
        assert forall y :: y != x ==> IdsOf(rows)[y] == IdsOf(rest)[y];
      }
    }
  }

  lemma SameIds(rows: seq<SnapshotOrder>, next: int)
    ensures DistinctIds(SortRows(rows)) <==> DistinctIds(rows)
    ensures Issued(SortRows(rows), next) <==> Issued(rows, next)
  {
    var sorted := SortRows(rows);
    SortKeepsIds(rows);
    DistinctByCount(rows);
    DistinctByCount(sorted);
    IdsInRows(rows);
    IdsInRows(sorted);
    hide DistinctIds, OnceEach, SortRows;
    assert forall i :: 0 <= i < |rows| ==> rows[i].orderId in IdsOf(rows);
    assert forall i :: 0 <= i < |sorted| ==> sorted[i].orderId in IdsOf(sorted);
  }

  /** What unpacks is in range and in order, and packs back to the same bytes exactly when every flag
      byte is 0 or 1. */
  lemma PackUndoesUnpack(b: seq<Byte>)
    requires Unpack(b).Some?
    ensures var s := Unpack(b).value;
      && InRange(s) && |b| == HEAD_SIZE + ROW_SIZE * |s.orders|
      && SortedSnapshot(s) == s
      && (Pack(s) == Some(b) <==> FlagsAreBits(b, |s.orders|))
  {
    hide RowAt, PackRows, RowFits, FlagsAreBits, PutAll, GetAll, SortRows;
    Sizes();
    var s := Unpack(b).value;
    var head := GetAll(b[4..HEAD_SIZE], HEAD);
    HeadFields(head);
    PutAllUndoesGetAll(b[4..HEAD_SIZE], HEAD);
    PackedBack(b, head[1]);
    AscendingIsSorted(s.orders, s.next);
    SortedAlready(s.orders);
    assert b == b[..4] + b[4..HEAD_SIZE] + b[HEAD_SIZE..];
    assert Head(s.next, |s.orders|) == b[..HEAD_SIZE];
    SameSplit(b[..HEAD_SIZE], PackRows(s.orders), b[..HEAD_SIZE], b[HEAD_SIZE..]);
    assert b == b[..HEAD_SIZE] + b[HEAD_SIZE..];
  }

  lemma HeadFields(head: seq<nat>)
    requires Fit(head, HEAD)
    ensures FitsUnsigned(head[0], 8) && FitsUnsigned(head[1], 4) && head == [head[0], head[1]]
  {
    assert head[0] < Pow256(HEAD[0]) && head[1] < Pow256(HEAD[1]);
  }

  lemma AscendingIsSorted(rows: seq<SnapshotOrder>, next: int)
    requires AscendingBelow(rows, next)
    ensures NonDescending(rows)
  {
    forall i, j | 0 <= i < j < |rows| ensures rows[i].orderId <= rows[j].orderId { Climbs(rows, next, i, j); }
  }

  /** One order whose flag byte is 2. */
  const ODD: seq<nat> := [1, 0, 0, 0, 0, 2, 0, 0, 0]

  function OddBytes(): (b: seq<Byte>)
    ensures |b| == HEAD_SIZE + ROW_SIZE
  {
    Sizes();
    Head(2, 1) + PutAll(ODD, ROW)
  }

  lemma {:induction false} PowAtLeast(w: nat)
    requires w > 0
    ensures Pow256(w) >= 256
  {
    if w > 1 { PowAtLeast(w - 1); }
  }

  lemma OddFits()
    ensures Fit(ODD, ROW)
  {
    hide Pow256;
    forall i | 0 <= i < |ODD| ensures ODD[i] < Pow256(ROW[i]) {
      assert i in {0, 1, 2, 3, 4, 5, 6, 7, 8};
      PowAtLeast(ROW[i]);
    }
  }

  lemma OddRow()
    ensures FlagOf(RowBytes(OddBytes(), 0)) == 2
    ensures Fit(ODD, ROW) && RowAt(OddBytes(), 0) == RowFrom(ODD)
  {
    hide Pow256, GetAll, PutAll, Head, RowFrom;
    Sizes();
    OddFits();
    GetAllUndoesPutAll(ODD, ROW);
    assert RowBytes(OddBytes(), 0) == PutAll(ODD, ROW);
  }

  lemma OddUnpacks()
    ensures Fit(ODD, ROW) && Unpack(OddBytes()) == Some(Snapshot(2, [RowFrom(ODD)]))
  {
    hide Pow256, GetAll, PutAll, Head, RowFrom, RowAt, OddBytes;
    OddRow();
    OddHead();
    var b := OddBytes();
    assert RowsOf(b, 1) == [RowAt(b, 0)];
    assert RowFrom(ODD).orderId == 1 by { OddId(); }
    assert Follows([RowFrom(ODD)], 2, 0);
  }

  lemma OddId()
    ensures Fit(ODD, ROW) && RowFrom(ODD).orderId == 1 && RowFrom(ODD).indexed
  {
    hide Pow256, ToSigned;
    OddFits();
  }

  lemma OddHead()
    ensures OddBytes()[..4] == MAGIC && |OddBytes()[4..HEAD_SIZE]| == Size(HEAD)
    ensures GetAll(OddBytes()[4..HEAD_SIZE], HEAD) == [2, 1]
  {
    hide Pow256, GetAll, PutAll, Head;
    PowAtLeast(8);
    PowAtLeast(4);
    HeadBack(2, 1);
    assert OddBytes()[..4] == Head(2, 1)[..4] && OddBytes()[4..HEAD_SIZE] == Head(2, 1)[4..];
  }

  /** It unpacks, and packs back to other bytes. */
  lemma FlagTwoIsLost()
    ensures Unpack(OddBytes()).Some? && Pack(Unpack(OddBytes()).value) != Some(OddBytes())
  {
    hide Pow256, GetAll, PutAll, Head, RowFrom, Unpack, Pack, OddBytes, FlagOf, RowBytes;
    OddUnpacks();
    OddRow();
    PackUndoesUnpack(OddBytes());
    assert !FlagsAreBits(OddBytes(), 1);
  }
}
