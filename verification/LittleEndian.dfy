/** Fixed-width little-endian fields: the meaning of both `struct` packing and the byte loops. */
module LittleEndian {
  type Byte = x: int | 0 <= x < 256

  function Pow256(w: nat): (p: nat)
    ensures p > 0
  {
    if w == 0 then 1 else 256 * Pow256(w - 1)
  }

  /** The `w` low bytes of `v`, least significant first. */
  function LowBytes(v: nat, w: nat): (b: seq<Byte>)
    ensures |b| == w
  {
    if w == 0 then [] else [v % 256] + LowBytes(v / 256, w - 1)
  }

  function ValueOf(b: seq<Byte>): (v: nat)
    ensures v < Pow256(|b|)
  {
    if b == [] then 0 else b[0] + 256 * ValueOf(b[1..])
  }

  lemma {:induction false} GetUndoesPut(v: nat, w: nat)
    requires v < Pow256(w)
    ensures ValueOf(LowBytes(v, w)) == v
  {
    if w > 0 {
      assert v / 256 < Pow256(w - 1);
      GetUndoesPut(v / 256, w - 1);
      assert LowBytes(v, w)[1..] == LowBytes(v / 256, w - 1);
    }
  }

  lemma {:induction false} PutUndoesGet(b: seq<Byte>)
    ensures LowBytes(ValueOf(b), |b|) == b
  {
    if b != [] {
      PutUndoesGet(b[1..]);
      assert ValueOf(b) % 256 == b[0] && ValueOf(b) / 256 == ValueOf(b[1..]);
    }
  }

  // ---- signed fields in two's complement ------------------------------------------------------

  predicate FitsUnsigned(v: int, w: nat) {
    0 <= v < Pow256(w)
  }

  predicate FitsSigned(v: int, w: nat) {
    0 <= 2 * v + Pow256(w) < 2 * Pow256(w)
  }

  function ToUnsigned(v: int, w: nat): (u: nat)
    requires FitsSigned(v, w)
    ensures FitsUnsigned(u, w) && ToSigned(u, w) == v
  {
    if v < 0 then v + Pow256(w) else v
  }

  function ToSigned(u: nat, w: nat): (v: int)
    requires FitsUnsigned(u, w)
    ensures FitsSigned(v, w) && (v == u || v + Pow256(w) == u)
  {
    if 2 * u < Pow256(w) then u else u - Pow256(w)
  }

  lemma SignedBack(u: nat, w: nat)
    requires FitsUnsigned(u, w)
    ensures ToUnsigned(ToSigned(u, w), w) == u
  {
  }

  // ---- the byte loops --------------------------------------------------------------------------

  /** `v >> 8i`. */
  function Shift(v: nat, i: nat): nat {
    if i == 0 then v else Shift(v / 256, i - 1)
  }

  lemma {:induction false} PutAppend(v: nat, w: nat)
    ensures LowBytes(v, w + 1) == LowBytes(v, w) + [Shift(v, w) % 256]
  {
    if w > 0 {
      PutAppend(v / 256, w - 1);
    }
  }

  lemma {:induction false} GetAppend(b: seq<Byte>, x: Byte)
    ensures ValueOf(b + [x]) == ValueOf(b) + x * Pow256(|b|)
  {
    if b == [] {
      assert (b + [x])[1..] == [];
    } else {
      var rest := b[1..];
      GetAppend(rest, x);
      assert (b + [x])[1..] == rest + [x];
      Distributes(b[0], ValueOf(rest), x, Pow256(|rest|));
    }
  }

  lemma Distributes(a: int, g: int, x: int, p: int)
    ensures a + 256 * (g + x * p) == (a + 256 * g) + x * (256 * p)
  {
    assert x * (256 * p) == 256 * (x * p);
  }

  /** `put_le`: push `(value >> 8i) & 0xff` for each byte. */
  method PutLe(out: seq<Byte>, value: nat, width: nat) returns (r: seq<Byte>)
    ensures r == out + LowBytes(value, width)
  {
    r := out;
    for i := 0 to width
      invariant r == out + LowBytes(value, i)
    {
      PutAppend(value, i);
      r := r + [Shift(value, i) % 256];
    }
  }

  /** `get_le`: OR in each byte shifted by `8i`; the bits are disjoint because the value so far is below
      `256^i`. `None` is the truncation error. */
  method GetLe(data: seq<Byte>, offset: nat, width: nat) returns (ok: bool, value: nat)
    ensures ok <==> offset + width <= |data|
    ensures ok ==> value == ValueOf(data[offset..offset + width])
  {
    if offset + width > |data| {
      return false, 0;
    }
    value := 0;
    for i := 0 to width
      invariant value == ValueOf(data[offset..offset + i])
    {
      GetAppend(data[offset..offset + i], data[offset + i]);
      assert data[offset..offset + i + 1] == data[offset..offset + i] + [data[offset + i]];
      value := value + data[offset + i] * Pow256(i);
    }
    return true, value;
  }

  // ---- records of consecutive fields -----------------------------------------------------------

  function Size(widths: seq<nat>): nat {
    if widths == [] then 0 else widths[0] + Size(widths[1..])
  }

  predicate Fit(values: seq<nat>, widths: seq<nat>) {
    |values| == |widths| && forall i :: 0 <= i < |values| ==> values[i] < Pow256(widths[i])
  }

  function PutAll(values: seq<nat>, widths: seq<nat>): (b: seq<Byte>)
    requires |values| == |widths|
    ensures |b| == Size(widths)
  {
    if values == [] then [] else LowBytes(values[0], widths[0]) + PutAll(values[1..], widths[1..])
  }

  function GetAll(b: seq<Byte>, widths: seq<nat>): (values: seq<nat>)
    requires |b| == Size(widths)
    ensures Fit(values, widths)
  {
    if widths == [] then [] else [ValueOf(b[..widths[0]])] + GetAll(b[widths[0]..], widths[1..])
  }

  lemma {:induction false} GetAllUndoesPutAll(values: seq<nat>, widths: seq<nat>)
    requires Fit(values, widths)
    ensures GetAll(PutAll(values, widths), widths) == values
  {
    if values != [] {
      var first, rest := LowBytes(values[0], widths[0]), PutAll(values[1..], widths[1..]);
      GetUndoesPut(values[0], widths[0]);
      GetAllUndoesPutAll(values[1..], widths[1..]);
      assert (first + rest)[..widths[0]] == first && (first + rest)[widths[0]..] == rest;
    }
  }

  lemma {:induction false} PutAllUndoesGetAll(b: seq<Byte>, widths: seq<nat>)
    requires |b| == Size(widths)
    ensures PutAll(GetAll(b, widths), widths) == b
  {
    if widths != [] {
      var w := widths[0];
      var first, rest := b[..w], b[w..];
      PutUndoesGet(first);
      PutAllUndoesGetAll(rest, widths[1..]);
      PutAllCons(ValueOf(first), GetAll(rest, widths[1..]), widths);
      assert first + rest == b;
    }
  }

  lemma PutAllCons(v: nat, values: seq<nat>, widths: seq<nat>)
    requires |widths| == |values| + 1
    ensures PutAll([v] + values, widths) == LowBytes(v, widths[0]) + PutAll(values, widths[1..])
  {
    assert ([v] + values)[1..] == values;
  }
}
