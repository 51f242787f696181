/** The bit stream: codes packed least significant bit first into bytes, read back at the decoder's own
    widths. */
module LzwBits {
  import opened Contracts
  import opened Lzw

  type Bit = bool

  function Bits(v: nat, w: nat): (b: seq<Bit>)
    ensures |b| == w
  {
    if w == 0 then [] else [v % 2 == 1] + Bits(v / 2, w - 1)
  }

  function Value(b: seq<Bit>): nat {
    if b == [] then 0 else (if b[0] then 1 else 0) + 2 * Value(b[1..])
  }

  lemma {:induction false} ValueOfBits(v: nat, w: nat)
    requires v < Pow2(w)
    ensures Value(Bits(v, w)) == v
  {
    if w > 0 {
      ValueOfBits(v / 2, w - 1);
      assert Bits(v, w)[1..] == Bits(v / 2, w - 1);
    }
  }

  function Zeros(n: nat): (b: seq<Bit>)
    ensures |b| == n
  {
    seq(n, i => false)
  }

  function AllBits(emits: seq<Emit>): seq<Bit> {
    if emits == [] then [] else Bits(emits[0].code, emits[0].width) + AllBits(emits[1..])
  }

  lemma {:induction false} AllBitsAppend(emits: seq<Emit>, x: Emit)
    ensures AllBits(emits + [x]) == AllBits(emits) + Bits(x.code, x.width)
  {
    if emits == [] {
      assert [] + [x] == [x] && [x][1..] == [];
      assert AllBits([x]) == Bits(x.code, x.width) + [];
    } else {
      AllBitsAppend(emits[1..], x);
      assert (emits + [x])[1..] == emits[1..] + [x];
    }
  }

  /** Appendix F: read codes at the current width until the end code or the end of the data. */
  function Decode(d: Decoder, bits: seq<Bit>): Option<Str>
    decreases |bits|
  {
    if d.width == 0 || |bits| < d.width then Some(d.out)
    else
      var code := Value(bits[..d.width]);
      if code == END then Some(d.out)
      else
        var next := Read(d, code);
        if next == None then None else Decode(next.value, bits[d.width..])
  }

  lemma {:induction false} DecodeFollows(d: Decoder, emits: seq<Emit>, rest: seq<Bit>)
    requires Follow(d, emits).Some? && forall i :: 0 <= i < |emits| ==> Emitted(emits[i])
    ensures Decode(d, AllBits(emits) + rest) == Decode(Follow(d, emits).value, rest)
    decreases |emits|
  {
    hide Read, Pow2, Follow, AllBits, Decode, Bits, Value;
    if emits == [] {
      NothingToFollow(d, rest);
    } else {
      var x, tail := emits[0], AllBits(emits[1..]) + rest;
      FollowStep(d, emits);
      assert Emitted(x);
      ValueOfBits(x.code, x.width);
      DecodeFollows(Read(d, x.code).value, emits[1..], rest);
      DecodeOne(d, x, tail);
      AllBitsCons(emits, rest);
    }
  }

  lemma NothingToFollow(d: Decoder, rest: seq<Bit>)
    ensures Follow(d, []) == Some(d) && AllBits([]) + rest == rest
  {
  }

  lemma FollowStep(d: Decoder, emits: seq<Emit>)
    requires Follow(d, emits).Some? && emits != []
    ensures emits[0].width == d.width && Read(d, emits[0].code).Some?
    ensures Follow(d, emits) == Follow(Read(d, emits[0].code).value, emits[1..])
  {
    hide Read;
  }

  lemma AllBitsCons(emits: seq<Emit>, rest: seq<Bit>)
    requires emits != []
    ensures AllBits(emits) + rest == Bits(emits[0].code, emits[0].width) + (AllBits(emits[1..]) + rest)
  {
    hide Bits;
  }

  lemma DecodeOne(d: Decoder, x: Emit, tail: seq<Bit>)
    requires x.width == d.width > 0 && x.code != END && Value(Bits(x.code, x.width)) == x.code && Read(d, x.code).Some?
    ensures Decode(d, Bits(x.code, x.width) + tail) == Decode(Read(d, x.code).value, tail)
  {
    hide Read, Bits, Value;
    var all := Bits(x.code, x.width) + tail;
    assert all[..d.width] == Bits(x.code, x.width) && all[d.width..] == tail;
  }

  // ---- the trailing end code ---------------------------------------------------------------------

  lemma {:induction false} ValueWithZero(b: seq<Bit>)
    ensures Value(b + [false]) == Value(b)
  {
    if b == [] {
      assert [] + [false] == [false] && [false][1..] == [];
    } else {
      ValueWithZero(b[1..]);
      assert (b + [false])[1..] == b[1..] + [false];
    }
  }

  /** The end code stops the decoder even if its last data code widened it by a bit. */
  lemma EndStops(d: Decoder, w: nat, pad: nat)
    requires 3 <= w && (d.width == w || d.width == w + 1)
    ensures Decode(d, Bits(END, w) + Zeros(pad)) == Some(d.out)
  {
    Powers();
    PowMonotone(3, w);
    ValueOfBits(END, w);
    var all := Bits(END, w) + Zeros(pad);
    if d.width <= |all| {
      if d.width == w {
        assert all[..d.width] == Bits(END, w);
      } else {
        assert all[..d.width] == Bits(END, w) + [false];
        ValueWithZero(Bits(END, w));
      }
    }
  }

  /** Everything the encoder appends after the last pixel. */
  function Finish(e: Encoder): seq<Emit>
    requires e.current in e.table
  {
    e.out + [Emit(e.table[e.current], e.width)] + [Emit(END, e.width)]
  }

  /** For every non-empty image the decoder gives the pixels back: across width growth, full tables, codes
      not yet defined, and an end code at a stale width. */
  lemma RoundTrip(pixels: Str, pad: nat)
    requires pixels != [] && AllPixels(pixels)
    ensures Decode(Cleared([]), AllBits(Finish(EncodeAll(pixels))) + Zeros(pad)) == Some(pixels)
  {
    hide Follow, Read, Decode, Pow2, EncodeAll, TableSound, SameCodes, Behind, AllBits, Bits, Emitted, Reads, Zeros;
    var e := EncodeAll(pixels);
    EncodeReads(pixels);
    EncodedReads(e, pixels);
    var d := Follow(Cleared([]), e.out).value;
    var last := Emit(e.table[e.current], e.width);
    CatchesUp(e, d, pixels);
    EmitFits(e, d, pixels);
    FollowOne(d, last);
    FollowAppend(Cleared([]), e.out, [last]);
    AllBitsAppend(e.out + [last], Emit(END, e.width));
    var data, end := AllBits(e.out + [last]), Bits(END, e.width);
    assert (data + end) + Zeros(pad) == data + (end + Zeros(pad));
    AllEmitted(e, last);
    DecodeFollows(Cleared([]), e.out + [last], end + Zeros(pad));
    WidthAtLeast(e, d, pixels);
    EndStops(Read(d, last.code).value, e.width, pad);
  }

  lemma EncodedReads(e: Encoder, pixels: Str)
    requires Reads(e, pixels)
    ensures var d := Follow(Cleared([]), e.out);
      && d.Some? && Agree(e, d.value, pixels) && d.value.width == e.width
      && forall i :: 0 <= i < |e.out| ==> Emitted(e.out[i])
  {
  }

  lemma AllEmitted(e: Encoder, last: Emit)
    requires Emitted(last) && forall i :: 0 <= i < |e.out| ==> Emitted(e.out[i])
    ensures forall i :: 0 <= i < |e.out + [last]| ==> Emitted((e.out + [last])[i])
  {
  }

  lemma WidthAtLeast(e: Encoder, d: Decoder, pixels: Str)
    requires Agree(e, d, pixels)
    ensures 3 <= e.width <= MAX_WIDTH
  {
  }

  // ---- bytes -------------------------------------------------------------------------------------

  function Unpack(bytes: seq<nat>): seq<Bit> {
    if bytes == [] then [] else Unpack(bytes[..|bytes| - 1]) + Bits(bytes[|bytes| - 1], 8)
  }

  lemma UnpackAppend(bytes: seq<nat>, b: nat)
    ensures Unpack(bytes + [b]) == Unpack(bytes) + Bits(b, 8)
  {
    assert (bytes + [b])[..|bytes|] == bytes;
  }

  /** `v >> n`. */
  function ShiftedDown(v: nat, n: nat): nat {
    if n == 0 then v else ShiftedDown(v / 2, n - 1)
  }

  lemma {:induction false} BitIs(v: nat, w: nat, j: nat)
    requires j < w
    ensures Bits(v, w)[j] == (ShiftedDown(v, j) % 2 == 1)
  {
    if j > 0 { BitIs(v / 2, w - 1, j - 1); }
  }

  /** Bit `8k + j` of the stream is bit `j` of byte `k`, counted from the least significant. */
  lemma {:induction false} BitOfByte(bytes: seq<nat>, k: nat, j: nat)
    requires k < |bytes| && j < 8
    ensures |Unpack(bytes)| == 8 * |bytes| && Unpack(bytes)[8 * k + j] == (ShiftedDown(bytes[k], j) % 2 == 1)
    decreases |bytes|
  {
    var n := |bytes| - 1;
    UnpackedLength(bytes[..n]);
    if k == n {
      hide Bits;
      BitIs(bytes[n], 8, j);
    } else {
      hide Bits;
      BitOfByte(bytes[..n], k, j);
    }
  }

  lemma {:induction false} UnpackedLength(bytes: seq<nat>)
    ensures |Unpack(bytes)| == 8 * |bytes|
    decreases |bytes|
  {
    if bytes != [] { UnpackedLength(bytes[..|bytes| - 1]); }
  }

  /** An image of one pixel: clear, 1 and end in three bits each are the bytes 4C 01. */
  lemma OnePixel()
    ensures AllBits(Finish(EncodeAll([1]))) + Zeros(7) == Unpack([0x4C, 0x01])
  {
    OnePixelCodes();
    hide EncodeAll, Finish, AllBits, Unpack, Bits;
    OnePixelBits();
    UnpackAppend([], 0x4C);
    UnpackAppend([0x4C], 0x01);
    assert [] + [0x4C] == [0x4C] && [0x4C] + [0x01] == [0x4C, 0x01];
    NothingUnpacked();
    ByteBits();
  }

  lemma NothingUnpacked()
    ensures Unpack([]) == []
  {
  }

  lemma OnePixelCodes()
    ensures Finish(EncodeAll([1])) == [Emit(4, 3), Emit(1, 3), Emit(5, 3)]
  {
    assert [1][..0] == [];
  }

  lemma OnePixelBits()
    ensures AllBits([Emit(4, 3), Emit(1, 3), Emit(5, 3)])
         == [false, false, true] + ([true, false, false] + ([true, false, true] + []))
  {
    hide Bits;
    var codes := [Emit(4, 3), Emit(1, 3), Emit(5, 3)];
    assert codes[1..] == [Emit(1, 3), Emit(5, 3)] && codes[1..][1..] == [Emit(5, 3)] && codes[1..][1..][1..] == [];
    ThreeBits(4);
    ThreeBits(1);
    ThreeBits(5);
  }

  lemma ThreeBits(v: nat)
    ensures Bits(v, 3) == [v % 2 == 1, v / 2 % 2 == 1, v / 2 / 2 % 2 == 1]
  {
    Three(v, 0);
  }

  lemma ByteBits()
    ensures Bits(0x4C, 8) == [false, false, true, true, false, false, true, false]
    ensures Bits(0x01, 8) == [true, false, false, false, false, false, false, false]
  {
    hide Bits;
    Three(0x4C, 5);
    Three(9, 2);
    Three(1, 5);
    BitsStep(1, 2);
    ZeroBits(1);
    ZeroBits(5);
  }

  lemma Three(v: nat, w: nat)
    ensures Bits(v, w + 3) == [v % 2 == 1, v / 2 % 2 == 1, v / 2 / 2 % 2 == 1] + Bits(v / 2 / 2 / 2, w)
  {
    BitsStep(v, w + 3);
    BitsStep(v / 2, w + 2);
    BitsStep(v / 2 / 2, w + 1);
  }

  /** `c << n`. */
  function Shifted(c: nat, n: nat): nat {
    if n == 0 then c else 2 * Shifted(c, n - 1)
  }

  lemma {:induction false} ShiftedIs(c: nat, n: nat)
    ensures Shifted(c, n) == c * Pow2(n)
  {
    if n > 0 {
      ShiftedIs(c, n - 1);
      Twice(c, Pow2(n - 1));
    }
  }

  lemma Twice(c: nat, p: nat)
    ensures c * (2 * p) == 2 * (c * p)
  {
  }

  lemma BitsStep(v: nat, w: nat)
    requires w > 0
    ensures Bits(v, w) == [v % 2 == 1] + Bits(v / 2, w - 1)
  {
  }

  lemma Halves(a: nat, q: nat)
    ensures (a + 2 * q) / 2 == a / 2 + q && (a + 2 * q) % 2 == a % 2
  {
  }

  lemma {:induction false} ShiftedJoin(a: nat, n: nat, c: nat, w: nat)
    requires a < Pow2(n)
    ensures Bits(a + Shifted(c, n), n + w) == Bits(a, n) + Bits(c, w)
  {
    if n > 0 {
      hide Bits;
      var q := Shifted(c, n - 1);
      Halves(a, q);
      assert a / 2 < Pow2(n - 1);
      ShiftedJoin(a / 2, n - 1, c, w);
      BitsStep(a, n);
      BitsStep(a + 2 * q, n + w);
      hide Pow2;
      var low := [a % 2 == 1];
      assert low + (Bits(a / 2, n - 1) + Bits(c, w)) == (low + Bits(a / 2, n - 1)) + Bits(c, w);
    } else {
      assert Bits(a, 0) + Bits(c, w) == Bits(c, w);
    }
  }

  lemma BitsJoin(a: nat, n: nat, c: nat, w: nat)
    requires a < Pow2(n)
    ensures Bits(a + c * Pow2(n), n + w) == Bits(a, n) + Bits(c, w)
  {
    ShiftedIs(c, n);
    ShiftedJoin(a, n, c, w);
  }

  lemma JoinFits(a: nat, n: nat, c: nat, w: nat)
    requires a < Pow2(n) && c < Pow2(w)
    ensures a + c * Pow2(n) < Pow2(n + w)
  {
    PowAdds(n, w);
    Below(c, Pow2(w), Pow2(n));
  }

  lemma Below(c: nat, limit: nat, p: nat)
    requires c < limit
    ensures c * p + p <= limit * p
  {
    assert (c + 1) * p <= limit * p;
  }

  lemma {:induction false} PowAdds(n: nat, w: nat)
    ensures Pow2(n + w) == Pow2(w) * Pow2(n)
  {
    if n > 0 {
      PowAdds(n - 1, w);
      assert Pow2(w) * Pow2(n) == 2 * (Pow2(w) * Pow2(n - 1));
    }
  }

  /** `bits & 0xFF` and `bits >>= 8`. */
  lemma ByteSplit(v: nat, m: nat)
    ensures Bits(v, 8 + m) == Bits(v % 256, 8) + Bits(v / 256, m)
  {
    Powers();
    BitsJoin(v % 256, 8, v / 256, m);
  }

  lemma ShiftFits(v: nat, n: nat)
    requires n >= 8 && v < Pow2(n)
    ensures v / 256 < Pow2(n - 8)
  {
    PowAdds(8, n - 8);
    Powers();
  }

  lemma {:induction false} BitsOfSmall(v: nat, n: nat, more: nat)
    requires v < Pow2(n)
    ensures Bits(v, n + more) == Bits(v, n) + Zeros(more)
  {
    if n > 0 {
      BitsOfSmall(v / 2, n - 1, more);
    } else {
      ZeroBits(more);
      assert [] + Zeros(more) == Zeros(more);
    }
  }

  lemma {:induction false} ZeroBits(n: nat)
    ensures Bits(0, n) == Zeros(n)
  {
    if n > 0 {
      ZeroBits(n - 1);
      assert Zeros(n) == [false] + Zeros(n - 1);
    }
  }

  /** The packing loop keeps every bit: those in finished bytes, then those still in the buffer. */
  ghost predicate Packing(packed: seq<nat>, bits: nat, count: nat, all: seq<Bit>) {
    bits < Pow2(count) && Unpack(packed) + Bits(bits, count) == all
  }

  lemma PackCode(packed: seq<nat>, bits: nat, count: nat, all: seq<Bit>, x: Emit)
    requires Packing(packed, bits, count, all) && x.code < Pow2(x.width)
    ensures Packing(packed, bits + x.code * Pow2(count), count + x.width, all + Bits(x.code, x.width))
  {
    hide Bits, Unpack, Pow2;
    BitsJoin(bits, count, x.code, x.width);
    JoinFits(bits, count, x.code, x.width);
    assert (Unpack(packed) + Bits(bits, count)) + Bits(x.code, x.width)
      == Unpack(packed) + (Bits(bits, count) + Bits(x.code, x.width));
  }

  lemma PackByte(packed: seq<nat>, bits: nat, count: nat, all: seq<Bit>)
    requires Packing(packed, bits, count, all) && count >= 8
    ensures Packing(packed + [bits % 256], bits / 256, count - 8, all)
  {
    hide Bits, Unpack, Pow2;
    ByteSplit(bits, count - 8);
    ShiftFits(bits, count);
    UnpackAppend(packed, bits % 256);
    assert (Unpack(packed) + Bits(bits % 256, 8)) + Bits(bits / 256, count - 8)
        == Unpack(packed) + (Bits(bits % 256, 8) + Bits(bits / 256, count - 8));
  }

  lemma PackRest(packed: seq<nat>, bits: nat, count: nat, all: seq<Bit>)
    requires Packing(packed, bits, count, all) && 0 < count < 8
    ensures Unpack(packed + [bits % 256]) == all + Zeros(8 - count)
  {
    hide Bits, Unpack, Pow2;
    Powers();
    PowMonotone(count, 8);
    BitsOfSmall(bits, count, 8 - count);
    UnpackAppend(packed, bits);
    assert (Unpack(packed) + Bits(bits, count)) + Zeros(8 - count)
      == Unpack(packed) + (Bits(bits, count) + Zeros(8 - count));
  }

  method PackBits(output: seq<Emit>) returns (packed: seq<nat>, ghost pad: nat)
    requires forall i :: 0 <= i < |output| ==> output[i].code < Pow2(output[i].width)
    ensures pad < 8 && Unpack(packed) == AllBits(output) + Zeros(pad)
    ensures forall i :: 0 <= i < |packed| ==> packed[i] < 256
  {
    hide Packing, AllBits, Unpack;
    var bits: nat, count: nat := 0, 0;
    packed := [];
    assert output[..0] == [];
    PackNothing();
    for i := 0 to |output|
      invariant Packing(packed, bits, count, AllBits(output[..i])) && count < 8
      invariant forall i :: 0 <= i < |packed| ==> packed[i] < 256
    {
      AllBitsAppend(output[..i], output[i]);
      assert output[..i + 1] == output[..i] + [output[i]];
      packed, bits, count := PackOne(packed, bits, count, AllBits(output[..i]), output[i]);
    }
    assert output[..|output|] == output;
    if count > 0 {
      PackRest(packed, bits, count, AllBits(output));
      packed := packed + [bits % 256];
      pad := 8 - count;
    } else {
      PackedAll(packed, bits, AllBits(output));
      pad := 0;
    }
  }

  /** Put one code into the buffer and move out every whole byte. */
  method PackOne(packed0: seq<nat>, bits0: nat, count0: nat, ghost all: seq<Bit>, x: Emit)
      returns (packed: seq<nat>, bits: nat, count: nat)
    requires Packing(packed0, bits0, count0, all) && x.code < Pow2(x.width)
    requires forall i :: 0 <= i < |packed0| ==> packed0[i] < 256
    ensures Packing(packed, bits, count, all + Bits(x.code, x.width)) && count < 8
    ensures forall i :: 0 <= i < |packed| ==> packed[i] < 256
  {
    PackCode(packed0, bits0, count0, all, x);
    hide Packing, Bits;
    packed, bits, count := packed0, bits0 + x.code * Pow2(count0), count0 + x.width;
    hide Pow2;
    while count >= 8
      invariant Packing(packed, bits, count, all + Bits(x.code, x.width))
      invariant forall i :: 0 <= i < |packed| ==> packed[i] < 256
    {
      PackByte(packed, bits, count, all + Bits(x.code, x.width));
      packed, bits, count := packed + [bits % 256], bits / 256, count - 8;
    }
  }

  lemma PackNothing()
    ensures Packing([], 0, 0, AllBits([]))
  {
  }

  lemma PackedAll(packed: seq<nat>, bits: nat, all: seq<Bit>)
    requires Packing(packed, bits, 0, all)
    ensures Unpack(packed) == all + Zeros(0)
  {
    assert Bits(bits, 0) == [] && Zeros(0) == [];
    assert Unpack(packed) + [] == Unpack(packed) && all + [] == all;
  }

  /** `lzw_encode`: whatever it writes are bytes from which the decoder reads the pixels back. */
  method LzwEncode(pixels: Str) returns (packed: seq<nat>)
    requires pixels != [] && AllPixels(pixels)
    ensures forall i :: 0 <= i < |packed| ==> packed[i] < 256
    ensures Decode(Cleared([]), Unpack(packed)) == Some(pixels)
  {
    var output := EncodeCodes(pixels);
    hide Finish, EncodeAll, Decode, Unpack, AllBits;
    ghost var pad;
    packed, pad := PackBits(output);
    RoundTrip(pixels, pad);
  }

  method EncodeCodes(pixels: Str) returns (output: seq<Emit>)
    requires pixels != [] && AllPixels(pixels)
    ensures output == Finish(EncodeAll(pixels))
    ensures forall i :: 0 <= i < |output| ==> output[i].code < Pow2(output[i].width)
  {
    hide EncodeAll, Pow2;
    var next: nat, size: nat := FIRST, 3;
    var table: map<Str, nat> := Singles();
    output := [Emit(CLEAR, size)];
    var current := [pixels[0]];
    EncodeBegins(pixels);
    for i := 1 to |pixels|
      invariant AllPixels(pixels[..i]) && Encoder(table, next, size, current, output) == EncodeAll(pixels[..i])
    {
      EncodeStep(pixels, i);
      var symbol := [pixels[i]];
      var candidate := current + symbol;
      if candidate in table {
        current := candidate;
      } else {
        output := output + [Emit(table[current], size)];
        if next < LIMIT {
          table := table[candidate := next];
          next := next + 1;
          if next > Pow2(size) && size < MAX_WIDTH {
            size := size + 1;
          }
        } else {
          output := output + [Emit(CLEAR, size)];
          table := Singles();
          size, next := 3, FIRST;
        }
        current := symbol;
      }
    }
    assert pixels[..|pixels|] == pixels;
    CodesFit(pixels);
    output := output + [Emit(table[current], size)];
    output := output + [Emit(END, size)];
  }

  lemma EncodeBegins(pixels: Str)
    requires pixels != [] && AllPixels(pixels)
    ensures AllPixels(pixels[..1]) && EncodeAll(pixels[..1]) == Begin(pixels[0])
  {
    assert pixels[..1] == [pixels[0]];
  }

  lemma CodesFit(pixels: Str)
    requires pixels != [] && AllPixels(pixels)
    ensures var all := Finish(EncodeAll(pixels)); forall i :: 0 <= i < |all| ==> all[i].code < Pow2(all[i].width)
  {
    hide Follow, Pow2, EncodeAll, TableSound, SameCodes, Behind, Reads, Agree;
    var e := EncodeAll(pixels);
    EncodeReads(pixels);
    EncodedReads(e, pixels);
    var d := Follow(Cleared([]), e.out).value;
    EmitFits(e, d, pixels);
    WidthAtLeast(e, d, pixels);
    Powers();
    PowMonotone(3, e.width);
    var last, end := Emit(e.table[e.current], e.width), Emit(END, e.width);
    AllEmitted(e, last);
    assert forall i :: 0 <= i < |e.out + [last]| ==> Emitted((e.out + [last])[i]);
  }
}
