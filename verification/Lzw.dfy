/** The recording script's LZW encoder, and a decoder that follows Appendix F of the GIF89a specification. */
module Lzw {
  import opened Contracts

  const CLEAR: nat := 4
  const END: nat := 5
  const FIRST: nat := 6
  const LIMIT: nat := 4096
  const MAX_WIDTH: nat := 12

  type Str = seq<int>

  function Pow2(w: nat): (p: nat)
    ensures p > 0
  {
    if w == 0 then 1 else 2 * Pow2(w - 1)
  }

  lemma Powers()
    ensures Pow2(3) == 8 && Pow2(8) == 256 && Pow2(11) == 2048 && Pow2(12) == 4096
  {
    assert Pow2(4) == 2 * Pow2(3) && Pow2(5) == 2 * Pow2(4) && Pow2(6) == 2 * Pow2(5) && Pow2(7) == 2 * Pow2(6);
    assert Pow2(8) == 2 * Pow2(7) && Pow2(9) == 2 * Pow2(8) && Pow2(10) == 2 * Pow2(9) && Pow2(11) == 2 * Pow2(10);
    assert Pow2(3) == 2 * Pow2(2) && Pow2(2) == 2 * Pow2(1) && Pow2(1) == 2 * Pow2(0);
  }

  // ---- the encoder -------------------------------------------------------------------------------

  datatype Emit = Emit(code: nat, width: nat)

  datatype Encoder = Encoder(table: map<Str, nat>, next: nat, width: nat, current: Str, out: seq<Emit>)

  predicate Pixel(v: int) {
    0 <= v < 4
  }

  function Singles(): map<Str, nat> {
    map[[0] := 0, [1] := 1, [2] := 2, [3] := 3]
  }

  function Begin(first: int): Encoder {
    Encoder(Singles(), FIRST, 3, [first], [Emit(CLEAR, 3)])
  }

  /** One turn of the loop. */
  function Feed(e: Encoder, value: int): Encoder
    requires e.current in e.table
  {
    var candidate := e.current + [value];
    if candidate in e.table then e.(current := candidate)
    else
      var out := e.out + [Emit(e.table[e.current], e.width)];
      if e.next < LIMIT then
        Encoder(e.table[candidate := e.next], e.next + 1,
                if e.next + 1 > Pow2(e.width) && e.width < MAX_WIDTH then e.width + 1 else e.width, [value], out)
      else Encoder(Singles(), FIRST, 3, [value], out + [Emit(CLEAR, e.width)])
  }

  // ---- the decoder -------------------------------------------------------------------------------

  /** `prev` is the string of the code before, once there has been one since the last clear. */
  datatype Decoder = Decoder(entries: map<nat, Str>, next: nat, width: nat, prev: Option<Str>, out: Str)

  function Roots(): map<nat, Str> {
    map[0 := [0], 1 := [1], 2 := [2], 3 := [3]]
  }

  function Cleared(out: Str): Decoder {
    Decoder(Roots(), FIRST, 3, None, out)
  }

  /** The string a code stands for; the one not yet in the table is the previous string and its first symbol. */
  function Meaning(d: Decoder, code: nat): Option<Str> {
    if code in d.entries then Some(d.entries[code])
    else if d.prev.Some? && d.prev.value != [] && code == d.next then Some(d.prev.value + [d.prev.value[0]])
    else None
  }

  function Learn(d: Decoder, entry: Str): Decoder
    requires d.prev.Some? && entry != []
  {
    if d.next >= LIMIT then d
    else
      d.(entries := d.entries[d.next := d.prev.value + [entry[0]]], next := d.next + 1,
         width := if d.next + 1 == Pow2(d.width) && d.width < MAX_WIDTH then d.width + 1 else d.width)
  }

  /** One code; `None` for a code that cannot occur. */
  function Read(d: Decoder, code: nat): Option<Decoder> {
    if code == CLEAR then Some(Cleared(d.out))
    else
      var entry := Meaning(d, code);
      if entry == None || entry.value == [] then None
      else
        var learned := if d.prev.Some? then Learn(d, entry.value) else d;
        Some(learned.(prev := entry, out := d.out + entry.value))
  }

  /** Read these codes, each at the width the decoder expects. */
  function Follow(d: Decoder, emits: seq<Emit>): Option<Decoder>
    decreases |emits|
  {
    if emits == [] then Some(d)
    else if emits[0].width != d.width then None
    else
      var next := Read(d, emits[0].code);
      if next == None then None else Follow(next.value, emits[1..])
  }

  lemma {:induction false} FollowAppend(d: Decoder, a: seq<Emit>, b: seq<Emit>)
    requires Follow(d, a).Some?
    ensures Follow(d, a + b) == Follow(Follow(d, a).value, b)
    decreases |a|
  {
    hide Read;
    if a == [] {
      assert a + b == b;
    } else {
      FollowAppend(Read(d, a[0].code).value, a[1..], b);
      assert (a + b)[1..] == a[1..] + b;
    }
  }

  lemma FollowOne(d: Decoder, x: Emit)
    ensures Follow(d, [x]) == if x.width == d.width then Read(d, x.code) else None
  {
    assert [x][1..] == [];
  }

  // ---- what the two agree on ---------------------------------------------------------------------

  ghost predicate TableSound(e: Encoder) {
    && FIRST <= e.next <= LIMIT && 3 <= e.width <= MAX_WIDTH && e.next <= Pow2(e.width)
    && (e.width > 3 ==> Pow2(e.width - 1) < e.next)
    && (forall s :: s in e.table ==> s != [] && (e.table[s] < 4 || FIRST <= e.table[s] < e.next))
    && (forall v :: Pixel(v) ==> [v] in e.table && e.table[[v]] == v)
    && (forall s :: s in e.table && e.table[s] < 4 ==> s == [e.table[s]])
  }

  /** Every code the decoder knows means to it what it means to the encoder. */
  ghost predicate SameCodes(e: Encoder, d: Decoder) {
    && (forall c: nat :: c in d.entries <==> c < 4 || FIRST <= c < d.next)
    && (forall s :: s in e.table && e.table[s] in d.entries ==> d.entries[e.table[s]] == s)
    && (forall c :: c in d.entries ==> d.entries[c] in e.table && e.table[d.entries[c]] == c)
  }

  /** The decoder has no previous code, or is one entry behind: the string the encoder added last. */
  ghost predicate Behind(e: Encoder, d: Decoder) {
    if d.prev == None then
      && e.next == FIRST && d.next == FIRST && e.width == 3 && |e.current| > 0
      && (forall s :: s in e.table ==> e.table[s] < 4)
    else
      && d.prev.value != [] && e.current != [] && d.next + 1 == e.next
      && (d.prev.value + [e.current[0]]) in e.table && e.table[d.prev.value + [e.current[0]]] == d.next
      && (forall s :: s in e.table && e.table[s] == d.next ==> s == d.prev.value + [e.current[0]])
  }

  /** Having read what was emitted, the decoder has every pixel but the current string. */
  ghost predicate Agree(e: Encoder, d: Decoder, seen: Str) {
    && TableSound(e) && e.current in e.table && SameCodes(e, d) && Behind(e, d)
    && d.width == e.width && d.out + e.current == seen
  }

  lemma BeginAgrees(first: int)
    requires Pixel(first)
    ensures Follow(Cleared([]), Begin(first).out) == Some(Cleared([])) && Agree(Begin(first), Cleared([]), [first])
  {
    FollowOne(Cleared([]), Emit(CLEAR, 3));
    Powers();
    SinglesAgree(Begin(first), Cleared([]));
  }

  /** Freshly cleared tables agree on any single symbol. */
  lemma SinglesAgree(e: Encoder, d: Decoder)
    requires e.table == Singles() && e.next == FIRST && e.width == 3 && |e.current| == 1 && Pixel(e.current[0])
    requires d == Cleared(d.out) && Pow2(3) == 8
    ensures Agree(e, d, d.out + e.current)
  {
    assert e.current == [e.current[0]];
  }

  /** The code the encoder emits means the current string, known or not yet known. */
  lemma EmitMeans(e: Encoder, d: Decoder, seen: Str)
    requires Agree(e, d, seen)
    ensures Meaning(d, e.table[e.current]) == Some(e.current) && e.table[e.current] != CLEAR
      && e.table[e.current] != END
    ensures e.current != [] && e.table[e.current] < e.next
  {
    var code := e.table[e.current];
    if code !in d.entries {
      assert code == d.next && e.current == d.prev.value + [e.current[0]];
      assert e.current[0] == d.prev.value[0];
    }
  }

  /** Reading it, the decoder catches up with everything the encoder knew when it emitted it. */
  ghost predicate CaughtUp(e: Encoder, d: Decoder, seen: Str) {
    && SameCodes(e, d) && d.next == e.next && d.prev == Some(e.current) && d.out == seen
    && d.width == if e.next == Pow2(e.width) && e.width < MAX_WIDTH then e.width + 1 else e.width
  }

  lemma CatchesUp(e: Encoder, d: Decoder, seen: Str)
    requires Agree(e, d, seen)
    ensures var r := Read(d, e.table[e.current]); r.Some? && CaughtUp(e, r.value, seen)
  {
    EmitMeans(e, d, seen);
    Powers();
    hide Pow2;
    if d.prev.Some? {
      LearnsLast(e, d, seen);
    }
  }

  lemma LearnsLast(e: Encoder, d: Decoder, seen: Str)
    requires Agree(e, d, seen) && d.prev.Some?
    ensures e.current != [] && SameCodes(e, Learn(d, e.current)) && Learn(d, e.current).next == e.next
    ensures Learn(d, e.current).width == if e.next == Pow2(e.width) && e.width < MAX_WIDTH then e.width + 1 else e.width
    ensures Learn(d, e.current).out == d.out
  {
    hide Pow2;
    var added := d.prev.value + [e.current[0]];
    var learned := Learn(d, e.current);
    assert learned.entries == d.entries[d.next := added];
  }

  /** Adding the candidate, the encoder is one entry ahead again. */
  lemma AddsAgree(e: Encoder, d: Decoder, value: int, seen: Str)
    requires Agree(e, d, seen) && Pixel(value) && e.current + [value] !in e.table && e.next < LIMIT
    ensures var e' := Feed(e, value); var r := Read(d, e.table[e.current]);
      r.Some? && e'.out == e.out + [Emit(e.table[e.current], d.width)] && Agree(e', r.value, seen + [value])
  {
    CatchesUp(e, d, seen);
    EmitMeans(e, d, seen);
    var e', d' := Feed(e, value), Read(d, e.table[e.current]).value;
    hide Read, Behind;
    AddsSound(e, value);
    assert Behind(e', d') by { AddsBehind(e, d', value, seen); }
    hide Pow2;
    assert [value] in e'.table;
  }

  lemma AddsSound(e: Encoder, value: int)
    requires TableSound(e) && e.current in e.table && Pixel(value) && e.current + [value] !in e.table && e.next < LIMIT
    ensures TableSound(Feed(e, value))
  {
    Powers();
    var e' := Feed(e, value);
    assert Pow2(e.width + 1) == 2 * Pow2(e.width);
    assert e.current != [];
    assert |e.current + [value]| > 1;
  }

  lemma AddsBehind(e: Encoder, d: Decoder, value: int, seen: Str)
    requires TableSound(e) && e.current in e.table && CaughtUp(e, d, seen) && e.next < LIMIT
      && e.current + [value] !in e.table
    ensures Behind(Feed(e, value), d)
  {
    hide Pow2, SameCodes;
  }

  /** With the table full, the encoder clears, and the decoder is told at the width it expects. */
  lemma ClearsAgree(e: Encoder, d: Decoder, value: int, seen: Str)
    requires Agree(e, d, seen) && Pixel(value) && e.current + [value] !in e.table && e.next >= LIMIT
    ensures var e' := Feed(e, value); var r := Read(d, e.table[e.current]);
      && r.Some? && r.value.width == d.width
      && e'.out == e.out + [Emit(e.table[e.current], d.width)] + [Emit(CLEAR, d.width)]
      && Read(r.value, CLEAR) == Some(Cleared(seen)) && Agree(e', Cleared(seen), seen + [value])
  {
    CatchesUp(e, d, seen);
    Powers();
    FullWidth(e);
    hide Pow2, SameCodes, TableSound, Behind;
    SinglesAgree(Feed(e, value), Cleared(seen));
  }

  lemma FullWidth(e: Encoder)
    requires TableSound(e) && e.next >= LIMIT
    ensures e.width == MAX_WIDTH
  {
    Powers();
    PowMonotone(e.width, 11);
  }

  lemma {:induction false} PowMonotone(a: nat, b: nat)
    ensures a <= b ==> Pow2(a) <= Pow2(b)
  {
    if a < b { PowMonotone(a, b - 1); }
  }

  ghost predicate AllPixels(pixels: Str) {
    forall i :: 0 <= i < |pixels| ==> Pixel(pixels[i])
  }

  /** The current string and every single symbol have codes. */
  predicate Keyed(e: Encoder) {
    e.current in e.table && forall v :: 0 <= v < 4 ==> [v] in e.table
  }

  lemma FeedKeeps(e: Encoder, value: int)
    requires Keyed(e) && Pixel(value)
    ensures Keyed(Feed(e, value))
  {
    hide Pow2;
    assert [value] in Singles() && [value] in e.table;
  }

  ghost function EncodeAll(pixels: Str): (e: Encoder)
    requires pixels != [] && AllPixels(pixels)
    ensures Keyed(e)
    decreases |pixels|
  {
    if |pixels| == 1 then
      assert Pixel(pixels[0]);
      Begin(pixels[0])
    else
      var before := EncodeAll(pixels[..|pixels| - 1]);
      FeedKeeps(before, pixels[|pixels| - 1]);
      Feed(before, pixels[|pixels| - 1])
  }

  lemma EncodeStep(pixels: Str, i: nat)
    requires AllPixels(pixels) && 0 < i < |pixels|
    ensures AllPixels(pixels[..i + 1]) && AllPixels(pixels[..i]) && Keyed(EncodeAll(pixels[..i]))
    ensures EncodeAll(pixels[..i + 1]) == Feed(EncodeAll(pixels[..i]), pixels[i])
  {
    hide Feed;
    assert pixels[..i + 1][..i] == pixels[..i];
  }

  lemma {:induction false} EncodeReads(pixels: Str)
    requires pixels != [] && AllPixels(pixels)
    ensures Reads(EncodeAll(pixels), pixels)
    decreases |pixels|
  {
    hide Feed, Reads;
    if |pixels| == 1 {
      assert Pixel(pixels[0]);
      BeginReads(pixels);
    } else {
      var n := |pixels| - 1;
      EncodeReads(pixels[..n]);
      EncodeStep(pixels, n);
      FeedReads(EncodeAll(pixels[..n]), pixels[..n], pixels[n]);
      assert pixels[..n] + [pixels[n]] == pixels && pixels[..n + 1] == pixels;
    }
  }

  /** A decoder that read everything emitted so far agrees with the encoder. */
  ghost predicate Reads(e: Encoder, pixels: Str) {
    var d := Follow(Cleared([]), e.out);
    && d.Some? && Agree(e, d.value, pixels)
    && forall i :: 0 <= i < |e.out| ==> Emitted(e.out[i])
  }

  ghost predicate Emitted(x: Emit) {
    3 <= x.width <= MAX_WIDTH && x.code < Pow2(x.width) && x.code != END
  }

  lemma BeginReads(pixels: Str)
    requires |pixels| == 1 && Pixel(pixels[0])
    ensures Reads(Begin(pixels[0]), pixels) && Begin(pixels[0]).current in Begin(pixels[0]).table
  {
    BeginAgrees(pixels[0]);
    Powers();
    assert pixels == [pixels[0]];
  }

  lemma FeedReads(e: Encoder, pixels: Str, value: int)
    requires e.current in e.table && Reads(e, pixels) && Pixel(value)
    ensures Reads(Feed(e, value), pixels + [value]) && Feed(e, value).current in Feed(e, value).table
  {
    var d := Follow(Cleared([]), e.out).value;
    hide Follow, Read, Pow2, Behind, SameCodes;
    if e.current + [value] in e.table {
      HitAgrees(e, d, value, pixels);
    } else {
      var code := e.table[e.current];
      EmitFits(e, d, pixels);
      FollowOne(d, Emit(code, d.width));
      if e.next < LIMIT {
        AddsAgree(e, d, value, pixels);
        FollowAppend(Cleared([]), e.out, [Emit(code, d.width)]);
      } else {
        ClearsAgree(e, d, value, pixels);
        FollowAppend(Cleared([]), e.out, [Emit(code, d.width)]);
        FollowOne(Read(d, code).value, Emit(CLEAR, d.width));
        FollowAppend(Cleared([]), e.out + [Emit(code, d.width)], [Emit(CLEAR, d.width)]);
      }
    }
  }

  lemma HitAgrees(e: Encoder, d: Decoder, value: int, seen: Str)
    requires Agree(e, d, seen) && e.current + [value] in e.table
    ensures Agree(Feed(e, value), d, seen + [value]) && Feed(e, value).out == e.out
  {
    hide Pow2;
    var candidate := e.current + [value];
    assert d.out + candidate == seen + [value];
    assert e.current != [] && candidate[0] == e.current[0];
    assert |candidate| > 1;
  }

  lemma EmitFits(e: Encoder, d: Decoder, seen: Str)
    requires Agree(e, d, seen)
    ensures Emitted(Emit(e.table[e.current], d.width)) && Emitted(Emit(CLEAR, d.width))
  {
    EmitMeans(e, d, seen);
    Powers();
    PowMonotone(3, d.width);
    hide Pow2, SameCodes, Behind;
  }
}
