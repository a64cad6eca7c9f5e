/** Machine words as bytes on a little-endian host: packing, unpacking and byte reversal. */
module Bytes {
  import opened Common

  type Byte = b: int | 0 <= b < 256

  function Power256(w: nat): (p: int)
    ensures p > 0
  {
    if w == 0 then 1 else 256 * Power256(w - 1)
  }

  /** The first byte is the least significant one. */
  function FromLittle(bs: seq<Byte>): nat {
    if bs == [] then 0 else bs[0] + 256 * FromLittle(bs[1..])
  }

  function ToLittle(v: nat, w: nat): (bs: seq<Byte>)
    ensures |bs| == w
  {
    if w == 0 then [] else [v % 256] + ToLittle(v / 256, w - 1)
  }

  function Reverse(bs: seq<Byte>): seq<Byte> {
    seq(|bs|, i requires 0 <= i < |bs| => bs[|bs| - 1 - i])
  }

  /** Bytes as they lie in memory after a copy, reversed or not. */
  function Swapped(bs: seq<Byte>, swap: bool): seq<Byte> {
    if swap then Reverse(bs) else bs
  }

  function Signed(u: nat, w: nat): int {
    if 2 * u < Power256(w) then u else u - Power256(w)
  }

  function Unsigned(v: int, w: nat): int {
    if v < 0 then v + Power256(w) else v
  }

  /** The integers that fit w bytes. */
  predicate Fits(v: int, w: nat) {
    -Power256(w) <= 2 * v < Power256(w)
  }

  function UnpackInt(bs: seq<Byte>, swap: bool): int {
    Signed(FromLittle(Swapped(bs, swap)), |bs|)
  }

  /** A float or double on the wire is kept as its bit pattern. */
  function UnpackBits(bs: seq<Byte>, swap: bool): nat {
    FromLittle(Swapped(bs, swap))
  }

  function PackInt(v: int, w: nat, swap: bool): (bs: seq<Byte>)
    requires Fits(v, w)
    ensures |bs| == w
  {
    Swapped(ToLittle(Unsigned(v, w), w), swap)
  }

  function PackBits(v: nat, w: nat, swap: bool): (bs: seq<Byte>)
    ensures |bs| == w
  {
    Swapped(ToLittle(v, w), swap)
  }

  // ---- round trips ----

  lemma {:induction false} FromToLittle(v: nat, w: nat)
    requires v < Power256(w)
    ensures FromLittle(ToLittle(v, w)) == v
  {
    if w > 0 {
      FromToLittle(v / 256, w - 1);
      assert ToLittle(v, w)[1..] == ToLittle(v / 256, w - 1);
    }
  }

  lemma LowByte(b: Byte, v: nat)
    ensures (b + 256 * v) % 256 == b && (b + 256 * v) / 256 == v
  {
  }

  lemma {:induction false} ToFromLittle(bs: seq<Byte>)
    ensures FromLittle(bs) < Power256(|bs|)
    ensures ToLittle(FromLittle(bs), |bs|) == bs
  {
    if bs != [] {
      ToFromLittle(bs[1..]);
      LowByte(bs[0], FromLittle(bs[1..]));
      assert bs == [bs[0]] + bs[1..];
    }
  }

  lemma ReverseTwice(bs: seq<Byte>)
    ensures Reverse(Reverse(bs)) == bs && |Reverse(bs)| == |bs|
  {
  }

  lemma SwappedTwice(bs: seq<Byte>, swap: bool)
    ensures Swapped(Swapped(bs, swap), swap) == bs && |Swapped(bs, swap)| == |bs|
  {
    ReverseTwice(bs);
  }

  lemma SignedUnsigned(v: int, u: nat, w: nat)
    ensures Fits(v, w) ==> 0 <= Unsigned(v, w) < Power256(w) && Signed(Unsigned(v, w), w) == v
    ensures u < Power256(w) ==> Fits(Signed(u, w), w) && Unsigned(Signed(u, w), w) == u
  {
  }

  /** What is packed is unpacked again, at every width and with either setting, as long as both use the same. */
  lemma UnpackPack(v: int, w: nat, swap: bool)
    requires Fits(v, w)
    ensures UnpackInt(PackInt(v, w, swap), swap) == v
  {
    SignedUnsigned(v, 0, w);
    FromToLittle(Unsigned(v, w), w);
    SwappedTwice(ToLittle(Unsigned(v, w), w), swap);
  }

  lemma UnpackPackBits(v: nat, w: nat, swap: bool)
    requires v < Power256(w)
    ensures UnpackBits(PackBits(v, w, swap), swap) == v
  {
    FromToLittle(v, w);
    SwappedTwice(ToLittle(v, w), swap);
  }

  /** And packing what was unpacked gives back the bytes. */
  lemma PackUnpack(bs: seq<Byte>, swap: bool)
    ensures Fits(UnpackInt(bs, swap), |bs|)
    ensures PackInt(UnpackInt(bs, swap), |bs|, swap) == bs
  {
    var c := Swapped(bs, swap);
    SwappedTwice(bs, swap);
    ToFromLittle(c);
    SignedUnsigned(0, FromLittle(c), |bs|);
  }

  // ---- which byte is which ----

  /** The first n bytes, each with its weight: byte i weighs 256^i, or 256^(w-1-i) when the order is swapped. */
  function WeighedBytes(bs: seq<Byte>, swap: bool, n: nat): nat
    requires n <= |bs|
  {
    if n == 0 then 0
    else WeighedBytes(bs, swap, n - 1) + bs[n - 1] * Power256(if swap then |bs| - n else n - 1)
  }

  lemma {:induction false} FromLittleAppend(bs: seq<Byte>, b: Byte)
    ensures FromLittle(bs + [b]) == FromLittle(bs) + b * Power256(|bs|)
  {
    if bs == [] {
      assert bs + [b] == [b];
    } else {
      FromLittleAppend(bs[1..], b);
      assert (bs + [b])[1..] == bs[1..] + [b];
      MovedFactor(b, Power256(|bs| - 1));
    }
  }

  lemma MovedFactor(b: int, p: int)
    ensures 256 * (b * p) == b * (256 * p)
  {
  }

  lemma {:induction false} WeighedPlain(bs: seq<Byte>, n: nat)
    requires n <= |bs|
    ensures WeighedBytes(bs, false, n) == FromLittle(bs[..n])
  {
    if n > 0 {
      WeighedPlain(bs, n - 1);
      FromLittleAppend(bs[..n - 1], bs[n - 1]);
      assert bs[..n] == bs[..n - 1] + [bs[n - 1]];
    }
  }

  /** Reversing the bytes exchanges the weights: what the first n weigh swapped, the last n weigh plain. */
  lemma {:induction false} WeighedReverse(bs: seq<Byte>, n: nat)
    requires n <= |bs|
    ensures FromLittle(Reverse(bs)) == FromLittle(Reverse(bs)[..|bs| - n]) + WeighedBytes(bs, true, n)
  {
    var r := Reverse(bs);
    if n == 0 {
      assert r[..|bs|] == r;
    } else {
      WeighedReverse(bs, n - 1);
      var k := |bs| - n;
      FromLittleAppend(r[..k], r[k]);
      assert r[..k + 1] == r[..k] + [r[k]];
    }
  }

  /** A word is the weighed sum of its bytes, less 256^w when that is half of 256^w or more and the word is signed. */
  lemma WordIsWeighedBytes(bs: seq<Byte>, swap: bool)
    ensures UnpackBits(bs, swap) == WeighedBytes(bs, swap, |bs|)
    ensures
      var u := WeighedBytes(bs, swap, |bs|);
      UnpackInt(bs, swap) == if 2 * u < Power256(|bs|) then u else u - Power256(|bs|)
  {
    if swap {
      WeighedReverse(bs, |bs|);
    } else {
      WeighedPlain(bs, |bs|);
      assert bs[..|bs|] == bs;
    }
  }

  lemma Widths()
    ensures Power256(0) == 1 && Power256(1) == 0x100 && Power256(2) == 0x1_0000 && Power256(3) == 0x100_0000
    ensures Power256(4) == 0x1_0000_0000 && Power256(8) == 0x1_0000_0000_0000_0000
  {
    assert Power256(4) == 256 * (256 * Power256(2));
    assert Power256(6) == 256 * (256 * Power256(4));
  }

  lemma WeighedStep(bs: seq<Byte>, n: nat, plain: int, swapped: int)
    requires n < |bs| && plain == Power256(n) && swapped == Power256(|bs| - 1 - n)
    ensures WeighedBytes(bs, false, 0) == 0 == WeighedBytes(bs, true, 0)
    ensures WeighedBytes(bs, false, n + 1) == WeighedBytes(bs, false, n) + bs[n] as int * plain
    ensures WeighedBytes(bs, true, n + 1) == WeighedBytes(bs, true, n) + bs[n] as int * swapped
  {
    hide Power256;
  }

  /** The two-byte integers in both orders. */
  lemma TwoByteWords(bs: seq<Byte>)
    requires |bs| == 2
    ensures
      var b0: int, b1: int := bs[0], bs[1];
      && UnpackInt(bs, false) == b0 + 0x100 * b1 - (if b1 < 128 then 0 else 0x1_0000)
      && UnpackInt(bs, true) == 0x100 * b0 + b1 - (if b0 < 128 then 0 else 0x1_0000)
  {
    hide *;
    WordIsWeighedBytes(bs, false);
    WordIsWeighedBytes(bs, true);
    Widths();
    WeighedStep(bs, 0, 1, 0x100);
    WeighedStep(bs, 1, 0x100, 1);
  }

  /** And the four-byte integers. */
  lemma FourByteWords(bs: seq<Byte>)
    requires |bs| == 4
    ensures
      var b0: int, b1: int, b2: int, b3: int := bs[0], bs[1], bs[2], bs[3];
      && UnpackInt(bs, false) == b0 + 0x100 * b1 + 0x1_0000 * b2 + 0x100_0000 * b3
                                 - (if b3 < 128 then 0 else 0x1_0000_0000)
      && UnpackInt(bs, true) == 0x100_0000 * b0 + 0x1_0000 * b1 + 0x100 * b2 + b3
                                - (if b0 < 128 then 0 else 0x1_0000_0000)
  {
    hide *;
    WordIsWeighedBytes(bs, false);
    WordIsWeighedBytes(bs, true);
    Widths();
    WeighedStep(bs, 0, 1, 0x100_0000);
    WeighedStep(bs, 1, 0x100, 0x1_0000);
    WeighedStep(bs, 2, 0x1_0000, 0x100);
    WeighedStep(bs, 3, 0x100_0000, 1);
  }

  /** Mixing the settings is byte reversal, in both directions. */
  lemma MixedSwapIsReversal(v: int, w: nat, bs: seq<Byte>, cs: seq<Byte>)
    requires |cs| == |bs| && forall i :: 0 <= i < |bs| ==> cs[i] == bs[|bs| - 1 - i]
    ensures Fits(v, w) ==> forall i :: 0 <= i < w ==> PackInt(v, w, true)[i] == PackInt(v, w, false)[w - 1 - i]
    ensures UnpackInt(bs, true) == UnpackInt(cs, false)
    ensures UnpackBits(bs, true) == UnpackBits(cs, false)
  {
    assert cs == Reverse(bs);
  }

  // ---- the in-place forms ----

  method Pack(v: int, w: nat, packedData: array<Byte>, swap: bool)
    requires Fits(v, w) && w <= packedData.Length
    modifies packedData
    ensures packedData[..] == PackInt(v, w, swap) + old(packedData[w..])
  {
    SignedUnsigned(v, 0, w);
    var c := ToLittle(Unsigned(v, w), w);
    var i := 0;
    while i < w
      invariant i <= w
      invariant forall k :: 0 <= k < i ==> packedData[k] == PackInt(v, w, swap)[k]
      invariant packedData[w..] == old(packedData[w..])
    {
      packedData[i] := if swap then c[w - 1 - i] else c[i];
      i := i + 1;
    }
    assert packedData[..] == packedData[..w] + packedData[w..];
    assert packedData[..w] == PackInt(v, w, swap);
  }

  /** Element i of a packed array. */
  function Slot(bs: seq<Byte>, i: nat, w: nat): seq<Byte>
    requires (i + 1) * w <= |bs|
  {
    SlotBounds(i, i + 1, w, |bs|);
    bs[i * w..(i + 1) * w]
  }

  lemma SlotBounds(i: nat, n: nat, w: nat, size: nat)
    requires i < n && n * w <= size
    ensures i * w <= (i + 1) * w <= n * w <= size
    ensures (i + 1) * w == i * w + w
  {
    assert (n - i - 1) * w >= 0;
    assert (n - i - 1) * w == n * w - i * w - w;
  }

  function UnpackInts(bs: seq<Byte>, n: nat, w: nat, swap: bool): seq<int>
    requires n * w <= |bs|
  {
    seq(n, i requires 0 <= i < n => SlotBounds(i, n, w, |bs|); UnpackInt(Slot(bs, i, w), swap))
  }

  function UnpackWords(bs: seq<Byte>, n: nat, w: nat, swap: bool): seq<nat>
    requires n * w <= |bs|
  {
    seq(n, i requires 0 <= i < n => SlotBounds(i, n, w, |bs|); UnpackBits(Slot(bs, i, w), swap))
  }

  /** The indexed loop that decodes element i from bytes [i*w, (i+1)*w). */
  method UnpackIntArray(bs: seq<Byte>, n: nat, w: nat, swap: bool) returns (result: array<int>)
    requires n * w <= |bs|
    ensures result[..] == UnpackInts(bs, n, w, swap)
  {
    result := new int[n];
    var i := 0;
    while i < n
      invariant i <= n
      invariant forall k :: 0 <= k < i ==> result[k] == UnpackInts(bs, n, w, swap)[k]
    {
      SlotBounds(i, n, w, |bs|);
      result[i] := UnpackInt(bs[i * w..i * w + w], swap);
      i := i + 1;
    }
  }

  method UnpackWordArray(bs: seq<Byte>, n: nat, w: nat, swap: bool) returns (result: array<nat>)
    requires n * w <= |bs|
    ensures result[..] == UnpackWords(bs, n, w, swap)
  {
    result := new nat[n];
    var i := 0;
    while i < n
      invariant i <= n
      invariant forall k :: 0 <= k < i ==> result[k] == UnpackWords(bs, n, w, swap)[k]
    {
      SlotBounds(i, n, w, |bs|);
      result[i] := UnpackBits(bs[i * w..i * w + w], swap);
      i := i + 1;
    }
  }

  /** The elements lie one after the other. */
  lemma ElementsInOrder(bs: seq<Byte>, n: nat, w: nat, swap: bool, i: nat)
    requires n * w <= |bs| && i < n
    ensures i * w + w <= |bs|
    ensures UnpackInts(bs, n, w, swap)[i] == UnpackInt(bs[i * w..i * w + w], swap)
    ensures UnpackWords(bs, n, w, swap)[i] == UnpackBits(bs[i * w..i * w + w], swap)
  {
    SlotBounds(i, n, w, |bs|);
  }

  // ---- packed arrays ----

  function PackInts(xs: seq<int>, w: nat, swap: bool): (bs: seq<Byte>)
    requires forall i :: 0 <= i < |xs| ==> Fits(xs[i], w)
    ensures |bs| == |xs| * w
  {
    if xs == [] then [] else
      assert (|xs| - 1) * w + w == |xs| * w;
      PackInts(ButLast(xs), w, swap) + PackInt(Last(xs), w, swap)
  }

  function PackWords(xs: seq<nat>, w: nat, swap: bool): (bs: seq<Byte>)
    ensures |bs| == |xs| * w
  {
    if xs == [] then [] else
      assert (|xs| - 1) * w + w == |xs| * w;
      PackWords(ButLast(xs), w, swap) + PackBits(Last(xs), w, swap)
  }

  /** Appending one more word changes no earlier slot. */
  lemma SlotOfAppend(a: seq<Byte>, b: seq<Byte>, n: nat, w: nat, i: nat)
    requires |a| == n * w && |b| == w && i <= n
    ensures (i + 1) * w <= |a + b|
    ensures i < n ==> (i + 1) * w <= |a| && Slot(a + b, i, w) == Slot(a, i, w)
    ensures i == n ==> Slot(a + b, i, w) == b
  {
    assert (n + 1) * w == n * w + w;
    SlotBounds(i, n + 1, w, |a + b|);
    if i < n {
      SlotBounds(i, n, w, |a|);
    }
  }

  lemma SlotInside(n: nat, w: nat, i: nat)
    requires i < n
    ensures (i + 1) * w <= n * w
  {
    SlotBounds(i, n, w, n * w);
  }

  lemma {:induction false} IntSlots(xs: seq<int>, w: nat, swap: bool, i: nat)
    requires i < |xs| && forall i :: 0 <= i < |xs| ==> Fits(xs[i], w)
    ensures (i + 1) * w <= |PackInts(xs, w, swap)|
    ensures Slot(PackInts(xs, w, swap), i, w) == PackInt(xs[i], w, swap)
  {
    SlotInside(|xs|, w, i);
    hide Slot, PackInt, Fits;
    SlotOfAppend(PackInts(ButLast(xs), w, swap), PackInt(Last(xs), w, swap), |xs| - 1, w, i);
    if i < |xs| - 1 {
      IntSlots(ButLast(xs), w, swap, i);
    }
  }

  lemma {:induction false} WordSlots(xs: seq<nat>, w: nat, swap: bool, i: nat)
    requires i < |xs|
    ensures (i + 1) * w <= |PackWords(xs, w, swap)|
    ensures Slot(PackWords(xs, w, swap), i, w) == PackBits(xs[i], w, swap)
  {
    SlotInside(|xs|, w, i);
    hide Slot, PackBits;
    SlotOfAppend(PackWords(ButLast(xs), w, swap), PackBits(Last(xs), w, swap), |xs| - 1, w, i);
    if i < |xs| - 1 {
      WordSlots(ButLast(xs), w, swap, i);
    }
  }

  /** Arrays survive the wire in either byte order. */
  lemma UnpackPackInts(xs: seq<int>, w: nat, swap: bool)
    requires forall i :: 0 <= i < |xs| ==> Fits(xs[i], w)
    ensures UnpackInts(PackInts(xs, w, swap), |xs|, w, swap) == xs
  {
    hide Slot, PackInt, UnpackInt, Fits, PackInts;
    forall i | 0 <= i < |xs| ensures UnpackInts(PackInts(xs, w, swap), |xs|, w, swap)[i] == xs[i] {
      IntSlots(xs, w, swap, i);
      UnpackPack(xs[i], w, swap);
    }
  }

  lemma UnpackPackWords(xs: seq<nat>, w: nat, swap: bool)
    requires forall i :: 0 <= i < |xs| ==> xs[i] < Power256(w)
    ensures UnpackWords(PackWords(xs, w, swap), |xs|, w, swap) == xs
  {
    hide Slot, PackBits, UnpackBits, PackWords;
    forall i | 0 <= i < |xs| ensures UnpackWords(PackWords(xs, w, swap), |xs|, w, swap)[i] == xs[i] {
      WordSlots(xs, w, swap, i);
      UnpackPackBits(xs[i], w, swap);
    }
  }
}
