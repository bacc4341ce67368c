/**
 The brightness pass: every pixel of the canvas's RGBA buffer has its red,
 green and blue bytes replaced by multiplier * channel, written back through the
 clamped-byte store; alpha bytes are never written. The buffer is the copy read
 out of the canvas, and the result is what is put back.
 */
module Brightness {
  import opened Uint8Clamp

  /** The multiplier the render passes for a brightness setting in percent
      (the slider value divided by 100). */
  function Multiplier(percent: int): (r: real)
    ensures r * 100.0 == percent as real
  {
    percent as real / 100.0
  }

  /** Reading buffer index i: the byte if it exists; past the end the read yields
      undefined, which any multiplication turns into NaN, so it is NaN here. */
  function Read(buf: seq<Byte>, i: nat): (r: Number)
    ensures r.Finite? <==> i < |buf|
    ensures r.Finite? ==> 0.0 <= r.value <= 255.0 && r.value == buf[i] as real
  {
    if i < |buf| then Finite(buf[i] as real) else NaN
  }

  /** Multiplication of a finite multiplier by a number; NaN stays NaN. */
  function Times(m: real, n: Number): (r: Number)
    ensures r.NaN? <==> n.NaN?
    ensures m == 1.0 ==> r == n
  {
    match n
    case NaN => NaN
    case Finite(v) => Finite(m * v)
  }

  /** Assigning to buffer index i: stores ToUint8Clamp(n) when i is in range,
      and is ignored past the end; no other byte changes. */
  function Write(buf: seq<Byte>, i: nat, n: Number): (r: seq<Byte>)
    ensures |r| == |buf|
    ensures i < |buf| ==> r[i] == ToUint8Clamp(n)
    ensures forall j :: 0 <= j < |buf| && j != i ==> r[j] == buf[j]
  {
    if i < |buf| then buf[i := ToUint8Clamp(n)] else buf
  }

  /** The byte a colour channel c becomes under the multiplier. */
  function AdjustedChannel(multiplier: real, c: Byte): Byte
  {
    ToUint8Clamp(Finite(multiplier * c as real))
  }

  /** Storing the product of the multiplier and byte k, when k is in range, stores
      the adjusted channel. */
  lemma ScaledRead(buf: seq<Byte>, k: nat, multiplier: real)
    requires k < |buf|
    ensures ToUint8Clamp(Times(multiplier, Read(buf, k))) == AdjustedChannel(multiplier, buf[k])
  {
    assert Times(multiplier, Read(buf, k)) == Finite(multiplier * buf[k] as real);
  }

  /** One iteration of the pass: the red, green and blue bytes of the pixel
      starting at index i are read, scaled and stored back; nothing else changes. */
  function AdjustPixel(buf: seq<Byte>, i: nat, multiplier: real): (r: seq<Byte>)
    ensures |r| == |buf|
    ensures forall j :: i <= j <= i + 2 && j < |buf| ==> r[j] == AdjustedChannel(multiplier, buf[j])
    ensures forall j :: 0 <= j < |buf| && (j < i || i + 2 < j) ==> r[j] == buf[j]
  {
    var red := Read(buf, i);
    var green := Read(buf, i + 1);
    var blue := Read(buf, i + 2);
    var afterRed := Write(buf, i, Times(multiplier, red));
    var afterGreen := Write(afterRed, i + 1, Times(multiplier, green));
    var r := Write(afterGreen, i + 2, Times(multiplier, blue));
    assert forall j :: i <= j <= i + 2 && j < |buf| ==> r[j] == AdjustedChannel(multiplier, buf[j]) by {
      forall j | i <= j <= i + 2 && j < |buf|
        ensures r[j] == AdjustedChannel(multiplier, buf[j])
      {
        ScaledRead(buf, j, multiplier);
        if j == i {
          assert r[j] == afterRed[j] == ToUint8Clamp(Times(multiplier, Read(buf, j)));
        } else if j == i + 1 {
          assert r[j] == afterGreen[j] == ToUint8Clamp(Times(multiplier, Read(buf, j)));
        } else {
          assert r[j] == ToUint8Clamp(Times(multiplier, Read(buf, j)));
        }
      }
    }
    r
  }

  /** Index j of an RGBA buffer holds an alpha byte. */
  predicate IsAlpha(j: int)
  {
    j % 4 == 3
  }

  /** The byte index j of the buffer holds after the whole pass. */
  function Expected(data: seq<Byte>, multiplier: real, j: nat): Byte
    requires j < |data|
  {
    if IsAlpha(j) then data[j] else AdjustedChannel(multiplier, data[j])
  }

  /** Every byte below index lo already holds its final value. */
  predicate Done(out: seq<Byte>, data: seq<Byte>, multiplier: real, lo: int)
  {
    |out| == |data| && forall j :: 0 <= j < |data| && j < lo ==> out[j] == Expected(data, multiplier, j)
  }

  /** Every byte from index lo on still holds its original value. */
  predicate Pending(out: seq<Byte>, data: seq<Byte>, lo: int)
  {
    |out| == |data| && forall j :: 0 <= lo <= j < |data| ==> out[j] == data[j]
  }

  /** The brightness pass over an RGBA buffer. */
  method BrightnessAdjustment(data: seq<Byte>, multiplier: real) returns (out: seq<Byte>)
    ensures |out| == |data|
    ensures forall j :: 0 <= j < |data| && IsAlpha(j) ==> out[j] == data[j]
    ensures forall j :: 0 <= j < |data| && !IsAlpha(j) ==> out[j] == AdjustedChannel(multiplier, data[j])
    ensures multiplier == 1.0 ==> out == data
  {
    out := data;
    var i := 0;
    while i < |out|
      invariant 0 <= i && i % 4 == 0
      invariant Done(out, data, multiplier, i)
      invariant Pending(out, data, i)
      decreases |out| - i
    {
      PixelStep(out, data, i, multiplier);
      out := AdjustPixel(out, i, multiplier);
      assert (i + 4) % 4 == 0;
      i := i + 4;
    }
    PassComplete(out, data, multiplier, i);
  }

  /** Once every byte holds its final value, alpha bytes are the originals,
      colour bytes are adjusted, and multiplier 1 has changed nothing. */
  lemma PassComplete(out: seq<Byte>, data: seq<Byte>, multiplier: real, i: int)
    requires Done(out, data, multiplier, i) && i >= |data|
    ensures |out| == |data|
    ensures forall j :: 0 <= j < |data| && IsAlpha(j) ==> out[j] == data[j]
    ensures forall j :: 0 <= j < |data| && !IsAlpha(j) ==> out[j] == AdjustedChannel(multiplier, data[j])
    ensures multiplier == 1.0 ==> out == data
  {
    if multiplier == 1.0 {
      forall j | 0 <= j < |data|
        ensures out[j] == data[j]
      {
        assert out[j] == Expected(data, 1.0, j);
        UnitMultiplier(data[j]);
      }
    }
  }

  /** One loop iteration brings the pixel at i to its final bytes and leaves the
      rest of the buffer alone. */
  lemma PixelStep(buf: seq<Byte>, data: seq<Byte>, i: nat, multiplier: real)
    requires i % 4 == 0 && Done(buf, data, multiplier, i) && Pending(buf, data, i)
    ensures Done(AdjustPixel(buf, i, multiplier), data, multiplier, i + 4)
    ensures Pending(AdjustPixel(buf, i, multiplier), data, i + 4)
  {
    forall j | i <= j < i + 4 && j < |data|
      ensures AdjustPixel(buf, i, multiplier)[j] == Expected(data, multiplier, j)
    {
      PixelByte(buf, data, i, j, multiplier);
    }
  }

  /** Byte j of the pixel at i, still holding its original value, gets its final value. */
  lemma PixelByte(buf: seq<Byte>, data: seq<Byte>, i: nat, j: nat, multiplier: real)
    requires i % 4 == 0 && i <= j < i + 4 && j < |data| == |buf| && buf[j] == data[j]
    ensures AdjustPixel(buf, i, multiplier)[j] == Expected(data, multiplier, j)
  {
    assert IsAlpha(j) <==> j == i + 3;
  }

  /** Multiplier 1 leaves every channel as it was. */
  lemma UnitMultiplier(c: Byte)
    ensures AdjustedChannel(1.0, c) == c
  {
    StoreByte(c);
  }

  /** The default brightness of 100 percent is multiplier 1: the pass changes nothing. */
  lemma DefaultBrightnessIsIdentity(c: Byte)
    ensures AdjustedChannel(Multiplier(100), c) == c
  {
    UnitMultiplier(c);
  }

  /** Brightness 0 turns every colour channel black. */
  lemma ZeroBrightness(c: Byte)
    ensures AdjustedChannel(Multiplier(0), c) == 0
  {
  }

  /** A larger multiplier never yields a darker channel. */
  lemma MonotoneInMultiplier(m1: real, m2: real, c: Byte)
    requires m1 <= m2
    ensures AdjustedChannel(m1, c) <= AdjustedChannel(m2, c)
  {
    assert m1 * c as real <= m2 * c as real;
    StoreMonotone(m1 * c as real, m2 * c as real);
  }

  /** Below multiplier 1 a channel never gets brighter, above it never darker. */
  lemma DarkenAndBrighten(multiplier: real, c: Byte)
    ensures multiplier <= 1.0 ==> AdjustedChannel(multiplier, c) <= c
    ensures multiplier >= 1.0 ==> AdjustedChannel(multiplier, c) >= c
  {
    UnitMultiplier(c);
    if multiplier <= 1.0 {
      MonotoneInMultiplier(multiplier, 1.0, c);
    } else {
      MonotoneInMultiplier(1.0, multiplier, c);
    }
  }

  /** Out-of-range products saturate rather than wrap: a product of 255 or more
      stores 255. */
  lemma Saturates(multiplier: real, c: Byte)
    requires multiplier * c as real >= 255.0
    ensures AdjustedChannel(multiplier, c) == 255
  {
  }

  /** At 200 percent a channel of 200 (product 400) stores 255, not 400 mod 256 == 144. */
  lemma SaturatesAtDoubleBrightness()
    ensures AdjustedChannel(Multiplier(200), 200) == 255
  {
    Saturates(Multiplier(200), 200);
  }

  /** Clamping the product to [0, 255] first, as the comment in brightnessAdjustment
      suggests, would store exactly the same byte. */
  lemma SuggestedClampIsRedundant(multiplier: real, c: Byte)
    ensures ToUint8Clamp(Finite(Clamp(multiplier * c as real))) == AdjustedChannel(multiplier, c)
  {
    ClampBeforeStore(multiplier * c as real);
  }
}
