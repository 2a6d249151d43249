/** The packed one-bit frame buffer of the e-paper display, against a plain grid of pixels. */
module Framebuffer {
  const WIDTH: nat := 128
  const HEIGHT: nat := 250
  const ROW: nat := 16
  const SIZE: nat := 4000

  datatype Color = On | Off

  datatype Pixel = Pixel(x: int, y: int, color: Color)

  predicate InRange(x: int, y: int) {
    0 <= x < WIDTH && 0 <= y < HEIGHT
  }

  function ByteOf(x: nat, y: nat): nat {
    y * ROW + x / 8
  }

  function BitOf(x: nat): (b: nat)
    ensures b < 8
  {
    7 - x % 8
  }

  function Mask(bit: nat): bv8
    requires bit < 8
  {
    (1 as bv8) << bit
  }

  // --------------------------------------------------- pixels and bits, one to one

  /** The pixel that a bit of the buffer shows. */
  function PixelOf(byte: nat, bit: nat): (p: (nat, nat))
    requires byte < SIZE && bit < 8
    ensures InRange(p.0, p.1)
  {
    (byte % ROW * 8 + 7 - bit, byte / ROW)
  }

  lemma BitOfPixel(x: nat, y: nat)
    requires InRange(x, y)
    ensures ByteOf(x, y) < SIZE && PixelOf(ByteOf(x, y), BitOf(x)) == (x, y)
  {
    assert (y * 16 + x / 8) / 16 == y && (y * 16 + x / 8) % 16 == x / 8;
    assert x == x / 8 * 8 + x % 8;
  }

  lemma PixelOfBit(byte: nat, bit: nat)
    requires byte < SIZE && bit < 8
    ensures var (x, y) := PixelOf(byte, bit); ByteOf(x, y) == byte && BitOf(x) == bit
  {
    var (x, y) := PixelOf(byte, bit);
    assert byte == byte / 16 * 16 + byte % 16;
    assert x / 8 == byte % 16 && x % 8 == 7 - bit;
  }

  // --------------------------------------------------- single bits of a byte

  predicate IsClear(b: bv8, bit: nat)
    requires bit < 8
  {
    b & Mask(bit) == 0
  }

  lemma MaskTable(bit: nat)
    requires bit < 8
    ensures Mask(bit) == match bit case 0 => 1 case 1 => 2 case 2 => 4 case 3 => 8
                                   case 4 => 16 case 5 => 32 case 6 => 64 case _ => 128
  {
  }

  /** Clearing a bit clears that bit and no other. */
  lemma ClearBit(b: bv8, bit: nat, other: nat)
    requires bit < 8 && other < 8
    ensures IsClear(b & !Mask(bit), other) <==> other == bit || IsClear(b, other)
  {
    MaskTable(bit);
    MaskTable(other);
  }

  /** Setting a bit sets that bit and no other. */
  lemma SetBit(b: bv8, bit: nat, other: nat)
    requires bit < 8 && other < 8
    ensures IsClear(b | Mask(bit), other) <==> other != bit && IsClear(b, other)
  {
    MaskTable(bit);
    MaskTable(other);
  }

  /** Black clears what the mask has, white sets it. */
  function Combined(b: bv8, mask: bv8, color: Color): bv8 {
    if color.On? then b & !mask else b | mask
  }

  /** One bit written. */
  function Written(b: bv8, bit: nat, color: Color): bv8
    requires bit < 8
  {
    Combined(b, Mask(bit), color)
  }

  lemma WrittenBit(b: bv8, bit: nat, color: Color, other: nat)
    requires bit < 8 && other < 8
    ensures IsClear(Written(b, bit, color), other) <==> if bit == other then color.On? else IsClear(b, other)
  {
    ClearBit(b, bit, other);
    SetBit(b, bit, other);
  }

  /** A byte is its eight bits. */
  lemma BitsDetermineByte(a: bv8, b: bv8)
    requires forall bit | 0 <= bit < 8 :: IsClear(a, bit) <==> IsClear(b, bit)
    ensures a == b
  {
    assert IsClear(a, 0) <==> IsClear(b, 0);
    assert IsClear(a, 1) <==> IsClear(b, 1);
    assert IsClear(a, 2) <==> IsClear(b, 2);
    assert IsClear(a, 3) <==> IsClear(b, 3);
    assert IsClear(a, 4) <==> IsClear(b, 4);
    assert IsClear(a, 5) <==> IsClear(b, 5);
    assert IsClear(a, 6) <==> IsClear(b, 6);
    assert IsClear(a, 7) <==> IsClear(b, 7);
    MaskTable(0);
    MaskTable(1);
    MaskTable(2);
    MaskTable(3);
    MaskTable(4);
    MaskTable(5);
    MaskTable(6);
    MaskTable(7);
  }

  // --------------------------------------------------- drawing

  /** One pixel; points outside the screen are skipped.  A black pixel is a clear bit. */
  function Drawn(bytes: seq<bv8>, p: Pixel): (r: seq<bv8>)
    requires |bytes| == SIZE
    ensures |r| == SIZE
  {
    if !InRange(p.x, p.y) then bytes
    else
      BitOfPixel(p.x, p.y);
      var byte := ByteOf(p.x, p.y);
      bytes[byte := Written(bytes[byte], BitOf(p.x), p.color)]
  }

  function DrawnAll(bytes: seq<bv8>, pixels: seq<Pixel>): (r: seq<bv8>)
    requires |bytes| == SIZE
    ensures |r| == SIZE
    decreases |pixels|
  {
    if pixels == [] then bytes else DrawnAll(Drawn(bytes, pixels[0]), pixels[1..])
  }

  class Buf {
    const data: array<bv8>

    ghost predicate Valid()
      reads this
    {
      data.Length == SIZE
    }

    constructor ()
      ensures Valid() && fresh(data)
      ensures forall i | 0 <= i < SIZE :: data[i] == 0xFF
    {
      data := new bv8[SIZE](_ => 0xFF);
    }

    method Clear()
      requires Valid()
      modifies data
      ensures forall i | 0 <= i < SIZE :: data[i] == 0xFF
    {
      for i := 0 to data.Length
        invariant forall j | 0 <= j < i :: data[j] == 0xFF
      {
        data[i] := 0xFF;
      }
    }

    /** The body of the loop of `draw_iter`. */
    method DrawPixel(p: Pixel)
      requires Valid()
      modifies data
      ensures data[..] == Drawn(old(data[..]), p)
    {
      if p.x < 0 || p.y < 0 || p.x >= WIDTH || p.y >= HEIGHT {
        return;
      }
      BitOfPixel(p.x, p.y);
      WriteMask(ByteOf(p.x, p.y), Mask(BitOf(p.x)), p.color);
    }

    method WriteMask(byte: nat, mask: bv8, color: Color)
      requires Valid() && byte < SIZE
      modifies data
      ensures data[..] == old(data[..])[byte := Combined(old(data[byte]), mask, color)]
    {
      data[byte] := if color == On then data[byte] & !mask else data[byte] | mask;
    }

    /** `draw_iter` */
    method DrawIter(pixels: seq<Pixel>)
      requires Valid()
      modifies data
      ensures data[..] == DrawnAll(old(data[..]), pixels)
    {
      for i := 0 to |pixels|
        invariant DrawnAll(data[..], pixels[i..]) == DrawnAll(old(data[..]), pixels)
      {
        assert pixels[i..][1..] == pixels[i + 1..];
        DrawPixel(pixels[i]);
      }
      assert pixels[|pixels|..] == [];
    }
  }

  // --------------------------------------------------- the plain grid

  /** Is the pixel black? */
  predicate Black(bytes: seq<bv8>, x: nat, y: nat)
    requires |bytes| == SIZE && InRange(x, y)
  {
    BitOfPixel(x, y);
    IsClear(bytes[ByteOf(x, y)], BitOf(x))
  }

  /** The colour of the last write to a pixel, or what it was before. */
  function LastWrite(pixels: seq<Pixel>, x: nat, y: nat, before: bool): bool
    decreases |pixels|
  {
    if pixels == [] then before
    else
      var p := pixels[|pixels| - 1];
      if p.x == x && p.y == y then p.color.On? else LastWrite(pixels[..|pixels| - 1], x, y, before)
  }

  lemma {:induction false} LastWriteFront(p: Pixel, rest: seq<Pixel>, x: nat, y: nat, before: bool)
    ensures LastWrite([p] + rest, x, y, before)
            == LastWrite(rest, x, y, if p.x == x && p.y == y then p.color.On? else before)
    decreases |rest|
  {
    var all := [p] + rest;
    if rest == [] {
      assert all == [p] && all[..0] == [];
    } else {
      assert all[..|all| - 1] == [p] + rest[..|rest| - 1];
      LastWriteFront(p, rest[..|rest| - 1], x, y, before);
    }
  }

  /** Two pixels have the same bit only if they are the same. */
  lemma SameBitSamePixel(x: nat, y: nat, x': nat, y': nat)
    requires InRange(x, y) && InRange(x', y') && ByteOf(x, y) == ByteOf(x', y') && BitOf(x) == BitOf(x')
    ensures x == x' && y == y'
  {
    BitOfPixel(x, y);
    BitOfPixel(x', y');
  }

  lemma DrawnAt(bytes: seq<bv8>, p: Pixel, x: nat, y: nat)
    requires |bytes| == SIZE && InRange(x, y)
    ensures Black(Drawn(bytes, p), x, y) <==> if p.x == x && p.y == y then p.color.On? else Black(bytes, x, y)
  {
    if InRange(p.x, p.y) {
      BitOfPixel(p.x, p.y);
      BitOfPixel(x, y);
      var byte := ByteOf(p.x, p.y);
      if byte == ByteOf(x, y) {
        WrittenBit(bytes[byte], BitOf(p.x), p.color, BitOf(x));
        if BitOf(p.x) == BitOf(x) {
          SameBitSamePixel(p.x, p.y, x, y);
        }
      } else {
        assert Drawn(bytes, p)[ByteOf(x, y)] == bytes[ByteOf(x, y)];
      }
    }
  }

  /** After any drawing every pixel shows its last write, or what it showed before. */
  lemma {:induction false} DrawingIsLastWrite(bytes: seq<bv8>, pixels: seq<Pixel>, x: nat, y: nat)
    requires |bytes| == SIZE && InRange(x, y)
    ensures Black(DrawnAll(bytes, pixels), x, y) <==> LastWrite(pixels, x, y, Black(bytes, x, y))
    decreases |pixels|
  {
    if pixels != [] {
      var p, rest := pixels[0], pixels[1..];
      assert pixels == [p] + rest;
      DrawnAt(bytes, p, x, y);
      DrawingIsLastWrite(Drawn(bytes, p), rest, x, y);
      LastWriteFront(p, rest, x, y, Black(bytes, x, y));
    }
  }

  /** The pixels are all there is in a buffer. */
  lemma PixelsDetermineBuffer(a: seq<bv8>, b: seq<bv8>)
    requires |a| == SIZE && |b| == SIZE
    requires forall x: nat, y: nat | InRange(x, y) :: Black(a, x, y) <==> Black(b, x, y)
    ensures a == b
  {
    forall i | 0 <= i < SIZE
      ensures a[i] == b[i]
    {
      forall bit | 0 <= bit < 8
        ensures IsClear(a[i], bit) <==> IsClear(b[i], bit)
      {
        var (x, y) := PixelOf(i, bit);
        PixelOfBit(i, bit);
        assert Black(a, x, y) <==> Black(b, x, y);
      }
      BitsDetermineByte(a[i], b[i]);
    }
  }

  lemma {:induction false} NoWrite(pixels: seq<Pixel>, x: nat, y: nat, before: bool)
    requires forall p | p in pixels :: !InRange(p.x, p.y)
    requires InRange(x, y)
    ensures LastWrite(pixels, x, y, before) == before
    decreases |pixels|
  {
    if pixels != [] {
      assert pixels[|pixels| - 1] in pixels;
      NoWrite(pixels[..|pixels| - 1], x, y, before);
    }
  }

  /** Points outside the screen change no byte. */
  lemma OutsideChangesNothing(bytes: seq<bv8>, pixels: seq<Pixel>)
    requires |bytes| == SIZE && forall p | p in pixels :: !InRange(p.x, p.y)
    ensures DrawnAll(bytes, pixels) == bytes
  {
    forall x: nat, y: nat | InRange(x, y)
      ensures Black(DrawnAll(bytes, pixels), x, y) <==> Black(bytes, x, y)
    {
      DrawingIsLastWrite(bytes, pixels, x, y);
      NoWrite(pixels, x, y, Black(bytes, x, y));
    }
    PixelsDetermineBuffer(DrawnAll(bytes, pixels), bytes);
  }

  /** Drawings that end with the same last writes leave the same bytes, whatever their order. */
  lemma SameWritesSameBuffer(bytes: seq<bv8>, a: seq<Pixel>, b: seq<Pixel>)
    requires |bytes| == SIZE
    requires forall x: nat, y: nat, before | InRange(x, y) :: LastWrite(a, x, y, before) == LastWrite(b, x, y, before)
    ensures DrawnAll(bytes, a) == DrawnAll(bytes, b)
  {
    forall x: nat, y: nat | InRange(x, y)
      ensures Black(DrawnAll(bytes, a), x, y) <==> Black(DrawnAll(bytes, b), x, y)
    {
      DrawingIsLastWrite(bytes, a, x, y);
      DrawingIsLastWrite(bytes, b, x, y);
    }
    PixelsDetermineBuffer(DrawnAll(bytes, a), DrawnAll(bytes, b));
  }
}
