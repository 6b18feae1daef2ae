/**
 * The pixel arithmetic of testNN (src/Main.java): a packed ARGB int is split
 * into its red, green and blue bytes, and the pixel becomes 0 when it is
 * pure white and 1 otherwise, through Java's truncating integer division.
 */
module Pixels {
  /** 2^k, for the shift distances used on a packed pixel. */
  function ShiftUnit(k: nat): (u: nat)
    ensures u >= 1
  {
    if k == 0 then 1 else 2 * ShiftUnit(k - 1)
  }

  /**
   * (rgb >> k) & 0xFF. The arithmetic shift is division by 2^k rounded
   * down, which Dafny's division by a positive divisor is; the mask keeps
   * the low byte, the non-negative remainder modulo 256.
   */
  function Channel(rgb: int, k: nat): (c: int)
    ensures 0 <= c <= 255
  {
    (rgb / ShiftUnit(k)) % 256
  }

  function Red(rgb: int): int { Channel(rgb, 16) }
  function Green(rgb: int): int { Channel(rgb, 8) }
  function Blue(rgb: int): int { Channel(rgb, 0) }

  /**
   * |((r + g + b) / 3) / 255 - 1| as a double. The operands are never
   * negative, so Java's truncating division agrees with Dafny's here.
   * The value is 0 exactly for a white pixel and 1 for every other.
   */
  function Intensity(rgb: int): (v: real)
    ensures v == 0.0 <==> Red(rgb) == 255 && Green(rgb) == 255 && Blue(rgb) == 255
    ensures v == 0.0 || v == 1.0
  {
    var r, g, b := Red(rgb), Green(rgb), Blue(rgb);
    MeanByte(r, g, b);
    var d := ((r + g + b) / 3) / 255 - 1;
    (if d < 0 then -d else d) as real
  }

  /** The mean of three bytes, divided by 255, is 1 for three 255s and 0 for anything else. */
  lemma MeanByte(r: int, g: int, b: int)
    requires 0 <= r <= 255 && 0 <= g <= 255 && 0 <= b <= 255
    ensures ((r + g + b) / 3) / 255 == if r == 255 && g == 255 && b == 255 then 1 else 0
  {
    var m := (r + g + b) / 3;
    assert 0 <= m <= 255;
    if r == 255 && g == 255 && b == 255 {
      assert m == 255;
    } else {
      assert r + g + b < 765;
      assert m < 255;
    }
  }

  /** Opaque white (0xFFFFFFFF, the int -1) reads as 0; opaque black (0xFF000000) as 1. */
  lemma WhiteAndBlack()
    ensures Intensity(-1) == 0.0
    ensures Intensity(-0x0100_0000) == 1.0
  {
    assert ShiftUnit(8) == 256;
    assert ShiftUnit(16) == 65536;
  }
}
