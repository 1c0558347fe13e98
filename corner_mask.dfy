/**
 * The four corners of the view, the bit constants of the companion object
 * (TOP_LEFT = 8, TOP_RIGHT = 4, BOTTOM_LEFT = 2, BOTTOM_RIGHT = 1) and the
 * decoding of a corner bitmask into four "rounded" flags.
 */
module CornerMask {
  import opened JvmInt

  datatype Corner = TopLeft | TopRight | BottomLeft | BottomRight

  const TOP_LEFT: int := 8
  const TOP_RIGHT: int := 4
  const BOTTOM_LEFT: int := 2
  const BOTTOM_RIGHT: int := 1
  const ALL_ROUNDED_CORNERS_VALUE: int := 15

  /** The bit that stands for corner `c`. */
  function Bit(c: Corner): int
  {
    match c
    case TopLeft => TOP_LEFT
    case TopRight => TOP_RIGHT
    case BottomLeft => BOTTOM_LEFT
    case BottomRight => BOTTOM_RIGHT
  }

  /** Which corners are rounded; a corner that is not is a sharp right angle. */
  datatype Corners = Corners(topLeft: bool, topRight: bool, bottomLeft: bool, bottomRight: bool)
  {
    predicate Has(c: Corner)
    {
      match c
      case TopLeft => topLeft
      case TopRight => topRight
      case BottomLeft => bottomLeft
      case BottomRight => bottomRight
    }

    predicate All()
    {
      topLeft && topRight && bottomLeft && bottomRight
    }
  }

  const NoCorners := Corners(false, false, false, false)

  /**
   * Kotlin `n and bit` on a 32-bit Int, for a single-bit `bit`: two's
   * complement makes bit k of `n` equal to `(n / 2^k) % 2` with Dafny's
   * rounding-down division, negative `n` included.
   */
  function And(n: Int32, bit: int): (r: int)
    requires bit == 1 || bit == 2 || bit == 4 || bit == 8
    ensures r == 0 || r == bit
  {
    if (n / bit) % 2 == 1 then bit else 0
  }

  /** setRoundedCornersInternal: each flag is `BIT == roundedCorners and BIT`. */
  function Decode(n: Int32): Corners
  {
    Corners(TOP_LEFT == And(n, TOP_LEFT),
            TOP_RIGHT == And(n, TOP_RIGHT),
            BOTTOM_LEFT == And(n, BOTTOM_LEFT),
            BOTTOM_RIGHT == And(n, BOTTOM_RIGHT))
  }

  /** The bitmask a caller writes for a set of flags (1111 in base 2 for all four). */
  function Encode(c: Corners): (n: Int32)
    ensures 0 <= n <= ALL_ROUNDED_CORNERS_VALUE
    ensures n == 0 <==> c == NoCorners
    ensures n == ALL_ROUNDED_CORNERS_VALUE <==> c.All()
  {
    (if c.topLeft then TOP_LEFT else 0) + (if c.topRight then TOP_RIGHT else 0)
    + (if c.bottomLeft then BOTTOM_LEFT else 0) + (if c.bottomRight then BOTTOM_RIGHT else 0)
  }

  /** The flags an `EnumSet<Corner>` stands for (setRoundCorners asks `contains` per corner). */
  function FromSet(s: set<Corner>): (c: Corners)
    ensures forall k :: c.Has(k) <==> k in s
  {
    Corners(TopLeft in s, TopRight in s, BottomLeft in s, BottomRight in s)
  }

  /** Decoding undoes encoding: every combination of flags survives the bitmask. */
  lemma DecodeEncode(c: Corners)
    ensures Decode(Encode(c)) == c
  {
  }

  /** Only the low four bits of the mask matter; the others are ignored. */
  lemma DecodeLowBits(n: Int32)
    ensures Decode(n) == Decode(n % 16)
  {
    LowBits(n);
  }

  /** Adding an even number keeps the parity. */
  lemma ShiftParity(x: int, q: int)
    ensures (2 * q + x) % 2 == x % 2
  {
    var a, b := (2 * q + x) / 2, (2 * q + x) % 2;
    var c, d := x / 2, x % 2;
    assert 2 * q + x == 2 * a + b && 0 <= b < 2;
    assert x == 2 * c + d && 0 <= d < 2;
    assert 2 * (q + c - a) == b - d;
  }

  /** Each of the four low bits of n is the same bit of n % 16. */
  lemma LowBits(n: int)
    ensures (n / 8) % 2 == ((n % 16) / 8) % 2
    ensures (n / 4) % 2 == ((n % 16) / 4) % 2
    ensures (n / 2) % 2 == ((n % 16) / 2) % 2
    ensures n % 2 == (n % 16) % 2
  {
    var q, m := n / 16, n % 16;
    assert n == 16 * q + m && 0 <= m < 16;
    assert n / 8 == 2 * q + m / 8 by {
      assert n == 8 * (n / 8) + n % 8 && 0 <= n % 8 < 8;
      assert m == 8 * (m / 8) + m % 8 && 0 <= m % 8 < 8;
    }
    assert n / 4 == 4 * q + m / 4 by {
      assert n == 4 * (n / 4) + n % 4 && 0 <= n % 4 < 4;
      assert m == 4 * (m / 4) + m % 4 && 0 <= m % 4 < 4;
    }
    assert n / 2 == 8 * q + m / 2 by {
      assert n == 2 * (n / 2) + n % 2 && 0 <= n % 2 < 2;
      assert m == 2 * (m / 2) + m % 2 && 0 <= m % 2 < 2;
    }
    ShiftParity(m / 8, q);
    ShiftParity(m / 4, 2 * q);
    ShiftParity(m / 2, 4 * q);
    ShiftParity(m, 8 * q);
  }

  /** Encoding a decoded mask gives back its low four bits. */
  lemma EncodeDecode(n: Int32)
    ensures Encode(Decode(n)) == n % 16
  {
    DecodeLowBits(n);
    var m := n % 16;
    assert 0 <= m < 16;
    assert Encode(Decode(m)) == m;
  }

  /** Decoding sets a corner's flag exactly when that corner's bit is set in the mask. */
  lemma DecodeHas(n: Int32, k: Corner)
    ensures Decode(n).Has(k) <==> (n / Bit(k)) % 2 == 1
  {
  }

  /** The named constants: 15 rounds all four corners, 0 none, each single bit its own corner. */
  lemma DecodeConstants(k: Corner)
    ensures Decode(ALL_ROUNDED_CORNERS_VALUE).All()
    ensures Decode(0) == NoCorners
    ensures Decode(Bit(k)) == FromSet({k})
  {
  }
}
