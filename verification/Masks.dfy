/** Six-bit masks as the numbers the source stores. */
module Masks {
  import opened Geometry

  function Weight(d: Direction): nat {
    match d
    case East => 1
    case SouthEast => 2
    case SouthWest => 4
    case West => 8
    case NorthWest => 16
    case NorthEast => 32
  }

  /** The directions whose bits are set in n. */
  function MaskOf(n: nat): Mask {
    set d | d in FULL && (n / Weight(d)) % 2 == 1
  }

  function Bit(m: Mask, d: Direction): nat {
    if d in m then Weight(d) else 0
  }

  function NumberOf(m: Mask): nat {
    Bit(m, East) + Bit(m, SouthEast) + Bit(m, SouthWest) + Bit(m, West) + Bit(m, NorthWest) + Bit(m, NorthEast)
  }

  lemma NumberIsBelow64(m: Mask)
    ensures NumberOf(m) < 64
  {
  }

  /** Every mask has its number: the tables of 64 cover all of them. */
  lemma MaskOfNumber(m: Mask)
    ensures MaskOf(NumberOf(m)) == m
  {
    var n := NumberOf(m);
    forall d: Direction ensures d in MaskOf(n) <==> d in m {
      EveryDirection(d);
      BitOfNumber(m, d);
    }
  }

  function One(m: Mask, d: Direction): nat {
    if d in m then 1 else 0
  }

  lemma BitOfNumber(m: Mask, d: Direction)
    ensures (NumberOf(m) / Weight(d)) % 2 == One(m, d)
  {
    var a, b, c := One(m, East), One(m, SouthEast), One(m, SouthWest);
    var e, f, g := One(m, West), One(m, NorthWest), One(m, NorthEast);
    assert NumberOf(m) == a + 2 * b + 4 * c + 8 * e + 16 * f + 32 * g;
    match d
    case East => Digit(0, a, b + 2 * c + 4 * e + 8 * f + 16 * g, 1);
    case SouthEast => Digit(a, b, c + 2 * e + 4 * f + 8 * g, 2);
    case SouthWest => Digit(a + 2 * b, c, e + 2 * f + 4 * g, 4);
    case West => Digit(a + 2 * b + 4 * c, e, f + 2 * g, 8);
    case NorthWest => Digit(a + 2 * b + 4 * c + 8 * e, f, g, 16);
    case NorthEast => Digit(a + 2 * b + 4 * c + 8 * e + 16 * f, g, 0, 32);
  }

  /** A binary digit of low + digit * w + 2 * w * high. */
  lemma Digit(low: nat, digit: nat, high: nat, w: nat)
    requires low < w && digit <= 1
    ensures ((low + w * (digit + 2 * high)) / w) % 2 == digit
    ensures w * (digit + 2 * high) == w * digit + 2 * w * high
  {
    var x := digit + 2 * high;
    var n := low + w * x;
    ModUnique(n, w, x, low);
    assert n / w == x by {
      var q := n / w;
      assert w * q == w * x;
      assert q <= x - 1 ==> w * q <= w * (x - 1);
      assert q >= x + 1 ==> w * q >= w * (x + 1);
    }
  }

  lemma FullNumber()
    ensures MaskOf(63) == FULL
  {
  }

  /** The test `mask & 1 << d`, whose operators group to the left, looks at the East spoke whatever the direction is. */
  lemma GuardTestsEast(m: Mask, d: Direction)
    ensures (NumberOf(m) % 2) * Weight(d) != 0 <==> East in m
  {
    BitOfNumber(m, East);
  }
}
