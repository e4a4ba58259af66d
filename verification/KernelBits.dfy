/** Bits of the 64-bit words that lock masks are made of. */
module KernelBits {
  type Word = bv64

  const TOP_BIT: Word := 0x8000_0000_0000_0000

  function Odd(x: Word): bool {
    x & 1 != 0
  }

  function Half(x: Word): Word {
    x >> 1
  }

  function Or(x: Word, y: Word): Word {
    x | y
  }

  function And(x: Word, y: Word): Word {
    x & y
  }

  /** x &^ y. */
  function AndNot(x: Word, y: Word): Word {
    x & !y
  }

  /** x & (x - 1): x without its lowest bit. */
  function WithoutLowest(x: Word): Word {
    x & (x - 1)
  }

  /** Whether x has bit b. */
  predicate BitSet(x: Word, b: nat)
    decreases b
  {
    if b == 0 then Odd(x) else BitSet(Half(x), b - 1)
  }

  /** The lowest bit x has: bits.TrailingZeros64. */
  function TrailingZeros(x: Word): (b: nat)
    requires x != 0
    ensures BitSet(x, b) && forall c: nat | c < b :: !BitSet(x, c)
    decreases x
  {
    if Odd(x) then 0 else
      HalfIsSmaller(x);
      1 + TrailingZeros(Half(x))
  }

  /** 1 << b. */
  function OneBit(b: nat): Word
    requires b < 64
  {
    if b == 0 then 1 else OneBit(b - 1) << 1
  }

  lemma HalfIsSmaller(x: Word)
    requires x != 0 && !Odd(x)
    ensures Half(x) < x && Half(x) != 0
  {
  }

  lemma HalfOfOr(x: Word, y: Word)
    ensures Half(Or(x, y)) == Or(Half(x), Half(y))
  {
  }

  lemma OddOr(x: Word, y: Word)
    ensures Odd(Or(x, y)) <==> Odd(x) || Odd(y)
  {
  }

  lemma HalfOfAnd(x: Word, y: Word)
    ensures Half(And(x, y)) == And(Half(x), Half(y))
  {
  }

  lemma OddAnd(x: Word, y: Word)
    ensures Odd(And(x, y)) <==> Odd(x) && Odd(y)
  {
  }

  lemma HalfOfAndNot(x: Word, y: Word)
    ensures Half(AndNot(x, y)) == AndNot(Half(x), Half(y))
  {
  }

  lemma OddAndNot(x: Word, y: Word)
    ensures Odd(AndNot(x, y)) <==> Odd(x) && !Odd(y)
  {
  }

  lemma {:induction false} OrBits(x: Word, y: Word, b: nat)
    ensures BitSet(Or(x, y), b) <==> BitSet(x, b) || BitSet(y, b)
    decreases b
  {
    if b == 0 {
      OddOr(x, y);
    } else {
      HalfOfOr(x, y);
      OrBits(Half(x), Half(y), b - 1);
    }
  }

  lemma {:induction false} AndBits(x: Word, y: Word, b: nat)
    ensures BitSet(And(x, y), b) <==> BitSet(x, b) && BitSet(y, b)
    decreases b
  {
    if b == 0 {
      OddAnd(x, y);
    } else {
      HalfOfAnd(x, y);
      AndBits(Half(x), Half(y), b - 1);
    }
  }

  lemma {:induction false} AndNotBits(x: Word, y: Word, b: nat)
    ensures BitSet(AndNot(x, y), b) <==> BitSet(x, b) && !BitSet(y, b)
    decreases b
  {
    if b == 0 {
      OddAndNot(x, y);
    } else {
      HalfOfAndNot(x, y);
      AndNotBits(Half(x), Half(y), b - 1);
    }
  }

  lemma HalfWithoutLowestOdd(x: Word)
    requires Odd(x)
    ensures Half(WithoutLowest(x)) == Half(x)
  {
  }

  lemma HalfWithoutLowestEven(x: Word)
    requires !Odd(x) && x != 0
    ensures Half(WithoutLowest(x)) == WithoutLowest(Half(x))
  {
  }

  lemma WithoutLowestIsSmaller(x: Word)
    requires x != 0
    ensures WithoutLowest(x) < x && !Odd(WithoutLowest(x))
  {
  }

  /** x & (x - 1) clears the lowest bit of x and no other. */
  lemma {:induction false} WithoutLowestBits(x: Word, b: nat)
    requires x != 0
    ensures BitSet(WithoutLowest(x), b) <==> BitSet(x, b) && b != TrailingZeros(x)
    decreases b
  {
    WithoutLowestIsSmaller(x);
    if b > 0 && Odd(x) {
      HalfWithoutLowestOdd(x);
    } else if b > 0 {
      HalfWithoutLowestEven(x);
      HalfIsSmaller(x);
      WithoutLowestBits(Half(x), b - 1);
    }
  }

  lemma NoBits(b: nat)
    ensures !BitSet(0, b)
  {
    if b > 0 {
      NoBits(b - 1);
    }
  }

  /** x shifted right n times. */
  function Halved(x: Word, n: nat): Word
    decreases n
  {
    if n == 0 then x else Halved(Half(x), n - 1)
  }

  lemma {:induction false} HalvedOn(x: Word, m: nat, n: nat)
    ensures Halved(x, m + n) == Halved(Halved(x, m), n)
    decreases m
  {
    if m > 0 {
      HalvedOn(Half(x), m - 1, n);
    }
  }

  lemma {:induction false} BitIsOddHalf(x: Word, b: nat)
    ensures BitSet(x, b) <==> Odd(Halved(x, b))
    decreases b
  {
    if b > 0 {
      BitIsOddHalf(Half(x), b - 1);
    }
  }

  lemma EightHalves(x: Word)
    ensures Half(Half(Half(Half(Half(Half(Half(Half(x)))))))) == x >> 8
  {
  }

  lemma HalvedByte(x: Word)
    ensures Halved(x, 8) == x >> 8
  {
    var y := Half(Half(x));
    var z := Half(Half(y));
    assert Halved(x, 8) == Halved(y, 6);
    assert Halved(y, 6) == Halved(z, 4);
    assert Halved(z, 4) == Half(Half(Half(Half(z))));
    EightHalves(x);
  }

  lemma HalvedBytes(x: Word, m: nat)
    ensures Halved(x, m + 8) == Halved(x, m) >> 8
  {
    HalvedOn(x, m, 8);
    HalvedByte(Halved(x, m));
  }

  lemma SevenBytes(x: Word)
    ensures Halved(x, 56) == ((((((x >> 8) >> 8) >> 8) >> 8) >> 8) >> 8) >> 8
  {
    HalvedByte(x);
    HalvedBytes(x, 8);
    HalvedBytes(x, 16);
    HalvedBytes(x, 24);
    HalvedBytes(x, 32);
    HalvedBytes(x, 40);
    HalvedBytes(x, 48);
  }

  lemma EightBytesAreAll(x: Word)
    ensures (((((((x >> 8) >> 8) >> 8) >> 8) >> 8) >> 8) >> 8) >> 8 == 0
  {
  }

  lemma {:induction false} NothingHalved(n: nat)
    ensures Halved(0, n) == 0
  {
    if n > 0 {
      assert Half(0) == 0;
      NothingHalved(n - 1);
    }
  }

  lemma BitsBelow(x: Word, b: nat)
    requires BitSet(x, b)
    ensures b < 64
  {
    if b >= 64 {
      SevenBytes(x);
      HalvedBytes(x, 56);
      EightBytesAreAll(x);
      HalvedOn(x, 64, b - 64);
      NothingHalved(b - 64);
      BitIsOddHalf(x, b);
    }
  }

  /** A word is 0 exactly when it has none of its 64 bits. */
  lemma SomeBit(x: Word)
    ensures x != 0 <==> exists b: nat :: b < 64 && BitSet(x, b)
    ensures forall b: nat {:trigger BitSet(x, b)} | BitSet(x, b) :: b < 64
  {
    forall b: nat | BitSet(x, b) ensures b < 64 { BitsBelow(x, b); }
    if x != 0 {
      HasSomeBit(x);
    } else {
      forall b: nat ensures !BitSet(x, b) { NoBits(b); }
    }
  }

  lemma HasSomeBit(x: Word)
    requires x != 0
    ensures exists b: nat :: b < 64 && BitSet(x, b)
  {
    var b := TrailingZeros(x);
    BitsBelow(x, b);
  }

  /** TOP_BIT has bit 63 and no other. */
  lemma TopBitIsLast(b: nat)
    ensures BitSet(TOP_BIT, b) <==> b == 63
  {
    SevenBytes(TOP_BIT);
    assert Halved(TOP_BIT, 56) == 0x80;
    HalvedOn(TOP_BIT, 56, 7);
    TopByte();
    BitIsOddHalf(TOP_BIT, 63);
    OnlyLowest(TOP_BIT, b);
    OnlyLowest(TOP_BIT, 63);
  }

  lemma TopByte()
    ensures Odd(Halved(0x80, 7))
  {
    assert Half(0x80) == 0x40 && Half(0x40) == 0x20 && Half(0x20) == 0x10 && Half(0x10) == 8;
    assert Halved(8, 3) == 1;
  }

  /** A power of two has one bit. */
  lemma OnlyLowest(x: Word, b: nat)
    requires x != 0 && WithoutLowest(x) == 0
    ensures BitSet(x, b) <==> b == TrailingZeros(x)
  {
    WithoutLowestBits(x, b);
    NoBits(b);
  }

  lemma DoubleIsEven(x: Word)
    ensures !Odd(x << 1)
  {
  }

  lemma HalfOfDouble(x: Word)
    requires And(x, TOP_BIT) == 0
    ensures Half(x << 1) == x
  {
  }

  lemma NoTopBit(x: Word)
    requires !BitSet(x, 63)
    ensures And(x, TOP_BIT) == 0
  {
    if And(x, TOP_BIT) != 0 {
      var b := TrailingZeros(And(x, TOP_BIT));
      AndBits(x, TOP_BIT, b);
      TopBitIsLast(b);
    }
  }

  /** 1 << b has bit b and no other. */
  lemma {:induction false} OneBitBits(b: nat, c: nat)
    requires b < 64
    ensures BitSet(OneBit(b), c) <==> b == c
    decreases b, c
  {
    if b == 0 {
      OneIsFirst(c);
    } else {
      OneBitBits(b - 1, 63);
      NoTopBit(OneBit(b - 1));
      HalfOfDouble(OneBit(b - 1));
      DoubleIsEven(OneBit(b - 1));
      if c > 0 {
        OneBitBits(b - 1, c - 1);
      }
    }
  }

  lemma OneIsFirst(c: nat)
    ensures BitSet(1, c) <==> c == 0
  {
    if c > 0 {
      assert Half(1) == 0;
      NoBits(c - 1);
    }
  }
}
