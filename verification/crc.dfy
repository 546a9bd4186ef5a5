/** CRC-16/CCITT-FALSE on 16-bit words and the errors it always detects. */
module Crc {
  import opened Bytes
  import opened Powers

  const INIT: u16 := 0xFFFF
  const POLY: u16 := 0x1021

  // ---- exclusive or, bit by bit ----

  function Xor(a: nat, b: nat): nat
    decreases a + b
  {
    if a == 0 && b == 0 then 0 else (a + b) % 2 + 2 * Xor(a / 2, b / 2)
  }

  lemma {:induction false} XorZero(a: nat)
    ensures Xor(a, 0) == a
  {
    if a > 0 { XorZero(a / 2); }
  }

  lemma {:induction false} XorSame(a: nat)
    ensures Xor(a, a) == 0
  {
    if a > 0 { XorSame(a / 2); }
  }

  lemma {:induction false} XorSymmetric(a: nat, b: nat)
    ensures Xor(a, b) == Xor(b, a)
    decreases a + b
  {
    if a > 0 || b > 0 { XorSymmetric(a / 2, b / 2); }
  }

  lemma XorHalf(a: nat, b: nat)
    ensures Xor(a, b) / 2 == Xor(a / 2, b / 2) && Xor(a, b) % 2 == (a + b) % 2
  {}

  lemma HalfAndParity(x: nat, y: nat)
    requires x / 2 == y / 2 && x % 2 == y % 2
    ensures x == y
  {}

  lemma ParityAssociative(a: nat, b: nat, c: nat, ab: nat, bc: nat)
    requires ab % 2 == (a + b) % 2 && bc % 2 == (b + c) % 2
    ensures (ab + c) % 2 == (a + bc) % 2
  {}

  lemma {:induction false} XorAssociative(a: nat, b: nat, c: nat)
    ensures Xor(Xor(a, b), c) == Xor(a, Xor(b, c))
    decreases a + b + c
  {
    if a > 0 || b > 0 || c > 0 {
      XorAssociative(a / 2, b / 2, c / 2);
      var ab, bc := Xor(a, b), Xor(b, c);
      XorHalf(a, b);
      XorHalf(b, c);
      XorHalf(ab, c);
      XorHalf(a, bc);
      ParityAssociative(a, b, c, ab, bc);
      HalfAndParity(Xor(ab, c), Xor(a, bc));
    }
  }

  lemma XorDouble(a: nat, b: nat)
    ensures Xor(2 * a, 2 * b) == 2 * Xor(a, b)
  {
    hide Xor;
    XorHalf(2 * a, 2 * b);
    HalfAndParity(Xor(2 * a, 2 * b), 2 * Xor(a, b));
  }

  lemma {:induction false} XorBound(a: nat, b: nat, m: nat)
    requires a < Pow2(m) && b < Pow2(m)
    ensures Xor(a, b) < Pow2(m)
  {
    if m > 0 && (a > 0 || b > 0) { XorBound(a / 2, b / 2, m - 1); }
  }

  lemma {:induction false} XorTop(a: nat, b: nat, m: nat)
    ensures Drop(Xor(a, b), m) == Xor(Drop(a, m), Drop(b, m))
  {
    if m > 0 {
      XorTop(a / 2, b / 2, m - 1);
      XorHalf(a, b);
    }
  }

  lemma {:induction false} XorLow(a: nat, b: nat, m: nat)
    ensures Keep(Xor(a, b), m) == Xor(Keep(a, m), Keep(b, m))
  {
    if m > 0 {
      XorLow(a / 2, b / 2, m - 1);
      hide Xor;
      var x, ka, kb := Xor(a, b), Keep(a / 2, m - 1), Keep(b / 2, m - 1);
      XorHalf(a, b);
      XorHalf(a % 2 + 2 * ka, b % 2 + 2 * kb);
      ParityOfDigits(a, b, ka, kb);
      assert Keep(x, m) == x % 2 + 2 * Xor(ka, kb);
      HalfAndParity(Keep(x, m), Xor(Keep(a, m), Keep(b, m)));
    }
  }

  lemma ParityOfDigits(a: nat, b: nat, ka: nat, kb: nat)
    ensures (a % 2 + 2 * ka) / 2 == ka && (b % 2 + 2 * kb) / 2 == kb
    ensures ((a % 2 + 2 * ka) + (b % 2 + 2 * kb)) % 2 == (a + b) % 2
  {}

  lemma XorCancel(a: nat, b: nat, c: nat)
    requires Xor(a, c) == Xor(b, c)
    ensures a == b
  {
    XorAssociative(a, c, c);
    XorAssociative(b, c, c);
    XorSame(c);
    XorZero(a);
    XorZero(b);
  }

  /** `(a ^ b) ^ (c ^ d) == (a ^ c) ^ (b ^ d)` */
  lemma XorSwap(a: nat, b: nat, c: nat, d: nat)
    ensures Xor(Xor(a, b), Xor(c, d)) == Xor(Xor(a, c), Xor(b, d))
  {
    XorAssociative(a, b, Xor(c, d));
    XorAssociative(b, c, d);
    XorSymmetric(b, c);
    XorAssociative(c, b, d);
    XorAssociative(a, c, Xor(b, d));
  }

  // ---- the shift register ----

  /** One step: shift left in 16 bits, subtract the generator when a one falls out. */
  function Shift(c: u16): (r: u16) {
    XorBounds16(2 * c % U16, POLY);
    if c >= 0x8000 then Xor(2 * c % U16, POLY) else 2 * c
  }

  function Shifts(c: u16, k: nat): u16 {
    if k == 0 then c else Shift(Shifts(c, k - 1))
  }

  /** `(b as u16) << 8`. */
  function High(b: byte): u16 { (b as int) * 256 }

  function Feed(c: u16, b: byte): u16 {
    XorBounds16(c, High(b));
    Shifts(Xor(c, High(b)), 8)
  }

  function Sum(data: bytes): u16 {
    if data == [] then INIT else Feed(Sum(data[..|data| - 1]), data[|data| - 1])
  }

  lemma XorBounds16(a: u16, b: u16)
    ensures Xor(a, b) < U16
  {
    Pow2Of16();
    XorBound(a, b, 16);
  }

  method Crc16(data: bytes) returns (crc: u16)
    ensures crc == Sum(data)
  {
    crc := INIT;
    for i := 0 to |data|
      invariant crc == Sum(data[..i])
    {
      assert data[..i + 1][..i] == data[..i];
      XorBounds16(crc, High(data[i]));
      ghost var start := Xor(crc, High(data[i]));
      crc := Xor(crc, High(data[i]));
      for k := 0 to 8
        invariant crc == Shifts(start, k)
      {
        ShiftIs(crc);
        crc := if crc >= 0x8000 then Xor(2 * crc % U16, POLY) else 2 * crc % U16;
      }
    }
    assert data[..|data|] == data;
  }

  lemma ShiftIs(c: u16)
    ensures Shift(c) == if c >= 0x8000 then Xor(2 * c % U16, POLY) else 2 * c % U16
  {}

  /** The generator has a constant term: an even result means that no one fell out. */
  lemma ShiftParity(c: u16)
    ensures Shift(c) % 2 == if c >= 0x8000 then 1 else 0
  {
    XorHalf(2 * c % U16, POLY);
  }

  lemma ShiftInjective(a: u16, b: u16)
    requires Shift(a) == Shift(b)
    ensures a == b
  {
    hide Xor, Shift;
    ShiftParity(a);
    ShiftParity(b);
    ShiftIs(a);
    ShiftIs(b);
    if a >= 0x8000 { XorCancel(2 * a % U16, 2 * b % U16, POLY); }
  }

  lemma ShiftLinear(a: u16, b: u16)
    requires Xor(a, b) < U16
    ensures Shift(Xor(a, b)) == Xor(Shift(a), Shift(b))
  {
    hide Xor;
    var la, lb := 2 * a % U16, 2 * b % U16;
    LowAndTop(a, b);
    if a >= 0x8000 && b >= 0x8000 {
      XorSwap(la, POLY, lb, POLY);
      XorSame(POLY);
      XorZero(Xor(la, lb));
    } else if a >= 0x8000 {
      XorAssociative(la, POLY, lb);
      XorSymmetric(POLY, lb);
      XorAssociative(la, lb, POLY);
    } else if b >= 0x8000 {
      XorAssociative(la, lb, POLY);
    }
  }

  /** What falls out of the register, and what stays in it, are both linear. */
  lemma LowAndTop(a: u16, b: u16)
    requires Xor(a, b) < U16
    ensures Xor(a, b) >= 0x8000 <==> (a >= 0x8000) != (b >= 0x8000)
    ensures 2 * Xor(a, b) % U16 == Xor(2 * a % U16, 2 * b % U16)
  {
    hide Xor, Drop, Keep;
    var x := Xor(a, b);
    Pow2Of16();
    XorTop(a, b, 15);
    XorLow(a, b, 15);
    DropIsDiv(a, 15);
    DropIsDiv(b, 15);
    DropIsDiv(x, 15);
    KeepIsMod(a, 15);
    KeepIsMod(b, 15);
    KeepIsMod(x, 15);
    XorDouble(a % 0x8000, b % 0x8000);
    XorOfBits(a, b);
    Doubled(a);
    Doubled(b);
    Doubled(x);
  }

  lemma Doubled(c: u16)
    ensures 2 * c % U16 == 2 * (c % 0x8000)
  {}

  lemma XorOfBits(a: u16, b: u16)
    ensures Xor(a / 0x8000, b / 0x8000) == if (a >= 0x8000) != (b >= 0x8000) then 1 else 0
  {}

  lemma {:induction false} ShiftsInjective(a: u16, b: u16, k: nat)
    requires Shifts(a, k) == Shifts(b, k)
    ensures a == b
  {
    if k > 0 {
      ShiftInjective(Shifts(a, k - 1), Shifts(b, k - 1));
      ShiftsInjective(a, b, k - 1);
    }
  }

  lemma {:induction false} ShiftsLinear(a: u16, b: u16, k: nat)
    requires Xor(a, b) < U16
    ensures Shifts(Xor(a, b), k) == Xor(Shifts(a, k), Shifts(b, k))
  {
    if k > 0 {
      ShiftsLinear(a, b, k - 1);
      ShiftLinear(Shifts(a, k - 1), Shifts(b, k - 1));
    }
  }

  /** Running the register backwards from a word whose low `k` bits are clear undoes plain doublings. */
  lemma {:induction false} ShiftsBackwards(d: u16, k: nat, h: nat)
    requires Shifts(d, k) == Up(h, k)
    ensures d == h
  {
    if k > 0 {
      ShiftParity(Shifts(d, k - 1));
      ShiftsBackwards(d, k - 1, h);
    }
  }

  lemma UpOf8(h: nat)
    ensures Up(h, 8) == 256 * h
  {
    assert Up(h, 1) == 2 * h;
    assert Up(h, 2) == 4 * h;
    assert Up(h, 4) == 16 * h;
    assert Up(h, 6) == 64 * h;
  }

  /** A difference confined to the upper byte reaches the lower byte after eight steps. */
  lemma UpperByteSpreads(x: byte)
    requires Shifts(High(x), 8) % 256 == 0
    ensures x == 0
  {
    UpOf8(Shifts(High(x), 8) / 256);
    ShiftsBackwards(High(x), 8, Shifts(High(x), 8) / 256);
  }

  // ---- one and two differing bytes ----

  lemma XorHigh(x: byte, y: byte)
    requires Xor(x, y) < 256
    ensures Xor(High(x), High(y)) == High(Xor(x, y))
  {
    hide Xor;
    XorDouble(x, y);
    XorDouble(2 * x, 2 * y);
    XorDouble(4 * x, 4 * y);
    XorDouble(8 * x, 8 * y);
    XorDouble(16 * x, 16 * y);
    XorDouble(32 * x, 32 * y);
    XorDouble(64 * x, 64 * y);
    XorDouble(128 * x, 128 * y);
  }

  lemma XorByte(x: byte, y: byte)
    ensures Xor(x, y) < 256
    ensures Xor(x, y) == 0 ==> x == y
  {
    assert Pow2(8) == 256 by { Pow2Of16(); }
    XorBound(x, y, 8);
    if Xor(x, y) == 0 {
      XorSame(y);
      XorCancel(x, y, y);
    }
  }

  lemma XorPrefix(c: nat, a: nat, b: nat)
    ensures Xor(Xor(c, a), Xor(c, b)) == Xor(a, b)
  {
    XorSwap(c, a, c, b);
    XorSame(c);
    XorSymmetric(0, Xor(a, b));
    XorZero(Xor(a, b));
  }

  lemma FeedInjective(c: u16, d: u16, b: byte)
    requires Feed(c, b) == Feed(d, b)
    ensures c == d
  {
    XorBounds16(c, High(b));
    XorBounds16(d, High(b));
    ShiftsInjective(Xor(c, High(b)), Xor(d, High(b)), 8);
    XorCancel(c, d, High(b));
  }

  /** Two registers that took different bytes differ by the shifted byte difference. */
  lemma FeedDifference(c: u16, x: byte, y: byte)
    ensures Xor(x, y) < 256
    ensures Xor(Feed(c, x), Feed(c, y)) == Shifts(High(Xor(x, y)), 8)
  {
    XorByte(x, y);
    XorBounds16(c, High(x));
    XorBounds16(c, High(y));
    XorPrefix(c, High(x), High(y));
    XorHigh(x, y);
    ShiftsLinear(Xor(c, High(x)), Xor(c, High(y)), 8);
  }

  lemma FeedDetects(c: u16, x: byte, y: byte)
    requires Feed(c, x) == Feed(c, y)
    ensures x == y
  {
    FeedDifference(c, x, y);
    XorSame(Feed(c, x));
    UpperByteSpreads(Xor(x, y));
    XorByte(x, y);
  }

  lemma XorExchange(a: nat, x: nat, b: nat, y: nat)
    requires Xor(a, x) == Xor(b, y)
    ensures Xor(a, b) == Xor(x, y)
  {
    XorSwap(a, x, b, y);
    XorSame(Xor(a, x));
    XorSame(Xor(x, y));
    XorCancel(Xor(a, b), Xor(x, y), Xor(x, y));
  }

  lemma FeedTwiceDetects(c: u16, x1: byte, x2: byte, y1: byte, y2: byte)
    requires Feed(Feed(c, x1), x2) == Feed(Feed(c, y1), y2)
    ensures x1 == y1 && x2 == y2
  {
    hide Xor, Shifts;
    var a, b := Feed(c, x1), Feed(c, y1);
    XorBounds16(a, High(x2));
    XorBounds16(b, High(y2));
    ShiftsInjective(Xor(a, High(x2)), Xor(b, High(y2)), 8);
    XorExchange(a, High(x2), b, High(y2));
    XorByte(x2, y2);
    XorHigh(x2, y2);
    FeedDifference(c, x1, y1);
    UpperByteSpreads(Xor(x1, y1));
    XorByte(x1, y1);
    FeedDetects(a, x2, y2);
  }

  // ---- what the checksum of a message detects ----

  lemma {:induction false} CommonSuffix(a: bytes, b: bytes, tail: bytes)
    requires Sum(a + tail) == Sum(b + tail)
    ensures Sum(a) == Sum(b)
  {
    if tail == [] {
      assert a + tail == a && b + tail == b;
    } else {
      var n := |tail| - 1;
      assert (a + tail)[..|a + tail| - 1] == a + tail[..n];
      assert (b + tail)[..|b + tail| - 1] == b + tail[..n];
      FeedInjective(Sum(a + tail[..n]), Sum(b + tail[..n]), tail[n]);
      CommonSuffix(a, b, tail[..n]);
    }
  }

  lemma SumOfTwo(pre: bytes, x1: byte, x2: byte)
    ensures Sum(pre + [x1, x2]) == Feed(Feed(Sum(pre), x1), x2)
  {
    var s := pre + [x1, x2];
    assert s[..|s| - 1] == pre + [x1];
    assert (pre + [x1])[..|pre|] == pre;
  }

  /** Replacing two adjacent bytes, whatever surrounds them, changes the checksum. */
  lemma DetectsAdjacentPair(pre: bytes, x1: byte, x2: byte, y1: byte, y2: byte, post: bytes)
    requires x1 != y1 || x2 != y2
    ensures Sum(pre + [x1, x2] + post) != Sum(pre + [y1, y2] + post)
  {
    if Sum(pre + [x1, x2] + post) == Sum(pre + [y1, y2] + post) {
      CommonSuffix(pre + [x1, x2], pre + [y1, y2], post);
      SumOfTwo(pre, x1, x2);
      SumOfTwo(pre, y1, y2);
      FeedTwiceDetects(Sum(pre), x1, x2, y1, y2);
    }
  }

  /** Replacing one byte changes the checksum. */
  lemma DetectsSingleByte(pre: bytes, x: byte, y: byte, post: bytes)
    requires x != y
    ensures Sum(pre + [x] + post) != Sum(pre + [y] + post)
  {
    if Sum(pre + [x] + post) == Sum(pre + [y] + post) {
      CommonSuffix(pre + [x], pre + [y], post);
      assert (pre + [x])[..|pre|] == pre && (pre + [y])[..|pre|] == pre;
      FeedDetects(Sum(pre), x, y);
    }
  }

  /** Replacing the last byte changes the low half of the checksum, so no change of the
      high half of a transmitted checksum can hide it. */
  lemma LastByteReachesLowHalf(pre: bytes, x: byte, y: byte)
    requires Sum(pre + [x]) % 256 == Sum(pre + [y]) % 256
    ensures x == y
  {
    assert (pre + [x])[..|pre|] == pre && (pre + [y])[..|pre|] == pre;
    var c := Sum(pre);
    FeedDifference(c, x, y);
    Pow2Of16();
    XorLow(Feed(c, x), Feed(c, y), 8);
    KeepIsMod(Feed(c, x), 8);
    KeepIsMod(Feed(c, y), 8);
    KeepIsMod(Xor(Feed(c, x), Feed(c, y)), 8);
    XorSame(Feed(c, x) % 256);
    UpperByteSpreads(Xor(x, y));
    XorByte(x, y);
  }
}
