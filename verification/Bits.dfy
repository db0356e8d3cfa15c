/**
 Words as bit strings, and the search for the lowest set bit (__rt_ffs). A word is a
 natural number; its masks and shifts are defined bit by bit.
 */
module Bits {
  /** Bit `i` of `n`. */
  predicate Bit(n: nat, i: nat) {
    if i == 0 then n % 2 == 1 else Bit(n / 2, i - 1)
  }

  /** `1 << i`. */
  function Mask(i: nat): (r: nat)
    ensures r > 0
  {
    if i == 0 then 1 else 2 * Mask(i - 1)
  }

  /** `a | b`. */
  function Or(a: nat, b: nat): nat
    decreases a + b
  {
    if a == 0 && b == 0 then 0
    else 2 * Or(a / 2, b / 2) + (if a % 2 == 1 || b % 2 == 1 then 1 else 0)
  }

  /** `a & ~b`. */
  function AndNot(a: nat, b: nat): nat {
    if a == 0 then 0
    else 2 * AndNot(a / 2, b / 2) + (if a % 2 == 1 && b % 2 == 0 then 1 else 0)
  }

  /** `n & ((1 << k) - 1)`. */
  function Low(n: nat, k: nat): nat {
    if k == 0 then 0 else 2 * Low(n / 2, k - 1) + n % 2
  }

  /** `n >> k`. */
  function High(n: nat, k: nat): nat {
    if k == 0 then n else High(n / 2, k - 1)
  }

  lemma {:induction false} BitZero(i: nat)
    ensures !Bit(0, i)
  {
    if i > 0 {
      BitZero(i - 1);
    }
  }

  lemma {:induction false} BitMask(i: nat, j: nat)
    ensures Bit(Mask(i), j) <==> i == j
  {
    if i > 0 && j > 0 {
      BitMask(i - 1, j - 1);
      assert Mask(i) / 2 == Mask(i - 1);
    } else if j > 0 {
      BitZero(j - 1);
    }
  }

  lemma {:induction false} BitOr(a: nat, b: nat, i: nat)
    ensures Bit(Or(a, b), i) <==> Bit(a, i) || Bit(b, i)
    decreases i
  {
    if a == 0 && b == 0 {
      BitZero(i);
    } else if i > 0 {
      BitOr(a / 2, b / 2, i - 1);
    }
  }

  lemma {:induction false} BitAndNot(a: nat, b: nat, i: nat)
    ensures Bit(AndNot(a, b), i) <==> Bit(a, i) && !Bit(b, i)
    decreases i
  {
    if a == 0 {
      BitZero(i);
    } else if i > 0 {
      BitAndNot(a / 2, b / 2, i - 1);
    }
  }

  lemma {:induction false} BitLow(n: nat, k: nat, i: nat)
    ensures Bit(Low(n, k), i) <==> i < k && Bit(n, i)
    decreases k
  {
    if k == 0 {
      BitZero(i);
    } else if i > 0 {
      BitLow(n / 2, k - 1, i - 1);
    }
  }

  lemma {:induction false} BitHigh(n: nat, k: nat, i: nat)
    ensures Bit(High(n, k), i) == Bit(n, i + k)
    decreases k
  {
    if k > 0 {
      BitHigh(n / 2, k - 1, i);
    }
  }

  /** `n` fits in a word of `k` bits. */
  ghost predicate Fits(n: nat, k: nat) {
    forall i | i >= k :: !Bit(n, i)
  }

  /** `i` is the lowest bit of `n` that is set. */
  ghost predicate IsLowest(n: nat, i: nat) {
    Bit(n, i) && forall j | 0 <= j < i :: !Bit(n, j)
  }

  /** A number other than zero has a lowest bit. */
  lemma {:induction false} LowestExists(n: nat) returns (i: nat)
    requires n > 0
    ensures IsLowest(n, i)
  {
    if n % 2 == 1 {
      i := 0;
    } else {
      var h := LowestExists(n / 2);
      i := h + 1;
      forall j | 0 <= j < i ensures !Bit(n, j) {
        assert j == 0 || !Bit(n / 2, j - 1);
      }
    }
  }

  /** A word is zero exactly if none of its bits is set. */
  lemma ZeroIff(n: nat)
    ensures n == 0 ==> forall i: nat :: !Bit(n, i)
    ensures n > 0 ==> exists i: nat :: Bit(n, i)
  {
    if n > 0 {
      var i := LowestExists(n);
    } else {
      forall i: nat ensures !Bit(n, i) {
        BitZero(i);
      }
    }
  }

  /** Sixteen entries of the lookup table: rows differ in their first entry only. */
  function Row(first: nat): (r: seq<nat>)
    ensures |r| == 16
  {
    [first, 0, 1, 0, 2, 0, 1, 0, 3, 0, 1, 0, 2, 0, 1, 0]
  }

  function Rows(firsts: seq<nat>): (r: seq<nat>)
    ensures |r| == 16 * |firsts|
  {
    if firsts == [] then [] else Rows(firsts[..|firsts| - 1]) + Row(firsts[|firsts| - 1])
  }

  /** First entries of the sixteen rows. */
  function Firsts(): (r: seq<nat>)
    ensures |r| == 16
  {
    [0, 4, 5, 4, 6, 4, 5, 4, 7, 4, 5, 4, 6, 4, 5, 4]
  }

  /** __lowest_bit_bitmap. */
  function LowestBitBitmap(): (r: seq<nat>)
    ensures |r| == 256
  {
    Rows(Firsts())
  }

  lemma {:induction false} RowsAt(firsts: seq<nat>, r: nat, c: nat)
    requires r < |firsts| && c < 16
    ensures Rows(firsts)[16 * r + c] == Row(firsts[r])[c]
  {
    var last := |firsts| - 1;
    if r < last {
      RowsAt(firsts[..last], r, c);
    }
  }

  /** A lowest bit within the low half stays the lowest; otherwise it is that of the high half. */
  lemma LowestJoin(n: nat, k: nat, i: nat)
    requires if Low(n, k) != 0 then IsLowest(Low(n, k), i) else i >= k && IsLowest(High(n, k), i - k)
    ensures IsLowest(n, i)
  {
    forall j | 0 <= j <= i ensures Bit(n, j) <==> j == i {
      BitLow(n, k, j);
      if Low(n, k) == 0 {
        BitZero(j);
        if j >= k {
          BitHigh(n, k, j - k);
        }
      } else {
        BitLow(n, k, i);
      }
    }
  }

  /** The lowest bit of an even number is one above that of its half. */
  lemma LowestDoubled(n: nat, i: nat)
    requires n % 2 == 0 && IsLowest(n / 2, i)
    ensures IsLowest(n, i + 1)
  {
    forall j | 0 <= j < i + 1 ensures !Bit(n, j) {
      assert j == 0 || !Bit(n / 2, j - 1);
    }
  }

  lemma {:induction false} NibbleTable(c: nat)
    requires 0 < c < 16
    ensures IsLowest(c, Row(0)[c]) && Firsts()[c] == Row(0)[c] + 4
  {
    if c % 2 == 0 {
      NibbleTable(c / 2);
      LowestDoubled(c, Row(0)[c / 2]);
    }
  }

  lemma HalfByte(n: nat)
    ensures Low(n, 4) == n % 16 && High(n, 4) == n / 16
  {
    assert Low(n / 8, 1) == n / 8 % 2;
    assert Low(n / 4, 2) == 2 * Low(n / 8, 1) + n / 4 % 2;
    assert Low(n / 2, 3) == 2 * Low(n / 4, 2) + n / 2 % 2;
    assert High(n / 2, 3) == High(n / 4, 2) == High(n / 8, 1) == High(n / 16, 0);
  }

  /** Every entry of the table but the first is right. */
  lemma TableCorrect(b: nat)
    requires 0 < b < 256
    ensures IsLowest(b, LowestBitBitmap()[b])
  {
    var r, c := b / 16, b % 16;
    RowsAt(Firsts(), r, c);
    var i := LowestBitBitmap()[b];
    assert i == if c == 0 then Firsts()[r] else Row(0)[c];
    HalfByte(b);
    if c != 0 {
      NibbleTable(c);
    } else {
      NibbleTable(r);
    }
    LowestJoin(b, 4, i);
  }

  lemma {:induction false} LowBound(n: nat, k: nat)
    ensures Low(n, k) < Mask(k)
  {
    if k > 0 {
      LowBound(n / 2, k - 1);
    }
  }

  /** __rt_ffs: one table lookup for the lowest byte that is not zero. */
  function Ffs(value: nat): (r: nat)
    ensures value == 0 ==> r == 0
  {
    LowBound(value, 8);
    LowBound(High(value, 8), 8);
    LowBound(High(value, 16), 8);
    LowBound(High(value, 24), 8);
    if value == 0 then 0
    else if Low(value, 8) != 0 then LowestBitBitmap()[Low(value, 8)] + 1
    else if Low(High(value, 8), 8) != 0 then LowestBitBitmap()[Low(High(value, 8), 8)] + 9
    else if Low(High(value, 16), 8) != 0 then LowestBitBitmap()[Low(High(value, 16), 8)] + 17
    else LowestBitBitmap()[Low(High(value, 24), 8)] + 25
  }

  lemma {:induction false} HighHigh(n: nat, j: nat, k: nat)
    ensures High(High(n, j), k) == High(n, j + k)
    decreases j
  {
    if j > 0 {
      HighHigh(n / 2, j - 1, k);
    }
  }

  /** The lowest byte decides, if it is not zero. */
  lemma ByteDecides(n: nat, b: nat)
    requires b == Low(n, 8) && b != 0
    ensures b < 256 && IsLowest(n, LowestBitBitmap()[b])
  {
    LowBound(n, 8);
    assert Mask(8) == 256;
    TableCorrect(b);
    LowestJoin(n, 8, LowestBitBitmap()[b]);
  }

  /** The search from bit `k` on: one lookup, or the search eight bits further. */
  lemma ByteSearch(n: nat, k: nat, b: nat, i: nat, r: nat)
    requires b == Low(High(n, k), 8) && b < 256
    requires if b != 0 then r == LowestBitBitmap()[b] else IsLowest(High(n, k + 8), i) && r == i + 8
    ensures IsLowest(High(n, k), r)
  {
    if b != 0 {
      ByteDecides(High(n, k), b);
    } else {
      HighHigh(n, k, 8);
      LowestJoin(High(n, k), 8, r);
    }
  }

  /** For every 32-bit word other than zero, __rt_ffs finds the lowest set bit, numbered from 1. */
  lemma FfsCorrect(value: nat)
    requires value != 0 && Fits(value, 32)
    ensures Ffs(value) > 0 && IsLowest(value, Ffs(value) - 1)
  {
    var b0, b1, b2, b3 := Low(value, 8), Low(High(value, 8), 8), Low(High(value, 16), 8), Low(High(value, 24), 8);
    LowBound(value, 8);
    LowBound(High(value, 8), 8);
    LowBound(High(value, 16), 8);
    LowBound(High(value, 24), 8);
    assert Mask(8) == 256;
    var t := LowestBitBitmap();
    var r2 := if b2 != 0 then t[b2] else t[b3] + 8;
    var r1 := if b1 != 0 then t[b1] else r2 + 8;
    var r0 := if b0 != 0 then t[b0] else r1 + 8;
    if b0 == 0 {
      if b1 == 0 {
        if b2 == 0 {
          TopByte(value);
          ByteSearch(value, 24, b3, 0, t[b3]);
        }
        ByteSearch(value, 16, b2, t[b3], r2);
      }
      ByteSearch(value, 8, b1, r2, r1);
    }
    ByteSearch(value, 0, b0, r1, r0);
    assert Ffs(value) == r0 + 1;
  }

  /** If the three lower bytes of a word other than zero are zero, the top byte is not. */
  lemma TopByte(value: nat)
    requires value != 0 && Fits(value, 32)
    requires Low(value, 8) == 0 && Low(High(value, 8), 8) == 0 && Low(High(value, 16), 8) == 0
    ensures Low(High(value, 24), 8) != 0
  {
    var i := LowestExists(value);
    BitLow(value, 8, i);
    ZeroIff(0);
    if i >= 8 {
      BitHigh(value, 8, i - 8);
      BitLow(High(value, 8), 8, i - 8);
    }
    if i >= 16 {
      BitHigh(value, 16, i - 16);
      BitLow(High(value, 16), 8, i - 16);
    }
    if i >= 24 {
      BitHigh(value, 24, i - 24);
      BitLow(High(value, 24), 8, i - 24);
      BitZero(i - 24);
    }
  }
}
