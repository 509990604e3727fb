/** Python's bitwise operators.  Python integers are unbounded, so `&`, `|`,
    `& ~` and `>>` are modelled through the binary digits of their operands
    rather than on fixed-width bit vectors: first on `nat`, then on `int`,
    where a negative x has the digits of `~x` (that is, -1 - x) inverted, as
    in Python's infinite two's complement. */
module Bits {

  function Pow2(k: nat): (r: nat)
    ensures r >= 1
  {
    if k == 0 then 1 else 2 * Pow2(k - 1)
  }

  /** Binary digit k of x (`(x >> k) & 1 == 1`). */
  predicate Bit(x: nat, k: nat)
    decreases k
  {
    if k == 0 then x % 2 == 1 else Bit(x / 2, k - 1)
  }

  /** `x | y` */
  function Or(x: nat, y: nat): nat
    decreases x + y
  {
    if x == 0 then y
    else if y == 0 then x
    else 2 * Or(x / 2, y / 2) + (if x % 2 == 1 || y % 2 == 1 then 1 else 0)
  }

  /** `x & y` */
  function And(x: nat, y: nat): nat
    decreases x + y
  {
    if x == 0 || y == 0 then 0
    else 2 * And(x / 2, y / 2) + (if x % 2 == 1 && y % 2 == 1 then 1 else 0)
  }

  /** `x & ~y` */
  function AndNot(x: nat, y: nat): nat
    decreases x + y
  {
    if x == 0 then 0
    else if y == 0 then x
    else 2 * AndNot(x / 2, y / 2) + (if x % 2 == 1 && y % 2 == 0 then 1 else 0)
  }

  // ------------------------------------------------------------ digit lemmas

  lemma Halves(q: nat, b: nat)
    requires b < 2
    ensures (2 * q + b) / 2 == q && (2 * q + b) % 2 == b
  {
  }

  lemma {:induction false} BitOr(x: nat, y: nat, k: nat)
    ensures Bit(Or(x, y), k) == (Bit(x, k) || Bit(y, k))
    decreases k
  {
    if x == 0 {
      ZeroHasNoBit(k);
    } else if y == 0 {
      ZeroHasNoBit(k);
    } else {
      var b := if x % 2 == 1 || y % 2 == 1 then 1 else 0;
      Halves(Or(x / 2, y / 2), b);
      if k > 0 {
        BitOr(x / 2, y / 2, k - 1);
      }
    }
  }

  lemma {:induction false} BitAnd(x: nat, y: nat, k: nat)
    ensures Bit(And(x, y), k) == (Bit(x, k) && Bit(y, k))
    decreases k
  {
    if x == 0 || y == 0 {
      ZeroHasNoBit(k);
    } else {
      var b := if x % 2 == 1 && y % 2 == 1 then 1 else 0;
      Halves(And(x / 2, y / 2), b);
      if k > 0 {
        BitAnd(x / 2, y / 2, k - 1);
      }
    }
  }

  lemma {:induction false} BitAndNot(x: nat, y: nat, k: nat)
    ensures Bit(AndNot(x, y), k) == (Bit(x, k) && !Bit(y, k))
    decreases k
  {
    if x == 0 {
      ZeroHasNoBit(k);
    } else if y == 0 {
      ZeroHasNoBit(k);
    } else {
      var b := if x % 2 == 1 && y % 2 == 0 then 1 else 0;
      Halves(AndNot(x / 2, y / 2), b);
      if k > 0 {
        BitAndNot(x / 2, y / 2, k - 1);
      }
    }
  }

  lemma {:induction false} ZeroHasNoBit(k: nat)
    ensures !Bit(0, k)
  {
    if k > 0 {
      ZeroHasNoBit(k - 1);
    }
  }

  lemma {:induction false} BitPow2(j: nat, k: nat)
    ensures Bit(Pow2(j), k) == (j == k)
    decreases k
  {
    if j == 0 {
      if k > 0 {
        ZeroHasNoBit(k - 1);
      }
    } else if k > 0 {
      BitPow2(j - 1, k - 1);
    }
  }

  /** A number is determined by its binary digits. */
  lemma {:induction false} BitsDetermine(x: nat, y: nat)
    requires forall k: nat :: Bit(x, k) == Bit(y, k)
    ensures x == y
    decreases x + y
  {
    assert Bit(x, 0) == Bit(y, 0);
    if x != 0 || y != 0 {
      forall k: nat ensures Bit(x / 2, k) == Bit(y / 2, k) {
        assert Bit(x, k + 1) == Bit(y, k + 1);
      }
      if x / 2 + y / 2 < x + y {
        BitsDetermine(x / 2, y / 2);
      }
    }
  }

  /** A non-zero number has a one digit. */
  lemma {:induction false} SomeBit(x: nat)
    requires x != 0
    ensures exists k: nat :: Bit(x, k)
  {
    if x % 2 == 1 {
      assert Bit(x, 0);
    } else {
      SomeBit(x / 2);
      var k: nat :| Bit(x / 2, k);
      assert Bit(x, k + 1);
    }
  }

  /** No digit at or above n is set in a number below 2^n. */
  lemma {:induction false} HighBitClear(x: nat, n: nat, k: nat)
    requires x < Pow2(n) && k >= n
    ensures !Bit(x, k)
    decreases n
  {
    if n == 0 {
      ZeroHasNoBit(k);
    } else {
      HighBitClear(x / 2, n - 1, k - 1);
    }
  }

  /** `x & (1 << k) != 0` tests digit k. */
  lemma AndPow2(x: nat, k: nat)
    ensures And(x, Pow2(k)) != 0 <==> Bit(x, k)
  {
    BitAnd(x, Pow2(k), k);
    BitPow2(k, k);
    if And(x, Pow2(k)) == 0 {
      ZeroHasNoBit(k);
    } else {
      forall j: nat ensures Bit(And(x, Pow2(k)), j) == (j == k && Bit(x, k)) {
        BitAnd(x, Pow2(k), j);
        BitPow2(k, j);
      }
      if !Bit(x, k) {
        forall j: nat ensures Bit(And(x, Pow2(k)), j) == Bit(0, j) {
          ZeroHasNoBit(j);
        }
        BitsDetermine(And(x, Pow2(k)), 0);
      }
    }
  }

  // ------------------------------------------------------ division facts

  lemma MulAtLeast(d: int, t: int)
    requires d > 0 && t >= 1
    ensures d * t >= d
  {
  }
  lemma MulSmall(d: int, t: int)
    requires d > 0 && -d < d * t < d
    ensures t == 0
  {
    if t >= 1 {
      MulAtLeast(d, t);
    } else if t <= -1 {
      MulAtLeast(d, -t);
    }
  }
  lemma DivModUnique(x: int, d: int, q: int, r: int)
    requires d > 0 && x == d * q + r && 0 <= r < d
    ensures x / d == q && x % d == r
  {
    var q', r' := x / d, x % d;
    assert d * (q - q') == r' - r;
    MulSmall(d, q - q');
  }

  lemma {:induction false} Pow2Above(n: nat)
    ensures Pow2(n) > n
  {
    if n > 0 {
      Pow2Above(n - 1);
    }
  }

  // ------------------------------------------------------- signed integers

  /** Digit k of a Python integer. */
  predicate IBit(x: int, k: nat)
  {
    if x >= 0 then Bit(x, k) else !Bit(-1 - x, k)
  }

  /** `x | m` for a non-negative m. */
  function IOr(x: int, m: nat): int
  {
    if x >= 0 then Or(x, m) else -1 - AndNot(-1 - x, m)
  }

  /** `x & m` for a non-negative m; the result is not negative. */
  function IAnd(x: int, m: nat): nat
  {
    if x >= 0 then And(x, m) else AndNot(m, -1 - x)
  }

  /** `x & ~m` for a non-negative m. */
  function IAndNot(x: int, m: nat): int
  {
    if x >= 0 then AndNot(x, m) else -1 - Or(-1 - x, m)
  }

  /** The digits of `~a` are those of a, inverted. */
  lemma NegBit(a: nat, k: nat)
    ensures IBit(-1 - a, k) == !Bit(a, k)
  {
    assert -1 - (-1 - a) == a;
  }

  lemma IBitOr(x: int, m: nat, k: nat)
    ensures IBit(IOr(x, m), k) == (IBit(x, k) || Bit(m, k))
  {
    if x >= 0 {
      BitOr(x, m, k);
    } else {
      var y: nat := -1 - x;
      var r: nat := AndNot(y, m);
      assert IOr(x, m) == -1 - r;
      BitAndNot(y, m, k);
      NegBit(r, k);
      NegBit(y, k);
    }
  }

  lemma IBitAnd(x: int, m: nat, k: nat)
    ensures Bit(IAnd(x, m), k) == (IBit(x, k) && Bit(m, k))
  {
    if x >= 0 {
      BitAnd(x, m, k);
    } else {
      BitAndNot(m, -1 - x, k);
    }
  }

  lemma IBitAndNot(x: int, m: nat, k: nat)
    ensures IBit(IAndNot(x, m), k) == (IBit(x, k) && !Bit(m, k))
  {
    if x >= 0 {
      BitAndNot(x, m, k);
    } else {
      var y: nat := -1 - x;
      var r: nat := Or(y, m);
      assert IAndNot(x, m) == -1 - r;
      BitOr(y, m, k);
      NegBit(r, k);
      NegBit(y, k);
    }
  }

  /** A Python integer is determined by its binary digits. */
  lemma IBitsDetermine(x: int, y: int)
    requires forall k: nat :: IBit(x, k) == IBit(y, k)
    ensures x == y
  {
    if x >= 0 && y >= 0 {
      forall k: nat ensures Bit(x, k) == Bit(y, k) {
        assert IBit(x, k) == IBit(y, k);
      }
      BitsDetermine(x, y);
    } else if x < 0 && y < 0 {
      var a: nat := -1 - x;
      var b: nat := -1 - y;
      forall k: nat ensures Bit(a, k) == Bit(b, k) {
        assert IBit(x, k) == IBit(y, k);
      }
      BitsDetermine(a, b);
    } else if x >= 0 {
      SignsDiffer(x, y);
    } else {
      SignsDiffer(y, x);
    }
  }

  /** A non-negative and a negative number differ in every high digit. */
  lemma SignsDiffer(x: int, y: int)
    requires x >= 0 && y < 0
    ensures exists k: nat :: IBit(x, k) != IBit(y, k)
  {
    var b: nat := -1 - y;
    var n: nat := x + b;
    Pow2Above(n);
    HighBitClear(x, n, n);
    HighBitClear(b, n, n);
    NegBit(b, n);
    assert IBit(x, n) != IBit(y, n);
  }

  /** `x & (1 << k) != 0` tests digit k. */
  lemma IAndPow2(x: int, k: nat)
    ensures IAnd(x, Pow2(k)) != 0 <==> IBit(x, k)
  {
    IBitAnd(x, Pow2(k), k);
    BitPow2(k, k);
    if IAnd(x, Pow2(k)) == 0 {
      ZeroHasNoBit(k);
    } else if !IBit(x, k) {
      forall j: nat ensures Bit(IAnd(x, Pow2(k)), j) == Bit(0, j) {
        IBitAnd(x, Pow2(k), j);
        BitPow2(k, j);
        ZeroHasNoBit(j);
      }
      BitsDetermine(IAnd(x, Pow2(k)), 0);
    }
  }

  /** `x << k` on a non-negative x. */
  function Shl(x: nat, k: nat): nat
  {
    x * Pow2(k)
  }

  /** `x >> k` on a Python integer: floor division by 2^k. */
  function IShr(x: int, k: nat): int
  {
    x / Pow2(k)
  }

  /** The digits of 2z + b: b, then those of z. */
  lemma IBitDouble(z: int, b: nat, j: nat)
    requires b < 2
    ensures IBit(2 * z + b, j) == if j == 0 then b == 1 else IBit(z, j - 1)
  {
    if z >= 0 {
      Halves(z, b);
    } else {
      var y: nat := -1 - z;
      assert -1 - (2 * z + b) == 2 * y + (1 - b);
      Halves(y, 1 - b);
    }
  }

  /** The digits of 2^k * q + r, for r below 2^k: those of r below k, then
      those of q. */
  lemma {:induction false} IBitSplit(q: int, r: nat, k: nat, j: nat)
    requires r < Pow2(k)
    ensures IBit(Pow2(k) * q + r, j) == if j < k then Bit(r, j) else IBit(q, j - k)
    decreases k
  {
    if k == 0 {
    } else {
      var p := Pow2(k - 1);
      var z := p * q + r / 2;
      assert Pow2(k) * q + r == 2 * z + r % 2 by {
        assert Pow2(k) * q == 2 * (p * q);
      }
      IBitDouble(z, r % 2, j);
      if j > 0 {
        IBitSplit(q, r / 2, k - 1, j - 1);
      }
    }
  }

  /** Euclidean division by 2^k splits x into its high and low digits. */
  lemma DivModSplit(x: int, k: nat)
    ensures x == Pow2(k) * (x / Pow2(k)) + x % Pow2(k)
  {
  }

  /** `x << k` (x * 2^k) moves every digit up by k. */
  lemma IBitShl(x: int, k: nat, j: nat)
    ensures IBit(x * Pow2(k), j) == (j >= k && IBit(x, j - k))
  {
    IBitSplit(x, 0, k, j);
    ZeroHasNoBit(j);
    assert x * Pow2(k) == Pow2(k) * x + 0;
  }

  /** `x >> k` moves every digit down by k. */
  lemma IBitShr(x: int, k: nat, j: nat)
    ensures IBit(IShr(x, k), j) == IBit(x, j + k)
  {
    DivModSplit(x, k);
    IBitSplit(x / Pow2(k), x % Pow2(k), k, j + k);
  }

  /** `x % 2^k` (`x & (2^k - 1)`) keeps the digits below k. */
  lemma IBitMod(x: int, k: nat, j: nat)
    ensures Bit(x % Pow2(k), j) == (j < k && IBit(x, j))
  {
    DivModSplit(x, k);
    IBitSplit(x / Pow2(k), x % Pow2(k), k, j);
    if j >= k {
      HighBitClear(x % Pow2(k), k, j);
    }
  }

  /** `x & m` is at most m. */
  lemma {:induction false} AndNotBound(x: nat, y: nat)
    ensures AndNot(x, y) <= x
    decreases x + y
  {
    if x != 0 && y != 0 {
      AndNotBound(x / 2, y / 2);
    }
  }

  lemma {:induction false} AndBound(x: nat, y: nat)
    ensures And(x, y) <= y
    decreases x + y
  {
    if x != 0 && y != 0 {
      AndBound(x / 2, y / 2);
    }
  }

  lemma IAndBound(x: int, m: nat)
    ensures IAnd(x, m) <= m
  {
    if x >= 0 {
      AndBound(x, m);
    } else {
      AndNotBound(m, -1 - x);
    }
  }

  // ---------------------------------------------------------------- masks and shifts on int

  /** `2^k - 1` has exactly the digits below k. */
  lemma LowMaskBits(k: nat, j: nat)
    ensures Bit(Pow2(k) - 1, j) == (j < k)
  {
    IBitMod(-1, k, j);
    DivModUnique(-1, Pow2(k), -1, Pow2(k) - 1);
    NegBit(0, j);
    ZeroHasNoBit(j);
  }

  /** `x & (2^k - 1)` is `x % 2^k`, for negative x as well. */
  lemma IAndLowMask(x: int, k: nat)
    ensures IAnd(x, Pow2(k) - 1) == x % Pow2(k)
  {
    forall j: nat ensures Bit(IAnd(x, Pow2(k) - 1), j) == Bit(x % Pow2(k), j) {
      IBitAnd(x, Pow2(k) - 1, j);
      LowMaskBits(k, j);
      IBitMod(x, k, j);
    }
    BitsDetermine(IAnd(x, Pow2(k) - 1), x % Pow2(k));
  }

  /** ORing a value below 2^k with a multiple of 2^k adds them. */
  lemma OrDisjoint(x: nat, y: nat, k: nat)
    requires x < Pow2(k)
    ensures Or(x, y * Pow2(k)) == x + y * Pow2(k)
  {
    forall j: nat ensures Bit(Or(x, y * Pow2(k)), j) == Bit(x + y * Pow2(k), j) {
      BitOr(x, y * Pow2(k), j);
      IBitShl(y, k, j);
      IBitSplit(y, x, k, j);
      assert x + y * Pow2(k) == Pow2(k) * y + x;
      if j >= k {
        HighBitClear(x, k, j);
      }
    }
    BitsDetermine(Or(x, y * Pow2(k)), x + y * Pow2(k));
  }

  lemma OrZero(x: nat)
    ensures Or(x, 0) == x
  {
  }

  /** Digit k of x is the low digit of `x / 2^k`. */
  lemma BitDiv(x: nat, k: nat)
    ensures Bit(x, k) == ((x / Pow2(k)) % 2 == 1)
  {
    var p := Pow2(k);
    var q := x / p;
    assert q >= 0 && IShr(x, k) == q;
    IBitShr(x, k, 0);
    assert IBit(q, 0) == (q % 2 == 1);
  }

  lemma {:induction false} Pow2Add(a: nat, b: nat)
    ensures Pow2(a + b) == Pow2(a) * Pow2(b)
    decreases a
  {
    if a > 0 {
      Pow2Add(a - 1, b);
    }
  }
}
