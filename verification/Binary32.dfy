/**
 Account balances are IEEE 754 binary32 numbers in the program, while transfer
 values and the total are 32-bit integers. Every balance starts at 1000 and only
 ever meets integers, so every balance is a whole number; this module models
 binary32 arithmetic on whole numbers, with the rounding to nearest, ties to
 even, of section 4.3.1 of IEEE 754-2019.
 */
module Binary32 {

  /** 2^24: below it, every whole number is a binary32 number. */
  const PRECISION: nat := 0x100_0000

  function Pow2(e: nat): (p: nat)
    ensures p >= 1
  {
    if e == 0 then 1 else 2 * Pow2(e - 1)
  }

  function Abs(x: int): nat {
    if x < 0 then -x else x
  }

  /** A whole number is a binary32 number when 24 significant bits suffice. */
  ghost predicate Scaled(x: nat, k: nat, e: nat) {
    k < PRECISION && x == k * Pow2(e)
  }

  ghost predicate Representable(x: int) {
    exists k, e :: Scaled(Abs(x), k, e)
  }

  /** The exponent of the distance between neighbouring binary32 numbers at x. */
  function Exponent(x: nat): (e: nat)
    ensures x < PRECISION ==> e == 0
    ensures x < PRECISION * Pow2(e)
    ensures x >= PRECISION ==> PRECISION / 2 * Pow2(e) <= x
    decreases x
  {
    if x < PRECISION then 0 else Exponent(x / 2) + 1
  }

  /**
   Drops bits until 24 are left: k is what is left so far, guard the last bit
   dropped, sticky whether any bit dropped before it was set.
   */
  function RoundBits(k: nat, guard: bool, sticky: bool): nat
    decreases k
  {
    if k < PRECISION then (if guard && (sticky || k % 2 == 1) then k + 1 else k)
    else 2 * RoundBits(k / 2, k % 2 == 1, guard || sticky)
  }

  function RoundNat(x: nat): nat {
    RoundBits(x, false, false)
  }

  function Round(x: int): int {
    if x < 0 then 0 - RoundNat(-x) else RoundNat(x)
  }

  lemma {:induction false} Pow2Monotone(e: nat, f: nat)
    requires e <= f
    ensures exists q: nat :: Pow2(f) == q * Pow2(e)
  {
    if e == f {
      assert Pow2(f) == 1 * Pow2(e);
    } else {
      Pow2Monotone(e, f - 1);
      var q: nat :| Pow2(f - 1) == q * Pow2(e);
      assert Pow2(f) == (2 * q) * Pow2(e);
    }
  }

  lemma {:induction false} Pow2Less(e: nat, f: nat)
    requires e < f
    ensures 2 * Pow2(e) <= Pow2(f)
  {
    if e + 1 < f {
      Pow2Less(e, f - 1);
    }
  }

  lemma {:induction false} Pow2Grows(n: nat)
    ensures Pow2(n) >= n
  {
    if n > 0 {
      Pow2Grows(n - 1);
    }
  }

  lemma Division(x: nat, u: nat)
    requires u > 0
    ensures x == x / u * u + x % u && 0 <= x % u < u
  {
  }

  lemma MultiplyMonotone(k: int, m: int, u: nat)
    requires k <= m
    ensures k * u <= m * u
  {
    assert (m - k) * u >= 0;
  }

  lemma CancelStrict(k: int, m: int, u: nat)
    requires k * u < m * u
    ensures k < m
  {
    if m <= k {
      MultiplyMonotone(m, k, u);
      assert false;
    }
  }

  lemma MultipleNotBetween(k: int, m: int, u: nat)
    ensures m * u <= k * u || m * u >= k * u + u
  {
    if m <= k {
      MultiplyMonotone(m, k, u);
    } else {
      MultiplyMonotone(k + 1, m, u);
    }
  }

  lemma FineIsSmall(y: nat, k: nat, f: nat, e: nat)
    requires Scaled(y, k, f) && f < e
    ensures y < PRECISION / 2 * Pow2(e)
  {
    Pow2Less(f, e);
    MultiplyMonotone(k, PRECISION - 1, Pow2(f));
    assert (PRECISION - 1) * Pow2(f) < PRECISION / 2 * (2 * Pow2(f));
  }

  lemma CoarseIsOnGrid(y: nat, k: nat, f: nat, e: nat)
    requires Scaled(y, k, f) && e <= f
    ensures exists m: nat :: y == m * Pow2(e)
  {
    Pow2Monotone(e, f);
    var q: nat :| Pow2(f) == q * Pow2(e);
    assert y == (k * q) * Pow2(e);
  }

  /** The same rounding, by division: x lies between x - r and x - r + u, and a tie goes to the even multiple of u. */
  ghost function ToGrid(x: nat): nat {
    var u := Pow2(Exponent(x));
    var r := x % u;
    if 2 * r < u || (2 * r == u && x / u % 2 == 0) then x - r else x - r + u
  }

  lemma OneBinade(x: nat, u: nat, v: nat)
    requires 2 * u <= v && x < PRECISION * u
    ensures x < PRECISION / 2 * v
  {
  }

  lemma ExponentIs(x: nat, e: nat)
    requires x < PRECISION * Pow2(e) && (e == 0 || PRECISION / 2 * Pow2(e) <= x)
    ensures Exponent(x) == e
  {
    var f := Exponent(x);
    if f < e {
      Pow2Less(f, e);
      OneBinade(x, Pow2(f), Pow2(e));
    } else if e < f {
      Pow2Less(e, f);
      OneBinade(x, Pow2(e), Pow2(f));
    }
  }

  lemma DivisionIs(x: nat, k: nat, u: nat, r: nat)
    requires x == k * u + r && r < u
    ensures x / u == k && x % u == r
  {
    Division(x, u);
    if x / u != k {
      MultipleNotBetween(k, x / u, u);
      MultipleNotBetween(x / u, k, u);
      assert false;
    }
  }

  lemma NextMultiple(q: nat, u: nat)
    ensures (q + 1) * u == q * u + u
  {
  }

  lemma LastBits(x: nat, k: nat, guard: bool, sticky: bool, e: nat, r: nat)
    requires x == k * Pow2(e) + r && r < Pow2(e) && (e == 0 || k >= PRECISION / 2) && k < PRECISION
    requires guard <==> 2 * r >= Pow2(e)
    requires sticky <==> r != 0 && 2 * r != Pow2(e)
    ensures RoundBits(k, guard, sticky) * Pow2(e) == ToGrid(x)
  {
    var u := Pow2(e);
    MultiplyMonotone(k + 1, PRECISION, u);
    NextMultiple(k, u);
    if e > 0 {
      MultiplyMonotone(PRECISION / 2, k, u);
    }
    ExponentIs(x, e);
    DivisionIs(x, k, u, r);
  }

  lemma DropBit(k: nat, bit: nat, u: nat)
    requires bit == k % 2
    ensures k * u == k / 2 * (2 * u) + bit * u
  {
    assert k == 2 * (k / 2) + bit;
  }

  lemma TwiceUnit(q: nat, u: nat)
    ensures q * (2 * u) == 2 * q * u
  {
  }

  /** With e bits dropped, worth r together, the guard and sticky bits place r against one half of a unit. */
  lemma {:induction false} BitsToGrid(x: nat, k: nat, guard: bool, sticky: bool, e: nat, r: nat)
    requires x == k * Pow2(e) + r && r < Pow2(e) && (e == 0 || k >= PRECISION / 2)
    requires guard <==> 2 * r >= Pow2(e)
    requires sticky <==> r != 0 && 2 * r != Pow2(e)
    ensures RoundBits(k, guard, sticky) * Pow2(e) == ToGrid(x)
    decreases k
  {
    var u, bit := Pow2(e), k % 2;
    if k < PRECISION {
      LastBits(x, k, guard, sticky, e, r);
    } else {
      DropBit(k, bit, u);
      var r' := if bit == 1 then u + r else r;
      assert bit * u + r == r';
      BitsToGrid(x, k / 2, bit == 1, guard || sticky, e + 1, r');
      TwiceUnit(RoundBits(k / 2, bit == 1, guard || sticky), u);
    }
  }

  lemma RoundNatToGrid(x: nat)
    ensures RoundNat(x) == ToGrid(x)
  {
    BitsToGrid(x, x, false, false, 0, 0);
  }

  lemma ToGridNearerThanNeighbours(x: nat, y: int)
    requires var u := Pow2(Exponent(x)); y <= x - x % u || y >= x - x % u + u
    ensures Abs(x - ToGrid(x)) <= Abs(x - y)
  {
  }

  /** No binary32 number lies strictly between the neighbours of x. */
  lemma NotBetweenNeighbours(x: nat, y: nat, k: nat, f: nat)
    requires Scaled(y, k, f)
    ensures var u := Pow2(Exponent(x)); y <= x - x % u || y >= x - x % u + u
  {
    var e := Exponent(x);
    var u := Pow2(e);
    Division(x, u);
    if f < e {
      // y lies below the whole binade of x, whose start is on the grid
      FineIsSmall(y, k, f, e);
      MultipleNotBetween(x / u, PRECISION / 2, u);
    } else {
      CoarseIsOnGrid(y, k, f, e);
      var m: nat :| y == m * u;
      MultipleNotBetween(x / u, m, u);
    }
  }

  lemma NearestNat(x: nat, y: nat, k: nat, f: nat)
    requires Scaled(y, k, f)
    ensures Abs(x - ToGrid(x)) <= Abs(x - y)
  {
    NotBetweenNeighbours(x, y, k, f);
    ToGridNearerThanNeighbours(x, y);
  }

  /** y is an even multiple of 2^e: the last of its 24 significant bits is zero. */
  ghost predicate EvenMultiple(y: nat, m: nat, e: nat) {
    m % 2 == 0 && y == m * Pow2(e)
  }

  /** Two equally near neighbours are half a unit away. */
  lemma TieMeansHalf(x: int, y: int, low: int, u: int, near: int)
    requires low <= x < low + u && (y <= low || y >= low + u)
    requires near == if 2 * (x - low) < u then low else if 2 * (x - low) > u then low + u else near
    requires near == low || near == low + u
    requires y != near && Abs(x - y) == Abs(x - near)
    ensures 2 * (x - low) == u
  {
  }

  lemma EvenNeighbour(g: nat, q: nat, u: nat, e: nat)
    requires u == Pow2(e) && g == if q % 2 == 0 then q * u else q * u + u
    ensures exists m: nat :: EvenMultiple(g, m, e)
  {
    NextMultiple(q, u);
    assert EvenMultiple(g, if q % 2 == 0 then q else q + 1, e);
  }

  lemma HalfToGrid(x: nat, q: nat, r: nat, u: nat)
    requires u == Pow2(Exponent(x)) && q == x / u && r == x % u && 2 * r == u
    ensures ToGrid(x) == if q % 2 == 0 then x - r else x - r + u
  {
  }

  lemma HalfGoesToEven(x: nat, q: nat, r: nat, u: nat)
    requires u == Pow2(Exponent(x)) && q == x / u && r == x % u && 2 * r == u
    ensures exists m: nat :: EvenMultiple(ToGrid(x), m, Exponent(x))
  {
    HalfToGrid(x, q, r, u);
    Division(x, u);
    EvenNeighbour(ToGrid(x), q, u, Exponent(x));
  }

  lemma GridIsNear(x: nat, r: nat, u: nat)
    requires u == Pow2(Exponent(x)) && r == x % u
    ensures ToGrid(x) == x - r || ToGrid(x) == x - r + u
    ensures 2 * r < u ==> ToGrid(x) == x - r
    ensures 2 * r > u ==> ToGrid(x) == x - r + u
  {
  }

  lemma TieIsHalf(x: nat, y: nat, r: nat, u: nat)
    requires u == Pow2(Exponent(x)) && r == x % u && (y <= x - r || y >= x - r + u)
    requires y != ToGrid(x) && Abs(x - y) == Abs(x - ToGrid(x))
    ensures 2 * r == u
  {
    GridIsNear(x, r, u);
    TieMeansHalf(x, y, x - r, u, ToGrid(x));
  }

  lemma Divided(x: nat) returns (q: nat, r: nat, u: nat)
    ensures u == Pow2(Exponent(x)) && q == x / u && r == x % u
  {
    u := Pow2(Exponent(x));
    Division(x, u);
    q, r := x / u, x % u;
  }

  lemma TieNat(x: nat, y: nat, k: nat, f: nat)
    requires Scaled(y, k, f) && y != ToGrid(x) && Abs(x - y) == Abs(x - ToGrid(x))
    ensures exists m: nat :: EvenMultiple(ToGrid(x), m, Exponent(x))
  {
    var q, r, u := Divided(x);
    NotBetweenNeighbours(x, y, k, f);
    TieIsHalf(x, y, r, u);
    HalfGoesToEven(x, q, r, u);
  }

  lemma GridPointRepresentable(y: nat, k: nat, e: nat)
    requires y == k * Pow2(e) && k <= PRECISION
    ensures Representable(y)
  {
    assert Abs(y) == y;
    if k < PRECISION {
      assert Scaled(y, k, e);
    } else {
      assert Scaled(y, PRECISION / 2, e + 1);
    }
  }

  lemma QuotientSmall(x: nat, k: nat, r: nat, u: nat)
    requires x == k * u + r && x < PRECISION * u
    ensures k < PRECISION
  {
    CancelStrict(k, PRECISION, u);
  }

  lemma ToGridRepresentable(x: nat)
    ensures Representable(ToGrid(x))
  {
    var e := Exponent(x);
    var u := Pow2(e);
    var k := x / u;
    Division(x, u);
    QuotientSmall(x, k, x % u, u);
    if ToGrid(x) == x - x % u {
      GridPointRepresentable(ToGrid(x), k, e);
    } else {
      NextMultiple(k, u);
      GridPointRepresentable(ToGrid(x), k + 1, e);
    }
  }

  /**
   Round is the rounding the standard asks for: its result is a binary32
   number, and no binary32 number is nearer to x.
   */
  lemma RoundIsNearest(x: int, y: int)
    requires Representable(y)
    ensures Representable(Round(x))
    ensures Abs(x - Round(x)) <= Abs(x - y)
  {
    var k, f :| Scaled(Abs(y), k, f);
    RoundNatToGrid(Abs(x));
    ToGridRepresentable(Abs(x));
    NearestNat(Abs(x), Abs(y), k, f);
    assert Abs(Round(x)) == RoundNat(Abs(x));
  }

  /** Of two equally near binary32 numbers it takes the one whose last significant bit is zero. */
  lemma RoundTiesToEven(x: int, y: int)
    requires Representable(y) && y != Round(x) && Abs(x - y) == Abs(x - Round(x))
    ensures exists m: nat :: EvenMultiple(Abs(Round(x)), m, Exponent(Abs(x)))
  {
    var k, f :| Scaled(Abs(y), k, f);
    assert Scaled(Abs(0), 0, 0);
    RoundIsNearest(x, 0);
    RoundNatToGrid(Abs(x));
    assert Abs(Round(x)) == RoundNat(Abs(x));
    TieNat(Abs(x), Abs(y), k, f);
  }

  /** Rounding is the identity on exactly the binary32 numbers. */
  lemma RoundFixesRepresentable(x: int)
    ensures Round(x) == x <==> Representable(x)
    ensures Abs(x) < PRECISION ==> Round(x) == x
  {
    RoundNatToGrid(Abs(x));
    ToGridRepresentable(Abs(x));
    assert Abs(Round(x)) == RoundNat(Abs(x));
    if Representable(x) {
      RoundIsNearest(x, x);
    }
    if Abs(x) < PRECISION {
      assert Scaled(Abs(x), Abs(x), 0);
      RoundIsNearest(x, x);
    }
  }

  lemma RoundRepresentable(x: int)
    ensures Representable(Round(x))
  {
    assert Scaled(Abs(0), 0, 0);
    RoundIsNearest(x, 0);
  }

  /** Rounding does not step over a binary32 number. */
  lemma RoundAtLeast(x: int, y: int)
    requires Representable(y) && y <= x
    ensures y <= Round(x)
  {
    RoundIsNearest(x, y);
  }

  lemma RoundAtMost(x: int, y: int)
    requires Representable(y) && x <= y
    ensures Round(x) <= y
  {
    RoundIsNearest(x, y);
  }

  lemma RoundKeepsLargeLarge(x: int)
    requires x >= PRECISION
    ensures Round(x) >= PRECISION
  {
    assert Scaled(PRECISION, PRECISION / 2, 1);
    assert Abs(PRECISION) == PRECISION;
    RoundIsNearest(x, PRECISION);
  }

  lemma RoundKeepsSign(x: int)
    requires x < 0
    ensures Round(x) < 0
    ensures x + PRECISION <= 0 ==> Round(x) + PRECISION <= 0
  {
    if x + PRECISION <= 0 {
      RoundKeepsLargeLarge(-x);
    } else {
      RoundFixesRepresentable(x);
    }
  }

  /** The arithmetic of a ledger: the program's binary32, or ideal integers. */
  datatype Arithmetic = Exact | Single {

    /** balance + value, where the int value is first converted to float. */
    function Credit(balance: int, value: int): int {
      match this
      case Exact => balance + value
      case Single => Round(balance + Round(value))
    }

    /** balance - value, where the int value is first converted to float. */
    function Debit(balance: int, value: int): int {
      match this
      case Exact => balance - value
      case Single => Round(balance - Round(value))
    }

    /** balance < value, where the int value is first converted to float. */
    predicate Short(balance: int, value: int) {
      match this
      case Exact => balance < value
      case Single => balance < Round(value)
    }

    /** total += balance on an int total: the sum is taken in float. */
    function AddTotal(total: int, balance: int): int {
      match this
      case Exact => total + balance
      case Single => Round(Round(total) + balance)
    }
  }

  /** Where all numbers stay below 2^24 the two arithmetics cannot be told apart. */
  lemma SingleIsExact(balance: int, value: int)
    requires Abs(balance) < PRECISION
    ensures Abs(value) < PRECISION && Abs(balance + value) < PRECISION
            ==> Single.Credit(balance, value) == Exact.Credit(balance, value)
                && Single.AddTotal(value, balance) == Exact.AddTotal(value, balance)
    ensures Abs(value) < PRECISION && Abs(balance - value) < PRECISION
            ==> Single.Debit(balance, value) == Exact.Debit(balance, value)
    ensures value >= 0 ==> (Single.Short(balance, value) <==> Exact.Short(balance, value))
  {
    RoundFixesRepresentable(value);
    RoundFixesRepresentable(balance + value);
    RoundFixesRepresentable(balance - value);
    if value >= PRECISION {
      RoundKeepsLargeLarge(value);
    }
  }

  lemma SmallIsRepresentable(x: int)
    requires Abs(x) <= PRECISION
    ensures Representable(x)
  {
    if Abs(x) < PRECISION {
      assert Scaled(Abs(x), Abs(x), 0);
    } else {
      assert Pow2(1) == 2;
      assert Scaled(Abs(x), PRECISION / 2, 1);
    }
  }

  /**
   Who is refused for want of funds: whoever has less than the value, unless the
   value rounds down onto what he has; with less than 2^24, simply whoever has
   less.
   */
  lemma ShortExactly(balance: int, value: int)
    ensures Exact.Short(balance, value) <==> balance < value
    ensures Representable(balance) ==> (Single.Short(balance, value) <==> balance < value && Round(value) != balance)
    ensures Abs(balance) < PRECISION ==> (Single.Short(balance, value) <==> balance < value)
  {
    if Representable(balance) {
      if value <= balance {
        RoundAtMost(value, balance);
      } else {
        RoundAtLeast(value, balance);
      }
    }
    if Abs(balance) < PRECISION {
      SmallIsRepresentable(balance);
      SmallIsRepresentable(balance + 1);
      if balance < value {
        RoundAtLeast(value, balance + 1);
      } else {
        RoundAtMost(value, balance);
      }
    }
  }
}
