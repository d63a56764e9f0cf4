/**
 ECMAScript's 32-bit operators on integers, and the 32-bit words they represent. Every operand here is
 an integer below 2^53 in magnitude, where a double is exact.
 */
module JsWords {

  const TWO31: int := 0x8000_0000
  const TWO32: int := 0x1_0000_0000
  const TWO53: int := 0x20_0000_0000_0000

  type word = x: int | 0 <= x < TWO32
  type byte = x: int | 0 <= x < 256

  function Pow2(n: nat): (p: nat)
    ensures p >= 1
  {
    if n == 0 then 1 else 2 * Pow2(n - 1)
  }

  // ----- bits -----

  datatype Op = And | Or | Xor

  function OnBits(op: Op, a: int, b: int): (c: int)
    ensures 0 <= c <= 1
  {
    match op
    case And => if a == 1 && b == 1 then 1 else 0
    case Or => if a == 1 || b == 1 then 1 else 0
    case Xor => if a != b then 1 else 0
  }

  /** The operator applied to the low n bits. */
  function Bitwise(op: Op, x: nat, y: nat, n: nat): (r: nat)
    ensures r < Pow2(n)
  {
    if n == 0 then 0 else OnBits(op, x % 2, y % 2) + 2 * Bitwise(op, x / 2, y / 2, n - 1)
  }

  function Bit(x: nat, i: nat): int {
    if i == 0 then x % 2 else Bit(x / 2, i - 1)
  }

  lemma {:induction false} BitOfBitwise(op: Op, x: nat, y: nat, n: nat, i: nat)
    requires i < n
    ensures var a, b, c := Bit(x, i), Bit(y, i), Bit(Bitwise(op, x, y, n), i);
            && 0 <= c <= 1
            && match op
               case And => c == 1 <==> a == 1 && b == 1
               case Or => c == 1 <==> a == 1 || b == 1
               case Xor => c == 1 <==> a != b
    decreases n
  {
    if i > 0 {
      BitOfBitwise(op, x / 2, y / 2, n - 1, i - 1);
    }
  }

  function Op32(op: Op, x: word, y: word): word {
    PowValues();
    Bitwise(op, x, y, 32)
  }

  lemma PowValues()
    ensures Pow2(0) == 1 && Pow2(31) == TWO31 && Pow2(32) == TWO32
  {
    assert Pow2(4) == 16;
    assert Pow2(8) == 16 * Pow2(4);
    assert Pow2(12) == 16 * Pow2(8);
    assert Pow2(16) == 16 * Pow2(12);
    assert Pow2(20) == 16 * Pow2(16);
    assert Pow2(24) == 16 * Pow2(20);
    assert Pow2(28) == 16 * Pow2(24);
    assert Pow2(31) == 8 * Pow2(28);
  }

  // ----- ECMAScript -----

  function ToUint32(x: int): word { x % TWO32 }

  function ToInt32(x: int): int {
    if x % TWO32 >= TWO31 then x % TWO32 - TWO32 else x % TWO32
  }

  function JsBit(op: Op, x: int, y: int): int { ToInt32(Op32(op, ToUint32(x), ToUint32(y))) }

  function JsNot(x: int): int { ToInt32(-1 - ToInt32(x)) }

  function JsShl(x: int, n: nat): int
    requires n < 32
  {
    ToInt32(ToUint32(x) * Pow2(n))
  }

  /** `>>>` */
  function JsShr(x: int, n: nat): int
    requires n < 32
  {
    ToUint32(x) / Pow2(n)
  }

  /** `>>` on a value whose 32-bit reading is not negative. */
  function JsSar(x: int, n: nat): int
    requires n < 32
  {
    ToInt32(x) / Pow2(n)
  }

  function JsRotr(x: int, n: nat): int
    requires 0 < n < 32
  {
    JsBit(Or, JsShr(x, n), JsShl(x, 32 - n))
  }

  /** The signed result of a 32-bit operator is another name for the word. */
  lemma SignedIsWord(x: int)
    ensures ToUint32(ToInt32(x)) == ToUint32(x)
    ensures -TWO31 <= ToInt32(x) < TWO31
    ensures 0 <= x < TWO32 ==> ToUint32(x) == x
  {
  }

  lemma JsBitIsOp(op: Op, x: int, y: int)
    ensures ToUint32(JsBit(op, x, y)) == Op32(op, ToUint32(x), ToUint32(y))
    ensures -TWO31 <= JsBit(op, x, y) < TWO31
  {
    SignedIsWord(Op32(op, ToUint32(x), ToUint32(y)));
  }

  function Not32(x: word): word { TWO32 - 1 - x }

  lemma JsNotIsNot(x: int)
    ensures ToUint32(JsNot(x)) == Not32(ToUint32(x))
  {
    SignedIsWord(-1 - ToInt32(x));
  }

  // ----- rotation -----

  /** Arithmetic rotation: the low n bits move to the top. */
  function Rotr(x: word, n: nat): word
    requires 0 < n < 32
  {
    ShiftKeepsLow(x, n);
    x / Pow2(n) + x % Pow2(n) * Pow2(32 - n)
  }

  lemma {:induction false} PowSum(a: nat, b: nat)
    ensures Pow2(a) * Pow2(b) == Pow2(a + b)
    decreases a
  {
    if a > 0 {
      PowSum(a - 1, b);
      assert Pow2(a) * Pow2(b) == 2 * (Pow2(a - 1) * Pow2(b));
    }
  }

  lemma MulDivMod(q: int, m: int, r: int)
    requires m > 0 && 0 <= r < m
    ensures (q * m + r) / m == q && (q * m + r) % m == r
  {
    var x := q * m + r;
    var d := x / m - q;
    assert x == m * (x / m) + x % m;
    assert m * (x / m) == m * q + m * d;
    assert d >= 1 ==> m * d >= m;
    assert d <= -1 ==> m * d <= -m;
  }

  lemma DivBounds(x: nat, p: nat, s: nat)
    requires p >= 1 && x < p * s
    ensures 0 <= x / p < s
  {
    var q := x / p;
    assert x == q * p + x % p;
    assert q >= s ==> q * p >= s * p;
  }

  lemma LowTimes(r: nat, p: nat, s: nat)
    requires r < p
    ensures r * s + s <= p * s
  {
    assert (r + 1) * s == r * s + s;
    assert (r + 1) * s <= p * s;
  }

  /** Shifting left inside 32 bits drops the bits above. */
  lemma ShiftKeepsLow(x: word, n: nat)
    requires 0 < n < 32
    ensures (x * Pow2(32 - n)) % TWO32 == x % Pow2(n) * Pow2(32 - n)
    ensures x % Pow2(n) * Pow2(32 - n) + Pow2(32 - n) <= TWO32
    ensures 0 <= x / Pow2(n) < Pow2(32 - n) && 0 <= x % Pow2(n) * Pow2(32 - n)
  {
    PowSum(n, 32 - n);
    PowValues();
    SplitTimes(x, Pow2(n), Pow2(32 - n));
    DivBounds(x, Pow2(n), Pow2(32 - n));
  }

  lemma SplitTimes(x: nat, p: nat, s: nat)
    requires p >= 1 && s >= 1 && p * s == TWO32
    ensures (x * s) % TWO32 == x % p * s && x % p * s + s <= TWO32
  {
    var q, r := x / p, x % p;
    LowTimes(r, p, s);
    assert x * s == (q * p + r) * s == q * (p * s) + r * s;
    MulDivMod(q, TWO32, r * s);
  }

  lemma {:induction false} OrZero(y: nat, n: nat)
    requires y < Pow2(n)
    ensures Bitwise(Or, 0, y, n) == y
    decreases n
  {
    if n > 0 {
      OrZero(y / 2, n - 1);
    }
  }

  /** Or of two numbers without a common bit is their sum. */
  lemma {:induction false} OrIsSum(low: nat, high: nat, k: nat, n: nat)
    requires k <= n && low < Pow2(k) && low + high * Pow2(k) < Pow2(n)
    ensures Bitwise(Or, low, high * Pow2(k), n) == low + high * Pow2(k)
    decreases k
  {
    if k == 0 {
      OrZero(high, n);
    } else {
      var half := high * Pow2(k - 1);
      assert high * Pow2(k) == 2 * half;
      OrIsSum(low / 2, high, k - 1, n - 1);
    }
  }

  /** `(x >>> n) | (x << (32 - n))`, signed as it is, is the rotated word. */
  lemma JsRotrIsRotr(x: int, n: nat)
    requires 0 < n < 32
    ensures ToUint32(JsRotr(x, n)) == Rotr(ToUint32(x), n)
    ensures -TWO31 <= JsRotr(x, n) < TWO31
  {
    var u := ToUint32(x);
    ShiftKeepsLow(u, n);
    PowValues();
    JsBitIsOp(Or, JsShr(x, n), JsShl(x, 32 - n));
    SignedIsWord(u * Pow2(32 - n));
    ShrIsWord(u, n);
    OrIsSum(u / Pow2(n), u % Pow2(n), 32 - n, 32);
  }

  lemma ShrIsWord(u: word, n: nat)
    requires n < 32
    ensures 0 <= u / Pow2(n) <= u && ToUint32(u / Pow2(n)) == u / Pow2(n)
  {
    LowTimes(u, u + 1, Pow2(n));
    assert Pow2(n) * (u + 1) >= u + 1;
    DivBounds(u, Pow2(n), u + 1);
    SignedIsWord(u / Pow2(n));
  }

  lemma DivDiv(x: nat, a: nat, b: nat)
    requires a > 0 && b > 0
    ensures a * b > 0 && x / a / b == x / (a * b)
  {
    var q := x / a / b;
    var r := x / a % b;
    assert x / a == q * b + r;
    assert x == (q * b + r) * a + x % a;
    assert (q * b + r) * a == q * (a * b) + r * a;
    assert a * b > 0;
    assert r * a + x % a < a * b by { assert (r + 1) * a <= b * a; }
    MulDivMod(q, a * b, r * a + x % a);
  }

  lemma {:induction false} HighBits(x: nat, q: nat, n: nat, i: nat)
    requires q == x / Pow2(n)
    ensures Bit(q, i) == Bit(x, i + n)
    decreases n
  {
    if n > 0 {
      DivDiv(x, 2, Pow2(n - 1));
      HighBits(x / 2, q, n - 1, i);
    }
  }

  /** Bit i of the rotated word is bit i + n, taken around. */
  lemma RotationMovesBits(x: word, n: nat, i: nat)
    requires 0 < n < 32 && i < 32
    ensures Bit(Rotr(x, n), i) == Bit(x, (i + n) % 32)
  {
    ShiftKeepsLow(x, n);
    var low, high := x / Pow2(n), x % Pow2(n);
    if i < 32 - n {
      SumBitLow(low, high, 32 - n, i);
      HighBits(x, low, n, i);
    } else {
      SumBitHigh(low, high, 32 - n, i);
      LowBits(x, n, i + n - 32);
    }
  }

  lemma {:induction false} SumBitLow(low: nat, high: nat, k: nat, i: nat)
    requires i < k
    ensures Bit(low + high * Pow2(k), i) == Bit(low, i)
    decreases k
  {
    var half := high * Pow2(k - 1);
    assert high * Pow2(k) == 2 * half;
    if i > 0 {
      SumBitLow(low / 2, high, k - 1, i - 1);
      assert (low + 2 * half) / 2 == low / 2 + half;
    }
  }

  lemma {:induction false} SumBitHigh(low: nat, high: nat, k: nat, i: nat)
    requires low < Pow2(k) && i >= k
    ensures Bit(low + high * Pow2(k), i) == Bit(high, i - k)
    decreases k
  {
    if k > 0 {
      var half := high * Pow2(k - 1);
      assert high * Pow2(k) == 2 * half;
      SumBitHigh(low / 2, high, k - 1, i - 1);
      assert (low + 2 * half) / 2 == low / 2 + half;
    }
  }

  lemma DivModId(x: nat, p: nat)
    requires p >= 1
    ensures x % p + x / p * p == x && 0 <= x / p && 0 <= x % p < p
  {
  }

  lemma LowBits(x: nat, n: nat, j: nat)
    requires j < n
    ensures Bit(x % Pow2(n), j) == Bit(x, j)
  {
    DivModId(x, Pow2(n));
    SumBitLow(x % Pow2(n), x / Pow2(n), n, j);
  }
}
