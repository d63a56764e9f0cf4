/**
 SHA-256 as the JavaScript computes it, with signed 32-bit and double intermediates, refines sections
 4.1.2, 5.1.1, 5.2.1 and 6.2 of FIPS 180-4.
 */
module Sha256 {
  import opened JsWords

  const K0: seq<word> := [0x428a2f98, 0x71374491, 0xb5c0fbcf, 0xe9b5dba5, 0x3956c25b, 0x59f111f1, 0x923f82a4,
                          0xab1c5ed5]
  const K1: seq<word> := [0xd807aa98, 0x12835b01, 0x243185be, 0x550c7dc3, 0x72be5d74, 0x80deb1fe, 0x9bdc06a7,
                          0xc19bf174]
  const K2: seq<word> := [0xe49b69c1, 0xefbe4786, 0x0fc19dc6, 0x240ca1cc, 0x2de92c6f, 0x4a7484aa, 0x5cb0a9dc,
                          0x76f988da]
  const K3: seq<word> := [0x983e5152, 0xa831c66d, 0xb00327c8, 0xbf597fc7, 0xc6e00bf3, 0xd5a79147, 0x06ca6351,
                          0x14292967]
  const K4: seq<word> := [0x27b70a85, 0x2e1b2138, 0x4d2c6dfc, 0x53380d13, 0x650a7354, 0x766a0abb, 0x81c2c92e,
                          0x92722c85]
  const K5: seq<word> := [0xa2bfe8a1, 0xa81a664b, 0xc24b8b70, 0xc76c51a3, 0xd192e819, 0xd6990624, 0xf40e3585,
                          0x106aa070]
  const K6: seq<word> := [0x19a4c116, 0x1e376c08, 0x2748774c, 0x34b0bcb5, 0x391c0cb3, 0x4ed8aa4a, 0x5b9cca4f,
                          0x682e6ff3]
  const K7: seq<word> := [0x748f82ee, 0x78a5636f, 0x84c87814, 0x8cc70208, 0x90befffa, 0xa4506ceb, 0xbef9a3f7,
                          0xc67178f2]

  const K: seq<word> := K0 + K1 + K2 + K3 + K4 + K5 + K6 + K7

  const INITIAL: Eight := Eight(
    0x6a09e667, 0xbb67ae85, 0x3c6ef372, 0xa54ff53a, 0x510e527f, 0x9b05688c, 0x1f83d9ab, 0x5be0cd19)

  // ----- sections 4.2.2 and 5.3.3: where the constants come from -----

  const P0: seq<nat> := [2, 3, 5, 7, 11, 13, 17, 19]
  const P1: seq<nat> := [23, 29, 31, 37, 41, 43, 47, 53]
  const P2: seq<nat> := [59, 61, 67, 71, 73, 79, 83, 89]
  const P3: seq<nat> := [97, 101, 103, 107, 109, 113, 127, 131]
  const P4: seq<nat> := [137, 139, 149, 151, 157, 163, 167, 173]
  const P5: seq<nat> := [179, 181, 191, 193, 197, 199, 211, 223]
  const P6: seq<nat> := [227, 229, 233, 239, 241, 251, 257, 263]
  const P7: seq<nat> := [269, 271, 277, 281, 283, 293, 307, 311]

  const PRIMES: seq<nat> := P0 + P1 + P2 + P3 + P4 + P5 + P6 + P7

  function CubeFloor(p: nat): nat {
    if p < 8 then 1 else if p < 27 then 2 else if p < 64 then 3 else if p < 125 then 4 else if p < 216 then 5 else 6
  }

  function SquareFloor(p: nat): nat { if p < 4 then 1 else if p < 9 then 2 else if p < 16 then 3 else 4 }

  /** `k` is the first 32 bits of the fractional part of the cube root of p. */
  predicate CubeRootBits(p: nat, k: nat) {
    var x := CubeFloor(p) * TWO32 + k;
    x * x * x <= p * TWO32 * TWO32 * TWO32 < (x + 1) * (x + 1) * (x + 1)
  }

  predicate SquareRootBits(p: nat, k: nat) {
    var x := SquareFloor(p) * TWO32 + k;
    x * x <= p * TWO32 * TWO32 < (x + 1) * (x + 1)
  }

  predicate CubeRoots(ps: seq<nat>, ks: seq<word>) {
    |ps| == |ks| && forall i :: 0 <= i < |ps| ==> CubeRootBits(ps[i], ks[i])
  }

  lemma Row0()
    ensures CubeRoots(P0, K0)
  {
    assert CubeRootBits(2, 0x428a2f98);
    assert CubeRootBits(3, 0x71374491);
    assert CubeRootBits(5, 0xb5c0fbcf);
    assert CubeRootBits(7, 0xe9b5dba5);
    assert CubeRootBits(11, 0x3956c25b);
    assert CubeRootBits(13, 0x59f111f1);
    assert CubeRootBits(17, 0x923f82a4);
    assert CubeRootBits(19, 0xab1c5ed5);
  }

  lemma Row1()
    ensures CubeRoots(P1, K1)
  {
    assert CubeRootBits(23, 0xd807aa98);
    assert CubeRootBits(29, 0x12835b01);
    assert CubeRootBits(31, 0x243185be);
    assert CubeRootBits(37, 0x550c7dc3);
    assert CubeRootBits(41, 0x72be5d74);
    assert CubeRootBits(43, 0x80deb1fe);
    assert CubeRootBits(47, 0x9bdc06a7);
    assert CubeRootBits(53, 0xc19bf174);
  }

  lemma Row2()
    ensures CubeRoots(P2, K2)
  {
    assert CubeRootBits(59, 0xe49b69c1);
    assert CubeRootBits(61, 0xefbe4786);
    assert CubeRootBits(67, 0x0fc19dc6);
    assert CubeRootBits(71, 0x240ca1cc);
    assert CubeRootBits(73, 0x2de92c6f);
    assert CubeRootBits(79, 0x4a7484aa);
    assert CubeRootBits(83, 0x5cb0a9dc);
    assert CubeRootBits(89, 0x76f988da);
  }

  lemma Row3()
    ensures CubeRoots(P3, K3)
  {
    assert CubeRootBits(97, 0x983e5152);
    assert CubeRootBits(101, 0xa831c66d);
    assert CubeRootBits(103, 0xb00327c8);
    assert CubeRootBits(107, 0xbf597fc7);
    assert CubeRootBits(109, 0xc6e00bf3);
    assert CubeRootBits(113, 0xd5a79147);
    assert CubeRootBits(127, 0x06ca6351);
    assert CubeRootBits(131, 0x14292967);
  }

  lemma Row4()
    ensures CubeRoots(P4, K4)
  {
    assert CubeRootBits(137, 0x27b70a85);
    assert CubeRootBits(139, 0x2e1b2138);
    assert CubeRootBits(149, 0x4d2c6dfc);
    assert CubeRootBits(151, 0x53380d13);
    assert CubeRootBits(157, 0x650a7354);
    assert CubeRootBits(163, 0x766a0abb);
    assert CubeRootBits(167, 0x81c2c92e);
    assert CubeRootBits(173, 0x92722c85);
  }

  lemma Row5()
    ensures CubeRoots(P5, K5)
  {
    assert CubeRootBits(179, 0xa2bfe8a1);
    assert CubeRootBits(181, 0xa81a664b);
    assert CubeRootBits(191, 0xc24b8b70);
    assert CubeRootBits(193, 0xc76c51a3);
    assert CubeRootBits(197, 0xd192e819);
    assert CubeRootBits(199, 0xd6990624);
    assert CubeRootBits(211, 0xf40e3585);
    assert CubeRootBits(223, 0x106aa070);
  }

  lemma Row6()
    ensures CubeRoots(P6, K6)
  {
    assert CubeRootBits(227, 0x19a4c116);
    assert CubeRootBits(229, 0x1e376c08);
    assert CubeRootBits(233, 0x2748774c);
    assert CubeRootBits(239, 0x34b0bcb5);
    assert CubeRootBits(241, 0x391c0cb3);
    assert CubeRootBits(251, 0x4ed8aa4a);
    assert CubeRootBits(257, 0x5b9cca4f);
    assert CubeRootBits(263, 0x682e6ff3);
  }

  lemma Row7()
    ensures CubeRoots(P7, K7)
  {
    assert CubeRootBits(269, 0x748f82ee);
    assert CubeRootBits(271, 0x78a5636f);
    assert CubeRootBits(277, 0x84c87814);
    assert CubeRootBits(281, 0x8cc70208);
    assert CubeRootBits(283, 0x90befffa);
    assert CubeRootBits(293, 0xa4506ceb);
    assert CubeRootBits(307, 0xbef9a3f7);
    assert CubeRootBits(311, 0xc67178f2);
  }

  /** The round constants and the initial hash value are the roots the standard derives them from. */
  lemma ConstantsAreRoots()
    ensures |K| == 64 && CubeRoots(PRIMES, K)
    ensures SquareRootBits(2, INITIAL.a) && SquareRootBits(3, INITIAL.b) && SquareRootBits(5, INITIAL.c)
    ensures SquareRootBits(7, INITIAL.d) && SquareRootBits(11, INITIAL.e) && SquareRootBits(13, INITIAL.f)
    ensures SquareRootBits(17, INITIAL.g) && SquareRootBits(19, INITIAL.h)
  {
    Row0();
    Row1();
    Row2();
    Row3();
    Row4();
    Row5();
    Row6();
    Row7();
  }

  // ----- section 4.1.2: the functions -----

  function Add(x: int, y: int): word { (x + y) % TWO32 }

  function Ch(x: word, y: word, z: word): word { Op32(Xor, Op32(And, x, y), Op32(And, Not32(x), z)) }

  function Maj(x: word, y: word, z: word): word {
    Op32(Xor, Op32(Xor, Op32(And, x, y), Op32(And, x, z)), Op32(And, y, z))
  }

  function Xor3(x: word, y: word, z: word): word { Op32(Xor, Op32(Xor, x, y), z) }

  function BigSigma0(x: word): word { Xor3(Rotr(x, 2), Rotr(x, 13), Rotr(x, 22)) }

  function BigSigma1(x: word): word { Xor3(Rotr(x, 6), Rotr(x, 11), Rotr(x, 25)) }

  function Shr(x: word, n: nat): word
    requires n < 32
  {
    ShrIsWord(x, n);
    x / Pow2(n)
  }

  function SmallSigma0(x: word): word { Xor3(Rotr(x, 7), Rotr(x, 18), Shr(x, 3)) }

  function SmallSigma1(x: word): word { Xor3(Rotr(x, 17), Rotr(x, 19), Shr(x, 10)) }

  // ----- section 5.1.1: padding, in whole bytes -----

  function BE32(v: word): (s: seq<byte>)
    ensures |s| == 4
  {
    var x0: int := v;
    var x1 := x0 / 256;
    var x2 := x1 / 256;
    [x2 / 256, x2 % 256, x1 % 256, x0 % 256]
  }

  function FromBE32(s: seq<byte>): word
    requires |s| == 4
  {
    var b0: int, b1: int, b2: int := s[0], s[1], s[2];
    ((b0 * 256 + b1) * 256 + b2) * 256 + s[3]
  }

  lemma BE32RoundTrip(v: word)
    ensures FromBE32(BE32(v)) == v
  {
  }

  /** How many zero bytes follow 0x80. */
  function ZeroCount(n: nat): nat { (55 - n) % 64 }

  function BE64(v: nat): (s: seq<byte>)
    requires v < TWO32 * TWO32
    ensures |s| == 8
  {
    BE32(v / TWO32) + BE32(v % TWO32)
  }

  /** The standard's messages are shorter than 2^64 bits. */
  predicate Hashable(n: nat) { 8 * n < TWO32 * TWO32 }

  function Zeros(n: nat): seq<byte> { seq(n, i => 0) }

  function Framed(m: seq<byte>, zeros: nat): (p: seq<byte>)
    requires Hashable(|m|)
    ensures |p| == |m| + 9 + zeros
  {
    m + [0x80] + Zeros(zeros) + BE64(8 * |m|)
  }

  function Pad(m: seq<byte>): seq<byte>
    requires Hashable(|m|)
  {
    Framed(m, ZeroCount(|m|))
  }

  function Unpad(p: seq<byte>): seq<byte>
    requires |p| >= 8 && (FromBE32(p[|p| - 8..|p| - 4]) * TWO32 + FromBE32(p[|p| - 4..])) / 8 <= |p|
  {
    p[..(FromBE32(p[|p| - 8..|p| - 4]) * TWO32 + FromBE32(p[|p| - 4..])) / 8]
  }

  /** Section 5.1.1's equation for the zero run, in bytes: n + 1 + k is 56 modulo 64. */
  predicate Fills(n: nat, k: nat) { (n + 1 + k) % 64 == 56 }

  predicate Whole(n: nat) { n % 64 == 0 }

  lemma ZeroCountIsLeast(n: nat, k: nat)
    ensures Fills(n, ZeroCount(n))
    ensures Fills(n, k) ==> ZeroCount(n) <= k
  {
    var z := ZeroCount(n);
    var q, r := (55 - n) / 64, (n + 1 + k) / 64;
    assert n + 1 + z == 56 - 64 * q;
    assert Fills(n, k) ==> z - k == -64 * (q + r);
  }

  lemma LeastWhole(n: nat, x: nat)
    requires Whole(x) && n + 9 <= x
    ensures (n + 72) / 64 * 64 <= x
  {
    var q := (n + 72) / 64;
    assert x == 64 * (x / 64);
    assert 64 * q <= n + 72 < x + 64;
  }

  lemma PaddedLength(m: seq<byte>)
    requires Hashable(|m|)
    ensures |Pad(m)| == |m| + 9 + ZeroCount(|m|) == (|m| + 72) / 64 * 64
    ensures Whole(|Pad(m)|) && |m| + 9 <= |Pad(m)|
  {
    PadArithmetic(|m|);
  }

  /** The zero run is the shortest that works, and the padded length the least multiple of 64 that holds it all. */
  lemma PaddingIsLeast(m: seq<byte>, n: nat, k: nat)
    requires Hashable(|m|)
    ensures Whole(|Pad(m)|) && (Whole(n) && |m| + 9 <= n ==> |Pad(m)| <= n)
    ensures Fills(|m|, ZeroCount(|m|)) && (Fills(|m|, k) ==> ZeroCount(|m|) <= k)
  {
    PaddedLength(m);
    ZeroCountIsLeast(|m|, k);
    if Whole(n) && |m| + 9 <= n {
      LeastWhole(|m|, n);
    }
  }

  lemma PadArithmetic(n: nat)
    ensures n + 9 + ZeroCount(n) == (n + 72) / 64 * 64 && Whole(n + 9 + ZeroCount(n))
  {
    var q := (55 - n) / 64;
    assert n + 9 + ZeroCount(n) == 64 * (1 - q);
    assert (n + 72) / 64 == 1 - q;
  }

  /** Padding can be undone, so no two messages pad alike. */
  lemma PaddingUndone(m: seq<byte>)
    requires Hashable(|m|)
    ensures var p := Pad(m);
            && |p| >= 8 && (FromBE32(p[|p| - 8..|p| - 4]) * TWO32 + FromBE32(p[|p| - 4..])) / 8 <= |p|
            && Unpad(p) == m
  {
    var p := Pad(m);
    var v := 8 * |m|;
    assert p[|p| - 8..|p| - 4] == BE32(v / TWO32);
    assert p[|p| - 4..] == BE32(v % TWO32);
    BE32RoundTrip(v / TWO32);
    BE32RoundTrip(v % TWO32);
    assert v / TWO32 * TWO32 + v % TWO32 == v;
    assert p[..|m|] == m;
  }

  // ----- section 6.2: the computation -----

  datatype Eight = Eight(a: word, b: word, c: word, d: word, e: word, f: word, g: word, h: word)

  function NextWord(w: seq<word>): word
    requires |w| >= 16
  {
    var t := |w|;
    Add(Add(Add(SmallSigma1(w[t - 2]), w[t - 7]), SmallSigma0(w[t - 15])), w[t - 16])
  }

  /** The first n words of a block's message schedule. */
  function Schedule(m: seq<word>, n: nat): (w: seq<word>)
    requires |m| == 16 && n >= 16
    ensures |w| == n
  {
    if n == 16 then m else Schedule(m, n - 1) + [NextWord(Schedule(m, n - 1))]
  }

  function T1(e: word, f: word, g: word, h: word, k: word, w: word): word {
    Add(Add(Add(Add(h, BigSigma1(e)), Ch(e, f, g)), k), w)
  }

  function T2(a: word, b: word, c: word): word { Add(BigSigma0(a), Maj(a, b, c)) }

  function Round(v: Eight, k: word, w: word): Eight {
    var t1 := T1(v.e, v.f, v.g, v.h, k, w);
    var t2 := T2(v.a, v.b, v.c);
    Eight(Add(t1, t2), v.a, v.b, v.c, Add(v.d, t1), v.e, v.f, v.g)
  }

  function Rounds(v: Eight, w: seq<word>, t: nat): Eight
    requires t <= |w| <= |K|
  {
    if t == 0 then v else Round(Rounds(v, w, t - 1), K[t - 1], w[t - 1])
  }

  function Sum(x: Eight, y: Eight): Eight {
    Eight(Add(x.a, y.a), Add(x.b, y.b), Add(x.c, y.c), Add(x.d, y.d), Add(x.e, y.e), Add(x.f, y.f), Add(x.g, y.g),
          Add(x.h, y.h))
  }

  function Compress(v: Eight, m: seq<word>): Eight
    requires |m| == 16
  {
    Sum(v, Rounds(v, Schedule(m, |K|), |K|))
  }

  /** The sixteen big-endian words of the block at `off`. */
  function BlockAt(p: seq<byte>, off: nat): (m: seq<word>)
    requires off + 64 <= |p|
    ensures |m| == 16
  {
    seq(16, (i: nat) requires i < 16 => FromBE32(p[off + 4 * i..off + 4 * i + 4]))
  }

  function Hash(p: seq<byte>, n: nat): Eight
    requires 64 * n <= |p|
  {
    if n == 0 then INITIAL else Compress(Hash(p, n - 1), BlockAt(p, 64 * (n - 1)))
  }

  lemma HashStep(p: seq<byte>, n: nat)
    requires 64 * (n + 1) <= |p|
    ensures Hash(p, n + 1) == Compress(Hash(p, n), BlockAt(p, 64 * n))
  {
  }

  function Printed(words: seq<word>): (s: seq<byte>)
    ensures |s| == 4 * |words|
  {
    if words == [] then [] else Printed(words[..|words| - 1]) + BE32(words[|words| - 1])
  }

  function Output(v: Eight): (s: seq<byte>)
    ensures |s| == 32
  {
    Printed([v.a, v.b, v.c, v.d, v.e, v.f, v.g, v.h])
  }

  function Digest(m: seq<byte>): seq<byte>
    requires Hashable(|m|)
  {
    PaddedLength(m);
    Output(Hash(Pad(m), |Pad(m)| / 64))
  }

  // ----- the JavaScript expressions -----

  function JsSigma(x: int, i: nat, j: nat, k: nat): int
    requires 0 < i < 32 && 0 < j < 32 && 0 < k < 32
  {
    JsBit(Xor, JsBit(Xor, JsRotr(x, i), JsRotr(x, j)), JsRotr(x, k))
  }

  function JsShiftSigma(x: int, i: nat, j: nat, k: nat): int
    requires 0 < i < 32 && 0 < j < 32 && k < 32
  {
    JsBit(Xor, JsBit(Xor, JsRotr(x, i), JsRotr(x, j)), JsShr(x, k))
  }

  function JsCh(e: int, f: int, g: int): int { JsBit(Xor, JsBit(And, e, f), JsBit(And, JsNot(e), g)) }

  function JsMaj(a: int, b: int, c: int): int {
    JsBit(Xor, JsBit(Xor, JsBit(And, a, b), JsBit(And, a, c)), JsBit(And, b, c))
  }

  /** A signed double that stands for the word. */
  predicate Stands(x: int, w: word) { ToUint32(x) == w && -TWO31 <= x < TWO31 }

  lemma SigmaStands(x: word, i: nat, j: nat, k: nat)
    requires 0 < i < 32 && 0 < j < 32 && 0 < k < 32
    ensures Stands(JsSigma(x, i, j, k), Xor3(Rotr(x, i), Rotr(x, j), Rotr(x, k)))
  {
    SignedIsWord(x);
    JsRotrIsRotr(x, i);
    JsRotrIsRotr(x, j);
    JsRotrIsRotr(x, k);
    JsBitIsOp(Xor, JsRotr(x, i), JsRotr(x, j));
    JsBitIsOp(Xor, JsBit(Xor, JsRotr(x, i), JsRotr(x, j)), JsRotr(x, k));
  }

  lemma ShiftSigmaStands(x: word, i: nat, j: nat, k: nat)
    requires 0 < i < 32 && 0 < j < 32 && k < 32
    ensures Stands(JsShiftSigma(x, i, j, k), Xor3(Rotr(x, i), Rotr(x, j), Shr(x, k)))
  {
    SignedIsWord(x);
    JsRotrIsRotr(x, i);
    JsRotrIsRotr(x, j);
    ShrIsWord(x, k);
    JsBitIsOp(Xor, JsRotr(x, i), JsRotr(x, j));
    JsBitIsOp(Xor, JsBit(Xor, JsRotr(x, i), JsRotr(x, j)), JsShr(x, k));
  }

  lemma ChStands(e: word, f: word, g: word)
    ensures Stands(JsCh(e, f, g), Ch(e, f, g))
  {
    SignedIsWord(e);
    SignedIsWord(f);
    SignedIsWord(g);
    JsNotIsNot(e);
    JsBitIsOp(And, e, f);
    JsBitIsOp(And, JsNot(e), g);
    JsBitIsOp(Xor, JsBit(And, e, f), JsBit(And, JsNot(e), g));
  }

  lemma MajStands(a: word, b: word, c: word)
    ensures Stands(JsMaj(a, b, c), Maj(a, b, c))
  {
    SignedIsWord(a);
    SignedIsWord(b);
    SignedIsWord(c);
    JsBitIsOp(And, a, b);
    JsBitIsOp(And, a, c);
    JsBitIsOp(And, b, c);
    JsBitIsOp(Xor, JsBit(And, a, b), JsBit(And, a, c));
    JsBitIsOp(Xor, JsBit(Xor, JsBit(And, a, b), JsBit(And, a, c)), JsBit(And, b, c));
  }

  /** Truncating once at the end or after every addition is the same. */
  lemma AddChain(x: int, y: int, z: int)
    ensures Add(Add(x, y), z) == ToUint32(x + y + z)
  {
  }

  /** A signed summand may be replaced by the word it stands for. */
  lemma StandsInSum(x: int, s: int, u: word)
    requires Stands(s, u)
    ensures ToUint32(x + s) == ToUint32(x + u)
  {
  }

  lemma ScheduleSum(w16: word, s0: int, u0: word, w7: word, s1: int, u1: word)
    requires Stands(s0, u0) && Stands(s1, u1)
    ensures ToUint32(w16 + s0 + w7 + s1) == Add(Add(Add(u1, w7), u0), w16)
    ensures -TWO53 < w16 + s0 + w7 + s1 < TWO53
  {
    StandsInSum(w16 + s0 + w7, s1, u1);
    StandsInSum(w16 + w7 + u1, s0, u0);
    AddChain(u1, w7, u0);
    AddChain(u1 + w7, u0, w16);
  }

  lemma RoundSum(h: word, s: int, u: word, ch: int, c: word, k: word, w: word)
    requires Stands(s, u) && Stands(ch, c)
    ensures ToUint32(h + s + ch + k + w) == Add(Add(Add(Add(h, u), c), k), w)
    ensures -TWO53 < h + s + ch + k + w < TWO53
  {
    StandsInSum(h + ch + k + w, s, u);
    StandsInSum(h + u + k + w, ch, c);
    AddChain(h, u, c);
    AddChain(h + u, c, k);
    AddChain(h + u + c, k, w);
  }

  lemma PairSum(s: int, u: word, m: int, v: word)
    requires Stands(s, u) && Stands(m, v)
    ensures ToUint32(s + m) == Add(u, v) && -TWO53 < s + m < TWO53
  {
    StandsInSum(s, m, v);
    StandsInSum(v, s, u);
  }

  // ----- the code -----

  /** DataView.setUint32 at a byte offset, big endian. */
  method SetUint32(buf: array<byte>, at: nat, v: int)
    requires at + 4 <= buf.Length
    modifies buf
    ensures buf[..] == old(buf[..at]) + BE32(ToUint32(v)) + old(buf[at + 4..])
  {
    var b := BE32(ToUint32(v));
    buf[at], buf[at + 1], buf[at + 2], buf[at + 3] := b[0], b[1], b[2], b[3];
  }

  /** `((len + 9 + 63) >> 6) << 6` */
  function JsPadLen(len: int): int { JsShl(JsSar(len + 9 + 63, 6), 6) }

  /** The shifts compute the padded length exactly while len + 72 has no sign bit; from there on they do not. */
  lemma PadLenExactly(len: nat)
    requires len < TWO32
    ensures JsPadLen(len) == (len + 72) / 64 * 64 <==> len + 72 < TWO31
  {
    var x := len + 72;
    assert Pow2(6) == 64;
    if x < TWO31 {
      SignedIsWord(x);
      assert JsSar(x, 6) == x / 64;
      assert x / 64 * 64 <= x;
    } else {
      assert x / 64 * 64 >= TWO31;
      SignedIsWord(ToUint32(JsSar(x, 6)) * Pow2(6));
    }
  }

  lemma PadAssembles(m: seq<byte>, n: nat, s: seq<byte>, hi: word, lo: word)
    requires Hashable(|m|) && n == |Pad(m)| && n >= |m| + 9
    requires s == (m + Zeros(n - |m|))[|m| := 0x80]
    requires hi == 8 * |m| / TWO32 && lo == 8 * |m| % TWO32
    ensures var s' := s[..n - 8] + BE32(hi) + s[n - 4..];
            s'[..n - 4] + BE32(lo) + s'[n..] == Pad(m)
  {
    var z := ZeroCount(|m|);
    assert n - 8 == |m| + 1 + z;
    assert s[..n - 8] == m + [0x80] + Zeros(z);
    assert (s[..n - 8] + BE32(hi) + s[n - 4..])[..n - 4] == s[..n - 8] + BE32(hi);
  }

  /** `new Uint8Array(n)` with the message set at its start. */
  method Copied(bytes: array<byte>, n: nat) returns (buf: array<byte>)
    requires bytes.Length <= n
    ensures fresh(buf) && buf[..] == bytes[..] + Zeros(n - bytes.Length)
  {
    buf := new byte[n](_ => 0);
    var i := 0;
    while i < bytes.Length
      invariant 0 <= i <= bytes.Length
      invariant forall j :: 0 <= j < i ==> buf[j] == bytes[j]
      invariant forall j :: i <= j < n ==> buf[j] == 0
    {
      buf[i] := bytes[i];
      i := i + 1;
    }
  }

  method Padded(bytes: array<byte>) returns (buf: array<byte>)
    requires bytes.Length + 72 < TWO31
    ensures fresh(buf) && buf[..] == Pad(bytes[..])
  {
    var len := bytes.Length;
    PadLenExactly(len);
    PaddedLength(bytes[..]);
    var padLen := JsPadLen(len);
    buf := Copied(bytes, padLen);
    buf[len] := 0x80;
    PadAssembles(bytes[..], padLen, buf[..], 8 * len / TWO32, 8 * len % TWO32);
    SetLength(buf, len);
  }

  /** The two halves of the bit length, in the last eight bytes. */
  method SetLength(buf: array<byte>, len: nat)
    requires buf.Length >= 8 && 8 * len < TWO32 * TWO32
    modifies buf
    ensures var n := buf.Length;
            var s := old(buf[..]);
            var s' := s[..n - 8] + BE32(8 * len / TWO32) + s[n - 4..];
            buf[..] == s'[..n - 4] + BE32(8 * len % TWO32) + s'[n..]
  {
    SignedIsWord(len * 8 / TWO32);
    SetUint32(buf, buf.Length - 8, len * 8 / TWO32);
    SetUint32(buf, buf.Length - 4, len * 8);
  }

  /** DataView.getUint32, big endian. */
  function GetUint32(p: seq<byte>, at: nat): word
    requires at + 4 <= |p|
  {
    FromBE32(p[at..at + 4])
  }

  /** `(w[i-16] + s0 + w[i-7] + s1) >>> 0` */
  method Extended(w: array<word>, i: nat) returns (x: word)
    requires 16 <= i < w.Length
    ensures x == NextWord(w[..i])
  {
    var s0 := JsShiftSigma(w[i - 15], 7, 18, 3);
    var s1 := JsShiftSigma(w[i - 2], 17, 19, 10);
    ShiftSigmaStands(w[i - 15], 7, 18, 3);
    ShiftSigmaStands(w[i - 2], 17, 19, 10);
    ScheduleSum(w[i - 16], s0, SmallSigma0(w[i - 15]), w[i - 7], s1, SmallSigma1(w[i - 2]));
    x := ToUint32(w[i - 16] + s0 + w[i - 7] + s1);
  }

  method LoadBlock(buf: array<byte>, off: nat, w: array<word>)
    requires w.Length >= 16 && off + 64 <= buf.Length
    modifies w
    ensures w[..16] == BlockAt(buf[..], off)
  {
    ghost var m := BlockAt(buf[..], off);
    var i := 0;
    while i < 16
      invariant 0 <= i <= 16
      invariant forall t: nat :: t < i ==> w[t] == m[t]
    {
      w[i] := GetUint32(buf[..], off + 4 * i);
      i := i + 1;
    }
  }

  /** The block's schedule, filled into `w`. */
  method Expand(buf: array<byte>, off: nat, w: array<word>)
    requires w.Length == |K| && off + 64 <= buf.Length
    modifies w
    ensures w[..] == Schedule(BlockAt(buf[..], off), |K|)
  {
    ghost var m := BlockAt(buf[..], off);
    LoadBlock(buf, off, w);
    var i := 16;
    while i < w.Length
      invariant 16 <= i <= w.Length
      invariant w[..i] == Schedule(m, i)
    {
      var x := Extended(w, i);
      w[i] := x;
      assert w[..i + 1] == w[..i] + [x];
      i := i + 1;
    }
    assert w[..i] == w[..];
  }

  method FirstTemp(e: word, f: word, g: word, h: word, k: word, w: word) returns (t1: word)
    ensures t1 == T1(e, f, g, h, k, w)
  {
    var S1 := JsSigma(e, 6, 11, 25);
    var ch := JsCh(e, f, g);
    SigmaStands(e, 6, 11, 25);
    ChStands(e, f, g);
    RoundSum(h, S1, BigSigma1(e), ch, Ch(e, f, g), k, w);
    t1 := ToUint32(h + S1 + ch + k + w);
  }

  method SecondTemp(a: word, b: word, c: word) returns (t2: word)
    ensures t2 == T2(a, b, c)
  {
    var S0 := JsSigma(a, 2, 13, 22);
    var maj := JsMaj(a, b, c);
    SigmaStands(a, 2, 13, 22);
    MajStands(a, b, c);
    PairSum(S0, BigSigma0(a), maj, Maj(a, b, c));
    t2 := ToUint32(S0 + maj);
  }

  /** One block's 64 rounds, added into the running hash; `Add` is the source's sum under `>>> 0`. */
  method CompressBlock(v: Eight, w: array<word>, ghost m: seq<word>) returns (r: Eight)
    requires |m| == 16 && w[..] == Schedule(m, |K|)
    ensures r == Compress(v, m)
  {
    var a, b, c, d, e, f, g, h := v.a, v.b, v.c, v.d, v.e, v.f, v.g, v.h;
    var i := 0;
    while i < w.Length
      invariant 0 <= i <= w.Length
      invariant Eight(a, b, c, d, e, f, g, h) == Rounds(v, w[..], i)
    {
      var t1 := FirstTemp(e, f, g, h, K[i], w[i]);
      var t2 := SecondTemp(a, b, c);
      h, g, f, e := g, f, e, Add(d, t1);
      d, c, b, a := c, b, a, Add(t1, t2);
      i := i + 1;
    }
    r := Eight(Add(v.a, a), Add(v.b, b), Add(v.c, c), Add(v.d, d), Add(v.e, e), Add(v.f, f), Add(v.g, g), Add(v.h, h));
  }

  method WriteOut(h: Eight) returns (out: array<byte>)
    ensures fresh(out) && out[..] == Output(h)
  {
    out := new byte[32](_ => 0);
    var words := [h.a, h.b, h.c, h.d, h.e, h.f, h.g, h.h];
    var i := 0;
    while i < 8
      invariant 0 <= i <= 8
      invariant out[..4 * i] == Printed(words[..i])
    {
      ghost var done := out[..4 * i];
      SetUint32(out, 4 * i, words[i]);
      SignedIsWord(words[i]);
      assert out[..4 * (i + 1)] == done + BE32(words[i]);
      assert words[..i + 1][..i] == words[..i];
      i := i + 1;
    }
    assert words[..8] == words && out[..32] == out[..];
  }

  method HashNext(buf: array<byte>, off: nat, h: Eight, w: array<word>, ghost p: seq<byte>, ghost n: nat)
      returns (r: Eight)
    requires buf[..] == p && off == 64 * n && off + 64 <= |p| && w.Length == |K|
    requires h == Hash(p, n)
    modifies w
    ensures r == Hash(p, n + 1)
  {
    Expand(buf, off, w);
    r := CompressBlock(h, w, BlockAt(p, off));
    HashStep(p, n);
  }

  lemma RoomForBlock(n: nat, blocks: nat)
    requires 64 * n < 64 * blocks
    ensures 64 * n + 64 <= 64 * blocks
  {
  }

  lemma AllBlocks(n: nat, blocks: nat)
    requires 64 * n >= 64 * blocks && n <= blocks
    ensures n == blocks
  {
  }

  method HashBlocks(buf: array<byte>, ghost blocks: nat) returns (h: Eight)
    requires buf.Length == 64 * blocks
    ensures h == Hash(buf[..], blocks)
  {
    ghost var p := buf[..];
    var w := new word[|K|](_ => 0);
    h := INITIAL;
    var off := 0;
    ghost var n := 0;
    while off < buf.Length
      invariant n <= blocks && off == 64 * n
      invariant buf[..] == p && h == Hash(p, n)
    {
      RoomForBlock(n, blocks);
      h := HashNext(buf, off, h, w, p, n);
      off := off + 64;
      n := n + 1;
    }
    AllBlocks(n, blocks);
  }

  /** sha256Bytes: the digest of section 6.2 for every input the shifts can pad. */
  method Sha256Bytes(bytes: array<byte>) returns (out: array<byte>)
    requires bytes.Length + 72 < TWO31
    ensures fresh(out) && out[..] == Digest(bytes[..])
  {
    PaddedLength(bytes[..]);
    var buf := Padded(bytes);
    var h := HashBlocks(buf, buf.Length / 64);
    out := WriteOut(h);
  }

  // ----- the hex form -----

  const HEX := "0123456789abcdef"

  /** `b.toString(16).padStart(2, '0')` */
  function HexOf(b: byte): string { [HEX[b / 16], HEX[b % 16]] }

  function BytesToHex(s: seq<byte>): (r: string)
    ensures |r| == 2 * |s|
  {
    if s == [] then "" else HexOf(s[0]) + BytesToHex(s[1..])
  }

  function Nibble(c: char): int { if '0' <= c <= '9' then c as int - '0' as int else c as int - 'a' as int + 10 }

  lemma HexDigits(b: byte)
    ensures Nibble(HexOf(b)[0]) * 16 + Nibble(HexOf(b)[1]) == b
  {
    var hi, lo := b / 16, b % 16;
    assert forall n :: 0 <= n < 16 ==> Nibble(HEX[n]) == n;
  }

  lemma HexHead(s: seq<byte>)
    requires s != []
    ensures BytesToHex(s)[..2] == HexOf(s[0]) && BytesToHex(s)[2..] == BytesToHex(s[1..])
  {
  }

  lemma DigitsTell(b: byte, c: byte)
    requires HexOf(b) == HexOf(c)
    ensures b == c
  {
    HexDigits(b);
    HexDigits(c);
  }

  /** Two lowercase digits a byte: different digests never print alike. */
  lemma {:induction false} HexIsInjective(s: seq<byte>, t: seq<byte>)
    requires BytesToHex(s) == BytesToHex(t)
    ensures s == t
    decreases |s|
  {
    hide BytesToHex, HexOf;
    if s != [] && t != [] {
      HexHead(s);
      HexHead(t);
      DigitsTell(s[0], t[0]);
      HexIsInjective(s[1..], t[1..]);
      assert s == [s[0]] + s[1..] && t == [t[0]] + t[1..];
    }
  }
}
