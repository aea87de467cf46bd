/**
 The core fingerprint (`crates/core/build.rs`): 64-bit FNV-1a, as in section 2
 of draft-eastlake-fnv, folded over the crate's version and its sorted sources.
 A change detector, so: which changes it is sure to detect, and what it cannot
 depend on. Arithmetic is modulo 2^64, as `wrapping_mul` is.
 */
module Fingerprint {
  const MODULUS := 0x1_0000_0000_0000_0000
  const OFFSET := 0xcbf2_9ce4_8422_2325
  const PRIME := 0x0000_0100_0000_01b3
  /** The inverse of the prime modulo 2^64. */
  const INVERSE := 0xce96_5057_aff6_957b

  type Byte = b: nat | b < 256

  type U64 = h: nat | h < MODULUS

  // ---- Exclusive or ----

  function Xor(a: nat, b: nat): nat {
    if a == 0 && b == 0 then 0 else 2 * Xor(a / 2, b / 2) + (a + b) % 2
  }

  function Pow2(k: nat): nat {
    if k == 0 then 1 else 2 * Pow2(k - 1)
  }

  lemma XorSplits(a: nat, b: nat)
    ensures Xor(a, b) / 2 == Xor(a / 2, b / 2) && Xor(a, b) % 2 == (a + b) % 2
  {
    if a == 0 && b == 0 { assert Xor(0, 0) == 0; }
  }

  lemma ParityTwice(a: nat, b: nat, r: nat)
    requires r % 2 == (a + b) % 2
    ensures (r + b) % 2 == a % 2
  {
  }

  lemma {:induction false} XorTwice(a: nat, b: nat)
    ensures Xor(Xor(a, b), b) == a
  {
    if a != 0 || b != 0 {
      var r := Xor(a, b);
      XorTwice(a / 2, b / 2);
      XorSplits(a, b);
      XorSplits(r, b);
      ParityTwice(a, b, r);
      hide Xor;
      assert Xor(r, b) / 2 == a / 2 && Xor(r, b) % 2 == a % 2;
    }
  }

  lemma {:induction false} XorBound(a: nat, b: nat, k: nat)
    requires a < Pow2(k) && b < Pow2(k)
    ensures Xor(a, b) < Pow2(k)
  {
    if k > 0 && (a != 0 || b != 0) { XorBound(a / 2, b / 2, k - 1); }
  }

  /** The high part is untouched by a small operand. */
  lemma {:induction false} XorHigh(a: nat, b: nat, k: nat)
    requires b < Pow2(k)
    ensures Xor(a, b) / Pow2(k) == a / Pow2(k)
  {
    if k == 0 {
      XorZero(a);
    } else {
      XorHigh(a / 2, b / 2, k - 1);
      XorSplits(a, b);
      hide Xor;
      HalvedAlike(Xor(a, b), a, Pow2(k - 1));
    }
  }

  lemma HalvedAlike(r: nat, a: nat, p: nat)
    requires p > 0 && (r / 2) / p == (a / 2) / p
    ensures r / (2 * p) == a / (2 * p)
  {
    Halved(r, p);
    Halved(a, p);
  }

  lemma {:induction false} XorZero(a: nat)
    ensures Xor(a, 0) == a
  {
    if a != 0 { XorZero(a / 2); }
  }

  lemma Halved(a: nat, d: nat)
    requires d > 0
    ensures a / (2 * d) == a / 2 / d
  {
    var q, r := a / 2 / d, a / 2 % d;
    assert a == 2 * (d * q + r) + a % 2;
    var s := 2 * r + a % 2;
    assert 0 <= s < 2 * d && a == (2 * d) * q + s;
    QuotientUnique(a, 2 * d, q, s);
  }

  lemma {:induction false} MultiplesApart(d: nat, p: int, q: int)
    requires d > 0 && p < q
    ensures d * p + d <= d * q
    decreases q - p
  {
    OneMore(d, q - 1);
    if p < q - 1 { MultiplesApart(d, p, q - 1); }
  }

  lemma OneMore(d: nat, p: int)
    ensures d * (p + 1) == d * p + d
  {
  }

  lemma QuotientUnique(a: int, d: nat, q: int, s: int)
    requires d > 0 && a == d * q + s && 0 <= s < d
    ensures a / d == q && a % d == s
  {
    var p, t := a / d, a % d;
    assert a == d * p + t && 0 <= t < d;
    if p < q { MultiplesApart(d, p, q); }
    if q < p { MultiplesApart(d, q, p); }
  }

  lemma Pow2Values()
    ensures Pow2(8) == 256 && Pow2(64) == MODULUS
  {
    assert Pow2(4) == 16;
    assert Pow2(8) == 256;
    Pow2Adds(8, 8);
    Pow2Adds(16, 16);
    Pow2Adds(32, 32);
  }

  lemma {:induction false} Pow2Adds(a: nat, b: nat)
    ensures Pow2(a + b) == Pow2(a) * Pow2(b)
  {
    if a > 0 { Pow2Adds(a - 1, b); }
  }

  lemma ByteXor(h: U64, b: Byte)
    ensures Xor(h, b) < MODULUS && Xor(h, b) / 256 == h / 256
  {
    Pow2Values();
    XorBound(h, b, 64);
    XorHigh(h, b, 8);
  }

  // ---- The step ----

  /** One byte of `Fnv1a::update`. */
  function Step(h: U64, b: Byte): U64 {
    Xor(h, b) * PRIME % MODULUS
  }

  function Unstep(h: U64, b: Byte): U64 {
    ByteXor(h * INVERSE % MODULUS, b);
    Xor(h * INVERSE % MODULUS, b)
  }

  /** Multiplying by the prime and by its inverse, in either order, gives a 64-bit word back. */
  lemma MultipliedBack(x: U64)
    ensures x * PRIME % MODULUS * INVERSE % MODULUS == x
    ensures x * INVERSE % MODULUS * PRIME % MODULUS == x
  {
    var q := (PRIME * INVERSE - 1) / MODULUS;
    assert PRIME * INVERSE == 1 + MODULUS * q;
    var y, k := x * PRIME % MODULUS, x * PRIME / MODULUS;
    assert y == x * PRIME - MODULUS * k;
    assert y * INVERSE == MODULUS * (q * x - k * INVERSE) + x;
    QuotientUnique(y * INVERSE, MODULUS, q * x - k * INVERSE, x);
    var z, j := x * INVERSE % MODULUS, x * INVERSE / MODULUS;
    assert z == x * INVERSE - MODULUS * j;
    assert z * PRIME == MODULUS * (q * x - j * PRIME) + x;
    QuotientUnique(z * PRIME, MODULUS, q * x - j * PRIME, x);
  }

  /** The step is a bijection on 64-bit states: for every byte, each state has one state before it. */
  lemma StepIsBijective(h: U64, b: Byte)
    ensures Unstep(Step(h, b), b) == h
    ensures Step(Unstep(h, b), b) == h
  {
    ByteXor(h, b);
    MultipliedBack(Xor(h, b));
    XorTwice(h, b);
    MultipliedBack(h);
    XorTwice(h * INVERSE % MODULUS, b);
  }

  /** `Fnv1a::update`. */
  function Update(h: U64, bytes: seq<Byte>): U64
    decreases |bytes|
  {
    if bytes == [] then h else Step(Update(h, bytes[..|bytes| - 1]), bytes[|bytes| - 1])
  }

  lemma XorDoubled(a: nat, b: nat, x: nat, y: nat, r: nat)
    requires x == a / 2 && y == b / 2 && r == Xor(x, y)
    ensures Xor(a, b) == 2 * r + (a + b) % 2
  {
    XorSplits(a, b);
    hide Xor;
  }

  /** The exclusive or of the offset basis and the letter "a", bit by bit. */
  lemma FirstXor()
    ensures Xor(0xcbf2_9ce4_8422_2325, 97) == 0xcbf2_9ce4_8422_2344
  {
    XorZero(0x197_e539_c908_4446);
    hide Xor;
    XorDoubled(0x32fca739210888c, 1, 0x197e539c9084446, 0, 0x197e539c9084446);
    XorDoubled(0x65f94e724211119, 3, 0x32fca739210888c, 1, 0x32fca739210888d);
    XorDoubled(0xcbf29ce48422232, 6, 0x65f94e724211119, 3, 0x65f94e72421111a);
    XorDoubled(0x197e539c90844464, 12, 0xcbf29ce48422232, 6, 0xcbf29ce48422234);
    XorDoubled(0x32fca739210888c9, 24, 0x197e539c90844464, 12, 0x197e539c90844468);
    XorDoubled(0x65f94e7242111192, 48, 0x32fca739210888c9, 24, 0x32fca739210888d1);
    XorDoubled(0xcbf29ce484222325, 97, 0x65f94e7242111192, 48, 0x65f94e72421111a2);
  }

  lemma FirstStep()
    ensures Step(OFFSET, 97) == 0xaf63_dc4c_8601_ec8c
  {
    FirstXor();
    hide Xor;
  }

  /** The published hashes of the empty text and of "a". */
  lemma KnownHashes()
    ensures Update(OFFSET, []) == 0xcbf2_9ce4_8422_2325
    ensures Update(OFFSET, [97]) == 0xaf63_dc4c_8601_ec8c
  {
    FirstStep();
    hide Step;
    assert [97][..0] == [];
  }

  /** Hashing a concatenation is hashing its parts one after the other. */
  lemma {:induction false} UpdateConcat(h: U64, a: seq<Byte>, b: seq<Byte>)
    ensures Update(h, a + b) == Update(Update(h, a), b)
    decreases |b|
  {
    if b == [] {
      assert a + b == a;
    } else {
      assert (a + b)[..|a + b| - 1] == a + b[..|b| - 1];
      UpdateConcat(h, a, b[..|b| - 1]);
    }
  }

  /** Different states stay different, whatever is hashed after. */
  lemma {:induction false} UpdateSeparates(h: U64, g: U64, bytes: seq<Byte>)
    ensures Update(h, bytes) == Update(g, bytes) <==> h == g
    decreases |bytes|
  {
    if bytes != [] {
      var rest, last := bytes[..|bytes| - 1], bytes[|bytes| - 1];
      UpdateSeparates(h, g, rest);
      StepIsBijective(Update(h, rest), last);
      StepIsBijective(Update(g, rest), last);
    }
  }

  /** One byte changed, anywhere: the hash changes. */
  lemma OneByteChanges(h: U64, before: seq<Byte>, b: Byte, c: Byte, after: seq<Byte>)
    ensures Update(h, before + [b] + after) == Update(h, before + [c] + after) <==> b == c
  {
    UpdateConcat(h, before + [b], after);
    UpdateConcat(h, before + [c], after);
    UpdateConcat(h, before, [b]);
    UpdateConcat(h, before, [c]);
    UpdateSeparates(Update(h, before + [b]), Update(h, before + [c]), after);
    StepSeparatesBytes(Update(h, before), b, c);
    UpdateOne(Update(h, before), b);
    UpdateOne(Update(h, before), c);
  }

  lemma UpdateOne(h: U64, b: Byte)
    ensures Update(h, [b]) == Step(h, b)
  {
    assert [b][..0] == [];
  }

  lemma StepSeparatesBytes(h: U64, b: Byte, c: Byte)
    ensures Step(h, b) == Step(h, c) <==> b == c
  {
    if Step(h, b) == Step(h, c) {
      ByteXor(h, b);
      ByteXor(h, c);
      MultipliedBack(Xor(h, b));
      MultipliedBack(Xor(h, c));
      XorCancels(h, b, c);
    }
  }

  lemma SameParity(a: nat, b: nat, c: nat)
    ensures (a + b) % 2 == (a + c) % 2 ==> b % 2 == c % 2
  {
  }

  lemma {:induction false} XorCancels(a: nat, b: nat, c: nat)
    requires Xor(a, b) == Xor(a, c)
    ensures b == c
    decreases a + b + c
  {
    if a != 0 || b != 0 || c != 0 {
      XorSplits(a, b);
      XorSplits(a, c);
      SameParity(a, b, c);
      hide Xor;
      XorCancels(a / 2, b / 2, c / 2);
    }
  }

  /** Two neighbouring bytes changed, however: the second cannot put back what the first did. */
  lemma TwoBytesChange(h: U64, before: seq<Byte>, b: Byte, b': Byte, c: Byte, c': Byte, after: seq<Byte>)
    ensures Update(h, before + [b, b'] + after) == Update(h, before + [c, c'] + after) <==> b == c && b' == c'
  {
    var at := Update(h, before);
    UpdateConcat(h, before + [b, b'], after);
    UpdateConcat(h, before + [c, c'], after);
    UpdateConcat(h, before, [b, b']);
    UpdateConcat(h, before, [c, c']);
    UpdateTwo(at, b, b');
    UpdateTwo(at, c, c');
    UpdateSeparates(Update(at, [b, b']), Update(at, [c, c']), after);
    if Step(Step(at, b), b') == Step(Step(at, c), c') {
      SecondCannotUndo(at, b, b', c, c');
      StepSeparatesBytes(Step(at, b), b', c');
    }
  }

  lemma UpdateTwo(h: U64, b: Byte, c: Byte)
    ensures Update(h, [b, c]) == Step(Step(h, b), c)
  {
    assert [b, c] == [b] + [c];
    UpdateConcat(h, [b], [c]);
    UpdateOne(h, b);
    UpdateOne(Step(h, b), c);
  }

  /** States a byte apart at their low ends are far apart once multiplied by the prime. */
  lemma SecondCannotUndo(h: U64, b: Byte, b': Byte, c: Byte, c': Byte)
    requires Step(Step(h, b), b') == Step(Step(h, c), c')
    ensures b == c
  {
    var u, v := Xor(h, b), Xor(h, c);
    var y, z := Step(h, b), Step(h, c);
    ByteXor(h, b);
    ByteXor(h, c);
    ByteXor(y, b');
    ByteXor(z, c');
    MultipliedBack(Xor(y, b'));
    MultipliedBack(Xor(z, c'));
    assert y / 256 == z / 256 && u / 256 == v / 256;
    FarApart(u, v);
    if u == v { XorCancels(h, b, c); }
  }

  lemma FarApart(u: U64, v: U64)
    requires u / 256 == v / 256
    requires u * PRIME % MODULUS / 256 == v * PRIME % MODULUS / 256
    ensures u == v
  {
    var k := u * PRIME / MODULUS - v * PRIME / MODULUS;
    var near := u * PRIME % MODULUS - v * PRIME % MODULUS;
    assert (u - v) * PRIME == near + MODULUS * k;
    assert -256 < u - v < 256 && -256 < near < 256;
  }

  /** `Fnv1a`, its state updated byte by byte. */
  class Fnv1a {
    var state: U64

    constructor ()
      ensures state == OFFSET
    {
      state := OFFSET;
    }

    method UpdateWith(bytes: seq<Byte>)
      modifies this
      ensures state == Update(old(state), bytes)
    {
      var i := 0;
      while i < |bytes|
        invariant i <= |bytes| && state == Update(old(state), bytes[..i])
      {
        ByteXor(state, bytes[i]);
        state := Xor(state, bytes[i]);
        state := state * PRIME % MODULUS;
        assert bytes[..i + 1][..i] == bytes[..i];
        i := i + 1;
      }
      assert bytes[..i] == bytes;
    }
  }
}
