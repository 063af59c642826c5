/** 64-bit unsigned words as `Model::hash` and `hash_coords` use them: values
    below 2^64, the bitwise exclusive or, and the running minimum that
    starts at `u64::MAX`.

    A word is an integer below 2^64 rather than a `bv64`, and `Xor` is the
    exclusive or computed bit by bit from the lowest bit up. On two values
    below 2^64 it is exactly `u64 ^ u64` (`XorWord`), and its algebra
    (commutative, associative, 0 as unit) is proved here by induction on
    the bits. The fold lemmas of the fingerprint need that algebra under
    quantifiers over cell lists, where the solver's bit-vector reasoning
    does not scale; integer arithmetic does. */
module Words {
  /** A Rust `u64`. */
  type U64 = x: int | 0 <= x < 0x1_0000_0000_0000_0000

  const U64Max: U64 := 0xFFFF_FFFF_FFFF_FFFF

  function Pow2(k: nat): (r: nat)
    ensures r > 0
  {
    if k == 0 then 1 else 2 * Pow2(k - 1)
  }

  lemma Pow2Byte(k: nat)
    ensures Pow2(k + 8) == 256 * Pow2(k)
  {
    assert Pow2(k + 8) == 2 * Pow2(k + 7) == 4 * Pow2(k + 6) == 8 * Pow2(k + 5) == 16 * Pow2(k + 4);
    assert Pow2(k + 4) == 2 * Pow2(k + 3) == 4 * Pow2(k + 2) == 8 * Pow2(k + 1) == 16 * Pow2(k);
  }

  /** A `u64` holds exactly the values below 2^64. */
  lemma Pow2Word()
    ensures Pow2(64) == 0x1_0000_0000_0000_0000
  {
    Pow2Byte(0);
    Pow2Byte(8);
    Pow2Byte(16);
    Pow2Byte(24);
    Pow2Byte(32);
    Pow2Byte(40);
    Pow2Byte(48);
    Pow2Byte(56);
  }

  /** Bitwise exclusive or of two naturals, lowest bit first. */
  function Xor(a: nat, b: nat): nat
    decreases a + b
  {
    if a == 0 && b == 0 then 0
    else 2 * Xor(a / 2, b / 2) + (if a % 2 == b % 2 then 0 else 1)
  }

  /** The low bit of an exclusive or and the bits above it. */
  lemma XorHalves(a: nat, b: nat)
    ensures Xor(a, b) / 2 == Xor(a / 2, b / 2)
    ensures Xor(a, b) % 2 == (if a % 2 == b % 2 then 0 else 1)
  {
  }

  lemma {:induction false} XorCommutes(a: nat, b: nat)
    ensures Xor(a, b) == Xor(b, a)
    decreases a + b
  {
    if a != 0 || b != 0 {
      XorCommutes(a / 2, b / 2);
    }
  }

  lemma {:induction false} XorZero(a: nat)
    ensures Xor(a, 0) == a && Xor(0, a) == a
    decreases a
  {
    if a != 0 {
      XorZero(a / 2);
    }
  }

  lemma {:induction false} XorAssociates(a: nat, b: nat, c: nat)
    ensures Xor(Xor(a, b), c) == Xor(a, Xor(b, c))
    decreases a + b + c
  {
    if a != 0 || b != 0 || c != 0 {
      XorHalves(a, b);
      XorHalves(b, c);
      XorAssociates(a / 2, b / 2, c / 2);
      var l := Xor(Xor(a, b), c);
      var r := Xor(a, Xor(b, c));
      XorHalves(Xor(a, b), c);
      XorHalves(a, Xor(b, c));
      assert l / 2 == r / 2 && l % 2 == r % 2;
    }
  }

  /** Exclusive or never sets a bit above the operands' width. */
  lemma {:induction false} XorBelow(a: nat, b: nat, k: nat)
    requires a < Pow2(k) && b < Pow2(k)
    ensures Xor(a, b) < Pow2(k)
    decreases k
  {
    if k > 0 && (a != 0 || b != 0) {
      XorBelow(a / 2, b / 2, k - 1);
    }
  }

  /** `u64 ^ u64`. */
  function XorWord(a: U64, b: U64): (r: U64)
    ensures r == Xor(a, b)
  {
    Pow2Word();
    XorBelow(a, b, 64);
    Xor(a, b)
  }

  /** Exchanging the last two operands of an exclusive-or chain. */
  lemma XorSwap(a: U64, b: U64, c: U64)
    ensures XorWord(XorWord(a, b), c) == XorWord(XorWord(a, c), b)
  {
    XorAssociates(a, b, c);
    XorCommutes(b, c);
    XorAssociates(a, c, b);
  }

  /** `u64::min`. */
  function Min(a: U64, b: U64): (r: U64)
    ensures r <= a && r <= b
    ensures r == a || r == b
  {
    if a <= b then a else b
  }

  /** The running minimum of the first `n` words, starting at `u64::MAX`:
      a lower bound of them that is one of them. */
  function MinOf(ds: seq<U64>, n: nat): (r: U64)
    requires n <= |ds|
    ensures forall k :: 0 <= k < n ==> r <= ds[k]
    ensures n > 0 ==> exists k :: 0 <= k < n && r == ds[k]
    ensures n == 0 ==> r == U64Max
  {
    if n == 0 then U64Max else Min(MinOf(ds, n - 1), ds[n - 1])
  }
}
