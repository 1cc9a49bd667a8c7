/** Unsigned machine integers of the engine as bounded mathematical integers,
    with the wrapping, bitwise and bit-list operations the source applies to them. */
module Bytes {
  /** Rust's `u8`. */
  type u8 = x: int | 0 <= x < 0x100
  /** Rust's `u16`. */
  type u16 = x: int | 0 <= x < 0x10000

  /** `(hi as u16) << 8 | (lo as u16)`: a word from its two halves. */
  function Word(hi: u8, lo: u8): (r: u16)
    ensures HighByte(r) == hi && LowByte(r) == lo
  {
    hi * 0x100 + lo
  }

  /** `(data >> 8) as u8`. */
  function HighByte(d: u16): u8 { d / 0x100 }

  /** `(data & 0xff) as u8`. */
  function LowByte(d: u16): u8 { d % 0x100 }

  /** A word is the assembly of its own two halves. */
  lemma WordOfBytes(d: u16)
    ensures Word(HighByte(d), LowByte(d)) == d
  {
  }

  /** `u8::wrapping_add`. */
  function WrappingAdd8(a: u8, b: u8): (r: u8)
    ensures a + b < 0x100 ==> r == a + b
    ensures a + b >= 0x100 ==> r == a + b - 0x100
  {
    (a + b) % 0x100
  }

  /** `u8::wrapping_sub`. */
  function WrappingSub8(a: u8, b: u8): (r: u8)
    ensures a >= b ==> r == a - b
    ensures a < b ==> r == a - b + 0x100
  {
    (a - b) % 0x100
  }

  /** `u16::wrapping_add`. */
  function WrappingAdd16(a: u16, b: u16): (r: u16)
    ensures a + b < 0x10000 ==> r == a + b
    ensures a + b >= 0x10000 ==> r == a + b - 0x10000
  {
    (a + b) % 0x10000
  }

  /** Bit 7, the sign of a byte read as two's complement (`v >> 7 == 1`). */
  predicate Negative(v: u8) { v >= 0x80 }

  /** A byte read as a two's complement `i8` (`v as i8`). */
  function Signed(v: u8): (r: int)
    ensures -0x80 <= r < 0x80
    ensures r < 0 <==> Negative(v)
    ensures r % 0x100 == v
  {
    if v < 0x80 then v else v - 0x100
  }

  /** `b as u8` for a boolean. */
  function BoolByte(b: bool): (r: u8)
    ensures b <==> r == 1
    ensures !b <==> r == 0
  {
    if b then 1 else 0
  }

  /** `2^k`. */
  function Pow2(k: nat): (r: nat)
    ensures r >= 1
  {
    if k == 0 then 1 else 2 * Pow2(k - 1)
  }

  lemma Pow2Byte()
    ensures Pow2(8) == 0x100
  {
  }

  /** The low `k` bits of `n`, least significant first. */
  function BitList(n: nat, k: nat): (r: seq<bool>)
    ensures |r| == k
  {
    if k == 0 then [] else [n % 2 == 1] + BitList(n / 2, k - 1)
  }

  /** The number whose bits, least significant first, are `bs`. */
  function FromBitList(bs: seq<bool>): (r: nat)
    ensures r < Pow2(|bs|)
  {
    if |bs| == 0 then 0 else BoolByte(bs[0]) + 2 * FromBitList(bs[1..])
  }

  /** Bit `k` of `v` (bit 0 is the least significant). */
  predicate BitOf(v: u8, k: nat)
    requires k < 8
  {
    BitList(v, 8)[k]
  }

  /** A number below `2^k` is recovered from its low `k` bits. */
  lemma {:induction false} FromBitListOfBitList(n: nat, k: nat)
    requires n < Pow2(k)
    ensures FromBitList(BitList(n, k)) == n
  {
    if k > 0 {
      FromBitListOfBitList(n / 2, k - 1);
      assert BitList(n, k)[1..] == BitList(n / 2, k - 1);
    }
  }

  /** A bit list is recovered from the number it denotes. */
  lemma {:induction false} BitListOfFromBitList(bs: seq<bool>)
    ensures BitList(FromBitList(bs), |bs|) == bs
  {
    if |bs| > 0 {
      BitListOfFromBitList(bs[1..]);
      var n := FromBitList(bs);
      assert n / 2 == FromBitList(bs[1..]);
      assert (n % 2 == 1) == bs[0];
    }
  }

  /** The three bitwise operators of the source. */
  datatype Logic = Conj | Disj | Exclusive

  /** What an operator does to one pair of bits. */
  function Combine(op: Logic, x: bool, y: bool): bool
  {
    match op
    case Conj => x && y
    case Disj => x || y
    case Exclusive => x != y
  }

  /** `a op b`, computed bit by bit from the least significant. */
  function Bitwise(op: Logic, a: nat, b: nat): nat
    decreases a + b
  {
    if a == 0 && b == 0 then 0
    else BoolByte(Combine(op, a % 2 == 1, b % 2 == 1)) + 2 * Bitwise(op, a / 2, b / 2)
  }

  /** Operands below `2^k` give a result below `2^k`. */
  lemma {:induction false} BitwiseBound(op: Logic, a: nat, b: nat, k: nat)
    requires a < Pow2(k) && b < Pow2(k)
    ensures Bitwise(op, a, b) < Pow2(k)
    decreases k
  {
    if k > 0 && !(a == 0 && b == 0) {
      BitwiseBound(op, a / 2, b / 2, k - 1);
    }
  }

  /** `a & b` on bytes. */
  function And(a: u8, b: u8): u8 { Pow2Byte(); BitwiseBound(Conj, a, b, 8); Bitwise(Conj, a, b) }

  /** `a | b` on bytes. */
  function Or(a: u8, b: u8): u8 { Pow2Byte(); BitwiseBound(Disj, a, b, 8); Bitwise(Disj, a, b) }

  /** `a ^ b` on bytes. */
  function Xor(a: u8, b: u8): u8 { Pow2Byte(); BitwiseBound(Exclusive, a, b, 8); Bitwise(Exclusive, a, b) }

  /** Bit `i` of `a op b` is `op` applied to bit `i` of each. */
  lemma {:induction false} BitwiseBits(op: Logic, a: nat, b: nat, k: nat)
    ensures forall i :: 0 <= i < k ==>
      BitList(Bitwise(op, a, b), k)[i] == Combine(op, BitList(a, k)[i], BitList(b, k)[i])
  {
    if k > 0 {
      BitwiseBits(op, a / 2, b / 2, k - 1);
      var r := Bitwise(op, a, b);
      assert r / 2 == Bitwise(op, a / 2, b / 2);
      assert r % 2 == 1 <==> Combine(op, a % 2 == 1, b % 2 == 1);
      forall i | 0 <= i < k
        ensures BitList(r, k)[i] == Combine(op, BitList(a, k)[i], BitList(b, k)[i])
      {
        if i > 0 {
          assert BitList(r, k)[i] == BitList(r / 2, k - 1)[i - 1];
          assert BitList(a, k)[i] == BitList(a / 2, k - 1)[i - 1];
          assert BitList(b, k)[i] == BitList(b / 2, k - 1)[i - 1];
        }
      }
    }
  }

  /** The top bit of a `k`-bit number says whether it reaches `2^(k-1)`. */
  lemma {:induction false} TopBit(v: nat, k: nat)
    requires 1 <= k && v < Pow2(k)
    ensures BitList(v, k)[k - 1] <==> v >= Pow2(k - 1)
  {
    if k > 1 {
      TopBit(v / 2, k - 1);
      assert BitList(v, k)[k - 1] == BitList(v / 2, k - 1)[k - 2];
    }
  }

  /** A number is zero exactly when none of its bits is set. */
  lemma {:induction false} ZeroBits(v: nat, k: nat)
    requires v < Pow2(k)
    ensures v == 0 <==> forall i :: 0 <= i < k ==> !BitList(v, k)[i]
  {
    if k > 0 {
      ZeroBits(v / 2, k - 1);
      if v != 0 {
        if v % 2 == 0 {
          var i :| 0 <= i < k - 1 && BitList(v / 2, k - 1)[i];
          assert BitList(v, k)[i + 1];
        } else {
          assert BitList(v, k)[0];
        }
      } else {
        forall i | 0 <= i < k ensures !BitList(v, k)[i] {
          if i > 0 { assert BitList(v, k)[i] == BitList(v / 2, k - 1)[i - 1]; }
        }
      }
    }
  }

  /** Bit 7 of `a ^ b` is set exactly when `a` and `b` differ in sign. */
  lemma XorSign(a: u8, b: u8)
    ensures Negative(Xor(a, b)) <==> Negative(a) != Negative(b)
  {
    Pow2Byte();
    BitwiseBits(Exclusive, a, b, 8);
    TopBit(a, 8); TopBit(b, 8); TopBit(Xor(a, b), 8);
  }

  /** Bit 7 of `a & b` is set exactly when both are negative. */
  lemma AndSign(a: u8, b: u8)
    ensures Negative(And(a, b)) <==> Negative(a) && Negative(b)
  {
    Pow2Byte();
    BitwiseBits(Conj, a, b, 8);
    TopBit(a, 8); TopBit(b, 8); TopBit(And(a, b), 8);
  }

  /** `a & b` is zero exactly when the two bytes share no set bit. */
  lemma AndZero(a: u8, b: u8)
    ensures And(a, b) == 0 <==> forall i :: 0 <= i < 8 ==> !(BitOf(a, i) && BitOf(b, i))
  {
    Pow2Byte();
    BitwiseBits(Conj, a, b, 8);
    ZeroBits(And(a, b), 8);
    assert forall i :: 0 <= i < 8 ==> (BitList(And(a, b), 8)[i] <==> BitOf(a, i) && BitOf(b, i));
  }

  /** Zero is the identity of `|` and `^`. */
  lemma {:induction false} ZeroIdentity(op: Logic, v: nat)
    requires op != Conj
    ensures Bitwise(op, 0, v) == v
  {
    if v > 0 { ZeroIdentity(op, v / 2); }
  }

  /** Zero absorbs `&`, on either side. */
  lemma {:induction false} ZeroAbsorbs(v: nat)
    ensures Bitwise(Conj, 0, v) == 0 && Bitwise(Conj, v, 0) == 0
  {
    if v > 0 { ZeroAbsorbs(v / 2); }
  }

  /** Masking with the single bit `2^j` keeps exactly bit `j`. */
  lemma SingleBitMask(v: u8, mask: u8, j: nat)
    requires j < 8 && mask == Pow2(j)
    ensures And(v, mask) != 0 <==> BitOf(v, j)
  {
    Pow2Byte();
    BitwiseBits(Conj, v, mask, 8);
    ZeroBits(And(v, mask), 8);
    Pow2Bits(j, 8);
    if BitOf(v, j) {
      assert BitList(And(v, mask), 8)[j];
    }
  }

  /** `2^j` has bit `j` and no other. */
  lemma {:induction false} Pow2Bits(j: nat, k: nat)
    requires j < k
    ensures forall i :: 0 <= i < k ==> (BitList(Pow2(j), k)[i] <==> i == j)
  {
    if j == 0 {
      assert Pow2(0) == 1;
      forall i | 0 < i < k ensures !BitList(1, k)[i] {
        assert BitList(1, k)[i] == BitList(0, k - 1)[i - 1];
        ZeroBits(0, k - 1);
      }
    } else {
      Pow2Bits(j - 1, k - 1);
      forall i | 0 < i < k ensures BitList(Pow2(j), k)[i] == BitList(Pow2(j - 1), k - 1)[i - 1] {
      }
    }
  }

  /** Bit 7 is the sign. */
  lemma SignBit(v: u8)
    ensures BitOf(v, 7) <==> Negative(v)
  {
    Pow2Byte();
    TopBit(v, 8);
  }

  /** Masking with 0x80 keeps exactly the sign. */
  lemma AndSignMask(v: u8)
    ensures And(v, 0x80) != 0 <==> Negative(v)
  {
    SingleBitMask(v, 0x80, 7);
    SignBit(v);
  }

  /** `|` and `^` with zero give the other operand, `&` with zero gives zero. */
  lemma ZeroOperand(v: u8)
    ensures Or(0, v) == v && Xor(0, v) == v && And(0, v) == 0 && And(v, 0) == 0
  {
    Pow2Byte();
    ZeroIdentity(Disj, v);
    ZeroIdentity(Exclusive, v);
    ZeroAbsorbs(v);
  }

  /** `v >> k`. */
  function Shr(v: nat, k: nat): nat
  {
    if k == 0 then v else Shr(v / 2, k - 1)
  }

  /** Shifting once more halves the result. */
  lemma {:induction false} ShrStep(v: nat, k: nat)
    ensures Shr(v, k) / 2 == Shr(v, k + 1)
  {
    if k > 0 {
      ShrStep(v / 2, k - 1);
    }
  }

  /** Bit `i` of the bit list is the low bit of `n >> i`. */
  lemma {:induction false} BitListShr(n: nat, k: nat, i: nat)
    requires i < k
    ensures BitList(n, k)[i] <==> Shr(n, i) % 2 == 1
  {
    if i > 0 {
      BitListShr(n / 2, k - 1, i - 1);
      assert BitList(n, k)[i] == BitList(n / 2, k - 1)[i - 1];
    }
  }

  /** Bit `k` of a byte, by shifting: `(v >> k) & 1 == 1`. */
  lemma BitOfShr(v: u8, k: nat)
    requires k < 8
    ensures BitOf(v, k) <==> Shr(v, k) % 2 == 1
  {
    BitListShr(v, 8, k);
  }

  /** Masking a `k`-bit number with `2^k - 1` changes nothing. */
  lemma {:induction false} MaskAll(a: nat, k: nat)
    requires a < Pow2(k)
    ensures Bitwise(Conj, a, Pow2(k) - 1) == a
  {
    if k > 0 {
      var p := Pow2(k - 1);
      assert (Pow2(k) - 1) / 2 == p - 1 && (Pow2(k) - 1) % 2 == 1;
      MaskAll(a / 2, k - 1);
    }
  }

  /** `v & 0b11` is the two low bits of `v`. */
  lemma AndLowBits(v: u8)
    ensures And(v, 0x03) == v % 4
  {
    Pow2Byte();
    assert Bitwise(Conj, v / 4, 0) == 0 by { ZeroAbsorbs(v / 4); }
    assert Bitwise(Conj, v / 2, 1) == (v / 2) % 2;
    assert Bitwise(Conj, v, 3) == v % 2 + 2 * Bitwise(Conj, v / 2, 1);
  }

  /** `v & 0xFF` is `v` itself. */
  lemma AndAllOnes(v: u8)
    ensures And(v, 0xFF) == v
  {
    Pow2Byte();
    MaskAll(v, 8);
  }

  /** The bits of `2^k - 1 - v` are those of `v`, inverted: `!v` on `k` bits. */
  lemma {:induction false} ComplementBits(v: nat, k: nat)
    requires v < Pow2(k)
    ensures forall i :: 0 <= i < k ==> BitList(Pow2(k) - 1 - v, k)[i] == !BitList(v, k)[i]
  {
    if k > 0 {
      var p := Pow2(k - 1);
      ComplementBits(v / 2, k - 1);
      var c := Pow2(k) - 1 - v;
      assert c / 2 == p - 1 - v / 2;
      assert c % 2 == 1 - v % 2;
      forall i | 0 <= i < k
        ensures BitList(c, k)[i] == !BitList(v, k)[i]
      {
        if i > 0 {
          assert BitList(c, k)[i] == BitList(c / 2, k - 1)[i - 1];
          assert BitList(v, k)[i] == BitList(v / 2, k - 1)[i - 1];
        }
      }
    }
  }
}
