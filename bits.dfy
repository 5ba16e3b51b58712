/**
 * Bit-level helpers on register bytes and on the 16-bit value of a register
 * pair: Arduino's bit, bitRead, bitSet, bitClear, lowByte and highByte,
 * written as pure functions on bit-vectors.
 */
module Bits {

  /** The byte with only bit `b` set (Arduino's `bit(b)`). */
  function Bit(b: nat): (m: bv8)
    requires b < 8
  {
    (1 as bv8) << b
  }

  /** Arduino's `bitRead(v, b)`, `(v >> b) & 1`: is bit `b` of `v` set?
      It is set exactly when the mask `bit(b)` meets `v`. */
  predicate BitRead(v: bv8, b: nat)
    requires b < 8
    ensures BitRead(v, b) <==> v & Bit(b) != 0
  {
    (v >> b) & 1 == 1
  }


  /** `v` and `w` agree on every bit except possibly bit `b`. */
  predicate SameBitsExcept(v: bv8, w: bv8, b: nat)
  {
    forall i :: 0 <= i < 8 && i != b ==> BitRead(v, i) == BitRead(w, i)
  }

  /** Arduino's `bitSet(v, b)`. */
  function BitSet(v: bv8, b: nat): (r: bv8)
    requires b < 8
    ensures BitRead(r, b)
    ensures SameBitsExcept(r, v, b)
  {
    v | Bit(b)
  }

  /** Arduino's `bitClear(v, b)`. */
  function BitClear(v: bv8, b: nat): (r: bv8)
    requires b < 8
    ensures !BitRead(r, b)
    ensures SameBitsExcept(r, v, b)
  {
    v & !Bit(b)
  }

  /** Sets bit `b` when `on` holds and clears it otherwise: the
      `if (c) bitSet(v, b); else bitClear(v, b);` shape of the driver. */
  function BitWrite(v: bv8, b: nat, on: bool): (r: bv8)
    requires b < 8
    ensures BitRead(r, b) == on
    ensures SameBitsExcept(r, v, b)
  {
    if on then BitSet(v, b) else BitClear(v, b)
  }

  /** A byte is determined by its eight bits. */
  lemma BitsDetermine(v: bv8, w: bv8)
    requires forall i :: 0 <= i < 8 ==> BitRead(v, i) == BitRead(w, i)
    ensures v == w
  {
    assert BitRead(v, 0) == BitRead(w, 0);
    assert BitRead(v, 1) == BitRead(w, 1);
    assert BitRead(v, 2) == BitRead(w, 2);
    assert BitRead(v, 3) == BitRead(w, 3);
    assert BitRead(v, 4) == BitRead(w, 4);
    assert BitRead(v, 5) == BitRead(w, 5);
    assert BitRead(v, 6) == BitRead(w, 6);
    assert BitRead(v, 7) == BitRead(w, 7);
  }

  /** The read-modify-write contract determines the byte written: a byte
      whose bit `b` is `on` and whose other seven bits are those of `v` is
      `BitWrite(v, b, on)`. */
  lemma BitWriteUnique(v: bv8, b: nat, on: bool, r: bv8)
    requires b < 8
    requires BitRead(r, b) == on && SameBitsExcept(r, v, b)
    ensures r == BitWrite(v, b, on)
  {
    var w := BitWrite(v, b, on);
    forall i | 0 <= i < 8
      ensures BitRead(r, i) == BitRead(w, i)
    {
    }
    BitsDetermine(r, w);
  }

  /** Writing a bit with the value it already has changes nothing. */
  lemma BitWriteSame(v: bv8, b: nat)
    requires b < 8
    ensures BitWrite(v, b, BitRead(v, b)) == v
  {
  }

  /** Writing the same bit twice keeps only the second write. */
  lemma BitWriteTwice(v: bv8, b: nat, first: bool, second: bool)
    requires b < 8
    ensures BitWrite(BitWrite(v, b, first), b, second) == BitWrite(v, b, second)
  {
  }

  /** Arduino's `lowByte(w)`: the value of `w` modulo 256. */
  function LowByte(w: bv16): (lo: bv8)
    ensures lo as bv16 == w % 256
  {
    (w & 0xFF) as bv8
  }

  /** Arduino's `highByte(w)` for a 16-bit value: the value of `w`
      divided by 256. */
  function HighByte(w: bv16): (hi: bv8)
    ensures hi as bv16 == w / 256
  {
    (w >> 8) as bv8
  }

  /** `lo | hi << 8`, the 16-bit value of a register pair: its low byte is
      `lo` and its high byte is `hi`. */
  function Join(lo: bv8, hi: bv8): (w: bv16)
    ensures LowByte(w) == lo && HighByte(w) == hi
  {
    (lo as bv16) | ((hi as bv16) << 8)
  }

  /** Splitting a 16-bit value into its bytes and joining them gives it back;
      so a 16-bit value is determined by its two bytes. */
  lemma JoinBytes(w: bv16)
    ensures Join(LowByte(w), HighByte(w)) == w
  {
  }
}
