/** Shared vocabulary of the bit-banged serial drivers: an optional result,
    and the order in which a byte's bits travel on a one-wire-per-bit bus. */
module Wrappers {
  datatype Option<T> = None | Some(value: T)
}

module Bits {

  /** Bit `k` of `b`, counting from the least significant bit 0. */
  function BitAt(b: bv8, k: nat): bool
    requires k < 8
  {
    (b >> k) & 1 == 1
  }

  /** The numeric value of one sampled line level: 1 for high, 0 for low. */
  function LevelValue(high: bool): (v: bv8)
    ensures v == 0 || v == 1
    ensures BitAt(v, 0) == high
  {
    if high then 1 else 0
  }

  /** The bits of `b` in wire order, most significant bit first. */
  function MsbFirst(b: bv8): (bits: seq<bool>)
    ensures |bits| == 8
  {
    seq(8, k requires 0 <= k < 8 => BitAt(b, 7 - k))
  }

  /** Serial assembly as the receivers do it: for every sampled level in order,
      `acc = (acc << 1) | level`, truncated to eight bits. */
  function Accumulate(acc: bv8, bits: seq<bool>): bv8
    decreases |bits|
  {
    if bits == [] then acc else Accumulate((acc << 1) | LevelValue(bits[0]), bits[1..])
  }

  /** Accumulating one more level shifts the previous result up by one. */
  lemma {:induction false} AccumulateSnoc(acc: bv8, bits: seq<bool>, high: bool)
    ensures Accumulate(acc, bits + [high]) == (Accumulate(acc, bits) << 1) | LevelValue(high)
    decreases |bits|
  {
    if bits != [] {
      assert (bits + [high])[1..] == bits[1..] + [high];
      AccumulateSnoc((acc << 1) | LevelValue(bits[0]), bits[1..], high);
    }
  }

  /** The byte whose wire image is `bits`, assembled from an all-zero start. */
  function FromMsbFirst(bits: seq<bool>): bv8
  {
    Accumulate(0, bits)
  }

  /** Two bytes that agree on every bit are equal. */
  lemma BitsDetermineByte(a: bv8, b: bv8)
    requires forall k :: 0 <= k < 8 ==> BitAt(a, k) == BitAt(b, k)
    ensures a == b
  {
    assert BitAt(a, 0) == BitAt(b, 0) && BitAt(a, 1) == BitAt(b, 1);
    assert BitAt(a, 2) == BitAt(b, 2) && BitAt(a, 3) == BitAt(b, 3);
    assert BitAt(a, 4) == BitAt(b, 4) && BitAt(a, 5) == BitAt(b, 5);
    assert BitAt(a, 6) == BitAt(b, 6) && BitAt(a, 7) == BitAt(b, 7);
  }

  /** One accumulation step moves every bit up by one place and puts the new
      level in bit 0; the old bit 7 falls off. */
  lemma ShiftInBit(acc: bv8, high: bool, k: nat)
    requires k < 8
    ensures BitAt((acc << 1) | LevelValue(high), k) == if k == 0 then high else BitAt(acc, k - 1)
  {
    if high {
      assert k == 0 || k == 1 || k == 2 || k == 3 || k == 4 || k == 5 || k == 6 || k == 7;
    } else {
      assert k == 0 || k == 1 || k == 2 || k == 3 || k == 4 || k == 5 || k == 6 || k == 7;
    }
  }

  /** After accumulating `bits`, the last level sampled is bit 0, the first one
      is bit |bits|-1, and what was in `acc` has moved up by |bits| places. */
  lemma {:induction false} AccumulateBit(acc: bv8, bits: seq<bool>, k: nat)
    requires |bits| <= 8 && k < 8
    ensures BitAt(Accumulate(acc, bits), k)
         == if k < |bits| then bits[|bits| - 1 - k] else BitAt(acc, k - |bits|)
    decreases |bits|
  {
    if bits != [] {
      var acc' := (acc << 1) | LevelValue(bits[0]);
      AccumulateBit(acc', bits[1..], k);
      if k >= |bits| - 1 {
        ShiftInBit(acc, bits[0], k - (|bits| - 1));
      }
    }
  }

  /** The receivers' assembly inverts the transmitters' bit order: the first
      level on the wire becomes bit 7. */
  lemma {:induction false} FromMsbFirstBit(bits: seq<bool>, k: nat)
    requires |bits| == 8 && k < 8
    ensures BitAt(FromMsbFirst(bits), 7 - k) == bits[k]
  {
    AccumulateBit(0, bits, 7 - k);
  }

  /** Decoding the wire image of a byte gives the byte back. */
  lemma {:induction false} DecodeEncode(b: bv8)
    ensures FromMsbFirst(MsbFirst(b)) == b
  {
    var bits := MsbFirst(b);
    forall k | 0 <= k < 8 ensures BitAt(FromMsbFirst(bits), k) == BitAt(b, k) {
      FromMsbFirstBit(bits, 7 - k);
    }
    BitsDetermineByte(FromMsbFirst(bits), b);
  }

  /** Eight sampled levels are exactly the wire image of the byte assembled
      from them. */
  lemma {:induction false} EncodeDecode(bits: seq<bool>)
    requires |bits| == 8
    ensures MsbFirst(FromMsbFirst(bits)) == bits
  {
    forall k | 0 <= k < 8 ensures MsbFirst(FromMsbFirst(bits))[k] == bits[k] {
      FromMsbFirstBit(bits, k);
    }
  }

  /** Shifting by one more place after shifting by `i`. */
  lemma ShiftAgain(b: bv8, i: nat)
    requires i < 8
    ensures (b << i) << 1 == b << (i + 1)
  {
    assert i == 0 || i == 1 || i == 2 || i == 3 || i == 4 || i == 5 || i == 6 || i == 7;
  }

  /** Testing the top bit of a byte shifted left by `i` reads bit 7-i of the
      original: the transmitters' mask-and-shift walks the bits MSB first. */
  lemma TopBitAfterShift(b: bv8, i: nat)
    requires i < 8
    ensures ((b << i) & 0x80 != 0) == BitAt(b, 7 - i)
  {
    assert i == 0 || i == 1 || i == 2 || i == 3 || i == 4 || i == 5 || i == 6 || i == 7;
  }

  /** The byte a transmitter's loop holds after `i` passes, each shifting it
      left by one (`u8Data = u8Data << 1` in I2C_Write and SPI_Master_Transmit). */
  function Shifted(b: bv8, i: nat): bv8
  {
    if i == 0 then b else Shifted(b, i - 1) << 1
  }

  /** After `i` passes `u8Data` is the original byte shifted left by `i`. */
  lemma {:induction false} ShiftedIsShift(b: bv8, i: nat)
    requires i <= 8
    ensures Shifted(b, i) == b << i
  {
    if i > 0 {
      ShiftedIsShift(b, i - 1);
      ShiftAgain(b, i - 1);
    }
  }

  /** The bit a transmitter tests with mask 0x80 on its i-th pass is the i-th
      bit on the wire. */
  lemma TopBitOfShifted(b: bv8, i: nat)
    requires i < 8
    ensures (Shifted(b, i) & 0x80 != 0) == MsbFirst(b)[i]
  {
    ShiftedIsShift(b, i);
    TopBitAfterShift(b, i);
  }

  /** Appending to a trace that was built up piece by piece: the grouping of
      the pieces does not matter. */
  lemma Assoc<T>(a: seq<T>, b: seq<T>, c: seq<T>)
    ensures a + b + c == a + (b + c)
  {
  }
}
