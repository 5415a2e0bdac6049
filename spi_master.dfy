/** The bit-banged SPI master on PA0 (SCK), PA2 (MOSI) and PA3 (CS).

    The master is modelled by the pin writes it makes, in order; every
    GPIO_WriteBit becomes a `PinWrite` appended to `trace`, and the three
    output latches are fields.  Millisecond delays change nothing the program
    can observe and are left out of the trace. */
module SpiMaster {
  import opened Bits

  datatype SpiPin = Sck | Mosi | Cs

  /** GPIO_WriteBit(SPI_GPIO, pin, high ? Bit_SET : Bit_RESET). */
  datatype PinWrite = Write(pin: SpiPin, high: bool)

  /** SPISetup: SCK low, CS high (no slave selected), MOSI low. */
  function SetupEvents(): seq<PinWrite>
  {
    [Write(Sck, false), Write(Cs, true), Write(Mosi, false)]
  }

  /** Clock: one SCK pulse, high then low. */
  function ClockEvents(): seq<PinWrite>
  {
    [Write(Sck, true), Write(Sck, false)]
  }

  /** One bit sent: MOSI set, then one clock pulse. */
  function BitEvents(high: bool): seq<PinWrite>
  {
    [Write(Mosi, high), Write(Sck, true), Write(Sck, false)]
  }

  /** The pin writes that put `bits` on the wire, first bit first. */
  function WireEvents(bits: seq<bool>): (w: seq<PinWrite>)
    ensures |w| == 3 * |bits|
    decreases |bits|
  {
    if bits == [] then [] else BitEvents(bits[0]) + WireEvents(bits[1..])
  }

  /** SPI_Master_Transmit(b): CS low, the eight bits of b with bit 7
      first, CS high. */
  function TransmitEvents(b: bv8): (t: seq<PinWrite>)
    ensures |t| == 26
  {
    [Write(Cs, false)] + WireEvents(MsbFirst(b)) + [Write(Cs, true)]
  }

  /** Bit k on the wire is three writes at 3k: MOSI, SCK high, SCK low. */
  lemma {:induction false} WireBit(bits: seq<bool>, k: nat)
    requires k < |bits|
    ensures WireEvents(bits)[3 * k] == Write(Mosi, bits[k])
    ensures WireEvents(bits)[3 * k + 1] == Write(Sck, true)
    ensures WireEvents(bits)[3 * k + 2] == Write(Sck, false)
  {
    if k > 0 {
      WireBit(bits[1..], k - 1);
    }
  }

  /** Putting one more bit on the wire appends its three writes. */
  lemma {:induction false} WireSnoc(bits: seq<bool>, x: bool)
    ensures WireEvents(bits + [x]) == WireEvents(bits) + BitEvents(x)
    decreases |bits|
  {
    if bits == [] {
      assert bits + [x] == [x];
    } else {
      WireSnoc(bits[1..], x);
      assert (bits + [x])[1..] == bits[1..] + [x];
      Assoc(BitEvents(bits[0]), WireEvents(bits[1..]), BitEvents(x));
    }
  }

  /** Sending one more bit of `bits` after the first `i` on the wire. */
  lemma WirePrefix(before: seq<PinWrite>, bits: seq<bool>, i: nat)
    requires i < |bits|
    ensures before + WireEvents(bits[..i + 1]) == before + WireEvents(bits[..i]) + BitEvents(bits[i])
  {
    assert bits[..i + 1] == bits[..i] + [bits[i]];
    WireSnoc(bits[..i], bits[i]);
    Assoc(before, WireEvents(bits[..i]), BitEvents(bits[i]));
  }

  /** Bit k of the wire image is put on MOSI, then clocked by one SCK pulse. */
  lemma TransmitBit(b: bv8, k: nat)
    requires k < 8
    ensures var t := TransmitEvents(b);
            && t[1 + 3 * k] == Write(Mosi, MsbFirst(b)[k])
            && t[2 + 3 * k] == Write(Sck, true)
            && t[3 + 3 * k] == Write(Sck, false)
  {
    WireBit(MsbFirst(b), k);
    var t := TransmitEvents(b);
    var bits := WireEvents(MsbFirst(b));
    assert t[1 + 3 * k] == bits[3 * k] && t[2 + 3 * k] == bits[3 * k + 1] && t[3 + 3 * k] == bits[3 * k + 2];
  }

  /** SPI_Master_Transmit selects the slave before the first bit and
      releases it after the last; in between, bit k of the wire image (bit
      7 - k of the byte) is put on MOSI and then clocked by exactly one SCK
      pulse, and CS does not move. */
  lemma TransmitLayout(b: bv8)
    ensures var t := TransmitEvents(b);
            && t[0] == Write(Cs, false) && t[25] == Write(Cs, true)
            && (forall k :: 0 <= k < 8 ==>
                  t[1 + 3 * k] == Write(Mosi, MsbFirst(b)[k])
                  && t[2 + 3 * k] == Write(Sck, true)
                  && t[3 + 3 * k] == Write(Sck, false))
            && (forall j :: 0 < j < 25 ==> t[j].pin != Cs)
  {
    var t := TransmitEvents(b);
    forall k | 0 <= k < 8
      ensures t[1 + 3 * k] == Write(Mosi, MsbFirst(b)[k])
      ensures t[2 + 3 * k] == Write(Sck, true)
      ensures t[3 + 3 * k] == Write(Sck, false)
    {
      TransmitBit(b, k);
    }
    forall j | 0 < j < 25 ensures t[j].pin != Cs {
      var k := (j - 1) / 3;
      TransmitBit(b, k);
      assert j == 1 + 3 * k || j == 2 + 3 * k || j == 3 + 3 * k;
    }
  }

  /** The bytes `main` sends on every pass of its loop. */
  const DataTrans: seq<bv8> := [2, 9, 14, 25, 31, 37, 48, 79]

  /** The first `n` bytes of `data` transmitted one after another. */
  function Batch(data: seq<bv8>, n: nat): seq<PinWrite>
    requires n <= |data|
  {
    if n == 0 then [] else Batch(data, n - 1) + TransmitEvents(data[n - 1])
  }

  /** A batch is the transmissions of its bytes, each exactly once, in
      index order: write j belongs to byte j / 26. */
  lemma {:induction false} BatchLayout(data: seq<bv8>, n: nat)
    requires n <= |data|
    ensures |Batch(data, n)| == 26 * n
    ensures forall j :: 0 <= j < 26 * n ==> Batch(data, n)[j] == TransmitEvents(data[j / 26])[j % 26]
  {
    if n > 0 {
      BatchLayout(data, n - 1);
      forall j | 26 * (n - 1) <= j < 26 * n
        ensures Batch(data, n)[j] == TransmitEvents(data[j / 26])[j % 26]
      {
        assert j / 26 == n - 1;
      }
    }
  }

  class Master {
    var sck: bool
    var mosi: bool
    var cs: bool
    /** Every pin write so far, oldest first. */
    var trace: seq<PinWrite>

    /** GPIO_WriteBit on one of the three output pins. */
    method WritePin(pin: SpiPin, high: bool)
      modifies this
      ensures sck == (if pin == Sck then high else old(sck))
      ensures mosi == (if pin == Mosi then high else old(mosi))
      ensures cs == (if pin == Cs then high else old(cs))
      ensures trace == old(trace) + [Write(pin, high)]
    {
      match pin {
        case Sck => sck := high;
        case Mosi => mosi := high;
        case Cs => cs := high;
      }
      trace := trace + [Write(pin, high)];
    }

    /** SPISetup: the idle state, SCK low, CS high, MOSI low. */
    method Setup()
      modifies this
      ensures !sck && cs && !mosi
      ensures trace == old(trace) + SetupEvents()
    {
      WritePin(Sck, false);
      WritePin(Cs, true);
      WritePin(Mosi, false);
    }

    /** Clock: SCK high, then low; SCK is always left low. */
    method Clock()
      modifies this
      ensures !sck && mosi == old(mosi) && cs == old(cs)
      ensures trace == old(trace) + ClockEvents()
    {
      WritePin(Sck, true);
      WritePin(Sck, false);
    }

    /** One pass of SPI_Master_Transmit's loop after the test: the bit on
        MOSI, then one clock pulse. */
    method SendBit(high: bool)
      modifies this
      ensures !sck && mosi == high && cs == old(cs)
      ensures trace == old(trace) + BitEvents(high)
    {
      if high {
        WritePin(Mosi, true);
      } else {
        WritePin(Mosi, false);
      }
      Clock();
    }

    /** SPI_Master_Transmit: mask 0x80 tests the top bit of the byte, which
        is shifted left after every bit. */
    method Transmit(b: bv8)
      modifies this
      ensures cs && !sck
      ensures trace == old(trace) + TransmitEvents(b)
    {
      var data := b;
      WritePin(Cs, false);
      ghost var start := trace;
      var i := 0;
      while i < 8
        invariant 0 <= i <= 8
        invariant data == Shifted(b, i)
        invariant !cs && (i > 0 ==> !sck)
        invariant trace == start + WireEvents(MsbFirst(b)[..i])
      {
        var tempData := data & 0x80;
        TopBitOfShifted(b, i);
        SendBit(tempData != 0);
        WirePrefix(start, MsbFirst(b), i);
        data := data << 1;
        i := i + 1;
      }
      WritePin(Cs, true);
      assert MsbFirst(b)[..8] == MsbFirst(b);
      Assoc(old(trace), [Write(Cs, false)], WireEvents(MsbFirst(b)));
      Assoc(old(trace), [Write(Cs, false)] + WireEvents(MsbFirst(b)), [Write(Cs, true)]);
    }

    /** One pass of `main`'s loop: DataTrans[0..8) transmitted in index order. */
    method SendAll()
      modifies this
      ensures cs && !sck
      ensures trace == old(trace) + Batch(DataTrans, 8)
    {
      var i := 0;
      while i < 8
        invariant 0 <= i <= 8
        invariant i > 0 ==> cs && !sck
        invariant trace == old(trace) + Batch(DataTrans, i)
      {
        Transmit(DataTrans[i]);
        Assoc(old(trace), Batch(DataTrans, i), TransmitEvents(DataTrans[i]));
        i := i + 1;
      }
    }
  }
}
