/** The bit-banged I2C master on PB6 (SCL) / PB7 (SDA) and the AT24C32 EEPROM
    transactions built on it.

    The master is modelled by what it does to the bus: every write of an output
    latch (both pins are open drain, so "high" releases the line) and every read
    of the SDA line becomes an `Event` appended to `trace`.  What the SDA line
    reads back is not under the master's control; it is the input stream
    `line`, whose n-th value is what the n-th read of the program returns.
    Microsecond delays change nothing that the program can observe and are
    left out of the trace. */
module I2cSoftware {
  import opened Bits

  /** Return code of the driver routines. */
  datatype Status = NotOk | Ok

  /** What the master answers after a byte it has clocked in. */
  datatype AckBit = NotAck | Ack

  datatype Pin = Scl | Sda

  /** The level returned by SDA read number `n` of the input stream `line`. */
  function Level(line: nat -> bool, n: nat): bool
  {
    line(n)
  }

  /** One step of the master on the bus: setting a pin's output latch, or
      reading the level of SDA (the level read is recorded). */
  datatype Event = Drive(pin: Pin, high: bool) | Sample(high: bool)

  // ---------------------------------------------------------------------
  // Wire images of the driver routines
  // ---------------------------------------------------------------------

  /** I2C_Start: SCL released, SDA released, SDA pulled low, SCL pulled low. */
  function StartEvents(): seq<Event>
  {
    [Drive(Scl, true), Drive(Sda, true), Drive(Sda, false), Drive(Scl, false)]
  }

  /** I2C_Stop: SDA pulled low, SCL released, SDA released. */
  function StopEvents(): seq<Event>
  {
    [Drive(Sda, false), Drive(Scl, true), Drive(Sda, true)]
  }

  /** One data bit sent: SDA set while SCL is low, then one SCL pulse. */
  function BitOut(high: bool): seq<Event>
  {
    [Drive(Sda, high), Drive(Scl, true), Drive(Scl, false)]
  }

  /** The first `n` data bits of I2C_Write(b): bit 7 first, each with its clock pulse. */
  function ByteOut(b: bv8, n: nat): seq<Event>
    requires n <= 8
  {
    if n == 0 then [] else ByteOut(b, n - 1) + BitOut(BitAt(b, 8 - n))
  }

  /** The ninth clock of I2C_Write: SDA released, SCL high, SDA read, SCL low. */
  function AckIn(level: bool): seq<Event>
  {
    [Drive(Sda, true), Drive(Scl, true), Sample(level), Drive(Scl, false)]
  }

  /** Everything I2C_Write(b) does when its ACK clock reads `ackLevel`:
      event k < 24 is event k % 3 of the clock for bit 7 - k / 3, and the
      last four are the ACK clock. */
  function WriteEvents(b: bv8, ackLevel: bool): seq<Event>
  {
    seq(28, k requires 0 <= k < 28 => if k < 24 then BitOut(BitAt(b, 7 - k / 3))[k % 3] else AckIn(ackLevel)[k - 24])
  }

  /** The first `n` bit clocks of I2C_Write are three events each, in the
      order of WriteEvents. */
  lemma {:induction false} ByteOutAt(b: bv8, n: nat)
    requires n <= 8
    ensures |ByteOut(b, n)| == 3 * n
    ensures forall k :: 0 <= k < 3 * n ==> ByteOut(b, n)[k] == BitOut(BitAt(b, 7 - k / 3))[k % 3]
  {
    if n > 0 {
      ByteOutAt(b, n - 1);
      forall k | 3 * (n - 1) <= k < 3 * n
        ensures ByteOut(b, n)[k] == BitOut(BitAt(b, 7 - k / 3))[k % 3]
      {
        assert k / 3 == n - 1;
      }
    }
  }

  /** I2C_Write is eight bit clocks, most significant bit first, followed by
      the ACK clock. */
  lemma WriteEventsLayout(b: bv8, ackLevel: bool)
    ensures WriteEvents(b, ackLevel) == ByteOut(b, 8) + AckIn(ackLevel)
  {
    ByteOutAt(b, 8);
  }

  /** One data bit received: SCL high, SDA read, SCL low. */
  function BitIn(level: bool): seq<Event>
  {
    [Drive(Scl, true), Sample(level), Drive(Scl, false)]
  }

  /** `n` data bits received, the k-th reading `Level(line, from + k)`. */
  function BitsIn(line: nat -> bool, from: nat, n: nat): seq<Event>
  {
    if n == 0 then [] else BitsIn(line, from, n - 1) + BitIn(Level(line, from + n - 1))
  }

  /** The ninth clock of I2C_Read: SDA low for ACK, released for NOT_ACK, one pulse. */
  function AckOut(ack: AckBit): seq<Event>
  {
    [Drive(Sda, ack == NotAck), Drive(Scl, true), Drive(Scl, false)]
  }

  /** Everything I2C_Read(ack) does when its data clocks read `Level(line, from)` onwards. */
  function ReadEvents(line: nat -> bool, from: nat, ack: AckBit): seq<Event>
  {
    [Drive(Sda, true)] + BitsIn(line, from, 8) + AckOut(ack)
  }

  /** The levels returned by `n` consecutive SDA reads, starting with read number `from`. */
  function Samples(line: nat -> bool, from: nat, n: nat): seq<bool>
  {
    seq(n, k requires 0 <= k < n => Level(line, from + k))
  }

  /** `u8Ret` after `n` passes of I2C_Read's loop. */
  function Assembled(line: nat -> bool, from: nat, n: nat): bv8
  {
    if n == 0 then 0 else (Assembled(line, from, n - 1) << 1) | LevelValue(Level(line, from + n - 1))
  }

  /** The byte I2C_Read returns when its data clocks read `Level(line, from)` onwards. */
  function ReadValue(line: nat -> bool, from: nat): bv8
  {
    Assembled(line, from, 8)
  }

  lemma {:induction false} AssembledSamples(line: nat -> bool, from: nat, n: nat)
    ensures Assembled(line, from, n) == FromMsbFirst(Samples(line, from, n))
  {
    if n > 0 {
      AssembledSamples(line, from, n - 1);
      assert Samples(line, from, n) == Samples(line, from, n - 1) + [Level(line, from + n - 1)];
      AccumulateSnoc(0, Samples(line, from, n - 1), Level(line, from + n - 1));
    }
  }

  /** The status I2C_Write returns: a released (high) SDA on the ACK clock is a NACK. */
  function AckStatus(ackLevel: bool): Status
  {
    if ackLevel then NotOk else Ok
  }

  // ---------------------------------------------------------------------
  // AT24C32 transactions
  // ---------------------------------------------------------------------

  /** The high byte of the memory address, `u16Address >> 8`. */
  function AddressHigh(address: bv16): bv8
  {
    (address >> 8) as bv8
  }

  /** The byte that `I2C_Write(u16Address)` sends: the uint8_t parameter keeps
      the low eight bits only. */
  function AddressLow(address: bv16): bv8
  {
    (address & 0xFF) as bv8
  }

  /** The bytes a write transaction puts on the bus when every one is acknowledged. */
  function WriteFrame(address: bv16, slave: bv8, payload: seq<bv8>): (frame: seq<bv8>)
    ensures |frame| == 3 + |payload|
  {
    [slave, AddressHigh(address), AddressLow(address)] + payload
  }

  /** A frame is the device address, the memory address high byte first, and
      the payload; the two address bytes put the 16-bit address back together. */
  lemma FrameLayout(address: bv16, slave: bv8, payload: seq<bv8>)
    ensures var frame := WriteFrame(address, slave, payload);
            && frame[0] == slave && frame[3..] == payload
            && ((frame[1] as bv16) << 8) | (frame[2] as bv16) == address
  {
  }

  /** Sending `bytes[i..]` once the bytes before were acknowledged, as both
      EEPROM routines do: each byte is written with I2C_Write, and the first
      one whose ACK clock reads SDA high is followed by I2C_Stop and ends the
      routine with NOT_OK.  The byte at position j sees ACK level `Level(line, from + j)`;
      `sampled` counts the bytes written. */
  function SendRest(bytes: seq<bv8>, i: nat, line: nat -> bool, from: nat): (r: Transfer)
    requires i <= |bytes|
    ensures i <= r.sampled <= |bytes|
    ensures r.status == Ok ==> r.sampled == |bytes|
    decreases |bytes| - i
  {
    if i == |bytes| then Transfer(Ok, [], i)
    else if Level(line, from + i) then Transfer(NotOk, WriteEvents(bytes[i], true) + StopEvents(), i + 1)
    else
      var rest := SendRest(bytes, i + 1, line, from);
      rest.(events := WriteEvents(bytes[i], false) + rest.events)
  }

  /** The SDA reads numbered `from` to `from + n - 1` all saw the line pulled low. */
  ghost predicate AllLow(line: nat -> bool, from: nat, n: nat)
  {
    forall j :: from <= j < from + n ==> !Level(line, j)
  }

  /** I2C_Write applied to `bytes[i..j)` one after another, the byte at
      position p seeing the acknowledge level of SDA read number `from + p`. */
  function Sent(bytes: seq<bv8>, i: nat, j: nat, line: nat -> bool, from: nat): seq<Event>
    requires i <= j <= |bytes|
    decreases j - i
  {
    if i == j then [] else WriteEvents(bytes[i], Level(line, from + i)) + Sent(bytes, i + 1, j, line, from)
  }

  /** When every byte from position i on is acknowledged, byte-by-byte
      sending writes all of them and reports OK. */
  lemma {:induction false} SendRestAllAcked(bytes: seq<bv8>, i: nat, line: nat -> bool, from: nat)
    requires i <= |bytes| && AllLow(line, from + i, |bytes| - i)
    ensures SendRest(bytes, i, line, from) == Transfer(Ok, Sent(bytes, i, |bytes|, line, from), |bytes|)
    decreases |bytes| - i
  {
    if i < |bytes| {
      assert !Level(line, from + i);
      SendRestAllAcked(bytes, i + 1, line, from);
    }
  }

  /** Byte-by-byte sending stops right after the first byte that is not
      acknowledged: every byte up to and including byte k is written, then
      STOP, and the result is NOT_OK. */
  lemma {:induction false} SendRestStopsAtNack(bytes: seq<bv8>, i: nat, k: nat, line: nat -> bool, from: nat)
    requires i <= k < |bytes| && AllLow(line, from + i, k - i) && Level(line, from + k)
    ensures SendRest(bytes, i, line, from) == Transfer(NotOk, Sent(bytes, i, k + 1, line, from) + StopEvents(), k + 1)
    decreases k - i
  {
    if i == k {
      assert Sent(bytes, i, i + 1, line, from) == WriteEvents(bytes[i], true) + [];
    } else {
      assert !Level(line, from + i);
      SendRestStopsAtNack(bytes, i + 1, k, line, from);
      Assoc(WriteEvents(bytes[i], false), Sent(bytes, i + 1, k + 1, line, from), StopEvents());
    }
  }

  /** `n` bytes read with ACK, each clocking in the next eight levels of `line`. */
  function AckedReads(n: nat, line: nat -> bool, from: nat): seq<Event>
  {
    if n == 0 then [] else AckedReads(n - 1, line, from) + ReadEvents(line, from + 8 * (n - 1), Ack)
  }

  /** `n` bytes read, all with ACK but the last one, which gets NOT_ACK. */
  function ReadSeq(n: nat, line: nat -> bool, from: nat): seq<Event>
    requires n >= 1
  {
    AckedReads(n - 1, line, from) + ReadEvents(line, from + 8 * (n - 1), NotAck)
  }

  /** The bytes assembled by `n` consecutive I2C_Read calls: the j-th one
      is built from the eight reads starting at `from + 8 * j`. */
  function ReadBytes(n: nat, line: nat -> bool, from: nat): (bytes: seq<bv8>)
    ensures |bytes| == n
  {
    if n == 0 then [] else ReadBytes(n - 1, line, from) + [ReadValue(line, from + 8 * (n - 1))]
  }

  /** What one EEPROM routine does on the bus: its return code, its events
      and the number of SDA reads it used. */
  datatype Transfer = Transfer(status: Status, events: seq<Event>, sampled: nat)

  /** at24c32_write: START, the frame sent byte by byte, STOP after the last
      byte when all of them were acknowledged. */
  function WriteTransfer(address: bv16, slave: bv8, payload: seq<bv8>, line: nat -> bool, from: nat): Transfer
  {
    var r := SendRest(WriteFrame(address, slave, payload), 0, line, from);
    r.(events := StartEvents() + r.events + (if r.status == Ok then StopEvents() else []))
  }

  /** How many bytes at24c32_read clocks in for a requested count: the loop
      `i < u16Num - 1` is evaluated in int, so a count of 0 still reads one byte. */
  function ReadCount(num: nat): (n: nat)
    ensures n >= 1 && n >= num
    ensures num != 0 ==> n == num
    ensures num == 0 ==> n == 1
  {
    if num == 0 then 1 else num
  }

  /** The address bytes at24c32_read sends before the repeated START. */
  function ReadHeader(address: bv16, slave: bv8): seq<bv8>
  {
    [slave, AddressHigh(address), AddressLow(address)]
  }

  /** The second half of at24c32_read, once the memory address is set:
      repeated START and the device address with the read bit; unless that
      is refused, ReadCount(num) bytes, all ACKed but the last, and STOP. */
  function ReadData(slave: bv8, num: nat, line: nat -> bool, from: nat): Transfer
  {
    var addressed := StartEvents() + WriteEvents(slave | 1, Level(line, from));
    if Level(line, from) then
      Transfer(NotOk, addressed + StopEvents(), 1)
    else
      var n := ReadCount(num);
      Transfer(Ok, addressed + ReadSeq(n, line, from + 1) + StopEvents(), 1 + 8 * n)
  }

  /** at24c32_read: START, device address and both address bytes, then
      ReadData.  A NACK while addressing ends it after STOP. */
  function ReadTransfer(address: bv16, slave: bv8, num: nat, line: nat -> bool, from: nat): Transfer
  {
    var h := SendRest(ReadHeader(address, slave), 0, line, from);
    if h.status == NotOk then
      h.(events := StartEvents() + h.events)
    else
      var d := ReadData(slave, num, line, from + 3);
      d.(events := StartEvents() + h.events + d.events, sampled := 3 + d.sampled)
  }

  // ---------------------------------------------------------------------
  // The master
  // ---------------------------------------------------------------------

  class I2cBus {
    /** Output latches of PB6 and PB7. */
    var scl: bool
    var sda: bool
    /** Everything the master has done on the bus, oldest first. */
    var trace: seq<Event>
    /** Level returned by each SDA read, in order. */
    const line: nat -> bool
    /** Number of SDA reads performed so far. */
    var sampled: nat

    /** I2C_Config: release SDA, then SCL; the bus is idle. */
    constructor Config(line: nat -> bool)
      ensures this.line == line && sampled == 0
      ensures scl && sda
      ensures trace == [Drive(Sda, true), Drive(Scl, true)]
    {
      this.line := line;
      sampled := 0;
      sda, scl := true, true;
      trace := [Drive(Sda, true), Drive(Scl, true)];
    }

    /** WRITE_SCL_0 / WRITE_SCL_1. */
    method DriveScl(high: bool)
      modifies this
      ensures scl == high && sda == old(sda) && sampled == old(sampled)
      ensures trace == old(trace) + [Drive(Scl, high)]
    {
      scl := high;
      trace := trace + [Drive(Scl, high)];
    }

    /** WRITE_SDA_0 / WRITE_SDA_1. */
    method DriveSda(high: bool)
      modifies this
      ensures sda == high && scl == old(scl) && sampled == old(sampled)
      ensures trace == old(trace) + [Drive(Sda, high)]
    {
      sda := high;
      trace := trace + [Drive(Sda, high)];
    }

    /** READ_SDA_VAL: the next level of the input stream. */
    method SampleSda() returns (level: bool)
      modifies this
      ensures level == Level(line, old(sampled)) && sampled == old(sampled) + 1
      ensures scl == old(scl) && sda == old(sda)
      ensures trace == old(trace) + [Sample(level)]
    {
      level := Level(line, sampled);
      sampled := sampled + 1;
      trace := trace + [Sample(level)];
    }

    method Start()
      modifies this
      ensures !scl && !sda && sampled == old(sampled)
      ensures trace == old(trace) + StartEvents()
    {
      DriveScl(true);
      DriveSda(true);
      DriveSda(false);
      DriveScl(false);
    }

    method Stop()
      modifies this
      ensures scl && sda && sampled == old(sampled)
      ensures trace == old(trace) + StopEvents()
    {
      DriveSda(false);
      DriveScl(true);
      DriveSda(true);
    }

    /** One pass of I2C_Write's bit loop after the test: drive SDA, pulse SCL. */
    method ClockOut(high: bool)
      modifies this
      ensures !scl && sda == high && sampled == old(sampled)
      ensures trace == old(trace) + BitOut(high)
    {
      DriveSda(high);
      DriveScl(true);
      DriveScl(false);
    }

    /** One pass of I2C_Read's bit loop: raise SCL, read SDA, lower SCL. */
    method ClockIn() returns (level: bool)
      modifies this
      ensures !scl && sda == old(sda)
      ensures level == Level(line, old(sampled)) && sampled == old(sampled) + 1
      ensures trace == old(trace) + BitIn(level)
    {
      DriveScl(true);
      level := SampleSda();
      DriveScl(false);
    }

    /** The ninth clock of I2C_Write: release SDA, raise SCL, read the
        acknowledge, lower SCL. */
    method ReceiveAck() returns (st: Status)
      modifies this
      ensures !scl && sda
      ensures sampled == old(sampled) + 1
      ensures st == AckStatus(Level(line, old(sampled)))
      ensures trace == old(trace) + AckIn(Level(line, old(sampled)))
    {
      DriveSda(true);
      DriveScl(true);
      var level := SampleSda();
      if level {
        st := NotOk;
      } else {
        st := Ok;
      }
      DriveScl(false);
    }

    /** The ninth clock of I2C_Read: SDA low for ACK, released for NOT_ACK,
        then one SCL pulse. */
    method SendAck(ack: AckBit)
      modifies this
      ensures !scl && sda == (ack == NotAck) && sampled == old(sampled)
      ensures trace == old(trace) + AckOut(ack)
    {
      if ack == Ack {
        DriveSda(false);
      } else {
        DriveSda(true);
      }
      DriveScl(true);
      DriveScl(false);
    }

    /** I2C_Write: eight data bits MSB first, then the ACK clock. */
    method Write(b: bv8) returns (st: Status)
      modifies this
      ensures !scl && sda
      ensures sampled == old(sampled) + 1
      ensures st == AckStatus(Level(line, old(sampled)))
      ensures trace == old(trace) + WriteEvents(b, Level(line, old(sampled)))
    {
      var data := b;
      var i := 0;
      while i < 8
        invariant 0 <= i <= 8
        invariant data == Shifted(b, i)
        invariant sampled == old(sampled)
        invariant trace == old(trace) + ByteOut(b, i)
      {
        TopBitOfShifted(b, i);
        ClockOut(data & 0x80 != 0);
        Assoc(old(trace), ByteOut(b, i), BitOut(BitAt(b, 7 - i)));
        data := data << 1;
        i := i + 1;
      }
      st := ReceiveAck();
      Assoc(old(trace), ByteOut(b, 8), AckIn(Level(line, old(sampled))));
      WriteEventsLayout(b, Level(line, old(sampled)));
    }

    /** I2C_Read: eight data bits assembled MSB first, then ACK or NOT_ACK. */
    method Read(ack: AckBit) returns (r: bv8)
      modifies this
      ensures !scl && sda == (ack == NotAck)
      ensures sampled == old(sampled) + 8
      ensures r == ReadValue(line, old(sampled))
      ensures trace == old(trace) + ReadEvents(line, old(sampled), ack)
    {
      r := 0;
      DriveSda(true);
      var i := 0;
      while i < 8
        invariant 0 <= i <= 8
        invariant sampled == old(sampled) + i
        invariant r == Assembled(line, old(sampled), i)
        invariant trace == old(trace) + [Drive(Sda, true)] + BitsIn(line, old(sampled), i)
      {
        r := r << 1;
        var level := ClockIn();
        Assoc(old(trace) + [Drive(Sda, true)], BitsIn(line, old(sampled), i), BitIn(level));
        if level {
          r := r | 1;
        }
        i := i + 1;
      }
      SendAck(ack);
      Assoc(old(trace), [Drive(Sda, true)], BitsIn(line, old(sampled), 8));
      Assoc(old(trace), [Drive(Sda, true)] + BitsIn(line, old(sampled), 8), AckOut(ack));
    }

    /** The bus state while a routine sends `bytes` byte by byte: the first
        `i` went out acknowledged, and what is left to do is `SendRest(bytes, i)`. */
    ghost predicate Sending(bytes: seq<bv8>, i: nat, from: nat, goal: seq<Event>)
      reads this
    {
      && i <= |bytes|
      && sampled == from + i
      && trace + SendRest(bytes, i, line, from).events == goal
      && SendRest(bytes, i, line, from).status == SendRest(bytes, 0, line, from).status
      && SendRest(bytes, i, line, from).sampled == SendRest(bytes, 0, line, from).sampled
    }

    /** The bus state after a routine sent `bytes` and met a NACK. */
    ghost predicate Refused(bytes: seq<bv8>, from: nat, goal: seq<Event>)
      reads this
    {
      && trace == goal
      && sampled == from + SendRest(bytes, 0, line, from).sampled
      && SendRest(bytes, 0, line, from).status == NotOk
    }

    /** The block both EEPROM routines repeat for every byte they send:
        I2C_Write, and I2C_Stop when the byte is not acknowledged. */
    method SendByte(b: bv8, ghost bytes: seq<bv8>, ghost i: nat, ghost from: nat, ghost goal: seq<Event>)
      returns (st: Status)
      requires i < |bytes| && bytes[i] == b && Sending(bytes, i, from, goal)
      modifies this
      ensures st == Ok ==> Sending(bytes, i + 1, from, goal)
      ensures st == NotOk ==> Refused(bytes, from, goal)
    {
      ghost var before := trace;
      ghost var rest := SendRest(bytes, i + 1, line, from);
      st := Write(b);
      if st == NotOk {
        Stop();
        Assoc(before, WriteEvents(b, true), StopEvents());
      } else {
        Assoc(before, WriteEvents(b, false), rest.events);
      }
    }

    /** The addressing phase both EEPROM routines open with: the device
        address, then the high and the low byte of the memory address, each
        written with the stop-on-NACK block. */
    method SendAddress(address: bv16, slave: bv8, ghost bytes: seq<bv8>, ghost from: nat, ghost goal: seq<Event>)
      returns (st: Status)
      requires 3 <= |bytes| && bytes[..3] == ReadHeader(address, slave)
      requires Sending(bytes, 0, from, goal)
      modifies this
      ensures st == Ok ==> Sending(bytes, 3, from, goal)
      ensures st == NotOk ==> Refused(bytes, from, goal)
    {
      assert bytes[0] == slave && bytes[1] == AddressHigh(address) && bytes[2] == AddressLow(address) by {
        assert bytes[..3][0] == slave && bytes[..3][1] == AddressHigh(address) && bytes[..3][2] == AddressLow(address);
      }
      st := SendByte(slave, bytes, 0, from, goal);
      if st == NotOk {
        return;
      }
      st := SendByte(AddressHigh(address), bytes, 1, from, goal);
      if st == NotOk {
        return;
      }
      st := SendByte(AddressLow(address), bytes, 2, from, goal);
    }

    /** at24c32_write. */
    method At24c32Write(address: bv16, slave: bv8, num: nat, data: array<bv8>) returns (st: Status)
      requires num <= 0xFFFF && num <= data.Length
      modifies this
      ensures var t := WriteTransfer(address, slave, data[..num], line, old(sampled));
              st == t.status && trace == old(trace) + t.events && sampled == old(sampled) + t.sampled
    {
      ghost var from := sampled;
      ghost var frame := WriteFrame(address, slave, data[..num]);
      ghost var goal := old(trace) + StartEvents() + SendRest(frame, 0, line, from).events;
      Start();
      st := SendAddress(address, slave, frame, from, goal);
      if st == Ok {
        st := SendPayload(data, num, frame, from, goal);
        if st == Ok {
          assert SendRest(frame, |frame|, line, from) == Transfer(Ok, [], |frame|);
          Stop();
        }
      }
      Assoc(old(trace), StartEvents(), SendRest(frame, 0, line, from).events);
      if st == Ok {
        Assoc(old(trace), StartEvents() + SendRest(frame, 0, line, from).events, StopEvents());
      }
    }

    /** The data loop of at24c32_write: `pu8Data[0..u16Num)` byte by byte,
        stopping at the first NACK. */
    method SendPayload(data: array<bv8>, num: nat, ghost frame: seq<bv8>, ghost from: nat, ghost goal: seq<Event>)
      returns (st: Status)
      requires num <= data.Length && |frame| == 3 + num && frame[3..] == data[..num]
      requires Sending(frame, 3, from, goal)
      modifies this
      ensures st == Ok ==> Sending(frame, |frame|, from, goal)
      ensures st == NotOk ==> Refused(frame, from, goal)
    {
      st := Ok;
      var i: nat := 0;
      while i < num
        invariant i <= num && st == Ok
        invariant Sending(frame, 3 + i, from, goal)
      {
        assert frame[3 + i] == data[i];
        st := SendByte(data[i], frame, 3 + i, from, goal);
        if st == NotOk {
          return;
        }
        i := i + 1;
      }
    }

    /** at24c32_read: fills data[0..ReadCount(num)) and nothing else. */
    method At24c32Read(address: bv16, slave: bv8, num: nat, data: array<bv8>) returns (st: Status)
      requires num <= 0xFFFF && ReadCount(num) <= data.Length
      modifies this, data
      ensures var h := SendRest(ReadHeader(address, slave), 0, line, old(sampled));
              h.status == NotOk ==> st == NotOk && trace == old(trace) + (StartEvents() + h.events) && sampled == old(sampled) + h.sampled
      ensures var h := SendRest(ReadHeader(address, slave), 0, line, old(sampled));
              var d := ReadData(slave, num, line, old(sampled) + 3);
              h.status == Ok ==> st == d.status && trace == old(trace) + (StartEvents() + h.events) + d.events && sampled == old(sampled) + 3 + d.sampled
      ensures st == Ok ==> data[..ReadCount(num)] == ReadBytes(ReadCount(num), line, old(sampled) + 4)
      ensures forall j :: 0 <= j < data.Length && (st == NotOk || ReadCount(num) <= j) ==> data[j] == old(data[j])
    {
      ghost var from := sampled;
      ghost var h := SendRest(ReadHeader(address, slave), 0, line, from);
      st := AddressForRead(address, slave);
      if st == Ok {
        st := ReadFrom(slave, num, data);
      }
    }

    /** The first half of at24c32_read: START, then the device address and
        the memory address, stopping at the first byte not acknowledged. */
    method AddressForRead(address: bv16, slave: bv8) returns (st: Status)
      modifies this
      ensures var h := SendRest(ReadHeader(address, slave), 0, line, old(sampled));
              && st == h.status && sampled == old(sampled) + h.sampled
              && trace == old(trace) + (StartEvents() + h.events)
    {
      ghost var from := sampled;
      ghost var header := ReadHeader(address, slave);
      ghost var h := SendRest(header, 0, line, from);
      ghost var goal := old(trace) + StartEvents() + h.events;
      Start();
      st := SendAddress(address, slave, header, from, goal);
      Assoc(old(trace), StartEvents(), h.events);
      if st == Ok {
        assert SendRest(header, 3, line, from) == Transfer(Ok, [], 3);
      }
    }

    /** The second half of at24c32_read: repeated START, the device address
        with the read bit, and the data phase. */
    method ReadFrom(slave: bv8, num: nat, data: array<bv8>) returns (st: Status)
      requires num <= 0xFFFF && ReadCount(num) <= data.Length
      modifies this, data
      ensures var t := ReadData(slave, num, line, old(sampled));
              st == t.status && trace == old(trace) + t.events && sampled == old(sampled) + t.sampled
      ensures st == Ok ==> data[..ReadCount(num)] == ReadBytes(ReadCount(num), line, old(sampled) + 1)
      ensures forall j :: 0 <= j < data.Length && (st == NotOk || ReadCount(num) <= j) ==> data[j] == old(data[j])
    {
      ghost var from := sampled;
      st := SendReadAddress(slave);
      if st == Ok {
        ghost var head := StartEvents() + WriteEvents(slave | 1, false);
        ReadPhase(num, data);
        Assoc(old(trace), head, ReadSeq(ReadCount(num), line, from + 1));
        Assoc(old(trace), head + ReadSeq(ReadCount(num), line, from + 1), StopEvents());
      }
    }

    /** The repeated START of at24c32_read and the device address with the
        read bit, followed by STOP if it is not acknowledged. */
    method SendReadAddress(slave: bv8) returns (st: Status)
      modifies this
      ensures sampled == old(sampled) + 1
      ensures st == AckStatus(Level(line, old(sampled)))
      ensures st == Ok ==> trace == old(trace) + (StartEvents() + WriteEvents(slave | 1, false))
      ensures st == NotOk ==> trace == old(trace) + (StartEvents() + WriteEvents(slave | 1, true) + StopEvents())
    {
      ghost var level := Level(line, sampled);
      Start();
      st := Write(slave | 1);
      Assoc(old(trace), StartEvents(), WriteEvents(slave | 1, level));
      if st == NotOk {
        Stop();
        Assoc(old(trace), StartEvents() + WriteEvents(slave | 1, level), StopEvents());
      }
    }

    /** One pass of at24c32_read's data loop: `pu8Data[i] = I2C_Read(ack)`. */
    method ReadInto(data: array<bv8>, i: nat, ack: AckBit)
      requires i < data.Length
      modifies this, data
      ensures sampled == old(sampled) + 8
      ensures trace == old(trace) + ReadEvents(line, old(sampled), ack)
      ensures data[..i + 1] == old(data[..i]) + [ReadValue(line, old(sampled))]
      ensures forall j :: i < j < data.Length ==> data[j] == old(data[j])
    {
      data[i] := Read(ack);
    }

    /** The data phase of at24c32_read: ACKed reads into data[0..], one
        NOT_ACKed read, then STOP. */
    method ReadPhase(num: nat, data: array<bv8>)
      requires ReadCount(num) <= data.Length
      modifies this, data
      ensures sampled == old(sampled) + 8 * ReadCount(num)
      ensures trace == old(trace) + ReadSeq(ReadCount(num), line, old(sampled)) + StopEvents()
      ensures data[..ReadCount(num)] == ReadBytes(ReadCount(num), line, old(sampled))
      ensures forall j :: ReadCount(num) <= j < data.Length ==> data[j] == old(data[j])
    {
      ghost var from := sampled;
      var i := ReadAcked(num, data);
      ReadInto(data, i, NotAck);
      Assoc(old(trace), AckedReads(i, line, from), ReadEvents(line, from + 8 * i, NotAck));
      Stop();
    }

    /** The ACK loop of at24c32_read, `for (i = 0; i < u16Num - 1; ++i)`, with
        the subtraction done in int. */
    method ReadAcked(num: nat, data: array<bv8>) returns (i: nat)
      requires ReadCount(num) <= data.Length
      modifies this, data
      ensures i == ReadCount(num) - 1
      ensures sampled == old(sampled) + 8 * i
      ensures trace == old(trace) + AckedReads(i, line, old(sampled))
      ensures data[..i] == ReadBytes(i, line, old(sampled))
      ensures forall j :: i <= j < data.Length ==> data[j] == old(data[j])
    {
      ghost var from := sampled;
      i := 0;
      while i < num - 1
        invariant i <= ReadCount(num) - 1
        invariant sampled == from + 8 * i
        invariant trace == old(trace) + AckedReads(i, line, from)
        invariant data[..i] == ReadBytes(i, line, from)
        invariant forall j :: i <= j < data.Length ==> data[j] == old(data[j])
      {
        ReadInto(data, i, Ack);
        Assoc(old(trace), AckedReads(i, line, from), ReadEvents(line, from + 8 * i, Ack));
        i := i + 1;
      }
    }
  }
}
