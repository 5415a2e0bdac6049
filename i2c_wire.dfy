/** The I2C bus as a receiver sees it: the conditions defined in sections
    3.1.3 to 3.1.6 of the NXP I2C-bus specification (UM10204), read off the
    master's output latches.

    Both lines are open drain, so a latch that is high releases the line and
    the level a receiver sees is the latch level unless another device pulls
    the line low; the decoder below sees the master's own contribution.  A
    data bit is the SDA level at the end of a clock high period during which
    SDA did not change (section 3.1.3); SDA falling while SCL is high is a
    START, rising while SCL is high a STOP (section 3.1.4). */
module I2cWire {
  import opened Bits
  import opened I2cSoftware

  /** Line levels after a step, and whether a START or STOP occurred since
      SCL last went high (such a high period carries no data bit). */
  datatype Lines = Lines(scl: bool, sda: bool, framed: bool)

  datatype Condition = StartCondition | StopCondition | DataBit(high: bool)

  /** The lines after one master event. */
  function After(s: Lines, e: Event): Lines
  {
    match e
    case Sample(_) => s
    case Drive(Scl, high) =>
      if high == s.scl then s else Lines(high, s.sda, false)
    case Drive(Sda, high) =>
      if high == s.sda then s else Lines(s.scl, high, s.framed || s.scl)
  }

  /** The conditions one master event puts on the bus. */
  function Emitted(s: Lines, e: Event): seq<Condition>
  {
    match e
    case Sample(_) => []
    case Drive(Scl, high) =>
      if s.scl && !high && !s.framed then [DataBit(s.sda)] else []
    case Drive(Sda, high) =>
      if s.scl && high != s.sda then (if high then [StopCondition] else [StartCondition]) else []
  }

  /** The lines after a run of events. */
  function Final(s: Lines, events: seq<Event>): Lines
    decreases |events|
  {
    if events == [] then s else Final(After(s, events[0]), events[1..])
  }

  /** The conditions a run of events puts on the bus, in order. */
  function Decode(s: Lines, events: seq<Event>): seq<Condition>
    decreases |events|
  {
    if events == [] then [] else Emitted(s, events[0]) + Decode(After(s, events[0]), events[1..])
  }

  /** Decoding is compositional: a run followed by another decodes to the
      first run's conditions followed by those of the second, started from
      where the first left the lines. */
  lemma {:induction false} DecodeAppend(s: Lines, a: seq<Event>, b: seq<Event>)
    ensures Final(s, a + b) == Final(Final(s, a), b)
    ensures Decode(s, a + b) == Decode(s, a) + Decode(Final(s, a), b)
    decreases |a|
  {
    if a == [] {
      assert a + b == b;
    } else {
      assert (a + b)[0] == a[0] && (a + b)[1..] == a[1..] + b;
      DecodeAppend(After(s, a[0]), a[1..], b);
    }
  }

  /** A single event decodes to what it emits. */
  lemma DecodeOne(s: Lines, e: Event)
    ensures Final(s, [e]) == After(s, e)
    ensures Decode(s, [e]) == Emitted(s, e)
  {
    assert [e][1..] == [];
  }

  /** Decoding event by event, front to back. */
  lemma DecodeCons(s: Lines, e: Event, rest: seq<Event>)
    ensures Final(s, [e] + rest) == Final(After(s, e), rest)
    ensures Decode(s, [e] + rest) == Emitted(s, e) + Decode(After(s, e), rest)
  {
    assert ([e] + rest)[0] == e && ([e] + rest)[1..] == rest;
  }

  /** The data bits of a run of levels. */
  function DataBits(bits: seq<bool>): (c: seq<Condition>)
    ensures |c| == |bits|
  {
    if bits == [] then [] else DataBits(bits[..|bits| - 1]) + [DataBit(bits[|bits| - 1])]
  }

  // ---------------------------------------------------------------------
  // The driver routines on the bus
  // ---------------------------------------------------------------------

  /** I2C_Start, from any state in which SDA is released, is exactly one
      START: SDA falls while SCL is high, and both lines end low. */
  lemma StartIsStart(s: Lines)
    requires s.sda
    ensures Decode(s, StartEvents()) == [StartCondition]
    ensures Final(s, StartEvents()) == Lines(false, false, false)
  {
    var e := StartEvents();
    assert e[1..][1..][1..][1..] == [];
  }

  /** I2C_Stop, with SCL low as every routine leaves it, is exactly one
      STOP: SDA rises while SCL is high, and both lines end released. */
  lemma StopIsStop(s: Lines)
    requires !s.scl
    ensures Decode(s, StopEvents()) == [StopCondition]
    ensures Final(s, StopEvents()).scl && Final(s, StopEvents()).sda
  {
    var e := StopEvents();
    assert e[1..][1..][1..] == [];
  }

  /** One bit clocked out: SDA is set while SCL is low and held through
      the pulse, so the bit is one data bit and nothing else. */
  lemma BitOutIsDataBit(s: Lines, high: bool)
    requires !s.scl
    ensures Decode(s, BitOut(high)) == [DataBit(high)]
    ensures Final(s, BitOut(high)) == Lines(false, high, false)
  {
    var e := BitOut(high);
    assert e[1..][1..][1..] == [];
  }

  /** The first `n` bit clocks of I2C_Write are the first `n` bits of the
      byte, most significant first, as data bits. */
  lemma {:induction false} ByteOutIsData(s: Lines, b: bv8, n: nat)
    requires !s.scl && n <= 8
    ensures Decode(s, ByteOut(b, n)) == DataBits(MsbFirst(b)[..n])
    ensures !Final(s, ByteOut(b, n)).scl
  {
    if n > 0 {
      ByteOutIsData(s, b, n - 1);
      SnocBit(s, ByteOut(b, n - 1), BitAt(b, 8 - n));
      DataBitsPrefix(MsbFirst(b), n);
    }
  }

  /** One more bit clocked out after a run that left SCL low. */
  lemma SnocBit(s: Lines, front: seq<Event>, high: bool)
    requires !Final(s, front).scl
    ensures Decode(s, front + BitOut(high)) == Decode(s, front) + [DataBit(high)]
    ensures !Final(s, front + BitOut(high)).scl
  {
    DecodeAppend(s, front, BitOut(high));
    BitOutIsDataBit(Final(s, front), high);
  }

  /** The data bits of a prefix, one bit longer. */
  lemma DataBitsPrefix(bits: seq<bool>, n: nat)
    requires 0 < n <= |bits|
    ensures DataBits(bits[..n]) == DataBits(bits[..n - 1]) + [DataBit(bits[n - 1])]
  {
    assert bits[..n][..n - 1] == bits[..n - 1];
  }

  /** The ACK clock of I2C_Write: SDA released, one clock; whatever the
      slave answers, the master's own contribution is a released SDA. */
  lemma AckInIsReleasedBit(s: Lines, level: bool)
    requires !s.scl
    ensures Decode(s, AckIn(level)) == [DataBit(true)]
    ensures Final(s, AckIn(level)) == Lines(false, true, false)
  {
    var e := AckIn(level);
    assert e[1..][1..][1..][1..] == [];
  }

  /** What a slave receives from I2C_Write(b): the eight bits of `b`, most
      significant first, then a ninth clock with SDA released for its
      acknowledge; SDA never changes while SCL is high, so there is no
      START or STOP inside the byte. */
  function ByteFrame(b: bv8): seq<Condition>
  {
    DataBits(MsbFirst(b)) + [DataBit(true)]
  }

  lemma WriteIsByteFrame(s: Lines, b: bv8, ackLevel: bool)
    requires !s.scl
    ensures Decode(s, WriteEvents(b, ackLevel)) == ByteFrame(b)
    ensures Final(s, WriteEvents(b, ackLevel)) == Lines(false, true, false)
  {
    WriteEventsLayout(b, ackLevel);
    ByteOutIsData(s, b, 8);
    assert MsbFirst(b)[..8] == MsbFirst(b);
    DecodeAppend(s, ByteOut(b, 8), AckIn(ackLevel));
    AckInIsReleasedBit(Final(s, ByteOut(b, 8)), ackLevel);
  }

  /** The levels of the data bits among `c`, in order; what a receiver
      shifts in. */
  function Received(c: seq<Condition>): seq<bool>
    decreases |c|
  {
    if c == [] then []
    else Received(c[..|c| - 1]) + (if c[|c| - 1].DataBit? then [c[|c| - 1].high] else [])
  }

  /** A receiver gets back exactly the levels of a run of data bits. */
  lemma {:induction false} ReceivedDataBits(bits: seq<bool>)
    ensures Received(DataBits(bits)) == bits
    decreases |bits|
  {
    if bits != [] {
      var front := bits[..|bits| - 1];
      ReceivedDataBits(front);
      var c := DataBits(bits);
      assert c[..|c| - 1] == DataBits(front);
      assert bits == front + [bits[|bits| - 1]];
    }
  }

  /** Round trip of the byte format: a receiver that assembles the first
      eight data bits of a byte frame MSB first, as I2C_Read does, gets the
      byte I2C_Write was given. */
  lemma WriteReadRoundTrip(b: bv8)
    ensures |Received(ByteFrame(b))| == 9
    ensures FromMsbFirst(Received(ByteFrame(b))[..8]) == b
  {
    var c := ByteFrame(b);
    ReceivedDataBits(MsbFirst(b) + [true]);
    DataBitsPrefix(MsbFirst(b) + [true], 9);
    assert (MsbFirst(b) + [true])[..8] == MsbFirst(b);
    assert (MsbFirst(b) + [true])[..9] == MsbFirst(b) + [true];
    DecodeEncode(b);
  }

  /** I2C_Read seen on the bus: eight clocks with SDA released for the
      slave, then a ninth with SDA low for ACK and released for NOT_ACK. */
  function ReadFrame(ack: AckBit): seq<Condition>
  {
    DataBits(seq(8, _ => true)) + [DataBit(ack == NotAck)]
  }

  /** One data clock of I2C_Read, with SDA released. */
  lemma BitInIsReleased(s: Lines, level: bool)
    requires !s.scl && s.sda
    ensures Decode(s, BitIn(level)) == [DataBit(true)]
    ensures Final(s, BitIn(level)) == Lines(false, true, false)
  {
    var e := BitIn(level);
    assert e[1..][1..][1..] == [];
  }

  /** One more data clock of I2C_Read after a run that left SCL low and SDA released. */
  lemma SnocBitIn(s: Lines, front: seq<Event>, level: bool)
    requires !Final(s, front).scl && Final(s, front).sda
    ensures Decode(s, front + BitIn(level)) == Decode(s, front) + [DataBit(true)]
    ensures Final(s, front + BitIn(level)) == Lines(false, true, false)
  {
    DecodeAppend(s, front, BitIn(level));
    BitInIsReleased(Final(s, front), level);
  }

  /** The data clocks of I2C_Read. */
  lemma {:induction false} BitsInReleased(s: Lines, line: nat -> bool, from: nat, n: nat)
    requires !s.scl && s.sda && n <= 8
    ensures Decode(s, BitsIn(line, from, n)) == DataBits(seq(n, _ => true))
    ensures !Final(s, BitsIn(line, from, n)).scl && Final(s, BitsIn(line, from, n)).sda
  {
    if n > 0 {
      BitsInReleased(s, line, from, n - 1);
      SnocBitIn(s, BitsIn(line, from, n - 1), Level(line, from + n - 1));
      DataBitsPrefix(seq(n, _ => true), n);
      assert seq(n, _ => true)[..n - 1] == seq(n - 1, _ => true);
    }
  }

  /** The acknowledge clock of I2C_Read. */
  lemma AckOutIsBit(s: Lines, ack: AckBit)
    requires !s.scl
    ensures Decode(s, AckOut(ack)) == [DataBit(ack == NotAck)]
    ensures Final(s, AckOut(ack)) == Lines(false, ack == NotAck, false)
  {
    assert AckOut(ack) == BitOut(ack == NotAck);
    BitOutIsDataBit(s, ack == NotAck);
  }

  lemma ReadIsReadFrame(s: Lines, line: nat -> bool, from: nat, ack: AckBit)
    requires !s.scl
    ensures Decode(s, ReadEvents(line, from, ack)) == ReadFrame(ack)
    ensures Final(s, ReadEvents(line, from, ack)) == Lines(false, ack == NotAck, false)
  {
    var data := [Drive(Sda, true)] + BitsIn(line, from, 8);
    DecodeCons(s, Drive(Sda, true), BitsIn(line, from, 8));
    BitsInReleased(After(s, Drive(Sda, true)), line, from, 8);
    DecodeAppend(s, data, AckOut(ack));
    AckOutIsBit(Final(s, data), ack);
  }

  /** Round trip of I2C_Read: when the slave drives the bits of `b` on the
      eight data clocks, most significant first, the byte returned is `b`. */
  lemma ReadReturnsDrivenByte(line: nat -> bool, from: nat, b: bv8)
    requires forall k :: 0 <= k < 8 ==> Level(line, from + k) == MsbFirst(b)[k]
    ensures ReadValue(line, from) == b
  {
    AssembledSamples(line, from, 8);
    assert Samples(line, from, 8) == MsbFirst(b);
    DecodeEncode(b);
  }

  // ---------------------------------------------------------------------
  // The EEPROM transactions on the bus
  // ---------------------------------------------------------------------

  /** The byte frames of `bytes[i..j)`, in order. */
  function FrameBits(bytes: seq<bv8>, i: nat, j: nat): seq<Condition>
    requires i <= j <= |bytes|
    decreases j - i
  {
    if i == j then [] else ByteFrame(bytes[i]) + FrameBits(bytes, i + 1, j)
  }

  /** The lines I2C_Write leaves behind: SCL low, SDA released. */
  function AfterByte(): Lines
  {
    Lines(false, true, false)
  }

  /** A byte written in front of further events. */
  lemma ConsByte(s: Lines, b: bv8, ackLevel: bool, rest: seq<Event>)
    requires !s.scl
    ensures Decode(s, WriteEvents(b, ackLevel) + rest) == ByteFrame(b) + Decode(AfterByte(), rest)
    ensures Final(s, WriteEvents(b, ackLevel) + rest) == Final(AfterByte(), rest)
  {
    DecodeAppend(s, WriteEvents(b, ackLevel), rest);
    WriteIsByteFrame(s, b, ackLevel);
  }

  /** Bytes written one after another are their byte frames one after
      another, and leave SCL low (and SDA released, if there was one). */
  lemma {:induction false} SentOnBus(s: Lines, bytes: seq<bv8>, i: nat, j: nat, line: nat -> bool, from: nat)
    requires i <= j <= |bytes| && !s.scl
    ensures Decode(s, Sent(bytes, i, j, line, from)) == FrameBits(bytes, i, j)
    decreases j - i
  {
    if i < j {
      SentOnBus(AfterByte(), bytes, i + 1, j, line, from);
      ConsByte(s, bytes[i], Level(line, from + i), Sent(bytes, i + 1, j, line, from));
    }
  }

  /** Bytes written one after another leave SCL low (and SDA released, if
      there was one). */
  lemma {:induction false} SentLeaves(s: Lines, bytes: seq<bv8>, i: nat, j: nat, line: nat -> bool, from: nat)
    requires i <= j <= |bytes| && !s.scl
    ensures Final(s, Sent(bytes, i, j, line, from)) == if i == j then s else AfterByte()
    decreases j - i
  {
    if i < j {
      SentLeaves(AfterByte(), bytes, i + 1, j, line, from);
      ConsByte(s, bytes[i], Level(line, from + i), Sent(bytes, i + 1, j, line, from));
    }
  }

  /** START, then a run of events leaving SCL low, then STOP. */
  lemma Bracketed(s: Lines, body: seq<Event>)
    requires s.sda && !Final(Lines(false, false, false), body).scl
    ensures Decode(s, StartEvents() + body + StopEvents())
         == [StartCondition] + Decode(Lines(false, false, false), body) + [StopCondition]
  {
    StartIsStart(s);
    DecodeAppend(s, StartEvents(), body);
    DecodeAppend(s, StartEvents() + body, StopEvents());
    StopIsStop(Final(Lines(false, false, false), body));
  }

  /** at24c32_write with every byte acknowledged, seen on the bus: START,
      the byte frames of the device address, the memory address high byte,
      the low byte and the payload, in that order, then STOP; it returns OK. */
  lemma WriteAckedOnBus(s: Lines, address: bv16, slave: bv8, payload: seq<bv8>, line: nat -> bool, from: nat)
    requires s.sda && AllLow(line, from, 3 + |payload|)
    ensures var frame := WriteFrame(address, slave, payload);
            var t := WriteTransfer(address, slave, payload, line, from);
            && t.status == Ok && t.sampled == |frame|
            && Decode(s, t.events) == [StartCondition] + FrameBits(frame, 0, |frame|) + [StopCondition]
  {
    var frame := WriteFrame(address, slave, payload);
    SendRestAllAcked(frame, 0, line, from);
    SentOnBus(Lines(false, false, false), frame, 0, |frame|, line, from);
    SentLeaves(Lines(false, false, false), frame, 0, |frame|, line, from);
    Bracketed(s, Sent(frame, 0, |frame|, line, from));
  }

  /** at24c32_write when byte k of the frame is the first one not
      acknowledged: START, the byte frames up to and including byte k, STOP,
      and NOT_OK; no later byte reaches the bus. */
  lemma WriteNackedOnBus(s: Lines, address: bv16, slave: bv8, payload: seq<bv8>, line: nat -> bool, from: nat, k: nat)
    requires s.sda && k < 3 + |payload| && AllLow(line, from, k) && Level(line, from + k)
    ensures var frame := WriteFrame(address, slave, payload);
            var t := WriteTransfer(address, slave, payload, line, from);
            && t.status == NotOk && t.sampled == k + 1
            && Decode(s, t.events) == [StartCondition] + FrameBits(frame, 0, k + 1) + [StopCondition]
  {
    var frame := WriteFrame(address, slave, payload);
    var sent := Sent(frame, 0, k + 1, line, from);
    SendRestStopsAtNack(frame, 0, k, line, from);
    var events := WriteTransfer(address, slave, payload, line, from).events;
    assert events == StartEvents() + (sent + StopEvents()) + [];
    Assoc(StartEvents(), sent, StopEvents());
    assert events == StartEvents() + sent + StopEvents();
    SentOnBus(Lines(false, false, false), frame, 0, k + 1, line, from);
    SentLeaves(Lines(false, false, false), frame, 0, k + 1, line, from);
    Bracketed(s, sent);
  }
}
