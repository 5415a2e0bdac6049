/** The SPI master of spi_sw_truyen wired to the slave of spi_sw_receive.

    The master's pin writes give the levels on the three lines one after
    another; the slave reads the lines many times while they hold a level,
    because the master waits milliseconds between writes and the slave
    polls.  The model says so with a hold count: after the master's write
    number `at + i` the lines keep their new levels for `hold(at + i)` reads
    of the slave.  The round trip below needs every level to last for at
    least three reads. */
module SpiLink {
  import opened Bits
  import opened Wrappers
  import opened SpiMaster
  import opened SpiSlave

  /** The levels of the lines after one pin write of the master. */
  function Apply(s: PinState, w: PinWrite): PinState
  {
    match w.pin
    case Sck => s.(sck := w.high)
    case Mosi => s.(mosi := w.high)
    case Cs => s.(cs := w.high)
  }

  /** The levels of the lines after a run of pin writes. */
  function Final(s: PinState, events: seq<PinWrite>): PinState
    decreases |events|
  {
    if events == [] then s else Final(Apply(s, events[0]), events[1..])
  }

  /** `n` reads of the slave that all see the levels `x`. */
  function Run(x: PinState, n: nat): (r: seq<PinState>)
    ensures |r| == n
  {
    seq(n, _ => x)
  }

  /** What the slave's reads see while the master makes `events` starting
      from the levels `s`: after each write the new levels, as many times as
      the hold count of that write says. */
  function Seen(s: PinState, events: seq<PinWrite>, hold: nat -> nat, at: nat): seq<PinState>
    decreases |events|
  {
    if events == [] then []
    else Run(Apply(s, events[0]), hold(at)) + Seen(Apply(s, events[0]), events[1..], hold, at + 1)
  }

  // ---------------------------------------------------------------------
  // Reading the master's waveform
  // ---------------------------------------------------------------------

  lemma SeenConsThen(s: PinState, e: PinWrite, rest: seq<PinWrite>, hold: nat -> nat, at: nat, w: seq<PinState>)
    ensures Seen(s, [e] + rest, hold, at) + w
         == Run(Apply(s, e), hold(at)) + (Seen(Apply(s, e), rest, hold, at + 1) + w)
    ensures Final(s, [e] + rest) == Final(Apply(s, e), rest)
  {
    assert ([e] + rest)[0] == e && ([e] + rest)[1..] == rest;
  }

  /** The waveform of two runs of writes is the first one's followed by the
      second one's, from where the first one left the lines. */
  lemma {:induction false} SeenAppend(s: PinState, a: seq<PinWrite>, b: seq<PinWrite>, hold: nat -> nat, at: nat, w: seq<PinState>)
    ensures Seen(s, a + b, hold, at) + w == Seen(s, a, hold, at) + (Seen(Final(s, a), b, hold, at + |a|) + w)
    ensures Final(s, a + b) == Final(Final(s, a), b)
    decreases |a|
  {
    if a == [] {
      assert a + b == b;
    } else {
      assert a + b == [a[0]] + (a[1..] + b);
      assert a == [a[0]] + a[1..];
      SeenAppend(Apply(s, a[0]), a[1..], b, hold, at + 1, w);
      SeenConsThen(s, a[0], a[1..] + b, hold, at, w);
      SeenConsThen(s, a[0], a[1..], hold, at, Seen(Final(s, a), b, hold, at + |a|) + w);
    }
  }

  /** One bit from the master, from levels with SCK and CS low: MOSI takes
      the bit, then SCK is high, then low again. */
  lemma SeenBit(s: PinState, x: bool, rest: seq<PinWrite>, hold: nat -> nat, at: nat, w: seq<PinState>)
    requires !s.sck && !s.cs
    ensures var lo := PinState(false, false, x);
            Seen(s, BitEvents(x) + rest, hold, at) + w
            == Run(lo, hold(at)) + (Run(PinState(true, false, x), hold(at + 1)) + (Run(lo, hold(at + 2)) + (Seen(lo, rest, hold, at + 3) + w)))
    ensures Final(s, BitEvents(x) + rest) == Final(PinState(false, false, x), rest)
  {
    var lo := PinState(false, false, x);
    var hi := PinState(true, false, x);
    assert BitEvents(x) + rest == [Write(Mosi, x)] + ([Write(Sck, true)] + ([Write(Sck, false)] + rest));
    SeenConsThen(hi, Write(Sck, false), rest, hold, at + 2, w);
    SeenConsThen(lo, Write(Sck, true), [Write(Sck, false)] + rest, hold, at + 1, w);
    SeenConsThen(s, Write(Mosi, x), [Write(Sck, true)] + ([Write(Sck, false)] + rest), hold, at, w);
  }

  /** Sending bits leaves SCK and CS low and the last bit on MOSI. */
  lemma {:induction false} FinalWire(s: PinState, bits: seq<bool>)
    requires |bits| >= 1 && !s.sck && !s.cs
    ensures Final(s, WireEvents(bits)) == PinState(false, false, bits[|bits| - 1])
    decreases |bits|
  {
    SeenBit(s, bits[0], WireEvents(bits[1..]), _ => 0, 0, []);
    if |bits| > 1 {
      FinalWire(PinState(false, false, bits[0]), bits[1..]);
    }
  }

  // ---------------------------------------------------------------------
  // The slave's waits on runs of equal levels
  // ---------------------------------------------------------------------

  lemma RunCons(x: PinState, n: nat, q: seq<PinState>)
    requires n >= 1
    ensures (Run(x, n) + q)[0] == x && (Run(x, n) + q)[1..] == Run(x, n - 1) + q
  {
    assert (Run(x, n) + q)[1..] == Run(x, n)[1..] + q;
    assert Run(x, n)[1..] == Run(x, n - 1);
  }

  lemma {:induction false} WaitSelectedSkips(x: PinState, n: nat, q: seq<PinState>)
    requires x.cs
    ensures WaitSelected(Run(x, n) + q) == WaitSelected(q)
  {
    if n == 0 {
      assert Run(x, n) + q == q;
    } else {
      RunCons(x, n, q);
      WaitSelectedSkips(x, n - 1, q);
    }
  }

  lemma WaitSelectedStops(x: PinState, n: nat, q: seq<PinState>)
    requires !x.cs && n >= 1
    ensures WaitSelected(Run(x, n) + q) == Some(Run(x, n - 1) + q)
  {
    RunCons(x, n, q);
  }

  lemma {:induction false} WaitRiseSkips(x: PinState, n: nat, q: seq<PinState>)
    requires !x.sck
    ensures WaitRise(Run(x, n) + q) == WaitRise(q)
  {
    if n == 0 {
      assert Run(x, n) + q == q;
    } else {
      RunCons(x, n, q);
      WaitRiseSkips(x, n - 1, q);
    }
  }

  lemma WaitRiseStops(x: PinState, n: nat, q: seq<PinState>)
    requires x.sck && n >= 1
    ensures WaitRise(Run(x, n) + q) == Some(Run(x, n - 1) + q)
  {
    RunCons(x, n, q);
  }

  /** One turn of `while (SCK) temp = MOSI;`: SCK read high, then MOSI read. */
  lemma HoldHighTurn(temp: bool, p: seq<PinState>)
    requires |p| >= 2 && p[0].sck
    ensures HoldHigh(temp, p) == HoldHigh(p[1].mosi, p[2..])
  {
  }

  /** The loop ends on the first read of a low SCK. */
  lemma HoldHighEnds(temp: bool, lo: PinState, n: nat, w: seq<PinState>)
    requires !lo.sck && n >= 1
    ensures HoldHigh(temp, Run(lo, n) + w) == Some(Latched(temp, Run(lo, n - 1) + w))
  {
    RunCons(lo, n, w);
  }

  /** A clock pulse read high once: MOSI is read on the first low read. */
  lemma HoldHighOnce(temp: bool, hi: PinState, lo: PinState, n: nat, w: seq<PinState>)
    requires hi.sck && !lo.sck && n >= 2
    ensures HoldHigh(temp, Run(hi, 1) + (Run(lo, n) + w)) == Some(Latched(lo.mosi, Run(lo, n - 2) + w))
  {
    var p := Run(hi, 1) + (Run(lo, n) + w);
    RunCons(lo, n, w);
    assert p[0] == hi && p[1] == lo && p[2..] == Run(lo, n - 1) + w;
    HoldHighTurn(temp, p);
    HoldHighEnds(lo.mosi, lo, n - 1, w);
  }

  /** Two more high reads: one turn of the loop, MOSI read while SCK is high. */
  lemma HoldHighTwice(temp: bool, hi: PinState, j: nat, q: seq<PinState>)
    requires hi.sck && j >= 2
    ensures HoldHigh(temp, Run(hi, j) + q) == HoldHigh(hi.mosi, Run(hi, j - 2) + q)
  {
    var p := Run(hi, j) + q;
    RunCons(hi, j, q);
    RunCons(hi, j - 1, q);
    assert p[1] == hi && p[2..] == Run(hi, j - 2) + q;
    HoldHighTurn(temp, p);
  }

  /** `while (SCK) temp = MOSI;` over `j` reads of a high SCK followed by at
      least two reads of the low SCK of the same clock pulse: `temp` is the
      level MOSI held during the pulse, and the loop ends one read into the
      low run (two, when its last MOSI read fell on the first low read). */
  lemma {:induction false} HoldHighPulse(temp: bool, hi: PinState, lo: PinState, j: nat, n: nat, w: seq<PinState>)
    requires hi.sck && !lo.sck && hi.mosi == lo.mosi && j >= 1 && n >= 2
    ensures HoldHigh(temp, Run(hi, j) + (Run(lo, n) + w)) == Some(Latched(hi.mosi, Run(lo, n - 1 - j % 2) + w))
    decreases j
  {
    if j == 1 {
      HoldHighOnce(temp, hi, lo, n, w);
    } else {
      HoldHighTwice(temp, hi, j, Run(lo, n) + w);
      if j == 2 {
        assert Run(hi, 0) + (Run(lo, n) + w) == Run(lo, n) + w;
        HoldHighEnds(hi.mosi, lo, n, w);
      } else {
        HoldHighPulse(hi.mosi, hi, lo, j - 2, n, w);
      }
    }
  }

  /** One pass of the slave's loop that starts on the high part of a clock
      pulse with at least two reads of it left, and at least two reads of the
      low part after it: the level on MOSI is shifted in, and the pass ends at
      the next rise of SCK after the pulse. */
  lemma PassOnPulse(acc: bv8, temp: bool, latched: seq<bool>, hi: PinState, lo: PinState, m: nat, n: nat, w: seq<PinState>)
    requires hi.sck && !lo.sck && hi.mosi == lo.mosi && m >= 2 && n >= 2
    ensures BitPass(Step(acc, temp, latched, Run(hi, m) + (Run(lo, n) + w)))
         == Finish((acc << 1) | LevelValue(hi.mosi), hi.mosi, latched + [hi.mosi], w)
  {
    RunCons(hi, m, Run(lo, n) + w);
    HoldHighPulse(temp, hi, lo, m - 1, n, w);
    WaitRiseSkips(lo, n - 1 - (m - 1) % 2, w);
  }

  // ---------------------------------------------------------------------
  // The round trip
  // ---------------------------------------------------------------------

  /** The reads from inside the clock pulse of the first of `bits` on: `m`
      more reads of SCK high, `n` reads of SCK low, then the master's other
      bits, then `w`. */
  function Pulse(bits: seq<bool>, m: nat, n: nat, hold: nat -> nat, at: nat, w: seq<PinState>): seq<PinState>
    requires |bits| >= 1
  {
    var x := bits[0];
    Run(PinState(true, false, x), m) + (Run(PinState(false, false, x), n) + (Seen(PinState(false, false, x), WireEvents(bits[1..]), hold, at) + w))
  }

  /** The master sends the next bit while the slave finishes the pass of
      the first one: the pass ends inside the clock pulse of the next bit. */
  lemma PassToNextPulse(bits: seq<bool>, acc: bv8, temp: bool, latched: seq<bool>,
                        m: nat, n: nat, hold: nat -> nat, at: nat, w: seq<PinState>)
    requires |bits| >= 2 && m >= 2 && n >= 2 && hold(at + 1) >= 1
    ensures BitPass(Step(acc, temp, latched, Pulse(bits, m, n, hold, at, w)))
         == Some(Step((acc << 1) | LevelValue(bits[0]), bits[0], latched + [bits[0]], Pulse(bits[1..], hold(at + 1) - 1, hold(at + 2), hold, at + 3, w)))
  {
    var x := bits[0];
    var y := bits[1];
    var lo := PinState(false, false, x);
    var hi' := PinState(true, false, y);
    var lo' := PinState(false, false, y);
    assert bits[1..][0] == y && bits[1..][1..] == bits[2..];
    var tail := Run(lo', hold(at + 2)) + (Seen(lo', WireEvents(bits[2..]), hold, at + 3) + w);
    SeenBit(lo, y, WireEvents(bits[2..]), hold, at, w);
    PassOnPulse(acc, temp, latched, PinState(true, false, x), lo, m, n, Seen(lo, WireEvents(bits[1..]), hold, at) + w);
    WaitRiseSkips(lo', hold(at), Run(hi', hold(at + 1)) + tail);
    WaitRiseStops(hi', hold(at + 1), tail);
  }

  lemma PassesStep(n: nat, m: nat, s: Step, s': Step)
    requires n == m + 1 && BitPass(s) == Some(s')
    ensures Passes(n, s) == Passes(m, s')
  {
  }

  lemma PassesOne(s: Step)
    ensures Passes(1, s) == BitPass(s)
  {
  }

  /** The pass of the last bit shifts it in and ends at the next rise of
      SCK after it. */
  lemma PassesOnLastBit(bits: seq<bool>, acc: bv8, temp: bool, latched: seq<bool>, m: nat, n: nat, hold: nat -> nat, at: nat, w: seq<PinState>)
    requires |bits| == 1 && m >= 2 && n >= 2
    ensures Passes(1, Step(acc, temp, latched, Pulse(bits, m, n, hold, at, w)))
         == Finish(Accumulate(acc, bits), bits[0], latched + bits, w)
  {
    var x := bits[0];
    var acc' := (acc << 1) | LevelValue(x);
    assert Seen(PinState(false, false, x), WireEvents(bits[1..]), hold, at) + w == w;
    PassOnPulse(acc, temp, latched, PinState(true, false, x), PinState(false, false, x), m, n, w);
    PassesOne(Step(acc, temp, latched, Pulse(bits, m, n, hold, at, w)));
    assert bits == [x] && bits[1..] == [];
    assert Accumulate(acc, bits) == Accumulate(acc', []) == acc';
  }

  /** A pass before the last one shifts in its bit and leaves the slave
      inside the clock pulse of the next bit. */
  lemma PassesOnNextBit(bits: seq<bool>, acc: bv8, temp: bool, latched: seq<bool>,
                        m: nat, n: nat, hold: nat -> nat, at: nat, w: seq<PinState>)
    requires |bits| >= 2 && m >= 2 && n >= 2 && hold(at + 1) >= 1
    ensures Passes(|bits|, Step(acc, temp, latched, Pulse(bits, m, n, hold, at, w)))
         == Passes(|bits[1..]|, Step((acc << 1) | LevelValue(bits[0]), bits[0], latched + [bits[0]], Pulse(bits[1..], hold(at + 1) - 1, hold(at + 2), hold, at + 3, w)))
  {
    PassToNextPulse(bits, acc, temp, latched, m, n, hold, at, w);
    PassesStep(|bits|, |bits[1..]|, Step(acc, temp, latched, Pulse(bits, m, n, hold, at, w)),
               Step((acc << 1) | LevelValue(bits[0]), bits[0], latched + [bits[0]], Pulse(bits[1..], hold(at + 1) - 1, hold(at + 2), hold, at + 3, w)));
  }

  /** Shifting in the first bit and then the others is shifting in all. */
  lemma ShiftFirst(acc: bv8, bits: seq<bool>, latched: seq<bool>)
    requires |bits| >= 2
    ensures Accumulate(acc, bits) == Accumulate((acc << 1) | LevelValue(bits[0]), bits[1..])
    ensures latched + bits == (latched + [bits[0]]) + bits[1..]
    ensures bits[1..][|bits[1..]| - 1] == bits[|bits| - 1]
  {
    assert bits == [bits[0]] + bits[1..];
  }

  /** The slave's loop, one pass per bit, while the master sends `bits`
      starting inside the clock pulse of the first one: the slave shifts in
      the bits in order and ends where the next rise of SCK after them is
      read. */
  lemma {:induction false} PassesOnBits(bits: seq<bool>, acc: bv8, temp: bool, latched: seq<bool>,
                                        m: nat, n: nat, hold: nat -> nat, at: nat, w: seq<PinState>)
    requires |bits| >= 1 && m >= 2 && n >= 2
    requires forall j :: hold(j) >= 3
    ensures Passes(|bits|, Step(acc, temp, latched, Pulse(bits, m, n, hold, at, w)))
         == Finish(Accumulate(acc, bits), bits[|bits| - 1], latched + bits, w)
    decreases |bits|
  {
    if |bits| == 1 {
      PassesOnLastBit(bits, acc, temp, latched, m, n, hold, at, w);
    } else {
      var x := bits[0];
      PassesOnNextBit(bits, acc, temp, latched, m, n, hold, at, w);
      PassesOnBits(bits[1..], (acc << 1) | LevelValue(x), x, latched + [x], hold(at + 1) - 1, hold(at + 2), hold, at + 3, w);
      ShiftFirst(acc, bits, latched);
    }
  }

  /** What the slave reads while the master puts `bits` on the wire and
      then makes the writes `z`, from levels with SCK and CS low. */
  lemma WireSeen(s: PinState, bits: seq<bool>, z: seq<PinWrite>, hold: nat -> nat, at: nat, tail: seq<PinState>)
    requires !s.sck && !s.cs && |bits| >= 1
    ensures Seen(s, WireEvents(bits) + z, hold, at) + tail
         == Run(PinState(false, false, bits[0]), hold(at))
            + Pulse(bits, hold(at + 1), hold(at + 2), hold, at + 3,
                    Seen(PinState(false, false, bits[|bits| - 1]), z, hold, at + 3 * |bits|) + tail)
  {
    var w := Seen(PinState(false, false, bits[|bits| - 1]), z, hold, at + 3 * |bits|) + tail;
    FinalWire(s, bits);
    SeenAppend(s, WireEvents(bits), z, hold, at, tail);
    assert WireEvents(bits) == BitEvents(bits[0]) + WireEvents(bits[1..]);
    SeenBit(s, bits[0], WireEvents(bits[1..]), hold, at, w);
  }

  /** What the slave reads while the master sends a byte and then `z`,
      from levels with SCK low: CS falls, then the byte's bits follow; the
      first clock pulse is read `hold(at + 2)` times. */
  lemma TransmitSeen(s: PinState, b: bv8, z: seq<PinWrite>, hold: nat -> nat, at: nat, tail: seq<PinState>)
    requires !s.sck
    ensures var bits := MsbFirst(b);
            Seen(s, TransmitEvents(b) + z, hold, at) + tail
            == Run(PinState(false, false, s.mosi), hold(at))
               + (Run(PinState(false, false, bits[0]), hold(at + 1))
               + Pulse(bits, hold(at + 2), hold(at + 3), hold, at + 4,
                       Seen(PinState(false, false, bits[7]), [Write(Cs, true)] + z, hold, at + 25) + tail))
  {
    var bits := MsbFirst(b);
    var zz := [Write(Cs, true)] + z;
    assert TransmitEvents(b) + z == [Write(Cs, false)] + (WireEvents(bits) + zz);
    SeenConsThen(s, Write(Cs, false), WireEvents(bits) + zz, hold, at, tail);
    WireSeen(PinState(false, false, s.mosi), bits, zz, hold, at + 1, tail);
  }

  /** Three runs with SCK low and then a run with SCK high: the slave's
      `while (!SCK);` stops one read into the high run. */
  lemma RiseAfterThree(a: PinState, na: nat, b: PinState, nb: nat, c: PinState, nc: nat, hi: PinState, nh: nat, q: seq<PinState>)
    requires !a.sck && !b.sck && !c.sck && hi.sck && nh >= 1
    ensures WaitRise(Run(a, na) + (Run(b, nb) + (Run(c, nc) + (Run(hi, nh) + q)))) == Some(Run(hi, nh - 1) + q)
  {
    WaitRiseSkips(a, na, Run(b, nb) + (Run(c, nc) + (Run(hi, nh) + q)));
    WaitRiseSkips(b, nb, Run(c, nc) + (Run(hi, nh) + q));
    WaitRiseSkips(c, nc, Run(hi, nh) + q);
    WaitRiseStops(hi, nh, q);
  }

  /** Idle reads, then CS low, then the first bit on MOSI, then its clock
      pulse: the slave's `while (CS);` stops one read after CS falls and its
      first `while (!SCK);` one read into the clock pulse. */
  lemma SelectedAtRise(s0: PinState, c: nat, s1: PinState, n1: nat, lo: PinState, n2: nat, hi: PinState, nh: nat, q: seq<PinState>)
    requires s0.cs && !s1.cs && !s1.sck && !lo.sck && hi.sck && n1 >= 1 && nh >= 1
    ensures WaitSelected(Run(s0, c) + (Run(s1, n1) + (Run(lo, n2) + (Run(hi, nh) + q))))
         == Some(Run(s1, n1 - 1) + (Run(lo, n2) + (Run(hi, nh) + q)))
    ensures WaitRise(Run(s1, n1 - 1) + (Run(lo, n2) + (Run(hi, nh) + q))) == Some(Run(hi, nh - 1) + q)
  {
    WaitSelectedSkips(s0, c, Run(s1, n1) + (Run(lo, n2) + (Run(hi, nh) + q)));
    WaitSelectedStops(s1, n1, Run(lo, n2) + (Run(hi, nh) + q));
    WaitRiseSkips(s1, n1 - 1, Run(lo, n2) + (Run(hi, nh) + q));
    WaitRiseSkips(lo, n2, Run(hi, nh) + q);
    WaitRiseStops(hi, nh, q);
  }

  /** After the byte, CS goes high and the next transmission starts: its
      first clock pulse is a rise of SCK the slave reads. */
  lemma NextRise(s: PinState, next: bv8, z: seq<PinWrite>, hold: nat -> nat, at: nat, tail: seq<PinState>)
    requires !s.sck && forall j :: hold(j) >= 3
    ensures WaitRise(Seen(s, [Write(Cs, true)] + (TransmitEvents(next) + z), hold, at) + tail).Some?
  {
    var bits := MsbFirst(next);
    var d := s.(cs := true);
    var s1 := PinState(false, false, s.mosi);
    var lo := PinState(false, false, bits[0]);
    var hi := PinState(true, false, bits[0]);
    var rest := Seen(PinState(false, false, bits[7]), [Write(Cs, true)] + z, hold, at + 26) + tail;
    var q := Run(lo, hold(at + 4)) + (Seen(lo, WireEvents(bits[1..]), hold, at + 5) + rest);
    assert Apply(s, Write(Cs, true)) == d;
    SeenConsThen(s, Write(Cs, true), TransmitEvents(next) + z, hold, at, tail);
    TransmitSeen(d, next, z, hold, at + 1, tail);
    assert Pulse(bits, hold(at + 3), hold(at + 4), hold, at + 5, rest) == Run(hi, hold(at + 3)) + q;
    RiseAfterThree(d, hold(at), s1, hold(at + 1), lo, hold(at + 2), hi, hold(at + 3), q);
  }

  /** SPI_Slave_Receive in three stages: the wait for CS, the wait for the
      first clock pulse, and the eight passes of its loop. */
  lemma ReceiveStages(input: seq<PinState>, p1: seq<PinState>, p2: seq<PinState>, value: bv8, temp: bool, latched: seq<bool>, w: seq<PinState>)
    requires WaitSelected(input) == Some(p1) && WaitRise(p1) == Some(p2)
    requires |latched| == 8 && Passes(|latched|, Step(0, false, [], p2)) == Finish(value, temp, latched, w)
    requires WaitRise(w).Some?
    ensures ReceiveSpec(input) == Some(Received(value, latched, WaitRise(w).value))
  {
  }

  /** The slave's reads of one transmission of `bits`, from idle lines to
      the first clock pulse after it. */
  lemma FrameReceived(s0: PinState, c: nat, bits: seq<bool>, hold: nat -> nat, w: seq<PinState>)
    requires s0.cs && |bits| == 8 && WaitRise(w).Some?
    requires forall j :: hold(j) >= 3
    ensures ReceiveSpec(Run(s0, c) + (Run(PinState(false, false, s0.mosi), hold(0)) + (Run(PinState(false, false, bits[0]), hold(1))
                        + Pulse(bits, hold(2), hold(3), hold, 4, w))))
         == Some(Received(Accumulate(0, bits), bits, WaitRise(w).value))
  {
    var s1 := PinState(false, false, s0.mosi);
    var lo := PinState(false, false, bits[0]);
    var hi := PinState(true, false, bits[0]);
    var q := Run(lo, hold(3)) + (Seen(lo, WireEvents(bits[1..]), hold, 4) + w);
    var p1 := Run(s1, hold(0) - 1) + (Run(lo, hold(1)) + (Run(hi, hold(2)) + q));
    var p2 := Pulse(bits, hold(2) - 1, hold(3), hold, 4, w);
    assert Pulse(bits, hold(2), hold(3), hold, 4, w) == Run(hi, hold(2)) + q;
    SelectedAtRise(s0, c, s1, hold(0), lo, hold(1), hi, hold(2), q);
    assert Run(hi, hold(2) - 1) + q == p2;
    PassesOnBits(bits, 0, false, [], hold(2) - 1, hold(3), hold, 4, w);
    ReceiveStages(Run(s0, c) + (Run(s1, hold(0)) + (Run(lo, hold(1)) + (Run(hi, hold(2)) + q))), p1, p2,
                  Accumulate(0, bits), bits[|bits| - 1], [] + bits, w);
    assert [] + bits == bits;
  }

  /** The round trip: with the lines idle (CS high, SCK low) and every level
      lasting at least three reads of the slave, SPI_Slave_Receive returns
      the byte SPI_Master_Transmit sent, having shifted in its eight bits in
      wire order.  It returns only once the next transmission's first clock
      pulse has begun; how long the lines were idle before, and what the
      master does after the next transmission, do not matter. */
  lemma RoundTrip(s0: PinState, c: nat, b: bv8, next: bv8, after: seq<PinWrite>, hold: nat -> nat, tail: seq<PinState>)
    requires s0.cs && !s0.sck
    requires forall j :: hold(j) >= 3
    ensures var input := Run(s0, c) + (Seen(s0, TransmitEvents(b) + (TransmitEvents(next) + after), hold, 0) + tail);
            && ReceiveSpec(input).Some?
            && ReceiveSpec(input).value.value == b
            && ReceiveSpec(input).value.latched == MsbFirst(b)
  {
    var bits := MsbFirst(b);
    var z := TransmitEvents(next) + after;
    var w := Seen(PinState(false, false, bits[7]), [Write(Cs, true)] + z, hold, 25) + tail;
    var seen := Seen(s0, TransmitEvents(b) + z, hold, 0) + tail;
    var frame := Run(PinState(false, false, s0.mosi), hold(0)) + (Run(PinState(false, false, bits[0]), hold(1))
                 + Pulse(bits, hold(2), hold(3), hold, 4, w));
    TransmitSeen(s0, b, z, hold, 0, tail);
    assert seen == frame;
    NextRise(PinState(false, false, bits[7]), next, after, hold, 25, tail);
    FrameReceived(s0, c, bits, hold, w);
    assert ReceiveSpec(Run(s0, c) + seen) == Some(Received(FromMsbFirst(bits), bits, WaitRise(w).value));
    DecodeEncode(b);
  }
}
