/** The bit-banged SPI slave on PA0 (SCK), PA2 (MOSI) and PA3 (CS), all
    inputs.

    Every GPIO_ReadInputDataBit call of the program reads one pin at one
    moment.  The model gives the program its input as the sequence `pending`
    of the levels of the three inputs at the moments of its coming reads:
    each read takes the first element and returns the level of the pin it
    asked for.  The input is finite, so a busy-wait that reaches the end of
    it ends the model's run with `None`, where the program would still be
    waiting. */
module SpiSlave {
  import opened Bits
  import opened Wrappers

  /** The levels of SCK, CS and MOSI at the moment of one read. */
  datatype PinState = PinState(sck: bool, cs: bool, mosi: bool)

  /** What the loop of SPI_Slave_Receive holds between two of its passes:
      `dataReceive`, `temp`, the levels shifted in so far (oldest first) and
      the input still to be read. */
  datatype Step = Step(acc: bv8, temp: bool, latched: seq<bool>, rest: seq<PinState>)

  /** `temp` after the `while (SCK) temp = MOSI;` loop, and the input left. */
  datatype Latched = Latched(temp: bool, rest: seq<PinState>)

  /** What SPI_Slave_Receive returns, the levels it shifted in (oldest
      first) and the input left after it. */
  datatype Received = Received(value: bv8, latched: seq<bool>, rest: seq<PinState>)

  /** `while (CS);`: reads CS until it is low; the input after that read. */
  function WaitSelected(p: seq<PinState>): Option<seq<PinState>>
    decreases |p|
  {
    if p == [] then None
    else if p[0].cs then WaitSelected(p[1..])
    else Some(p[1..])
  }

  /** `while (!SCK);`: reads SCK until it is high; the input after that read. */
  function WaitRise(p: seq<PinState>): Option<seq<PinState>>
    decreases |p|
  {
    if p == [] then None
    else if !p[0].sck then WaitRise(p[1..])
    else Some(p[1..])
  }

  /** `while (SCK) temp = MOSI;`: while a read of SCK finds it high, the next
      read takes MOSI into `temp`. */
  function HoldHigh(temp: bool, p: seq<PinState>): Option<Latched>
    decreases |p|
  {
    if p == [] then None
    else if !p[0].sck then Some(Latched(temp, p[1..]))
    else if |p| == 1 then None
    else HoldHigh(p[1].mosi, p[2..])
  }

  /** The end of a pass: `while (!SCK);`, then the loop's new state. */
  function Finish(acc: bv8, temp: bool, latched: seq<bool>, p: seq<PinState>): Option<Step>
  {
    match WaitRise(p)
    case None => None
    case Some(r) => Some(Step(acc, temp, latched, r))
  }

  /** One pass of the `for` loop: if SCK reads high, wait for it to fall
      while sampling MOSI, then shift the last sample in; in any case wait
      for SCK to rise again. */
  function BitPass(s: Step): Option<Step>
  {
    if s.rest == [] then None
    else if s.rest[0].sck then
      match HoldHigh(s.temp, s.rest[1..])
      case None => None
      case Some(l) => Finish((s.acc << 1) | LevelValue(l.temp), l.temp, s.latched + [l.temp], l.rest)
    else Finish(s.acc, s.temp, s.latched, s.rest[1..])
  }

  /** `n` passes of the loop. */
  function Passes(n: nat, s: Step): Option<Step>
    decreases n
  {
    if n == 0 then Some(s)
    else
      match BitPass(s)
      case None => None
      case Some(s') => Passes(n - 1, s')
  }

  /** SPI_Slave_Receive on the input `p`. */
  function ReceiveSpec(p: seq<PinState>): Option<Received>
  {
    match WaitSelected(p)
    case None => None
    case Some(p1) =>
      match WaitRise(p1)
      case None => None
      case Some(p2) =>
        match Passes(8, Step(0, false, [], p2))
        case None => None
        case Some(s) => Some(Received(s.acc, s.latched, s.rest))
  }

  /** `n` calls of SPI_Slave_Receive in a row; the last one's result. */
  function Receives(n: nat, p: seq<PinState>): Option<Received>
    requires n >= 1
  {
    match ReceiveSpec(p)
    case None => None
    case Some(r) => if n == 1 then Some(r) else Receives(n - 1, r.rest)
  }

  /** A pass shifts in at most one level, and keeps what the loop holds
      equal to the levels shifted in so far, assembled most significant first. */
  lemma PassAssembles(s: Step)
    requires s.acc == FromMsbFirst(s.latched)
    ensures BitPass(s).Some? ==>
              var t := BitPass(s).value;
              && t.acc == FromMsbFirst(t.latched)
              && (t.latched == s.latched || t.latched == s.latched + [t.temp])
  {
    if BitPass(s).Some? && s.rest[0].sck {
      var l := HoldHigh(s.temp, s.rest[1..]).value;
      AccumulateSnoc(0, s.latched, l.temp);
    }
  }

  /** Over `n` passes: at most `n` more levels, appended to those before. */
  lemma {:induction false} PassesAssemble(n: nat, s: Step)
    requires s.acc == FromMsbFirst(s.latched)
    ensures Passes(n, s).Some? ==>
              var t := Passes(n, s).value;
              && t.acc == FromMsbFirst(t.latched)
              && |t.latched| <= |s.latched| + n
              && s.latched <= t.latched
    decreases n
  {
    if n > 0 && BitPass(s).Some? {
      PassAssembles(s);
      PassesAssemble(n - 1, BitPass(s).value);
    }
  }

  /** SPI_Slave_Receive returns the levels it shifted in, assembled most
      significant bit first; it shifts in at most eight, and when it shifts
      in eight the first one lands in bit 7 and the last in bit 0. */
  lemma ReceiveAssembles(p: seq<PinState>)
    ensures ReceiveSpec(p).Some? ==>
              var r := ReceiveSpec(p).value;
              && r.value == FromMsbFirst(r.latched)
              && |r.latched| <= 8
              && (|r.latched| == 8 ==> MsbFirst(r.value) == r.latched)
  {
    if ReceiveSpec(p).Some? {
      var p2 := WaitRise(WaitSelected(p).value).value;
      PassesAssemble(8, Step(0, false, [], p2));
      var r := ReceiveSpec(p).value;
      if |r.latched| == 8 {
        EncodeDecode(r.latched);
      }
    }
  }

  /** While CS reads high the slave samples nothing: an input on which CS
      never reads low makes SPI_Slave_Receive wait for ever. */
  lemma {:induction false} NeverSelected(p: seq<PinState>)
    requires forall k :: 0 <= k < |p| ==> p[k].cs
    ensures WaitSelected(p) == None && ReceiveSpec(p) == None
    decreases |p|
  {
    if p != [] {
      NeverSelected(p[1..]);
    }
  }

  class Slave {
    /** The levels the program's coming reads will see, first one first. */
    var pending: seq<PinState>
    /** Num_Receive. */
    var numReceive: bv8

    /** One GPIO_ReadInputDataBit: the levels at the moment of the read. */
    method ReadInputs() returns (s: Option<PinState>)
      modifies this
      ensures numReceive == old(numReceive)
      ensures old(pending) == [] ==> s == None && pending == []
      ensures old(pending) != [] ==> s == Some(old(pending)[0]) && pending == old(pending)[1..]
    {
      if pending == [] {
        s := None;
      } else {
        s := Some(pending[0]);
        pending := pending[1..];
      }
    }

    /** `while (!SCK);` */
    method AwaitRise() returns (ok: bool)
      modifies this
      ensures numReceive == old(numReceive)
      ensures ok == WaitRise(old(pending)).Some?
      ensures if ok then pending == WaitRise(old(pending)).value else pending == []
    {
      while true
        invariant WaitRise(pending) == WaitRise(old(pending))
        invariant numReceive == old(numReceive)
        decreases |pending|
      {
        var s := ReadInputs();
        if s.None? {
          return false;
        }
        if s.value.sck {
          return true;
        }
      }
    }

    /** `while (SCK) temp = MOSI;` */
    method AwaitFall(temp0: bool) returns (ok: bool, temp: bool)
      modifies this
      ensures numReceive == old(numReceive)
      ensures ok == HoldHigh(temp0, old(pending)).Some?
      ensures ok ==> Latched(temp, pending) == HoldHigh(temp0, old(pending)).value
      ensures !ok ==> pending == []
    {
      temp := temp0;
      while true
        invariant HoldHigh(temp, pending) == HoldHigh(temp0, old(pending))
        invariant numReceive == old(numReceive)
        decreases |pending|
      {
        var s := ReadInputs();
        if s.None? {
          return false, temp;
        }
        if !s.value.sck {
          return true, temp;
        }
        var m := ReadInputs();
        if m.None? {
          return false, temp;
        }
        temp := m.value.mosi;
      }
    }

    /** `while (CS);` */
    method AwaitSelected() returns (ok: bool)
      modifies this
      ensures numReceive == old(numReceive)
      ensures ok == WaitSelected(old(pending)).Some?
      ensures if ok then pending == WaitSelected(old(pending)).value else pending == []
    {
      while true
        invariant WaitSelected(pending) == WaitSelected(old(pending))
        invariant numReceive == old(numReceive)
        decreases |pending|
      {
        var s := ReadInputs();
        if s.None? {
          return false;
        }
        if !s.value.cs {
          return true;
        }
      }
    }

    /** One pass of SPI_Slave_Receive's `for` loop. */
    method Pass(acc: bv8, temp: bool, ghost latched: seq<bool>)
      returns (ok: bool, acc': bv8, temp': bool, ghost latched': seq<bool>)
      modifies this
      ensures numReceive == old(numReceive)
      ensures ok == BitPass(Step(acc, temp, latched, old(pending))).Some?
      ensures ok ==> BitPass(Step(acc, temp, latched, old(pending))).value == Step(acc', temp', latched', pending)
      ensures !ok ==> pending == []
    {
      acc', temp', latched' := acc, temp, latched;
      var s := ReadInputs();
      if s.None? {
        return false, acc', temp', latched';
      }
      if s.value.sck {
        ok, temp' := AwaitFall(temp);
        if !ok {
          return false, acc', temp', latched';
        }
        acc' := acc' << 1;
        acc' := acc' | LevelValue(temp');
        latched' := latched' + [temp'];
      }
      ok := AwaitRise();
    }

    /** SPI_Slave_Receive. */
    method Receive() returns (r: Option<bv8>)
      modifies this
      ensures numReceive == old(numReceive)
      ensures ReceiveSpec(old(pending)).None? ==> r == None && pending == []
      ensures ReceiveSpec(old(pending)).Some? ==>
                r == Some(ReceiveSpec(old(pending)).value.value) && pending == ReceiveSpec(old(pending)).value.rest
    {
      var dataReceive: bv8 := 0;
      var temp := false;
      ghost var latched: seq<bool> := [];
      var ok := AwaitSelected();
      if !ok {
        return None;
      }
      ok := AwaitRise();
      if !ok {
        return None;
      }
      ghost var start := Step(0, false, [], pending);
      var i := 0;
      while i < 8
        invariant 0 <= i <= 8
        invariant numReceive == old(numReceive)
        invariant Passes(8, start) == Passes(8 - i, Step(dataReceive, temp, latched, pending))
      {
        ok, dataReceive, temp, latched := Pass(dataReceive, temp, latched);
        if !ok {
          return None;
        }
        i := i + 1;
      }
      r := Some(dataReceive);
    }

    /** The `for` loop of `main`: SPI_Slave_Receive eight times, each
        result overwriting Num_Receive. */
    method ReceiveEight()
      modifies this
      ensures Receives(8, old(pending)).Some? ==>
                numReceive == Receives(8, old(pending)).value.value
                && pending == Receives(8, old(pending)).value.rest
    {
      ghost var goal := Receives(8, pending);
      var i := 0;
      while i < 8
        invariant 0 <= i <= 8
        invariant i < 8 ==> goal == Receives(8 - i, pending)
        invariant i == 8 && goal.Some? ==> numReceive == goal.value.value && pending == goal.value.rest
      {
        var r := Receive();
        if r.None? {
          return;
        }
        numReceive := r.value;
        i := i + 1;
      }
    }

    /** One pass of `main`'s loop: if CS reads low, receive eight bytes. */
    method Poll()
      modifies this
      ensures old(pending) == [] ==> pending == [] && numReceive == old(numReceive)
      ensures old(pending) != [] && old(pending)[0].cs ==>
                pending == old(pending)[1..] && numReceive == old(numReceive)
      ensures old(pending) != [] && !old(pending)[0].cs && Receives(8, old(pending)[1..]).Some? ==>
                numReceive == Receives(8, old(pending)[1..]).value.value
                && pending == Receives(8, old(pending)[1..]).value.rest
    {
      var s := ReadInputs();
      if s.None? || s.value.cs {
        return;
      }
      ReceiveEight();
    }
  }
}
