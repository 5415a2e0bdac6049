/** The USART1 receive interrupt of Uart_interrupt: every received byte is
    kept in `receivedData`, appended to the ten-byte `dataBuffer` while
    there is room, and echoed back.

    The hardware the handler talks to becomes fields: `rxne` is the RXNE
    interrupt status, `dr` the byte USART_ReceiveData would return, and
    `echoed` every byte handed to USART_SendData, oldest first.  The wait for
    TXE is a busy-wait on the transmitter and is taken to end. */
module UartInterrupt {
  /** sizeof(dataBuffer). */
  const BufferSize: nat := 10

  /** What the buffer holds after one more byte arrives: the byte is
      appended while there is room and dropped once the buffer is full. */
  function Append(stored: seq<bv8>, b: bv8): (r: seq<bv8>)
    requires |stored| <= BufferSize
    ensures |r| <= BufferSize
    ensures stored <= r
    ensures |r| == if |stored| < BufferSize then |stored| + 1 else |stored|
    ensures |stored| < BufferSize ==> r[|stored|] == b
  {
    if |stored| < BufferSize then stored + [b] else stored
  }

  /** The buffer's contents after the bytes `arrivals` came in, from empty. */
  function Fill(arrivals: seq<bv8>): (r: seq<bv8>)
    ensures |r| <= BufferSize
  {
    if arrivals == [] then [] else Append(Fill(arrivals[..|arrivals| - 1]), arrivals[|arrivals| - 1])
  }

  /** The buffer keeps the first ten bytes that arrived, in arrival order,
      and nothing else. */
  lemma {:induction false} FillKeepsFirst(arrivals: seq<bv8>)
    ensures Fill(arrivals) == arrivals[..if |arrivals| < BufferSize then |arrivals| else BufferSize]
  {
    if arrivals != [] {
      var init := arrivals[..|arrivals| - 1];
      FillKeepsFirst(init);
      if |init| < BufferSize {
        assert init + [arrivals[|arrivals| - 1]] == arrivals;
      } else {
        assert init[..BufferSize] == arrivals[..BufferSize];
      }
    }
  }

  /** Once a byte is in the buffer it stays there: later arrivals only add
      after it. */
  lemma {:induction false} FillGrows(arrivals: seq<bv8>, more: seq<bv8>)
    ensures Fill(arrivals) <= Fill(arrivals + more)
  {
    FillKeepsFirst(arrivals);
    FillKeepsFirst(arrivals + more);
    var n := if |arrivals| < BufferSize then |arrivals| else BufferSize;
    assert (arrivals + more)[..n] == arrivals[..n];
  }

  class Usart {
    /** receivedData: the last byte received. */
    var receivedData: bv8
    /** dataBuffer[10]. */
    const dataBuffer: array<bv8>
    /** bufferIndex: the number of bytes stored. */
    var bufferIndex: nat
    /** The RXNE interrupt status of USART1. */
    var rxne: bool
    /** The received byte waiting in USART1's data register. */
    var dr: bv8
    /** Every byte sent back with USART_SendData, oldest first. */
    var echoed: seq<bv8>

    ghost predicate Valid()
      reads this
    {
      dataBuffer.Length == BufferSize && bufferIndex <= BufferSize
    }

    /** The bytes stored so far, in arrival order. */
    ghost function Stored(): seq<bv8>
      requires Valid()
      reads this, dataBuffer
    {
      dataBuffer[..bufferIndex]
    }

    /** The globals at reset: receivedData and bufferIndex zero, the buffer
        zeroed as static storage is. */
    constructor ()
      ensures Valid() && fresh(dataBuffer)
      ensures receivedData == 0 && bufferIndex == 0 && Stored() == []
      ensures dataBuffer[..] == seq(BufferSize, _ => 0)
      ensures !rxne && echoed == []
    {
      receivedData := 0;
      dataBuffer := new bv8[BufferSize](_ => 0);
      bufferIndex := 0;
      rxne := false;
      dr := 0;
      echoed := [];
    }

    /** USART1_IRQHandler.  With RXNE set, the byte is kept in receivedData
        whatever happens to it, stored at dataBuffer[bufferIndex] with
        bufferIndex moving on by one while the buffer has room (earlier
        entries untouched), dropped when it is full, and echoed once.  With
        RXNE clear nothing is stored or echoed.  Either way the pending
        bit is cleared. */
    method IrqHandler()
      requires Valid()
      modifies this, dataBuffer
      ensures Valid() && !rxne && dr == old(dr)
      ensures old(rxne) ==> receivedData == old(dr) && echoed == old(echoed) + [old(dr)]
      ensures old(rxne) && old(bufferIndex) < BufferSize ==>
                bufferIndex == old(bufferIndex) + 1
                && dataBuffer[old(bufferIndex)] == old(dr)
                && (forall i :: 0 <= i < BufferSize && i != old(bufferIndex) ==> dataBuffer[i] == old(dataBuffer[i]))
      ensures old(rxne) && old(bufferIndex) == BufferSize ==>
                bufferIndex == old(bufferIndex) && dataBuffer[..] == old(dataBuffer[..])
      ensures old(rxne) ==> Stored() == Append(old(Stored()), old(dr))
      ensures !old(rxne) ==>
                receivedData == old(receivedData) && echoed == old(echoed)
                && bufferIndex == old(bufferIndex) && dataBuffer[..] == old(dataBuffer[..])
    {
      if rxne {
        receivedData := dr;
        if bufferIndex < dataBuffer.Length {
          dataBuffer[bufferIndex] := receivedData;
          bufferIndex := bufferIndex + 1;
        }
        echoed := echoed + [receivedData];
      }
      rxne := false;
    }
  }
}
