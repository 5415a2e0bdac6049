/** The CAN_TX program: it packs a caller's bytes into a standard data frame
    with identifier 0x123 and hands it to CAN_Transmit, and copies a
    received frame's payload out into a caller's buffer.

    CAN_Transmit and CAN_Receive belong to the vendor library; here the
    frame handed to CAN_Transmit is what TransmitData returns, and the frame
    CAN_Receive fills in is a parameter of ReceiveData. */
module CanTx {
  import opened CanFrame

  /** TxMessage.StdId. */
  const TxId: bv32 := 0x123

  /** CAN_TransmitData: a standard data frame with identifier 0x123 whose
      DLC is `length` and whose first `length` slots are `data[0..length)`
      in order.  The record has eight slots, so `length` may not exceed 8;
      the caller's buffer must hold `length` bytes. */
  method TransmitData(data: array<bv8>, length: bv8) returns (msg: Frame)
    requires length as int <= Slots && length as int <= data.Length
    ensures WellFormed(msg)
    ensures msg.stdId == TxId && msg.rtr == DataFrame && msg.ide == Standard
    ensures msg.dlc == length
    ensures Payload(msg) == data[..length]
  {
    var slots := new bv8[Slots];
    var i := 0;
    while i < length as int
      invariant 0 <= i <= length as int
      invariant slots[..i] == data[..i]
    {
      slots[i] := data[i];
      i := i + 1;
    }
    msg := Frame(TxId, DataFrame, Standard, length, slots[..]);
    assert Payload(msg) == slots[..i];
  }

  /** CAN_ReceiveData: `*length` becomes the received DLC and `data[0..DLC)`
      the received payload in order; nothing from index DLC on is written.
      The frame comes from the hardware with a DLC of at most 8, and the
      caller's buffer must hold DLC bytes. */
  method ReceiveData(rx: Frame, data: array<bv8>) returns (length: bv8)
    requires WellFormed(rx) && rx.dlc as int <= data.Length
    modifies data
    ensures length == rx.dlc
    ensures data[..length] == Payload(rx)
    ensures data[length..] == old(data[length..])
  {
    length := rx.dlc;
    var i := 0;
    while i < rx.dlc as int
      invariant 0 <= i <= rx.dlc as int
      invariant data[..i] == rx.data[..i]
      invariant data[rx.dlc..] == old(data[rx.dlc..])
    {
      data[i] := rx.data[i];
      i := i + 1;
    }
  }

  /** The global data[8] of CAN_TX. */
  const TxData: seq<bv8> := [0x10, 0x20, 0x30, 0x40, 0x50, 0x60, 0x70, 0x80]

  /** main: once the peripheral is set up, the eight bytes of `data` go out
      in a single frame with identifier 0x123 and DLC 8. */
  method Boot() returns (sent: Frame)
    ensures WellFormed(sent) && sent.stdId == TxId && sent.dlc == 8
    ensures Payload(sent) == TxData
  {
    var data := new bv8[8];
    data[0], data[1], data[2], data[3] := 0x10, 0x20, 0x30, 0x40;
    data[4], data[5], data[6], data[7] := 0x50, 0x60, 0x70, 0x80;
    assert data[..] == TxData;
    sent := TransmitData(data, 8);
    assert data[..8] == data[..];
  }
}
