/** The CAN_RX program (Bai13_CAN): a node whose filter bank 0 admits
    identifier 0x321 into FIFO0, and whose main loop takes each pending frame
    out of FIFO0 into the globals ID and TestArray.  Its CAN_TransmitData,
    sending with the global `id` = 0x123, builds the same frame as
    CanTx.TransmitData; its main never calls it.

    FIFO0 becomes the field `fifo`, the frames pending in arrival order.
    The bxCAN hardware performs the filtering; here that is the predicate
    CanFrame.Accepts applied by Arrive. */
module CanRx {
  import opened CanFrame

  class Node {
    /** ID: the identifier of the last frame received. */
    var ID: bv32
    /** TestArray[8]: the payload of the last frame received. */
    const TestArray: array<bv8>
    /** The frames pending in FIFO0, oldest first. */
    var fifo: seq<Frame>

    /** TestArray has its eight slots, and every pending frame is a
        standard data frame that filter bank 0 admitted. */
    ghost predicate Valid()
      reads this
    {
      TestArray.Length == Slots
      && forall k :: 0 <= k < |fifo| ==> WellFormed(fifo[k]) && Accepts(fifo[k].stdId)
    }

    /** The globals at reset, zeroed as static storage is, and FIFO0
        empty. */
    constructor ()
      ensures Valid() && fresh(TestArray)
      ensures ID == 0 && TestArray[..] == seq(Slots, _ => 0) && fifo == []
    {
      ID := 0;
      TestArray := new bv8[Slots](_ => 0);
      fifo := [];
    }

    /** A frame on the bus meets filter bank 0 (CAN_FilterConfiguration):
        it is queued in FIFO0 when the filter admits its identifier and
        ignored otherwise. */
    method Arrive(f: Frame)
      requires Valid() && WellFormed(f)
      modifies this
      ensures Valid() && ID == old(ID)
      ensures fifo == if Accepts(f.stdId) then old(fifo) + [f] else old(fifo)
    {
      if Accepts(f.stdId) {
        fifo := fifo + [f];
      }
    }

    /** CAN_ReceiveData.  It runs once a message is pending in FIFO0 (the
        busy-wait on CAN_MessagePending has ended), takes the oldest frame
        out, stores its identifier into ID, which can only be 0x321, and
        copies its DLC bytes into TestArray[0..DLC) in order; the slots
        from DLC on keep their values. */
    method ReceiveData()
      requires Valid() && |fifo| >= 1
      modifies this, TestArray
      ensures Valid() && fifo == old(fifo[1..])
      ensures ID == old(fifo[0].stdId) && ID == 0x321
      ensures TestArray[..old(fifo[0].dlc)] == Payload(old(fifo[0]))
      ensures TestArray[old(fifo[0].dlc)..] == old(TestArray[fifo[0].dlc..])
    {
      var rx := fifo[0];
      fifo := fifo[1..];
      AcceptsOnly(rx.stdId);
      ID := rx.stdId;
      var i := 0;
      while i < rx.dlc as int
        invariant 0 <= i <= rx.dlc as int
        invariant TestArray[..i] == rx.data[..i]
        invariant TestArray[rx.dlc..] == old(TestArray[rx.dlc..])
        modifies TestArray
      {
        TestArray[i] := rx.data[i];
        i := i + 1;
      }
    }
  }
}
