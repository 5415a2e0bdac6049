/** The CAN data frame shared by the CAN_TX and CAN_RX programs, and the
    acceptance filter that CAN_RX configures (CAN_TX defines the same
    filter routine but its main never calls it).

    A frame is the StdPeriph CanTxMsg/CanRxMsg record reduced to what the
    programs touch: the standard identifier, the RTR and IDE selectors, the
    data length code and the eight data slots.  A standard data frame of
    CAN 2.0 Part A (Bosch CAN Specification 2.0, section 3.1.1) has an
    11-bit identifier and a DLC of 0 to 8. */
module CanFrame {
  datatype Rtr = DataFrame | RemoteFrame
  datatype Ide = Standard | Extended

  /** CanTxMsg / CanRxMsg: StdId, RTR, IDE, DLC and Data[8]. */
  datatype Frame = Frame(stdId: bv32, rtr: Rtr, ide: Ide, dlc: bv8, data: seq<bv8>)

  /** Number of data slots in a frame record, Data[8]. */
  const Slots: nat := 8

  /** A standard data frame as CAN 2.0A allows it: an identifier of 11 bits,
      a data length code of at most 8, and the record's eight slots. */
  predicate WellFormed(f: Frame)
  {
    f.stdId < 0x800 && f.dlc as int <= Slots && |f.data| == Slots
  }

  /** The bytes a frame carries: the first DLC data slots. */
  function Payload(f: Frame): (p: seq<bv8>)
    requires f.dlc as int <= |f.data|
    ensures |p| == f.dlc as int
    ensures forall i :: 0 <= i < |p| ==> p[i] == f.data[i]
  {
    f.data[..f.dlc]
  }

  // ---------------------------------------------------------------------
  // Filter bank 0: 32-bit identifier-mask mode, high halfwords only.

  /** CAN_FilterIdHigh = 0x321 << 5: the standard identifier 0x321 placed
      in bits 15:5 of the high halfword.  No bit of the identifier is
      shifted out of the 16-bit field: shifting back gives 0x321 again. */
  function FilterIdHigh(): (h: bv16)
    ensures h >> 5 == 0x321 && h & 0x1F == 0
  {
    0x321 << 5
  }

  /** CAN_FilterMaskIdHigh = 0xFFE0; both low halfwords are 0x0000, so only
      the high halfword takes part in the comparison. */
  const FilterMaskIdHigh: bv16 := 0xFFE0

  /** The high halfword of a received frame's identifier register: the
      11-bit standard identifier sits in bits 15:5, the extended-identifier
      bits below it are zero for a standard frame. */
  function IdHigh(stdId: bv32): (w: bv16)
    ensures w >> 5 == (stdId & 0x7FF) as bv16
    ensures w & 0x1F == 0
  {
    ((stdId & 0x7FF) << 5) as bv16
  }

  /** A frame passes filter bank 0 when its identifier agrees with
      CAN_FilterIdHigh on every bit CAN_FilterMaskIdHigh selects. */
  predicate Accepts(stdId: bv32)
  {
    IdHigh(stdId) & FilterMaskIdHigh == FilterIdHigh() & FilterMaskIdHigh
  }

  /** The mask 0xFFE0 selects exactly the eleven identifier bits 15:5. */
  lemma MaskCoversIdentifier(w: bv16)
    ensures w & FilterMaskIdHigh == (w >> 5) << 5
  {
  }

  /** Filter bank 0 admits the standard identifier 0x321 and no other. */
  lemma AcceptsOnly(stdId: bv32)
    requires stdId < 0x800
    ensures Accepts(stdId) <==> stdId == 0x321
  {
    var w := IdHigh(stdId);
    MaskCoversIdentifier(w);
    MaskCoversIdentifier(FilterIdHigh());
    assert stdId & 0x7FF == stdId;
    if Accepts(stdId) {
      assert (w >> 5) << 5 == (FilterIdHigh() >> 5) << 5;
      assert w >> 5 == FilterIdHigh() >> 5;
    }
  }

  /** CAN_TX sends its one frame with identifier 0x123 (CAN_RX defines the
      same sending routine but never calls it).  The filter CAN_RX
      configures does not admit 0x123, so CAN_RX never receives CAN_TX's
      frame. */
  lemma TransmitIdRejected()
    ensures !Accepts(0x123)
  {
    AcceptsOnly(0x123);
  }
}
