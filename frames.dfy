/** CAN frames as `transmit` builds them. */
module Frames {

  newtype byte = x: int | 0 <= x < 256

  /** The fields of a python-can message that `transmit` sets. */
  datatype Frame = Frame(arbitrationId: int, isExtendedId: bool, dlc: nat, data: seq<byte>, isFd: bool)

  /** The frame `transmit(data, reqId, extended)` hands to the bus: the given
      identifier and identifier kind, the payload, a declared length equal to
      the payload's, and the flexible-data-rate flag always set. */
  function MakeFrame(data: seq<byte>, reqId: int, extended: bool): (m: Frame)
    ensures m.arbitrationId == reqId && m.isExtendedId == extended
    ensures m.data == data && m.dlc == |m.data|
    ensures m.isFd
  {
    Frame(reqId, extended, |data|, data, true)
  }

  /** A python-can message object, whose fields `transmit` assigns one by one. */
  class Message {
    var arbitrationId: int
    var isExtendedId: bool
    var dlc: nat
    var data: seq<byte>
    var isFd: bool

    /** `can.Message(arbitration_id=..., is_extended_id=...)`: an empty
        classic (non-FD) payload. */
    constructor (arbitrationId: int, isExtendedId: bool)
      ensures this.arbitrationId == arbitrationId && this.isExtendedId == isExtendedId
      ensures dlc == 0 && data == [] && !isFd
    {
      this.arbitrationId := arbitrationId;
      this.isExtendedId := isExtendedId;
      dlc := 0;
      data := [];
      isFd := false;
    }

    /** The message's current field values. */
    function Value(): Frame
      reads this
    {
      Frame(arbitrationId, isExtendedId, dlc, data, isFd)
    }
  }
}
