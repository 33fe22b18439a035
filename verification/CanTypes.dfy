/** Frame-level types shared by every CAN-TS component. */
module CanTypes {
  type Byte = bv8

  /** A node address. */
  datatype Address = Address(id: bv8)

  const BROADCAST := Address(0)

  // CAN_FRAME_MAX_DATA and CAN_TS_MAX_BLOCK_BYTES
  const FRAME_MAX_DATA: nat := 8
  const MAX_BLOCK_BYTES: nat := 512

  /** The valid bytes of a classic CAN frame: data[0 .. dlc]. */
  type Payload = s: seq<Byte> | |s| <= 8

  /** A 6-bit sequence number or block count minus one. */
  type Low6 = n: nat | n < 64

  datatype Option<+T> = None | Some(value: T)

  /** The decoded CAN identifier. The message type is kept as its wire number. */
  datatype Header = Header(to: Address, from: Address, mtype: bv8, command: bv16)

  /** A frame as a manager hands it to its frame sender: header and payload. */
  datatype Wire = Wire(header: Header, data: Payload)

  /** A frame on the bus. */
  datatype CanFrame = CanFrame(id: bv32, data: Payload)

  const TIMESYNC: bv8 := 0
  const UNSOLICITED: bv8 := 1
  const TELECOMMAND: bv8 := 2
  const TELEMETRY: bv8 := 3
  const SETBLOCK: bv8 := 4
  const GETBLOCK: bv8 := 5
}
