/**
 * The requests the characteristic sends: one entry per call of a transport
 * primitive (`client_attr_read`, `client_attr_write`,
 * `client_all_char_descriptor_discovery`) or of
 * `BLERemoteDescriptor::writeValue`, with the arguments it was given.
 */
module GattTransport {
  import opened BleTypes
  import Uuids

  /** A discovered descriptor as the client's descriptor map holds it. */
  datatype RemoteDescriptor = RemoteDescriptor(handle: uint16, uuid: Uuids.Uuid)

  /** The write opcode passed to `client_attr_write`. */
  datatype WriteType = WriteTypeCmd | WriteTypeReq

  datatype Request =
    | AttrRead(connId: uint8, clientId: uint8, handle: uint16)
    | AttrWrite(connId: uint8, clientId: uint8, writeType: WriteType, handle: uint16, length: nat, data: seq<uint8>)
    | DescriptorDiscovery(connId: uint8, clientId: uint8, startHandle: uint16, endHandle: uint16)
    | DescriptorWrite(descriptor: RemoteDescriptor, data: seq<uint8>)
}
