/**
 * The `BLEUUID` value type, reduced to what the characteristic uses of it: a
 * UUID built from 16 bits, and `toString()`, the text that keys descriptor maps
 * and that `toString()` of a characteristic prints.
 */
module Uuids {
  import opened BleTypes
  import Formatting

  datatype Uuid = Uuid16(short: uint16) | Uuid128(text: string)

  /**
   * The canonical text of a UUID. A 16-bit UUID is written in the 128-bit form
   * over the Bluetooth base UUID; the model relies only on this being a string
   * function of the UUID, used as a map key and as printed text.
   */
  function ToString(u: Uuid): string
  {
    match u
    case Uuid16(v) => "0000" + Formatting.Hex04(v as nat) + "-0000-1000-8000-00805f9b34fb"
    case Uuid128(t) => t
  }

  /** The Client Characteristic Configuration Descriptor, `BLEUUID((uint16_t)0x2902)`. */
  const Cccd: Uuid := Uuid16(0x2902)
}
