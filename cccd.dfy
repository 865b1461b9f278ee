/**
 * The two-byte value `registerForNotify` writes to the Client Characteristic
 * Configuration Descriptor, and what that value means under section 3.3.3.3 of
 * Volume 3, Part G of the Bluetooth Core Specification.
 */
module Cccd {
  import opened BleTypes

  /** The descriptor's value read as a little-endian 16-bit number. */
  function ConfigurationBits(v: seq<uint8>): nat
    requires |v| == 2
  {
    v[0] as nat + 256 * v[1] as nat
  }

  /** Bit 0 of the configuration: notifications enabled. */
  predicate NotificationsEnabled(v: seq<uint8>)
    requires |v| == 2
  {
    ConfigurationBits(v) % 2 == 1
  }

  /** Bit 1 of the configuration: indications enabled. */
  predicate IndicationsEnabled(v: seq<uint8>)
    requires |v| == 2
  {
    ConfigurationBits(v) / 2 % 2 == 1
  }

  /**
   * The bytes written for a registration (`registering`: the callback is not
   * null) asking for notifications or, when `notifications` is false, indications;
   * an unregistration writes zero whatever `notifications` says.
   */
  function Value(registering: bool, notifications: bool): (v: seq<uint8>)
    ensures |v| == 2 && v[1] == 0
    ensures NotificationsEnabled(v) <==> registering && notifications
    ensures IndicationsEnabled(v) <==> registering && !notifications
    ensures !registering ==> ConfigurationBits(v) == 0
    ensures ConfigurationBits(v) < 4
  {
    if registering then
      var val := [0x01 as uint8, 0x00];
      if !notifications then val[0 := 0x02] else val
    else
      [0x00, 0x00]
  }
}
