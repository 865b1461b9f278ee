# BLE remote characteristic, modelled in Dafny

This project models `BLERemoteCharacteristic`, the client-side view of one GATT
characteristic of a connected peer in Seeed_Arduino_rpcBLE. The model covers:

- reading and writing its value, both gated on the client being connected;
- the three `writeValue` overloads;
- registering a notify callback and writing the Client Characteristic
  Configuration Descriptor (CCCD, UUID 0x2902);
- looking up, tearing down and rediscovering descriptors;
- routing notification and indication events to the callback;
- `toString`.

The stack below is a transport that takes requests. The model records it as a
log: `Client.requests` gets one entry per call of `client_attr_read`,
`client_attr_write`, `client_all_char_descriptor_discovery` or
`BLERemoteDescriptor::writeValue`. Each blocking take/wait pair becomes one
atomic step. What the awaited event brings back is a parameter of that step:
the value a read delivers, the discovery wait's result code, and the descriptors
the client records while discovery waits.

Files:

- `ble_types.dfy`: `uint8`, `uint16`, `Option` (a nullable pointer), and `StrLen`
  (what `strlen(s.c_str())` counts).
- `formatting.dfy`: what `%d` and `%04x` print, what a fixed-size `snprintf`
  buffer keeps, and a digit parser that inverts the printing.
- `uuid.dfy`: the `BLEUUID` value type. Its only use here is `toString()`: the
  key of the descriptor map, and the UUID text that the characteristic's
  `toString` prints.
- `cccd.dfy`: the 2-byte CCCD value, and its meaning under section 3.3.3.3 of
  Volume 3, Part G of the Bluetooth Core Specification. Bit 0 enables
  notifications and bit 1 enables indications, read little-endian.
- `transport.dfy`: the request log entries and `RemoteDescriptor`.
- `remote_characteristic.dfy`: `Client`, `RemoteService`, and the
  `RemoteCharacteristic` class with the operations.

Where this model follows the C++ code rather than the documented design:

- The constructor sets `m_handle` to the declaration handle and `m_end_handle`
  to the value handle. So `getHandle()`, which reads and writes target and which
  notifications are matched against, is the declaration handle. Descriptor
  discovery covers `[declaration handle, value handle]`, not
  `[value handle + 1, end handle]`.
- `writeValue` always sends `GATT_WRITE_TYPE_REQ` and ignores `response`.
- `canRead` and `canNotify` always return true. The `properties` argument of the
  constructor is not stored.
- `registerForNotify` has no "descriptor not found" outcome. It dereferences the
  result of `getDescriptor` unchecked, so the model states the descriptor's
  presence as a precondition.
- The descriptor map belongs to the client, not the characteristic.
  `retrieveDescriptors` on any characteristic empties it for all of them.

## Model

| member | source | states |
|---|---|---|
| `BleClient.RemoteCharacteristic.constructor` | src/BLERemoteCharacteristic.cpp:13-29 | the handles are the declaration and value handles (in that order), the UUID is the 16-bit one, the callback is null, and descriptors are retrieved once: one discovery over `[decl, value]`, the map holds exactly what that discovery recorded, and `m_haveDescriptor` is set iff the wait returned 0 |
| `BleClient.RemoteCharacteristic.GetUuid` | src/BLERemoteCharacteristic.cpp:35-37 | returns `m_uuid`, the UUID the constructor built from the 16-bit id |
| `BleClient.RemoteCharacteristic.GetHandle` | src/BLERemoteCharacteristic.cpp:43-45 | returns `m_handle`, the declaration handle |
| `BleClient.RemoteCharacteristic.GetEndHandle` | src/BLERemoteCharacteristic.cpp:47-49 | returns `m_end_handle`, the value handle the constructor was given |
| `BleClient.RemoteCharacteristic.GetRemoteService` | src/BLERemoteCharacteristic.cpp:56-58 | returns the owning service, through which the client is reached |
| `BleClient.RemoteCharacteristic.CanRead` | src/BLERemoteCharacteristic.cpp:65-68 | holds for every characteristic, whatever its properties |
| `BleClient.RemoteCharacteristic.CanNotify` | src/BLERemoteCharacteristic.cpp:75-78 | holds for every characteristic, whatever its properties |
| `BleClient.RemoteCharacteristic.ReadValue` | src/BLERemoteCharacteristic.cpp:87-111 | disconnected: returns the empty value, sends nothing, and leaves `m_value` alone; connected: sends exactly one read of `getHandle()` on the client's connection, and the delivered value becomes `m_value` and is returned |
| `BleClient.RemoteCharacteristic.RegisterForNotify` | src/BLERemoteCharacteristic.cpp:121-141 | afterwards the stored callback is the argument, and exactly one write goes to the client's 0x2902 descriptor, carrying `Cccd.Value(callback non-null, notifications)` |
| `Cccd.Value` | src/BLERemoteCharacteristic.cpp:127-138 | the value is two bytes with a zero high byte and no bit above bit 1, so it is exactly `{0x01,0x00}`, `{0x02,0x00}` or `{0x00,0x00}`; the notification bit is set iff registering with `notifications`; the indication bit is set iff registering without it; unregistering writes 0x0000 |
| `BleClient.UnregisterTwice` | src/BLERemoteCharacteristic.cpp:134-138 | two unregistrations in a row send the same `{0x00, 0x00}` write to the same descriptor twice, whatever `notifications` is, and leave the callback null |
| `BleClient.RemoteCharacteristic.GetDescriptor` | src/BLERemoteCharacteristic.cpp:149-157 | returns a descriptor iff some key of the client's map equals `uuid.toString()`, that key's entry when it does, and changes nothing |
| `BleClient.RemoteCharacteristic.WriteUint8` | src/BLERemoteCharacteristic.cpp:159-161 | when connected, sends exactly one write request of length 1 carrying the byte to `getHandle()`; otherwise sends nothing |
| `BleClient.RemoteCharacteristic.WriteString` | src/BLERemoteCharacteristic.cpp:169-171 | when connected, sends exactly one write request whose length and bytes are the string up to, not including, its first NUL; otherwise sends nothing |
| `BleTypes.StrLen` | src/BLERemoteCharacteristic.cpp:170 | the count is within the string, no counted byte is NUL, and the byte after the counted ones (if any) is NUL |
| `BleClient.RemoteCharacteristic.WriteValue` | src/BLERemoteCharacteristic.cpp:174-196 | when connected, sends exactly one write to `getHandle()` with the given length and the first `length` bytes, always of type `GATT_WRITE_TYPE_REQ` whatever `response` is; otherwise sends nothing |
| `BleClient.RemoteCharacteristic.ToString` | src/BLERemoteCharacteristic.cpp:204-215 | the text is "Characteristic: uuid: " + uuid + ", handle: " + decimal + " 0x" + four hex digits of the handle; the 6-byte buffer truncates neither number |
| `Formatting.Truncated` | src/BLERemoteCharacteristic.cpp:206-211 | what a `size`-byte `snprintf` buffer holds: a prefix of the text, the whole text when it fits, and exactly `size - 1` characters when it does not |
| `Formatting.Decimal` | src/BLERemoteCharacteristic.cpp:208 | `%d` of a non-negative value: at least one character, all `0`-`9`, no leading zero, and the digits denote the value |
| `Formatting.Hex04` | src/BLERemoteCharacteristic.cpp:211 | `%04x`: at least four characters, all lower-case hex digits, and they denote the value; with `Hex04OfUint16` (exactly four for a 16-bit value) this fixes the text as the zero-padded form |
| `Formatting.DigitsRoundTrip` | src/BLERemoteCharacteristic.cpp:208 | parsing the printed digits of `n` in any base from 2 to 16 gives back `n` |
| `Formatting.DecimalOfUint16` | src/BLERemoteCharacteristic.cpp:208 | every 16-bit value prints in 1 to 5 characters, all `0`-`9` with no leading zero, which fit the 6-byte buffer and parse back to the value |
| `Formatting.Hex04OfUint16` | src/BLERemoteCharacteristic.cpp:211 | `%04x` of every 16-bit value is exactly 4 lower-case hex digits and parses back to the value |
| `BleClient.ToStringRecoversHandle` | src/BLERemoteCharacteristic.cpp:204-215 | the handle can be recovered from the decimal field and from the hex field that follow ", handle: " and " 0x" in the text |
| `BleClient.RemoteCharacteristic.RetrieveDescriptors` | src/BLERemoteCharacteristic.cpp:220-230 | sends exactly one discovery over `[m_handle, m_end_handle]`; nothing that was in the map survives, and it holds just what the discovery recorded; `m_haveDescriptor` is set iff the wait result is 0 |
| `BleClient.RemoteCharacteristic.RemoveDescriptors` | src/BLERemoteCharacteristic.cpp:239-246 | the client's descriptor map is empty afterwards |
| `BleClient.RemoteCharacteristic.ClientCallbackDefault` | src/BLERemoteCharacteristic.cpp:248-281 | the callback runs exactly once iff the event is a notification or indication for `getHandle()` and a callback is registered; it gets this characteristic and the event's value, `value_size` and `notify` flag, unchanged; no event changes any state |
| `BleClient.HandleScoped` | src/BLERemoteCharacteristic.cpp:266-273 | a notification event reaches at most one of two characteristics with different handles |

## Left out

- Semaphore `take`/`wait`: blocking concurrency. Each pair is one atomic step, and its result is a parameter.
- `client_attr_read`, `client_attr_write`, `client_all_char_descriptor_discovery`: foreign calls. Each is one entry appended to `Client.requests`.
- `BLERemoteDescriptor::writeValue` is not part of this model. A call of it is logged as `DescriptorWrite(descriptor, bytes)`. Its own connection check and transport request are not modelled.
- The `READ_RESULT` and `DISCOVERY_RESULT` branches of `clientCallbackDefault` do nothing in this file. Whatever fills `m_value` and the descriptor map lives elsewhere, so those contents are parameters of `ReadValue` and `RetrieveDescriptors`.
- The static `_this` pointer: its only reader is outside this file.
- `m_rawData`: it is set to null and never used.
- `Serial.printf` in the discovery-state branch: it is only logging. The missing `return` of `clientCallbackDefault` is undefined behaviour, so no result is modelled.
- RegisterForNotify: `BLERemoteCharacteristic.cpp` dereferences null when the client has no 0x2902 descriptor. That case is a precondition here, not an error result.
- RemoveDescriptors: the C++ code erases map entries while iterating them, which is undefined behaviour in C++. Only the final `clear()` is modelled. Deleting the descriptor objects is not modelled.
- `BLEUUID` internals: `Uuids.ToString` stands in for `toString()`. The model uses it only as a string function: the descriptor-map key and the UUID text in the characteristic's `toString`.
- `src/server/BLEServer.h` holds declarations only, so it has no behaviour to state.
- Write lengths are unbounded `nat`s: the width of `size_t`, and of the length parameter of `client_attr_write`, is not modelled.
- Disconnect draining, timeouts, per-object serialisation and write/read round trips through a peer: none of these appear in this file.
