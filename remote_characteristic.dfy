/**
 * `BLERemoteCharacteristic`: a characteristic of a connected peer, seen from the
 * client. Each blocking take/wait pair of the C++ code is one atomic step: the
 * request it sends is appended to the client's request log and the result the
 * event brings back (read payload, wait result code, descriptors the client
 * records while the call waits) is a parameter of the step.
 */
module BleClient {
  import opened BleTypes
  import opened Formatting
  import opened GattTransport
  import Uuids
  import Cccd

  /** The text that keys the CCCD in a descriptor map. */
  function CccdKey(): string
  {
    Uuids.ToString(Uuids.Cccd)
  }

  /** The part of `BLEClient` a characteristic reaches through its service. */
  class Client {
    var connected: bool
    const connId: uint8
    const gattcIf: uint8
    /** `m_descriptorMap`: one map for the whole client, keyed by UUID text. */
    var descriptorMap: map<string, RemoteDescriptor>
    /** Everything sent to the transport or to a descriptor, oldest first. */
    var requests: seq<Request>

    constructor (connId: uint8, gattcIf: uint8, connected: bool)
      ensures this.connId == connId && this.gattcIf == gattcIf && this.connected == connected
      ensures descriptorMap == map[] && requests == []
    {
      this.connId := connId;
      this.gattcIf := gattcIf;
      this.connected := connected;
      descriptorMap := map[];
      requests := [];
    }
  }

  /** The part of `BLERemoteService` a characteristic uses: its client. */
  class RemoteService {
    const client: Client

    constructor (client: Client)
      ensures this.client == client
    {
      this.client := client;
    }
  }

  /** An application notify callback, by identity; a null callback is `None`. */
  datatype Callback = Callback(id: nat)

  /** One call of a notify callback: characteristic, value pointer, `value_size`, `notify`. */
  datatype Invocation = Invocation(callback: Callback, source: RemoteCharacteristic, value: seq<uint8>, valueSize: uint16, notify: bool)

  /** The `cb_type` of `T_BLE_CLIENT_CB_DATA` with the content the model reads. */
  datatype ClientEvent =
    | DiscoveryState(state: int)
    | DiscoveryResult
    | ReadResult
    | WriteResult
    | NotifInd(handle: uint16, value: seq<uint8>, valueSize: uint16, notify: bool)
    | DisconnectResult
    | OtherEvent(cbType: int)

  class RemoteCharacteristic {
    /** `m_handle`: the declaration handle, the one `getHandle()` returns. */
    const handle: uint16
    /** `m_end_handle`: set to the value handle. */
    const endHandle: uint16
    const srvcId16: uint16
    const uuid: Uuids.Uuid
    const remoteService: RemoteService
    var notifyCallback: Option<Callback>
    var haveDescriptor: bool
    /** `m_value`: the value the last completed read delivered. */
    var value: seq<uint8>

    /**
     * Records the handles and the UUID, clears the callback, and retrieves the
     * descriptors. `properties` is not stored.
     */
    constructor (declHandle: uint16, properties: uint16, valueHandle: uint16, uuid16: uint16,
                 remoteService: RemoteService, discoveryResult: int, discovered: map<string, RemoteDescriptor>)
      modifies remoteService.client`descriptorMap, remoteService.client`requests
      ensures handle == declHandle && endHandle == valueHandle
      ensures srvcId16 == uuid16 && uuid == Uuids.Uuid16(uuid16)
      ensures this.remoteService == remoteService && notifyCallback == None && value == []
      ensures remoteService.client.requests == old(remoteService.client.requests) +
        [DescriptorDiscovery(remoteService.client.connId, remoteService.client.gattcIf, declHandle, valueHandle)]
      ensures remoteService.client.descriptorMap == discovered
      ensures haveDescriptor == (discoveryResult == 0)
    {
      handle := declHandle;
      srvcId16 := uuid16;
      uuid := Uuids.Uuid16(uuid16);
      endHandle := valueHandle;
      this.remoteService := remoteService;
      notifyCallback := None;
      value := [];
      haveDescriptor := false;
      new;
      RetrieveDescriptors(discoveryResult, discovered);
    }

    /** `getUUID()`: `m_uuid`, which the constructor builds from the 16-bit id. */
    function GetUuid(): (u: Uuids.Uuid)
      ensures u == uuid
    {
      uuid
    }

    /** `getHandle()`: the declaration handle. */
    function GetHandle(): (h: uint16)
      ensures h == handle
    {
      handle
    }

    /** `getendHandle()`: the value handle the constructor was given. */
    function GetEndHandle(): (h: uint16)
      ensures h == endHandle
    {
      endHandle
    }

    /** `getRemoteService()`: the owning service. */
    function GetRemoteService(): (s: RemoteService)
      ensures s == remoteService && s.client == remoteService.client
    {
      remoteService
    }

    /** Does not consult the properties: always true. */
    predicate CanRead()
      ensures CanRead()
    {
      true
    }

    /** Does not consult the properties: always true. */
    predicate CanNotify()
      ensures CanNotify()
    {
      true
    }

    /**
     * Disconnected: returns the empty value and sends nothing. Connected: sends
     * one read of `getHandle()`; the value the read delivers becomes `m_value`
     * and is returned.
     */
    method ReadValue(delivered: seq<uint8>) returns (r: seq<uint8>)
      modifies this`value, remoteService.client`requests
      ensures var c := remoteService.client;
        if c.connected then
          r == delivered && value == delivered &&
          c.requests == old(c.requests) + [AttrRead(c.connId, c.gattcIf, handle)]
        else
          r == [] && value == old(value) && c.requests == old(c.requests)
    {
      var client := GetRemoteService().client;
      if !client.connected {
        return [];
      }
      client.requests := client.requests + [AttrRead(client.connId, client.gattcIf, GetHandle())];
      value := delivered;
      r := value;
    }

    /**
     * Stores the callback, then writes the CCCD: {0x01, 0x00} to register for
     * notifications, {0x02, 0x00} for indications, {0x00, 0x00} to unregister.
     * `BLERemoteCharacteristic.cpp` dereferences the descriptor without a check, so it must exist.
     */
    method RegisterForNotify(callback: Option<Callback>, notifications: bool)
      requires CccdKey() in remoteService.client.descriptorMap
      modifies this`notifyCallback, remoteService.client`requests
      ensures notifyCallback == callback
      ensures var c := remoteService.client;
        c.requests == old(c.requests) +
          [DescriptorWrite(c.descriptorMap[CccdKey()], Cccd.Value(callback.Some?, notifications))]
    {
      notifyCallback := callback;
      var client := GetRemoteService().client;
      if callback.Some? {
        var val: seq<uint8> := [0x01, 0x00];
        if !notifications {
          val := val[0 := 0x02];
        }
        assert val[..2] == Cccd.Value(true, notifications);
        var desc := GetDescriptor(Uuids.Cccd);
        client.requests := client.requests + [DescriptorWrite(desc.value, val[..2])];
      } else {
        var val: seq<uint8> := [0x00, 0x00];
        assert val[..2] == Cccd.Value(false, notifications);
        var desc := GetDescriptor(Uuids.Cccd);
        client.requests := client.requests + [DescriptorWrite(desc.value, val[..2])];
      }
    }

    /** The client's descriptor whose key is the UUID's text, or none. */
    method GetDescriptor(uuid: Uuids.Uuid) returns (d: Option<RemoteDescriptor>)
      ensures var m := remoteService.client.descriptorMap;
        (d.Some? <==> Uuids.ToString(uuid) in m) &&
        (d.Some? ==> d.value == m[Uuids.ToString(uuid)])
    {
      var v := Uuids.ToString(uuid);
      var m := GetRemoteService().client.descriptorMap;
      var unvisited := m.Keys;
      while unvisited != {}
        invariant unvisited <= m.Keys
        invariant v in m ==> v in unvisited
        decreases unvisited
      {
        var key :| key in unvisited;
        if key == v {
          return Some(m[key]);
        }
        unvisited := unvisited - {key};
      }
      return None;
    }

    /** `writeValue(uint8_t, bool)`: one byte. */
    method WriteUint8(newValue: uint8, response: bool)
      modifies remoteService.client`requests
      ensures var c := remoteService.client;
        c.requests == old(c.requests) +
          (if c.connected then [AttrWrite(c.connId, c.gattcIf, WriteTypeReq, handle, 1, [newValue])] else [])
    {
      assert [newValue][..1] == [newValue];
      WriteValue([newValue], 1, response);
    }

    /** `writeValue(std::string, bool)`: the bytes before the first NUL. */
    method WriteString(newValue: seq<uint8>, response: bool)
      modifies remoteService.client`requests
      ensures var c := remoteService.client; var n := StrLen(newValue);
        c.requests == old(c.requests) +
          (if c.connected then [AttrWrite(c.connId, c.gattcIf, WriteTypeReq, handle, n, newValue[..n])] else [])
    {
      var cStr := newValue + [0];
      var n := StrLen(newValue);
      assert cStr[..n] == newValue[..n];
      WriteValue(cStr, n, response);
    }

    /**
     * `writeValue(uint8_t*, size_t, bool)`: when connected, one write request of
     * `length` bytes to `getHandle()`; the opcode is always GATT_WRITE_TYPE_REQ,
     * whatever `response` says. Disconnected: nothing is sent.
     */
    method WriteValue(data: seq<uint8>, length: nat, response: bool)
      requires length <= |data|
      modifies remoteService.client`requests
      ensures var c := remoteService.client;
        c.requests == old(c.requests) +
          (if c.connected then [AttrWrite(c.connId, c.gattcIf, WriteTypeReq, handle, length, data[..length])] else [])
    {
      var client := GetRemoteService().client;
      if !client.connected {
        return;
      }
      client.requests := client.requests +
        [AttrWrite(client.connId, client.gattcIf, WriteTypeReq, GetHandle(), length, data[..length])];
    }

    /**
     * "Characteristic: uuid: <uuid>, handle: <decimal> 0x<four hex digits>"; the
     * six-byte buffer each number is printed into truncates neither.
     */
    function ToString(): (r: string)
      ensures r == "Characteristic: uuid: " + Uuids.ToString(uuid) + ", handle: " +
        Decimal(handle as nat) + " 0x" + Hex04(handle as nat)
    {
      DecimalOfUint16(handle as nat);
      Hex04OfUint16(handle as nat);
      var res := "Characteristic: uuid: " + Uuids.ToString(uuid);
      var res := res + ", handle: ";
      var res := res + Truncated(Decimal(GetHandle() as nat), 6);
      var res := res + " 0x";
      res + Truncated(Hex04(GetHandle() as nat), 6)
    }

    /**
     * Empties the client's descriptor map, asks for the descriptors in
     * [m_handle, m_end_handle], and records whether the wait returned 0.
     * `discovered` is what the client puts in the map while the call waits.
     */
    method RetrieveDescriptors(waitResult: int, discovered: map<string, RemoteDescriptor>)
      modifies this`haveDescriptor, remoteService.client`descriptorMap, remoteService.client`requests
      ensures var c := remoteService.client;
        c.requests == old(c.requests) + [DescriptorDiscovery(c.connId, c.gattcIf, handle, endHandle)]
      ensures remoteService.client.descriptorMap == discovered
      ensures haveDescriptor == (waitResult == 0)
    {
      RemoveDescriptors();
      var client := GetRemoteService().client;
      client.requests := client.requests + [DescriptorDiscovery(client.connId, client.gattcIf, handle, endHandle)];
      client.descriptorMap := discovered;
      haveDescriptor := waitResult == 0;
    }

    /** Leaves the client's descriptor map empty. */
    method RemoveDescriptors()
      modifies remoteService.client`descriptorMap
      ensures remoteService.client.descriptorMap == map[]
    {
      GetRemoteService().client.descriptorMap := map[];
    }

    /** The event is a notification or indication for `getHandle()` and a callback is registered. */
    predicate Delivers(event: ClientEvent)
      reads this
    {
      event.NotifInd? && event.handle == handle && notifyCallback.Some?
    }

    /**
     * The event handler: a notification or indication for this handle calls the
     * registered callback once with the event's value, size and flag; every other
     * event calls nothing. No state changes.
     */
    method ClientCallbackDefault(clientId: uint8, connId: uint8, event: ClientEvent) returns (invoked: Option<Invocation>)
      ensures invoked.Some? <==> Delivers(event)
      ensures invoked.Some? ==>
        invoked.value == Invocation(notifyCallback.value, this, event.value, event.valueSize, event.notify)
    {
      invoked := None;
      match event {
        case NotifInd(h, v, size, notify) =>
          if h != GetHandle() {
            return;
          }
          if notifyCallback.Some? {
            invoked := Some(Invocation(notifyCallback.value, this, v, size, notify));
          }
        case _ =>
      }
    }
  }

  /** A notification reaches only a characteristic whose handle is the event's. */
  lemma HandleScoped(a: RemoteCharacteristic, b: RemoteCharacteristic, event: ClientEvent)
    requires a.handle != b.handle
    ensures !(a.Delivers(event) && b.Delivers(event))
  {
  }

  /** The handle can be read back from both fields of `toString()`. */
  lemma ToStringRecoversHandle(c: RemoteCharacteristic)
    ensures var r := c.ToString();
      var p := |"Characteristic: uuid: " + Uuids.ToString(c.uuid) + ", handle: "|;
      p + 8 <= |r| && r[|r| - 7..|r| - 4] == " 0x" &&
      Parse(r[p..|r| - 7], 10) == c.handle as nat &&
      Parse(r[|r| - 4..], 16) == c.handle as nat
  {
    var h := c.handle as nat;
    var prefix := "Characteristic: uuid: " + Uuids.ToString(c.uuid) + ", handle: ";
    var d, x := Decimal(h), Hex04(h);
    DecimalOfUint16(h);
    Hex04OfUint16(h);
    FieldsOf(prefix, d, " 0x", x);
  }

  /** Where each part of a four-part concatenation sits. */
  lemma FieldsOf(prefix: string, d: string, mid: string, x: string)
    requires |mid| == 3 && |x| == 4
    ensures var r := prefix + d + mid + x;
      r[|prefix|..|r| - 7] == d && r[|r| - 7..|r| - 4] == mid && r[|r| - 4..] == x
  {
    var r := prefix + d + mid + x;
    assert r[|prefix|..|r| - 7] == d;
    assert r[|r| - 7..|r| - 4] == mid;
    assert r[|r| - 4..] == x;
  }

  /**
   * Unregistering twice sends the same all-zero CCCD write twice, whichever
   * `notifications` flag is passed.
   */
  method UnregisterTwice(c: RemoteCharacteristic, first: bool, second: bool)
    requires CccdKey() in c.remoteService.client.descriptorMap
    modifies c`notifyCallback, c.remoteService.client`requests
    ensures c.notifyCallback == None
    ensures var client := c.remoteService.client;
      var w := DescriptorWrite(client.descriptorMap[CccdKey()], [0x00, 0x00]);
      client.requests == old(client.requests) + [w, w]
  {
    c.RegisterForNotify(None, first);
    c.RegisterForNotify(None, second);
  }
}
