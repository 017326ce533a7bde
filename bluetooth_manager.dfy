/**
 * The printer connection panel: the list of connected printers, kept to one per platform, and
 * the connected / connecting flags, as the connect and disconnect handlers update them.
 */
module BluetoothManager {
  import opened Wrappers
  import opened Seqs
  import opened Text

  /** A connected printer. `connectedAt` is the clock reading, kept as text. */
  datatype Device = Device(id: string, name: string, platform: string, connectedAt: string)

  /** A thrown JavaScript value: its `name` and `message` properties, when it has them. */
  datatype JsError = JsError(name: Option<string>, message: Option<string>)

  /** What `connect()` does: resolve to a boolean, or reject with an error. */
  datatype ConnectReply = Resolved(success: bool) | Rejected(error: JsError)

  /** What the user is told after a connect attempt. */
  datatype ConnectNotice = ConnectedTo(deviceName: string) | ConnectFailed | Cancelled | ConnectError(message: Option<string>)

  /**
   * The cancellation test of the connect handler: the message mentions "User cancelled" or
   * "cancel", or the error is a `NotFoundError` (the browser's device picker was dismissed).
   */
  function IsUserCancellation(error: JsError): (r: bool)
    ensures r <==> (error.message.Some? && Includes(error.message.value, "cancel")) || error.name == Some("NotFoundError")
  {
    if error.message.Some? && Includes(error.message.value, "User cancelled") then
      UserCancelledMentionsCancel();
      IncludesTransitive(error.message.value, "User cancelled", "cancel");
      true
    else
      (error.message.Some? && Includes(error.message.value, "cancel")) || error.name == Some("NotFoundError")
  }

  /** "User cancelled" contains "cancel", at position 5. */
  lemma UserCancelledMentionsCancel()
    ensures Includes("User cancelled", "cancel")
  {
    var s := "User cancelled";
    assert s[5..11] == "cancel" by {
      assert s[5] == 'c' && s[6] == 'a' && s[7] == 'n' && s[8] == 'c' && s[9] == 'e' && s[10] == 'l';
    }
    assert OccursAt(s, "cancel", 5);
    IncludesIff(s, "cancel");
  }

  /** The name shown for a printer on a platform. */
  function DeviceName(platform: string): string {
    "Thermal Printer (" + platform + ")"
  }

  /** The devices on other platforms, in order. */
  function OtherPlatforms(devices: seq<Device>, platform: string): seq<Device> {
    Filter(devices, (d: Device) => d.platform != platform)
  }

  /** The list after a successful connect: devices on the same platform are replaced by the new one, which goes last. */
  function WithDevice(devices: seq<Device>, device: Device): (r: seq<Device>)
    ensures |r| > 0 && r[|r| - 1] == device
    ensures forall i :: 0 <= i < |r| - 1 ==> r[i].platform != device.platform && r[i] in devices
  {
    OtherPlatforms(devices, device.platform) + [device]
  }

  /** Connecting keeps every device of another platform. */
  lemma WithDeviceKeepsOthers(devices: seq<Device>, device: Device)
    ensures forall i :: 0 <= i < |devices| && devices[i].platform != device.platform ==> devices[i] in WithDevice(devices, device)
  {
    FilterKeeps(devices, (d: Device) => d.platform != device.platform);
  }

  /** The list after a disconnect: without an id (or with the falsy empty id) every device goes. */
  function WithoutDevice(devices: seq<Device>, deviceId: Option<string>): (r: seq<Device>)
    ensures deviceId.None? || deviceId == Some("") ==> r == []
    ensures deviceId.Some? && deviceId.value != "" ==>
      forall i :: 0 <= i < |r| ==> r[i].id != deviceId.value && r[i] in devices
  {
    if deviceId.Some? && deviceId.value != "" then Filter(devices, (d: Device) => d.id != deviceId.value) else []
  }

  /** Disconnecting one device keeps every device with another id. */
  lemma WithoutDeviceKeepsOthers(devices: seq<Device>, deviceId: string)
    requires deviceId != ""
    ensures forall i :: 0 <= i < |devices| && devices[i].id != deviceId ==> devices[i] in WithoutDevice(devices, Some(deviceId))
  {
    FilterKeeps(devices, (d: Device) => d.id != deviceId);
  }

  /** No two devices share a platform. */
  predicate OnePerPlatform(devices: seq<Device>) {
    forall i, j :: 0 <= i < j < |devices| ==> devices[i].platform != devices[j].platform
  }

  /** Connecting keeps at most one device per platform. */
  lemma {:induction false} WithDeviceOnePerPlatform(devices: seq<Device>, device: Device)
    requires OnePerPlatform(devices)
    ensures OnePerPlatform(WithDevice(devices, device))
  {
    var kept := OtherPlatforms(devices, device.platform);
    FilterOnePerPlatform(devices, (d: Device) => d.platform != device.platform);
    assert WithDevice(devices, device) == kept + [device];
  }

  /** Disconnecting keeps at most one device per platform. */
  lemma {:induction false} WithoutDeviceOnePerPlatform(devices: seq<Device>, deviceId: Option<string>)
    requires OnePerPlatform(devices)
    ensures OnePerPlatform(WithoutDevice(devices, deviceId))
  {
    if deviceId.Some? && deviceId.value != "" {
      var keep := (d: Device) => d.id != deviceId.value;
      FilterOnePerPlatform(devices, keep);
    }
  }

  /** Any filter of a list with one device per platform keeps that property. */
  lemma {:induction false} FilterOnePerPlatform(devices: seq<Device>, keep: Device -> bool)
    requires OnePerPlatform(devices)
    ensures OnePerPlatform(Filter(devices, keep))
  {
    if devices != [] {
      var rest := devices[1..];
      FilterOnePerPlatform(rest, keep);
      var r := Filter(rest, keep);
      forall j | 0 <= j < |r|
        ensures r[j].platform != devices[0].platform
      {
        var k :| 0 <= k < |rest| && rest[k] == r[j];
        assert rest[k] == devices[k + 1];
      }
    }
  }

  class Manager {
    var isConnecting: bool
    var connectedDevices: seq<Device>
    var isConnected: bool

    constructor()
      ensures !isConnecting && connectedDevices == [] && !isConnected
    {
      isConnecting, connectedDevices, isConnected := false, [], false;
    }

    /** The periodic status check: the flag follows the printer's own report. */
    method CheckConnection(connectedNow: bool)
      modifies this`isConnected
      ensures isConnected == connectedNow
    {
      isConnected := connectedNow;
    }

    /**
     * `handleConnect`. On success the new device (`platform` is what the printer reports, `id` and
     * `now` stand for the clock-derived values) replaces any device on its platform; on failure or
     * rejection the list and the connected flag stay. `isConnecting` is false afterwards.
     */
    method HandleConnect(reply: ConnectReply, platform: string, id: string, now: string) returns (notice: ConnectNotice)
      modifies this
      ensures !isConnecting
      ensures reply == Resolved(true) ==>
        connectedDevices == WithDevice(old(connectedDevices), Device(id, DeviceName(platform), platform, now))
        && isConnected && notice == ConnectedTo(DeviceName(platform))
      ensures reply != Resolved(true) ==> connectedDevices == old(connectedDevices) && isConnected == old(isConnected)
      ensures reply == Resolved(false) ==> notice == ConnectFailed
      ensures reply.Rejected? ==>
        notice == if IsUserCancellation(reply.error) then Cancelled else ConnectError(reply.error.message)
      ensures OnePerPlatform(old(connectedDevices)) ==> OnePerPlatform(connectedDevices)
    {
      isConnecting := true;
      match reply {
        case Resolved(success) =>
          if success {
            var deviceName := DeviceName(platform);
            var device := Device(id, deviceName, platform, now);
            if OnePerPlatform(connectedDevices) {
              WithDeviceOnePerPlatform(connectedDevices, device);
            }
            connectedDevices := OtherPlatforms(connectedDevices, platform) + [device];
            isConnected := true;
            notice := ConnectedTo(deviceName);
          } else {
            notice := ConnectFailed;
          }
        case Rejected(error) =>
          if IsUserCancellation(error) {
            notice := Cancelled;
          } else {
            notice := ConnectError(error.message);
          }
      }
      isConnecting := false;
    }

    /**
     * `handleDisconnect`. When the printer disconnects, the device with the given id goes (every
     * device when no id is given) and the connected flag drops; when it throws nothing changes.
     */
    method HandleDisconnect(deviceId: Option<string>, disconnectThrows: bool) returns (disconnected: bool)
      modifies this`connectedDevices, this`isConnected
      ensures disconnected == !disconnectThrows
      ensures disconnected ==> connectedDevices == WithoutDevice(old(connectedDevices), deviceId) && !isConnected
      ensures !disconnected ==> connectedDevices == old(connectedDevices) && isConnected == old(isConnected)
      ensures OnePerPlatform(old(connectedDevices)) ==> OnePerPlatform(connectedDevices)
    {
      if disconnectThrows {
        return false;
      }
      if OnePerPlatform(connectedDevices) {
        WithoutDeviceOnePerPlatform(connectedDevices, deviceId);
      }
      if deviceId.Some? && deviceId.value != "" {
        connectedDevices := Filter(connectedDevices, (d: Device) => d.id != deviceId.value);
      } else {
        connectedDevices := [];
      }
      isConnected := false;
      disconnected := true;
    }
  }
}
