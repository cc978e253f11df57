/** The cast hook of `src/hooks/useChromecast.ts`: a simulated list of cast
    devices with a connection status each, the connected flag, the
    connecting flag and the current device. The 1.5 s connection delay is
    not modelled: `Connect` is the whole of one `connect()` call. */
module Chromecast {
  import opened Collections

  datatype DeviceStatus = Available | Connected | Connecting

  datatype CastDevice = CastDevice(id: string, name: string, status: DeviceStatus)

  const NoDeviceConnected: string := "No cast device connected"

  /** The list set when the browser has no Cast API. */
  const DevelopmentDevices: seq<CastDevice> := [
    CastDevice("1", "Living Room TV", Available),
    CastDevice("2", "Bedroom Chromecast", Available)
  ]

  /** `d` sits at `k` and no earlier entry has id `id`. */
  predicate FirstAt(devices: seq<CastDevice>, id: string, d: CastDevice, k: int) {
    0 <= k < |devices| && devices[k] == d && forall i :: 0 <= i < k ==> devices[i].id != id
  }

  /** `d` is the first entry of `devices` with id `id`. */
  ghost predicate FirstWithId(devices: seq<CastDevice>, id: string, d: CastDevice) {
    exists k :: FirstAt(devices, id, d, k)
  }

  /** `devices.find(d => d.id === deviceId)`: the first device with that id. */
  function FindById(devices: seq<CastDevice>, id: string): (r: Option<CastDevice>)
    ensures r.None? <==> forall i :: 0 <= i < |devices| ==> devices[i].id != id
    ensures r.Some? ==> r.value.id == id && FirstWithId(devices, id, r.value)
  {
    if devices == [] then None
    else if devices[0].id == id then
      assert FirstAt(devices, id, devices[0], 0);
      Some(devices[0])
    else
      var r := FindById(devices[1..], id);
      assert r.Some? ==> FirstWithId(devices, id, r.value) by {
        if r.Some? {
          var k :| FirstAt(devices[1..], id, r.value, k);
          assert devices[k + 1] == r.value;
          forall i | 0 <= i < k + 1 ensures devices[i].id != id {
            if i > 0 { assert devices[i] == devices[1..][i - 1]; }
          }
          assert FirstAt(devices, id, r.value, k + 1);
        }
      }
      r
  }

  /** The device `connect(deviceId)` picks: the one with that id, or else the
      first device, or none when the list is empty. An absent id matches no
      device. */
  function ChooseDevice(devices: seq<CastDevice>, deviceId: Option<string>): Option<CastDevice> {
    var found := if deviceId.Some? then FindById(devices, deviceId.value) else None;
    if found.Some? then found else if devices != [] then Some(devices[0]) else None
  }

  /** The choice is empty only for an empty list; it is a listed device, the
      one with the requested id when there is one and the first otherwise. */
  lemma ChooseDeviceSpec(devices: seq<CastDevice>, deviceId: Option<string>)
    ensures var c := ChooseDevice(devices, deviceId);
            (c.None? <==> devices == [])
            && (c.Some? ==> c.value in devices)
            && (deviceId.Some? && (exists i :: 0 <= i < |devices| && devices[i].id == deviceId.value) ==>
                  c.Some? && FirstWithId(devices, deviceId.value, c.value))
            && ((deviceId.None? || forall i :: 0 <= i < |devices| ==> devices[i].id != deviceId.value) ==>
                  c == (if devices == [] then None else Some(devices[0])))
  {
  }

  /** The status update of `connect`: entries with the chosen id become connected. */
  function MarkConnected(devices: seq<CastDevice>, id: string): (r: seq<CastDevice>)
    ensures |r| == |devices|
  {
    seq(|devices|, i requires 0 <= i < |devices| =>
      if devices[i].id == id then devices[i].(status := Connected) else devices[i])
  }

  /** The status update of `disconnect`: every entry becomes available. */
  function MarkAllAvailable(devices: seq<CastDevice>): (r: seq<CastDevice>)
    ensures |r| == |devices|
  {
    seq(|devices|, i requires 0 <= i < |devices| => devices[i].(status := Available))
  }

  /** Connecting changes only statuses, and only of the entries with the chosen id. */
  lemma MarkConnectedSpec(devices: seq<CastDevice>, id: string)
    ensures var r := MarkConnected(devices, id);
            forall i :: 0 <= i < |r| ==>
              r[i].id == devices[i].id && r[i].name == devices[i].name
              && (r[i].status == Connected <==> devices[i].id == id || devices[i].status == Connected)
              && (devices[i].id != id ==> r[i] == devices[i])
  {
  }

  /** Disconnecting after connecting leaves the same list as disconnecting
      straight away: the statuses connect set leave no trace. */
  lemma DisconnectUndoesConnect(devices: seq<CastDevice>, id: string)
    ensures MarkAllAvailable(MarkConnected(devices, id)) == MarkAllAvailable(devices)
  {
  }

  /** The state of one `useChromecast()` instance. */
  class CastSession {
    var isAvailable: bool
    var isConnected: bool
    var isConnecting: bool
    var devices: seq<CastDevice>
    var currentDevice: Option<CastDevice>

    ghost predicate Valid()
      reads this
    {
      currentDevice.Some? ==> isConnected
    }

    /** The initial state with the mount effect: casting is reported available
        either way; without a Cast API the two development devices appear. */
    constructor (hasCastApi: bool)
      ensures Valid()
      ensures isAvailable && !isConnected && !isConnecting && currentDevice == None
      ensures devices == if hasCastApi then [] else DevelopmentDevices
    {
      isAvailable := true;
      isConnected := false;
      isConnecting := false;
      currentDevice := None;
      devices := if hasCastApi then [] else DevelopmentDevices;
    }

    /** `connect(deviceId)`: the chosen device becomes current, as it was
        found, before its status changed; the connecting flag ends false. */
    method Connect(deviceId: Option<string>)
      requires Valid()
      modifies this`isConnecting, this`isConnected, this`currentDevice, this`devices
      ensures Valid()
      ensures !isConnecting
      ensures var chosen := ChooseDevice(old(devices), deviceId);
              match chosen
              case None =>
                isConnected == old(isConnected) && currentDevice == old(currentDevice) && devices == old(devices)
              case Some(d) =>
                isConnected && currentDevice == Some(d) && devices == MarkConnected(old(devices), d.id)
    {
      isConnecting := true;
      var device := ChooseDevice(devices, deviceId);
      if device.Some? {
        currentDevice := device;
        isConnected := true;
        devices := MarkConnected(devices, device.value.id);
      }
      isConnecting := false;
    }

    method Disconnect()
      requires Valid()
      modifies this`isConnected, this`currentDevice, this`devices
      ensures Valid()
      ensures !isConnected && currentDevice == None
      ensures devices == MarkAllAvailable(old(devices))
    {
      isConnected := false;
      currentDevice := None;
      devices := MarkAllAvailable(devices);
    }

    /** `castTrack(track)`: fails unless connected to a current device;
        otherwise the simulated cast succeeds. */
    method CastTrack(title: string) returns (r: Outcome)
      ensures r.Failed? <==> !isConnected || currentDevice.None?
      ensures r.Failed? ==> r.message == NoDeviceConnected
    {
      if !isConnected || currentDevice.None? {
        return Failed(NoDeviceConnected);
      }
      r := Done;
    }
  }
}
