/** The multi-device test panel: four simulated devices that can be connected to one
    of the three video positions and disconnected again. */
module MultiDevice {
  import opened Common

  datatype Device = Device(id: string, name: string, kind: string, connected: bool,
                           position: Option<string>)

  const Positions: seq<string> := ["center", "top-left", "top-right"]

  const InitialDevices: seq<Device> := [
    Device("phone-1", "iPhone 14", "phone", false, None),
    Device("laptop-1", "MacBook Pro", "laptop", false, None),
    Device("tablet-1", "iPad Air", "tablet", false, None),
    Device("desktop-1", "Desktop PC", "desktop", false, None)]

  /** The icon shown for a device type; phones and tablets share one. */
  function DeviceIcon(kind: string): (r: string)
    ensures kind == "phone" || kind == "tablet" ==> r == "📱"
    ensures kind == "laptop" ==> r == "💻"
    ensures kind == "desktop" ==> r == "🖥️"
    ensures kind !in {"phone", "laptop", "tablet", "desktop"} ==> r == "📹"
  {
    if kind == "phone" then "📱"
    else if kind == "laptop" then "💻"
    else if kind == "tablet" then "📱"
    else if kind == "desktop" then "🖥️"
    else "📹"
  }

  /** Every entry whose id matches becomes connected at `position`; the rest stay. */
  function ConnectIn(devices: seq<Device>, id: string, position: string): (r: seq<Device>)
    ensures |r| == |devices|
    ensures forall i :: 0 <= i < |r| ==>
              if devices[i].id == id
              then r[i] == devices[i].(connected := true, position := Some(position))
              else r[i] == devices[i]
  {
    if devices == [] then []
    else
      var d := devices[0];
      [if d.id == id then d.(connected := true, position := Some(position)) else d] +
      ConnectIn(devices[1..], id, position)
  }

  /** Every entry whose id matches becomes disconnected with no position; the rest stay. */
  function DisconnectIn(devices: seq<Device>, id: string): (r: seq<Device>)
    ensures |r| == |devices|
    ensures forall i :: 0 <= i < |r| ==>
              if devices[i].id == id
              then r[i] == devices[i].(connected := false, position := None)
              else r[i] == devices[i]
  {
    if devices == [] then []
    else
      var d := devices[0];
      [if d.id == id then d.(connected := false, position := None) else d] +
      DisconnectIn(devices[1..], id)
  }

  /** A device that is idle (disconnected, no position) comes back to the same list
      after a connect and a disconnect. */
  lemma ConnectDisconnect(devices: seq<Device>, id: string, position: string)
    requires forall i :: 0 <= i < |devices| && devices[i].id == id ==>
               !devices[i].connected && devices[i].position == None
    ensures DisconnectIn(ConnectIn(devices, id, position), id) == devices
  {
    var r := DisconnectIn(ConnectIn(devices, id, position), id);
    assert forall i :: 0 <= i < |devices| ==> r[i] == devices[i];
  }

  lemma InitialRoundTrip(id: string, position: string)
    ensures DisconnectIn(ConnectIn(InitialDevices, id, position), id) == InitialDevices
  {
    ConnectDisconnect(InitialDevices, id, position);
  }

  /** A position button is disabled when some device in the application's list already
      holds that position. */
  function PositionTaken(connectedDevices: seq<Device>, position: string): (r: bool)
    ensures r <==> exists i :: 0 <= i < |connectedDevices| && connectedDevices[i].position == Some(position)
  {
    if connectedDevices == [] then false
    else connectedDevices[0].position == Some(position) || PositionTaken(connectedDevices[1..], position)
  }

  class DeviceManager {
    var isOpen: bool
    var devices: seq<Device>

    constructor ()
      ensures !isOpen && devices == InitialDevices
    {
      isOpen := false;
      devices := InitialDevices;
    }

    method Toggle()
      modifies this
      ensures isOpen == !old(isOpen) && devices == old(devices)
    {
      isOpen := !isOpen;
    }

    method ClosePanel()
      modifies this
      ensures !isOpen && devices == old(devices)
    {
      isOpen := false;
    }

    /** Connecting: the list is updated on the matching entry and the application is told
        about the device, now connected at `position`. */
    method Connect(device: Device, position: string) returns (told: (Device, string))
      modifies this
      ensures devices == ConnectIn(old(devices), device.id, position)
      ensures told == (device.(connected := true, position := Some(position)), position)
      ensures isOpen == old(isOpen)
    {
      devices := ConnectIn(devices, device.id, position);
      told := (device.(connected := true, position := Some(position)), position);
    }

    /** Disconnecting: the matching entry loses its connection and position and the
        application is told the id. */
    method Disconnect(deviceId: string) returns (told: string)
      modifies this
      ensures devices == DisconnectIn(old(devices), deviceId)
      ensures told == deviceId
      ensures isOpen == old(isOpen)
    {
      devices := DisconnectIn(devices, deviceId);
      told := deviceId;
    }
  }
}
