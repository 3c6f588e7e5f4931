/** The device-selection menu's key handler (src/handlers/select_device.rs). Whether the
    `librespot` feature is compiled in is the flag `librespot`; with it, index 0 of the
    menu is this machine and index k > 0 is remote device k - 1. */
module SelectDevice {
  import opened Wrappers

  /** The device id that stands for local playback. */
  const LOCAL_DEVICE_ID := "__LOCAL_DEVICE__"

  /** A remote playback device as the Web API reports it; its id may be missing. */
  datatype Device = Device(id: Option<string>)
  datatype DevicePayload = DevicePayload(devices: seq<Device>)

  /** The two network requests the handler can dispatch. */
  datatype IoEvent = SwitchToLocalPlayback | TransferPlaybackToDevice(deviceId: string)

  /** The keys the handler tells apart: the navigation keys stand for whatever
      `common_key_events` classifies as down, up, high, middle and low. */
  datatype Key = Esc | Enter | Down | Up | High | Middle | Low | Other(c: char)

  /** The route Esc returns to. */
  datatype ActiveBlock = Library

  /** `get_device_count`: the remote devices (none without a device list), plus the
      local device when the feature is on. */
  function DeviceCount(devices: Option<DevicePayload>, librespot: bool): (n: nat)
    ensures librespot ==> n >= 1
    ensures devices.None? ==> n == (if librespot then 1 else 0)
    ensures devices.Some? ==> n == |devices.value.devices| + (if librespot then 1 else 0)
  {
    var remoteCount := match devices case Some(d) => |d.devices| case None => 0;
    if librespot then remoteCount + 1 else remoteCount
  }

  /** The index after a "down" key: the next one, wrapping to 0 from the last. */
  function DownIndex(i: nat, count: nat): (j: nat)
    requires count > 0
    ensures j < count
    ensures j == 0 <==> i >= count - 1
  {
    if i >= count - 1 then 0 else i + 1
  }

  /** The index after an "up" key: the previous one, wrapping to the last from 0. */
  function UpIndex(i: nat, count: nat): (j: nat)
    requires count > 0
    ensures i <= count ==> j < count
    ensures i < count ==> (j == count - 1 <==> i == 0)
  {
    if i == 0 then count - 1 else i - 1
  }

  /** The selection after a key, given the effective device count. */
  function SelectionAfter(key: Key, selected: Option<nat>, count: nat): (r: Option<nat>)
    ensures count == 0 || key.Esc? || key.Enter? || key.Other? ==> r == selected
    ensures selected.Some? && selected.value < count ==> r.Some? && r.value < count
    ensures selected.None? && r.Some? ==> (key.High? || key.Middle? || key.Low?) && r.value < count
  {
    match key
    case Down => if count > 0 && selected.Some? then Some(DownIndex(selected.value, count)) else selected
    case Up => if count > 0 && selected.Some? then Some(UpIndex(selected.value, count)) else selected
    case High => if count > 0 then Some(0) else selected
    case Middle => if count > 0 then Some(count / 2) else selected
    case Low => if count > 0 then Some(count - 1) else selected
    case _ => selected
  }

  /** The id of remote device k, when there is such a device and it has an id. */
  function RemoteDeviceId(devices: Option<DevicePayload>, k: nat): Option<string> {
    if devices.Some? && k < |devices.value.devices| then devices.value.devices[k].id else None
  }

  /** What Enter dispatches for a selection. */
  function EnterDispatches(selected: Option<nat>, devices: Option<DevicePayload>, librespot: bool): (r: seq<IoEvent>)
    ensures |r| <= 1
    ensures r != [] ==> selected.Some?
    ensures r == [SwitchToLocalPlayback] <==> librespot && selected == Some(0)
  {
    if selected.None? then []
    else if librespot && selected.value == 0 then [SwitchToLocalPlayback]
    else
      var remoteIndex := if librespot then selected.value - 1 else selected.value;
      match RemoteDeviceId(devices, remoteIndex)
      case Some(id) => [TransferPlaybackToDevice(id)]
      case None => []
  }

  /** What a key dispatches. */
  function DispatchesFor(key: Key, selected: Option<nat>, devices: Option<DevicePayload>, librespot: bool): (r: seq<IoEvent>)
    ensures key != Enter ==> r == []
    ensures |r| <= 1
  {
    if key == Enter then EnterDispatches(selected, devices, librespot) else []
  }

  /** The part of `App` the handler reads and writes. `dispatched` records the calls of
      `app.dispatch`, `routeChanges` those of `set_current_route_state`. */
  class App {
    const librespot: bool
    var devices: Option<DevicePayload>
    var selectedDeviceIndex: Option<nat>
    var dispatched: seq<IoEvent>
    var routeChanges: seq<ActiveBlock>

    constructor (librespot: bool, devices: Option<DevicePayload>, selectedDeviceIndex: Option<nat>)
      ensures this.librespot == librespot && this.devices == devices
      ensures this.selectedDeviceIndex == selectedDeviceIndex
      ensures dispatched == [] && routeChanges == []
    {
      this.librespot := librespot;
      this.devices := devices;
      this.selectedDeviceIndex := selectedDeviceIndex;
      this.dispatched := [];
      this.routeChanges := [];
    }

    /** `handler` */
    method Handler(key: Key)
      modifies this`selectedDeviceIndex, this`dispatched, this`routeChanges
      ensures selectedDeviceIndex == SelectionAfter(key, old(selectedDeviceIndex), DeviceCount(devices, librespot))
      ensures dispatched == old(dispatched) + DispatchesFor(key, old(selectedDeviceIndex), devices, librespot)
      ensures routeChanges == old(routeChanges) + (if key == Esc then [Library] else [])
    {
      match key {
        case Esc =>
          routeChanges := routeChanges + [Library];
        case Down =>
          var deviceCount := DeviceCount(devices, librespot);
          if deviceCount > 0 {
            if selectedDeviceIndex.Some? {
              var nextIndex := if selectedDeviceIndex.value >= deviceCount - 1 then 0 else selectedDeviceIndex.value + 1;
              selectedDeviceIndex := Some(nextIndex);
            }
          }
        case Up =>
          var deviceCount := DeviceCount(devices, librespot);
          if deviceCount > 0 {
            if selectedDeviceIndex.Some? {
              var nextIndex := if selectedDeviceIndex.value == 0 then deviceCount - 1 else selectedDeviceIndex.value - 1;
              selectedDeviceIndex := Some(nextIndex);
            }
          }
        case High =>
          if DeviceCount(devices, librespot) > 0 {
            selectedDeviceIndex := Some(0);
          }
        case Middle =>
          var deviceCount := DeviceCount(devices, librespot);
          if deviceCount > 0 {
            selectedDeviceIndex := Some(deviceCount / 2);
          }
        case Low =>
          var deviceCount := DeviceCount(devices, librespot);
          if deviceCount > 0 {
            selectedDeviceIndex := Some(deviceCount - 1);
          }
        case Enter =>
          if selectedDeviceIndex.Some? {
            var index := selectedDeviceIndex.value;
            var remoteIndex := index;
            if librespot {
              if index == 0 {
                dispatched := dispatched + [SwitchToLocalPlayback];
                return;
              }
              remoteIndex := index - 1;
            }
            if devices.Some? && remoteIndex < |devices.value.devices| {
              var device := devices.value.devices[remoteIndex];
              if device.id.Some? {
                dispatched := dispatched + [TransferPlaybackToDevice(device.id.value)];
              }
            }
          }
        case Other(_) =>
      }
    }
  }

  // ---------------------------------------------------------------------------
  // Properties

  /** Down from a valid index stays valid and up undoes it, and the other way round. */
  lemma UpDownInverse(i: nat, count: nat)
    requires i < count
    ensures UpIndex(DownIndex(i, count), count) == i
    ensures DownIndex(UpIndex(i, count), count) == i
  {
  }

  /** Up and down move an existing selection by one with wrap-around, keep a missing
      selection missing, and do nothing when there are no devices. */
  lemma UpDownSelection(key: Key, selected: Option<nat>, count: nat)
    requires key == Up || key == Down
    ensures selected.None? || count == 0 ==> SelectionAfter(key, selected, count) == selected
    ensures selected.Some? && count > 0 && key == Down ==>
              SelectionAfter(key, selected, count) == Some(if selected.value >= count - 1 then 0 else selected.value + 1)
    ensures selected.Some? && count > 0 && key == Up ==>
              SelectionAfter(key, selected, count) == Some(if selected.value == 0 then count - 1 else selected.value - 1)
  {
  }

  /** With at least one device, high, middle and low select the first, the middle and the
      last device, whether or not anything was selected; with none they do nothing. */
  lemma JumpKeys(selected: Option<nat>, count: nat)
    ensures count > 0 ==> SelectionAfter(High, selected, count) == Some(0)
    ensures count > 0 ==> SelectionAfter(Middle, selected, count) == Some(count / 2) && count / 2 < count
    ensures count > 0 ==> SelectionAfter(Low, selected, count) == Some(count - 1)
    ensures count == 0 ==> SelectionAfter(High, selected, count) == selected
    ensures count == 0 ==> SelectionAfter(Middle, selected, count) == selected
    ensures count == 0 ==> SelectionAfter(Low, selected, count) == selected
  {
  }

  /** Every navigation key keeps a selection inside the menu, once it is inside. */
  lemma {:induction false} NavigationStaysInMenu(keys: seq<Key>, selected: Option<nat>, devices: Option<DevicePayload>, librespot: bool)
    requires selected.Some? ==> selected.value < DeviceCount(devices, librespot)
    ensures var after := Navigate(keys, selected, DeviceCount(devices, librespot));
            after.Some? ==> after.value < DeviceCount(devices, librespot)
    decreases |keys|
  {
    if keys != [] {
      var count := DeviceCount(devices, librespot);
      var next := SelectionAfter(keys[0], selected, count);
      if count > 0 && selected.Some? {
        assert next.Some? && next.value < count;
      }
      NavigationStaysInMenu(keys[1..], next, devices, librespot);
    }
  }

  /** The selection after a sequence of keys. */
  function Navigate(keys: seq<Key>, selected: Option<nat>, count: nat): Option<nat>
    decreases |keys|
  {
    if keys == [] then selected else Navigate(keys[1..], SelectionAfter(keys[0], selected, count), count)
  }

  /** With the feature on, Enter on index 0 dispatches only the switch to local playback,
      and Enter on k > 0 transfers playback to remote device k - 1 if it exists and has an
      id, and dispatches nothing otherwise. */
  lemma EnterWithLocalDevice(k: nat, devices: Option<DevicePayload>)
    ensures EnterDispatches(Some(0), devices, true) == [SwitchToLocalPlayback]
    ensures k > 0 ==>
              EnterDispatches(Some(k), devices, true)
              == if devices.Some? && k - 1 < |devices.value.devices| && devices.value.devices[k - 1].id.Some?
                 then [TransferPlaybackToDevice(devices.value.devices[k - 1].id.value)] else []
  {
  }

  /** Without the feature, Enter on index k transfers to remote device k; a missing
      selection dispatches nothing in either configuration. */
  lemma EnterWithoutLocalDevice(k: nat, devices: Option<DevicePayload>, librespot: bool)
    ensures EnterDispatches(Some(k), devices, false)
         == (if devices.Some? && k < |devices.value.devices| && devices.value.devices[k].id.Some?
             then [TransferPlaybackToDevice(devices.value.devices[k].id.value)] else [])
    ensures EnterDispatches(None, devices, librespot) == []
  {
  }

  /** Enter dispatches at most one request; with the feature on, every index inside the
      menu names either this machine or an existing remote device. */
  lemma EnterTargets(selected: Option<nat>, devices: Option<DevicePayload>, librespot: bool)
    ensures |EnterDispatches(selected, devices, librespot)| <= 1
    ensures librespot && selected.Some? && 0 < selected.value < DeviceCount(devices, librespot) ==>
              devices.Some? && selected.value - 1 < |devices.value.devices|
  {
  }

  /** Keys other than Esc, Enter and the navigation keys change nothing and dispatch nothing. */
  lemma OtherKeysInert(c: char, selected: Option<nat>, devices: Option<DevicePayload>, librespot: bool)
    ensures SelectionAfter(Other(c), selected, DeviceCount(devices, librespot)) == selected
    ensures DispatchesFor(Other(c), selected, devices, librespot) == []
  {
  }
}
