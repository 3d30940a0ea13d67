/**
 * The Bluetooth LE manager: the filter it applies to scan results before
 * passing them on, and the connection-state string and GATT handle it keeps
 * for the one peer it connects to.
 */
module Ble {
  import opened Wrappers

  const UnknownDeviceName: string := "Unknown Device"
  const StrongSignalRssi: int := -60

  /** `BluetoothProfile.STATE_DISCONNECTED` and `STATE_CONNECTED`. */
  const StateDisconnected: int := 0
  const StateConnected: int := 2

  const Disconnected: string := "Disconnected"
  const Connected: string := "Connected"

  /** What a scan callback reports: the device's name (possibly null), address and signal strength. */
  datatype ScanResult = ScanResult(name: Option<string>, address: string, rssi: int)

  /** A device passed on to the caller of the scan. */
  datatype BleDevice = BleDevice(name: string, address: string, rssi: int)

  /** The phone's Bluetooth adapter: absent, or present and on or off. */
  datatype AdapterStatus = NoAdapter | Adapter(enabled: bool)

  /** A null device name becomes "Unknown Device". */
  function DisplayName(r: ScanResult): (name: string)
    ensures r.name.None? ==> name == UnknownDeviceName
    ensures r.name.Some? ==> name == r.name.value
  {
    if r.name.Some? then r.name.value else UnknownDeviceName
  }

  /**
   * `onScanResult`: a result is passed on when its displayed name is not the
   * placeholder or its signal is strong, copying address and rssi unchanged.
   */
  function OnScanResult(r: ScanResult): (d: Option<BleDevice>)
    ensures d.Some? <==> DisplayName(r) != UnknownDeviceName || r.rssi > StrongSignalRssi
    ensures d.Some? ==> d.value.name == DisplayName(r) && d.value.address == r.address && d.value.rssi == r.rssi
  {
    var name := DisplayName(r);
    if name != UnknownDeviceName || r.rssi > StrongSignalRssi then Some(BleDevice(name, r.address, r.rssi))
    else None
  }

  /** A device the filter would let through. */
  predicate Admissible(d: BleDevice)
  {
    d.name != UnknownDeviceName || d.rssi > StrongSignalRssi
  }

  /** The devices passed on for a run of scan results, in order. */
  function Forwarded(results: seq<ScanResult>): (out: seq<BleDevice>)
    ensures |out| <= |results|
    ensures forall d :: d in out ==> Admissible(d)
    ensures forall d :: d in out ==> exists r :: r in results && OnScanResult(r) == Some(d)
    ensures forall i :: 0 <= i < |results| && OnScanResult(results[i]).Some? ==> OnScanResult(results[i]).value in out
    decreases |results|
  {
    if results == [] then []
    else
      var rest := Forwarded(results[1..]);
      assert forall r :: r in results[1..] ==> r in results;
      assert forall i :: 1 <= i < |results| ==> results[i] == results[1..][i - 1];
      match OnScanResult(results[0])
      case Some(d) => [d] + rest
      case None => rest
  }

  /** `scanBleDevices`: nothing at all without an adapter or with it switched off. */
  function ScanBleDevices(adapter: AdapterStatus, results: seq<ScanResult>): (out: seq<BleDevice>)
    ensures adapter.NoAdapter? || !adapter.enabled ==> out == []
    ensures adapter.Adapter? && adapter.enabled ==> out == Forwarded(results)
  {
    if adapter.NoAdapter? || !adapter.enabled then [] else Forwarded(results)
  }

  /** A result with a real name is always passed on; an unnamed one only with a strong signal. */
  lemma ForwardedKeepsNamed(results: seq<ScanResult>, i: int)
    requires 0 <= i < |results|
    requires results[i].name.Some? && results[i].name.value != UnknownDeviceName
    ensures exists d :: d in Forwarded(results) && d.address == results[i].address && d.rssi == results[i].rssi
  {
    var d := OnScanResult(results[i]).value;
    assert d in Forwarded(results);
  }

  /**
   * One more accepted callback sends exactly one more device, after all the
   * earlier ones; a rejected callback sends nothing. This fixes the order and
   * the number of devices passed on.
   */
  lemma {:induction false} ForwardedAppend(results: seq<ScanResult>, r: ScanResult)
    ensures Forwarded(results + [r]) ==
      Forwarded(results) + (if OnScanResult(r).Some? then [OnScanResult(r).value] else [])
    decreases |results|
  {
    if results != [] {
      assert (results + [r])[1..] == results[1..] + [r];
      ForwardedAppend(results[1..], r);
    }
  }

  /** The GATT handle of the connection in progress, by the peer's address. */
  datatype Gatt = Gatt(address: string)

  /** The connection callback's effect on the state string: two states move it, all others leave it. */
  function NextConnectionState(current: string, newState: int): (next: string)
    ensures newState == StateConnected ==> next == Connected
    ensures newState == StateDisconnected ==> next == Disconnected
    ensures newState != StateConnected && newState != StateDisconnected ==> next == current
  {
    if newState == StateConnected then Connected
    else if newState == StateDisconnected then Disconnected
    else current
  }

  class BleManager {
    const adapter: AdapterStatus
    var gatt: Option<Gatt>
    var connectionState: string

    constructor (adapter: AdapterStatus)
      ensures this.adapter == adapter && gatt == None && connectionState == Disconnected
    {
      this.adapter := adapter;
      gatt := None;
      connectionState := Disconnected;
    }

    /** `connectToDevice`: announce the attempt and keep the new GATT handle. */
    method ConnectToDevice(address: string)
      modifies this
      ensures connectionState == "Connecting to " + address + "..."
      ensures gatt == Some(Gatt(address))
    {
      connectionState := "Connecting to " + address + "...";
      gatt := Some(Gatt(address));
    }

    /** `onConnectionStateChange` of the GATT callback. */
    method OnConnectionStateChange(newState: int)
      modifies this`connectionState
      ensures connectionState == NextConnectionState(old(connectionState), newState)
    {
      if newState == StateConnected {
        connectionState := Connected;
      } else if newState == StateDisconnected {
        connectionState := Disconnected;
      }
    }

    /** `disconnect`: drop the handle and report "Disconnected", whatever the state was. */
    method Disconnect()
      modifies this
      ensures gatt == None && connectionState == Disconnected
    {
      gatt := None;
      connectionState := Disconnected;
    }
  }

  /** Disconnecting twice leaves the same state as disconnecting once. */
  method DisconnectIsIdempotent(m: BleManager)
    modifies m
  {
    m.Disconnect();
    var once := (m.gatt, m.connectionState);
    m.Disconnect();
    assert (m.gatt, m.connectionState) == once;
  }
}
