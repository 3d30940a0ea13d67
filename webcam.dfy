/**
 * The PhoneCam view model: the one UI state record (`WebcamUiState`) and the
 * operations that change it — starting and stopping a stream, folding each
 * realtime sample into the state, the debounced overheat alert, remote
 * commands from the smart-home broker, device identification, the merge of
 * BLE scan results and the fold of sensor readings.
 *
 * Each `_uiState.update { it.copy(...) }` of the source is a pure function
 * from the old record to the new one below; the class `WebcamViewModel`
 * holds the record and the view model's own counters and applies them.
 */
module Webcam {
  import opened Wrappers
  import opened Strings
  import Camera
  import Ble
  import Edge
  import Sensors

  const StreamServerIp: string := "192.168.1.105"
  const HistoryCapacity: nat := 50
  const CriticalTemp: real := 45.0
  const CriticalVoltage: real := 4.0
  const AlertCooldownMillis: int := 10000
  const StartToken: string := "START_STREAM"
  const StopToken: string := "STOP_STREAM"
  const Cam01Token: string := "CAM-01"
  const Cam02Token: string := "CAM-02"
  const Cam01Name: string := "Камера Цех №1"
  const Cam02Name: string := "Камера Склад"

  /** The motion status line: calm, or the g-force of the last shock. */
  datatype MovementAlert = Calm | ShockDetected(gForce: real)

  /** `WebcamUiState`. */
  datatype UiState = UiState(
    isStreaming: bool,
    cameraSettings: Camera.CameraSettings,
    currentProtocol: string,
    currentBitrate: int,
    currentFps: int,
    connectionDuration: string,
    publicIp: string,
    formattedBitrate: string,
    controllerStatus: string,
    bitrateHistory: seq<int>,
    cpuTemp: real,
    inputVoltage: real,
    isCriticalAlert: bool,
    scannedDevices: seq<Ble.BleDevice>,
    bleConnectionState: string,
    lightLevel: real,
    movementAlert: MovementAlert,
    mqttStatus: string)

  /** The record's default values. */
  const InitialUiState: UiState := UiState(
    false,
    Camera.CameraSettings(1920, 1080, 30, "Back Camera", None),
    "RTSP", 0, 0, "00:00", "Завантаження...", "0 Kbps", "Дані не завантажено",
    [], 0.0, 0.0, false, [], "Disconnected", 0.0, Calm, "Smart Home: Connecting...")

  /** One element of the realtime data stream. */
  datatype RealtimeSample = RealtimeSample(fps: int, bitrate: int, voltage: real)

  // ---------------------------------------------------------------------------
  // Derived values
  // ---------------------------------------------------------------------------

  /** The critical condition: battery over 45 degrees or input under 4 volts. */
  predicate IsCritical(temp: real, voltage: real)
  {
    temp > CriticalTemp || voltage < CriticalVoltage
  }

  /** `formatDuration`: `"%02d:%02d"` of minutes and seconds. */
  function FormatDuration(seconds: nat): (r: string)
    ensures |r| >= 5 && r[|r| - 3] == ':'
    ensures seconds < 6000 ==> |r| == 5
    ensures seconds >= 600 ==> r[0] != '0'
  {
    Pad2(seconds / 60) + ":" + Pad2(seconds % 60)
  }

  /** Reads an `MM:SS` string back as a number of seconds. */
  function ParseDuration(r: string): Option<nat>
  {
    if |r| >= 3 && r[|r| - 3] == ':' && AllDigits(r[..|r| - 3]) && AllDigits(r[|r| - 2..]) then
      Some(ParseDigits(r[..|r| - 3]) * 60 + ParseDigits(r[|r| - 2..]))
    else None
  }

  /** The duration text loses nothing: its seconds field is below 60 and it reads back exactly. */
  lemma DurationRoundTrip(seconds: nat)
    ensures var r := FormatDuration(seconds);
      ParseDuration(r) == Some(seconds) && AllDigits(r[|r| - 2..]) && ParseDigits(r[|r| - 2..]) < 60
  {
    var minutes, secs := seconds / 60, seconds % 60;
    var r := FormatDuration(seconds);
    assert r == Pad2(minutes) + ":" + Pad2(secs);
    assert r[..|r| - 3] == Pad2(minutes);
    assert r[|r| - 2..] == Pad2(secs);
    Pad2RoundTrip(minutes);
    Pad2RoundTrip(secs);
    assert ParseDuration(r) == Some(ParseDigits(Pad2(minutes)) * 60 + ParseDigits(Pad2(secs)));
    assert seconds == minutes * 60 + secs;
  }

  /** `"${bitrate} Kbps"`. */
  function FormatBitrate(bitrate: int): (r: string)
    ensures |r| > 5 && r[|r| - 5..] == " Kbps"
    ensures r[0] == '0' ==> bitrate == 0
    ensures bitrate < 0 ==> r[1] != '0'
  {
    assert (IntToString(bitrate) + " Kbps")[..|IntToString(bitrate)|] == IntToString(bitrate);
    IntToString(bitrate) + " Kbps"
  }

  /** Reads a bitrate text back as a number. */
  function ParseBitrate(r: string): Option<int>
  {
    if |r| > 5 && r[|r| - 5..] == " Kbps" then
      var digits := r[..|r| - 5];
      if digits[0] == '-' && AllDigits(digits[1..]) then Some(ParseInt(digits))
      else if digits[0] != '-' && AllDigits(digits) then Some(ParseInt(digits))
      else None
    else None
  }

  lemma BitrateRoundTrip(bitrate: int)
    ensures ParseBitrate(FormatBitrate(bitrate)) == Some(bitrate)
  {
    var r := FormatBitrate(bitrate);
    assert r[..|r| - 5] == IntToString(bitrate);
    IntToStringRoundTrip(bitrate);
  }

  /** The texts a freshly stopped session shows are those of zero seconds and zero Kbps. */
  lemma StoppedTexts()
    ensures FormatDuration(0) == "00:00" && FormatBitrate(0) == "0 Kbps"
  {
    assert NatToString(0) == "0";
  }

  // ---------------------------------------------------------------------------
  // Bitrate history
  // ---------------------------------------------------------------------------

  /** The last `n` elements of `s` (all of it when shorter). */
  function LastN(s: seq<int>, n: nat): (r: seq<int>)
  {
    if |s| <= n then s else s[|s| - n..]
  }

  /** The tick's list update: append the sample and, past 50 entries, drop the oldest. */
  function PushBounded(history: seq<int>, bitrate: int): (r: seq<int>)
    ensures |r| > 0 && r[|r| - 1] == bitrate
    ensures |history| <= HistoryCapacity ==> r == LastN(history + [bitrate], HistoryCapacity)
  {
    var grown := history + [bitrate];
    if |grown| > HistoryCapacity then grown[1..] else grown
  }

  /** The history after a run of ticks. */
  function PushAll(history: seq<int>, bitrates: seq<int>): seq<int>
    decreases |bitrates|
  {
    if bitrates == [] then history else PushAll(PushBounded(history, bitrates[0]), bitrates[1..])
  }

  lemma LastNOfLastN(x: seq<int>, y: seq<int>, n: nat)
    ensures LastN(LastN(x, n) + y, n) == LastN(x + y, n)
  {
    if |x| > n {
      var k := |x| - n;
      assert x[k..] + y == (x + y)[k..];
      if |x + y| - k > n {
        assert (x + y)[k..][|x + y| - k - n..] == (x + y)[|x + y| - n..];
      }
    }
  }

  /** After any run of ticks the history holds exactly the last 50 bitrates, oldest first. */
  lemma {:induction false} HistoryKeepsLastFifty(history: seq<int>, bitrates: seq<int>)
    requires |history| <= HistoryCapacity
    ensures PushAll(history, bitrates) == LastN(history + bitrates, HistoryCapacity)
    decreases |bitrates|
  {
    if bitrates == [] {
      assert history + bitrates == history;
    } else {
      var next := PushBounded(history, bitrates[0]);
      HistoryKeepsLastFifty(next, bitrates[1..]);
      LastNOfLastN(history + [bitrates[0]], bitrates[1..], HistoryCapacity);
      assert history + [bitrates[0]] + bitrates[1..] == history + bitrates;
    }
  }

  // ---------------------------------------------------------------------------
  // Overheat alert debounce
  // ---------------------------------------------------------------------------

  /** `handleCriticalAlert`'s test: strictly more than 10 s since the last alert. */
  predicate AlertDue(lastAlertTime: int, now: int)
  {
    now - lastAlertTime > AlertCooldownMillis
  }

  /** The times at which an overheat alert fires for a run of overheated ticks. */
  function AlertFirings(lastAlertTime: int, triggers: seq<int>): seq<int>
    decreases |triggers|
  {
    if triggers == [] then []
    else if AlertDue(lastAlertTime, triggers[0]) then [triggers[0]] + AlertFirings(triggers[0], triggers[1..])
    else AlertFirings(lastAlertTime, triggers[1..])
  }

  /** Fired alerts are more than 10 s apart, and more than 10 s after the remembered one. */
  lemma {:induction false} FiringsSpacedByCooldown(lastAlertTime: int, triggers: seq<int>)
    ensures var f := AlertFirings(lastAlertTime, triggers);
      (|f| > 0 ==> f[0] - lastAlertTime > AlertCooldownMillis) &&
      forall i :: 0 <= i < |f| - 1 ==> f[i + 1] - f[i] > AlertCooldownMillis
    decreases |triggers|
  {
    if triggers != [] {
      if AlertDue(lastAlertTime, triggers[0]) {
        FiringsSpacedByCooldown(triggers[0], triggers[1..]);
        assert AlertFirings(lastAlertTime, triggers) == [triggers[0]] + AlertFirings(triggers[0], triggers[1..]);
      } else {
        FiringsSpacedByCooldown(lastAlertTime, triggers[1..]);
      }
    }
  }

  /** Overheat at t, t + 3 s and t + 11 s: the first and the third fire. */
  lemma OverheatDebounceExample(t: int)
    requires t > AlertCooldownMillis
    ensures AlertFirings(0, [t, t + 3000, t + 11000]) == [t, t + 11000]
  {
    assert [t, t + 3000, t + 11000][1..] == [t + 3000, t + 11000];
    assert [t + 3000, t + 11000][1..] == [t + 11000];
    assert [t + 11000][1..] == [];
    assert AlertFirings(t + 11000, []) == [];
    assert AlertFirings(t, [t + 11000]) == [t + 11000];
    assert AlertFirings(t, [t + 3000, t + 11000]) == [t + 11000];
  }

  // ---------------------------------------------------------------------------
  // Session transitions
  // ---------------------------------------------------------------------------

  /** The update of `startStreaming`. */
  function Started(s: UiState): (r: UiState)
    ensures r.isStreaming && r.cameraSettings.serverIp == Some(StreamServerIp) && r.bitrateHistory == []
    ensures r.(isStreaming := s.isStreaming, cameraSettings := s.cameraSettings, bitrateHistory := s.bitrateHistory) == s
    ensures r.cameraSettings.(serverIp := s.cameraSettings.serverIp) == s.cameraSettings
  {
    s.(isStreaming := true,
       cameraSettings := s.cameraSettings.(serverIp := Some(StreamServerIp)),
       bitrateHistory := [])
  }

  /** The update of `stopStreaming`. */
  function Stopped(s: UiState): (r: UiState)
    ensures !r.isStreaming && !r.isCriticalAlert && r.currentFps == 0 && r.currentBitrate == 0
    ensures r.formattedBitrate == FormatBitrate(0) && r.connectionDuration == FormatDuration(0)
    ensures r.cameraSettings.serverIp == None
    ensures r.bitrateHistory == s.bitrateHistory && r.cpuTemp == s.cpuTemp && r.inputVoltage == s.inputVoltage
    ensures r.(isStreaming := s.isStreaming, currentFps := s.currentFps, currentBitrate := s.currentBitrate,
               formattedBitrate := s.formattedBitrate, connectionDuration := s.connectionDuration,
               cameraSettings := s.cameraSettings, isCriticalAlert := s.isCriticalAlert) == s
    ensures r.cameraSettings.(serverIp := s.cameraSettings.serverIp) == s.cameraSettings
  {
    StoppedTexts();
    s.(isStreaming := false,
       currentFps := 0,
       currentBitrate := 0,
       formattedBitrate := "0 Kbps",
       connectionDuration := "00:00",
       cameraSettings := s.cameraSettings.(serverIp := None),
       isCriticalAlert := false)
  }

  /**
   * The update a realtime sample makes, with the battery temperature read at
   * that tick and the half-second counter already incremented.
   */
  function Ticked(s: UiState, sample: RealtimeSample, temp: real, counter: nat): (r: UiState)
    ensures r.isCriticalAlert == IsCritical(temp, sample.voltage)
    ensures r.cpuTemp == temp && r.inputVoltage == sample.voltage
    ensures r.currentFps == sample.fps && r.currentBitrate == sample.bitrate
    ensures r.formattedBitrate == FormatBitrate(sample.bitrate)
    ensures r.connectionDuration == FormatDuration(counter / 2)
    ensures |s.bitrateHistory| <= HistoryCapacity ==>
      r.bitrateHistory == LastN(s.bitrateHistory + [sample.bitrate], HistoryCapacity)
    ensures r.(currentFps := s.currentFps, formattedBitrate := s.formattedBitrate, currentBitrate := s.currentBitrate,
               connectionDuration := s.connectionDuration, bitrateHistory := s.bitrateHistory,
               cpuTemp := s.cpuTemp, inputVoltage := s.inputVoltage, isCriticalAlert := s.isCriticalAlert) == s
  {
    s.(currentFps := sample.fps,
       formattedBitrate := FormatBitrate(sample.bitrate),
       currentBitrate := sample.bitrate,
       connectionDuration := FormatDuration(counter / 2),
       bitrateHistory := PushBounded(s.bitrateHistory, sample.bitrate),
       cpuTemp := temp,
       inputVoltage := sample.voltage,
       isCriticalAlert := IsCritical(temp, sample.voltage))
  }

  /** The texts a tick writes read back as the sample's bitrate and half the tick count in seconds. */
  lemma TickTextsReadBack(s: UiState, sample: RealtimeSample, temp: real, counter: nat)
    ensures var r := Ticked(s, sample, temp, counter);
      ParseBitrate(r.formattedBitrate) == Some(sample.bitrate) &&
      ParseDuration(r.connectionDuration) == Some(counter / 2)
  {
    BitrateRoundTrip(sample.bitrate);
    DurationRoundTrip(counter / 2);
  }

  /** What `toggleStreaming` and a remote command ask the session to do. */
  datatype SessionAction = StartSession | StopSession | NoAction

  /** `toggleStreaming`: start exactly when not streaming, stop otherwise. */
  function ToggleAction(streaming: bool): (a: SessionAction)
    ensures a == StartSession <==> !streaming
    ensures a == StopSession <==> streaming
  {
    if !streaming then StartSession else StopSession
  }

  /**
   * `handleMqttCommand`: a command naming START_STREAM (looked for first)
   * starts an idle session; otherwise one naming STOP_STREAM stops a running
   * one; anything else changes nothing.
   */
  function CommandAction(command: string, streaming: bool): (a: SessionAction)
    ensures a == StartSession <==> Contains(command, StartToken) && !streaming
    ensures a == StopSession <==> !Contains(command, StartToken) && Contains(command, StopToken) && streaming
  {
    if Contains(command, StartToken) then (if !streaming then StartSession else NoAction)
    else if Contains(command, StopToken) then (if streaming then StopSession else NoAction)
    else NoAction
  }

  /** Whether the session streams after an action. */
  function StreamingAfter(streaming: bool, a: SessionAction): bool
  {
    match a
    case StartSession => true
    case StopSession => false
    case NoAction => streaming
  }

  /** Delivering the same remote command twice in a row acts at most once. */
  lemma RepeatedCommandActsOnce(command: string, streaming: bool)
    ensures CommandAction(command, StreamingAfter(streaming, CommandAction(command, streaming))) == NoAction
  {
  }

  /** A command naming both tokens is a start command. */
  lemma StartTokenWins(command: string)
    requires Contains(command, StartToken) && Contains(command, StopToken)
    ensures CommandAction(command, true) == NoAction && CommandAction(command, false) == StartSession
  {
  }

  // ---------------------------------------------------------------------------
  // Device identification, BLE scan merge and sensor fold
  // ---------------------------------------------------------------------------

  /** `onDeviceIdentified`'s name choice; CAM-01 is looked for before CAM-02. */
  function DeviceName(code: string): (name: string)
    ensures Contains(code, Cam01Token) ==> name == Cam01Name
    ensures !Contains(code, Cam01Token) && Contains(code, Cam02Token) ==> name == Cam02Name
    ensures !Contains(code, Cam01Token) && !Contains(code, Cam02Token) ==>
      name == "Невідомий пристрій (" + code + ")"
  {
    if Contains(code, Cam01Token) then Cam01Name
    else if Contains(code, Cam02Token) then Cam02Name
    else "Невідомий пристрій (" + code + ")"
  }

  /** An unrecognised code is shown inside the name, so it is never lost. */
  lemma UnknownNameShowsCode(code: string)
    requires !Contains(code, Cam01Token) && !Contains(code, Cam02Token)
    ensures Contains(DeviceName(code), code)
  {
    var name := DeviceName(code);
    var prefix := "Невідомий пристрій (";
    assert name[|prefix|..|prefix| + |code|] == code;
    assert OccursAt(name, code, |prefix|);
    ContainsIff(name, code);
  }

  /** The update of `onDeviceIdentified`: only the camera name changes. */
  function WithCameraName(s: UiState, name: string): (r: UiState)
    ensures r.cameraSettings.cameraName == name
    ensures r.cameraSettings.(cameraName := s.cameraSettings.cameraName) == s.cameraSettings
    ensures r.(cameraSettings := s.cameraSettings) == s
  {
    s.(cameraSettings := s.cameraSettings.(cameraName := name))
  }

  /** Some entry of the list has this address. */
  predicate HasAddress(devices: seq<Ble.BleDevice>, address: string)
  {
    exists i :: 0 <= i < |devices| && devices[i].address == address
  }

  /** No two entries share an address. */
  predicate UniqueAddresses(devices: seq<Ble.BleDevice>)
  {
    forall i, j :: 0 <= i < j < |devices| ==> devices[i].address != devices[j].address
  }

  /** The scan merge: append the device only if no entry has its address yet. */
  function MergeByAddress(devices: seq<Ble.BleDevice>, d: Ble.BleDevice): (r: seq<Ble.BleDevice>)
    ensures HasAddress(devices, d.address) ==> r == devices
    ensures !HasAddress(devices, d.address) ==> r == devices + [d]
  {
    if forall i :: 0 <= i < |devices| ==> devices[i].address != d.address then devices + [d] else devices
  }

  /** The list after a run of scanned devices. */
  function MergeAll(devices: seq<Ble.BleDevice>, scanned: seq<Ble.BleDevice>): seq<Ble.BleDevice>
    decreases |scanned|
  {
    if scanned == [] then devices else MergeAll(MergeByAddress(devices, scanned[0]), scanned[1..])
  }

  /**
   * Merging scan results keeps addresses unique, keeps every earlier entry in
   * place, and ends with an entry for every address that was scanned.
   */
  lemma {:induction false} MergeAllKeepsAddressesUnique(devices: seq<Ble.BleDevice>, scanned: seq<Ble.BleDevice>)
    requires UniqueAddresses(devices)
    ensures var r := MergeAll(devices, scanned);
      UniqueAddresses(r) && |devices| <= |r| && r[..|devices|] == devices &&
      forall k :: 0 <= k < |scanned| ==> HasAddress(r, scanned[k].address)
    decreases |scanned|
  {
    if scanned != [] {
      var next := MergeByAddress(devices, scanned[0]);
      assert HasAddress(next, scanned[0].address) by {
        if !HasAddress(devices, scanned[0].address) {
          assert next[|devices|] == scanned[0];
        }
      }
      MergeAllKeepsAddressesUnique(next, scanned[1..]);
      var r := MergeAll(next, scanned[1..]);
      assert r[..|devices|] == r[..|next|][..|devices|];
      var i :| 0 <= i < |next| && next[i].address == scanned[0].address;
      assert r[i] == next[i];
      forall k | 0 <= k < |scanned|
        ensures HasAddress(r, scanned[k].address)
      {
        if k == 0 {
          assert r[i].address == scanned[0].address;
        } else {
          assert scanned[k] == scanned[1..][k - 1];
        }
      }
    }
  }

  /** The update of the scan collector: only the device list changes. */
  function WithDevice(s: UiState, d: Ble.BleDevice): (r: UiState)
    ensures r.scannedDevices == MergeByAddress(s.scannedDevices, d)
    ensures r.(scannedDevices := s.scannedDevices) == s
  {
    s.(scannedDevices := MergeByAddress(s.scannedDevices, d))
  }

  /** The update of the sensor collector: a quiet reading keeps the motion status. */
  function WithSensorData(s: UiState, d: Sensors.SensorData): (r: UiState)
    ensures r.lightLevel == d.lightLux
    ensures d.isShaking ==> r.movementAlert == ShockDetected(d.gForce)
    ensures !d.isShaking ==> r.movementAlert == s.movementAlert
    ensures r.(lightLevel := s.lightLevel, movementAlert := s.movementAlert) == s
  {
    s.(lightLevel := d.lightLux,
       movementAlert := if d.isShaking then ShockDetected(d.gForce) else s.movementAlert)
  }

  // ---------------------------------------------------------------------------
  // The state invariant
  // ---------------------------------------------------------------------------

  /**
   * What holds of the state and the half-second counter between operations:
   * the texts describe the numbers, the critical flag is never raised without
   * a cause, the history is bounded, scanned addresses are unique, and an
   * idle session shows no live figures and has a zero counter.
   */
  predicate SessionConsistent(s: UiState, counter: nat)
  {
    s.connectionDuration == FormatDuration(counter / 2) &&
    s.formattedBitrate == FormatBitrate(s.currentBitrate) &&
    (s.isCriticalAlert ==> IsCritical(s.cpuTemp, s.inputVoltage)) &&
    |s.bitrateHistory| <= HistoryCapacity &&
    UniqueAddresses(s.scannedDevices) &&
    (!s.isStreaming ==>
      counter == 0 && s.currentFps == 0 && s.currentBitrate == 0 &&
      s.cameraSettings.serverIp == None && !s.isCriticalAlert)
  }

  lemma InitialConsistent()
    ensures SessionConsistent(InitialUiState, 0)
  {
    StoppedTexts();
  }

  lemma StartPreservesConsistency(s: UiState, counter: nat)
    requires SessionConsistent(s, counter)
    ensures SessionConsistent(Started(s), counter)
  {
  }

  lemma StopPreservesConsistency(s: UiState, counter: nat)
    requires SessionConsistent(s, counter)
    ensures SessionConsistent(Stopped(s), 0)
  {
  }

  lemma TickPreservesConsistency(s: UiState, counter: nat, sample: RealtimeSample, temp: real)
    requires SessionConsistent(s, counter) && s.isStreaming
    ensures SessionConsistent(Ticked(s, sample, temp, counter + 1), counter + 1)
    ensures Ticked(s, sample, temp, counter + 1).isStreaming
  {
  }

  lemma MergePreservesUnique(devices: seq<Ble.BleDevice>, d: Ble.BleDevice)
    requires UniqueAddresses(devices)
    ensures UniqueAddresses(MergeByAddress(devices, d))
  {
  }

  /**
   * Starting and then stopping from any idle state reached by the view model
   * gives back that state with an empty history; from the initial state it
   * gives back the initial state itself.
   */
  lemma ToggleTwiceFromIdle(s: UiState)
    requires SessionConsistent(s, 0) && !s.isStreaming
    ensures Stopped(Started(s)) == s.(bitrateHistory := [])
    ensures Stopped(Started(InitialUiState)) == InitialUiState
  {
    StoppedTexts();
  }

  // ---------------------------------------------------------------------------
  // The view model
  // ---------------------------------------------------------------------------

  class WebcamViewModel {
    var uiState: UiState
    var secondsCounter: nat
    var lastAlertTime: int
    /** `simulationJob` is running. */
    var simulationActive: bool
    /** `scanJob` is running. */
    var scanActive: bool
    /** `alertResetJob` is waiting to set the motion status back to calm. */
    var movementResetPending: bool
    const edge: Edge.EdgeProcessor
    const ble: Ble.BleManager

    ghost predicate Valid()
      reads this, edge
    {
      edge.Valid() &&
      simulationActive == uiState.isStreaming &&
      SessionConsistent(uiState, secondsCounter)
    }

    constructor (adapter: Ble.AdapterStatus)
      ensures Valid() && fresh(edge) && fresh(ble)
      ensures uiState == InitialUiState && secondsCounter == 0 && lastAlertTime == 0
      ensures !simulationActive && !scanActive && !movementResetPending
      ensures edge.lastTemp == None && edge.lastLight == None
      ensures ble.adapter == adapter && ble.gatt == None && ble.connectionState == Ble.Disconnected
    {
      uiState := InitialUiState;
      secondsCounter := 0;
      lastAlertTime := 0;
      simulationActive := false;
      scanActive := false;
      movementResetPending := false;
      edge := new Edge.EdgeProcessor();
      ble := new Ble.BleManager(adapter);
      InitialConsistent();
    }

    /** `startStreaming`: the counter is left as it is. */
    method StartStreaming()
      requires Valid()
      modifies this`uiState, this`simulationActive
      ensures Valid()
      ensures uiState == Started(old(uiState)) && simulationActive
    {
      StartPreservesConsistency(uiState, secondsCounter);
      uiState := Started(uiState);
      simulationActive := true;
    }

    /** `stopStreaming`: cancel the sample stream and reset the counter. */
    method StopStreaming()
      requires Valid()
      modifies this`uiState, this`simulationActive, this`secondsCounter
      ensures Valid()
      ensures uiState == Stopped(old(uiState)) && !simulationActive && secondsCounter == 0
    {
      StopPreservesConsistency(uiState, secondsCounter);
      simulationActive := false;
      secondsCounter := 0;
      uiState := Stopped(uiState);
    }

    /** `toggleStreaming`. */
    method ToggleStreaming()
      requires Valid()
      modifies this`uiState, this`simulationActive, this`secondsCounter
      ensures Valid()
      ensures ToggleAction(old(uiState.isStreaming)) == StartSession ==>
        uiState == Started(old(uiState)) && secondsCounter == old(secondsCounter)
      ensures ToggleAction(old(uiState.isStreaming)) == StopSession ==>
        uiState == Stopped(old(uiState)) && secondsCounter == 0
      ensures uiState.isStreaming != old(uiState.isStreaming)
    {
      if !uiState.isStreaming {
        StartStreaming();
      } else {
        StopStreaming();
      }
    }

    /**
     * `handleCriticalAlert`; `now` stands for `System.currentTimeMillis()`.
     * `fired` says whether the notification, log entry and vibration go out.
     */
    method HandleCriticalAlert(temp: real, now: int) returns (fired: bool)
      requires Valid()
      modifies this`lastAlertTime
      ensures Valid()
      ensures fired == AlertDue(old(lastAlertTime), now)
      ensures lastAlertTime == if fired then now else old(lastAlertTime)
    {
      fired := now - lastAlertTime > AlertCooldownMillis;
      if fired {
        lastAlertTime := now;
      }
    }

    /**
     * One element delivered by the realtime stream to the running
     * `simulationJob`, with the battery temperature read at that moment; a
     * cancelled job delivers nothing. `overheatAlert` says whether the
     * debounced overheat alert fired.
     */
    method Tick(sample: RealtimeSample, batteryTemp: real, now: int) returns (overheatAlert: bool)
      requires Valid()
      modifies this`uiState, this`secondsCounter, this`lastAlertTime
      ensures Valid()
      ensures !old(simulationActive) ==>
        !overheatAlert && uiState == old(uiState) && secondsCounter == old(secondsCounter) &&
        lastAlertTime == old(lastAlertTime)
      ensures old(simulationActive) ==>
        secondsCounter == old(secondsCounter) + 1 &&
        uiState == Ticked(old(uiState), sample, batteryTemp, secondsCounter) &&
        overheatAlert == (batteryTemp > CriticalTemp && AlertDue(old(lastAlertTime), now)) &&
        lastAlertTime == if overheatAlert then now else old(lastAlertTime)
    {
      overheatAlert := false;
      if !simulationActive {
        return;
      }
      AdvanceSession(sample, batteryTemp);
      if batteryTemp > CriticalTemp {
        overheatAlert := HandleCriticalAlert(batteryTemp, now);
      }
    }

    /** The counter step and the state update of one sample. */
    method AdvanceSession(sample: RealtimeSample, batteryTemp: real)
      requires Valid() && simulationActive
      modifies this`uiState, this`secondsCounter
      ensures Valid()
      ensures secondsCounter == old(secondsCounter) + 1
      ensures uiState == Ticked(old(uiState), sample, batteryTemp, secondsCounter)
    {
      var counter := secondsCounter + 1;
      var next := Ticked(uiState, sample, batteryTemp, counter);
      TickPreservesConsistency(uiState, secondsCounter, sample, batteryTemp);
      assert SessionConsistent(next, counter) && next.isStreaming;
      secondsCounter := counter;
      uiState := next;
    }

    /** `handleMqttCommand`. */
    method HandleMqttCommand(command: string)
      requires Valid()
      modifies this`uiState, this`simulationActive, this`secondsCounter
      ensures Valid()
      ensures CommandAction(command, old(uiState.isStreaming)) == StartSession ==>
        uiState == Started(old(uiState)) && secondsCounter == old(secondsCounter)
      ensures CommandAction(command, old(uiState.isStreaming)) == StopSession ==>
        uiState == Stopped(old(uiState)) && secondsCounter == 0
      ensures CommandAction(command, old(uiState.isStreaming)) == NoAction ==>
        uiState == old(uiState) && secondsCounter == old(secondsCounter) &&
        simulationActive == old(simulationActive)
    {
      if Contains(command, StartToken) {
        if !uiState.isStreaming {
          StartStreaming();
        }
      } else if Contains(command, StopToken) {
        if uiState.isStreaming {
          StopStreaming();
        }
      }
    }

    /** `onDeviceIdentified`. */
    method OnDeviceIdentified(code: string)
      requires Valid()
      modifies this`uiState
      ensures Valid()
      ensures uiState == WithCameraName(old(uiState), DeviceName(code))
    {
      uiState := WithCameraName(uiState, DeviceName(code));
    }

    /** `startBleScan`: empty the list and (re)start collecting. */
    method StartBleScan()
      requires Valid()
      modifies this`uiState, this`scanActive
      ensures Valid()
      ensures uiState == old(uiState).(scannedDevices := []) && scanActive
    {
      uiState := uiState.(scannedDevices := []);
      scanActive := true;
    }

    /** One device delivered by the scan to the running `scanJob`. */
    method OnScannedDevice(d: Ble.BleDevice)
      requires Valid()
      modifies this`uiState
      ensures Valid()
      ensures uiState == if old(scanActive) then WithDevice(old(uiState), d) else old(uiState)
    {
      if scanActive {
        MergePreservesUnique(uiState.scannedDevices, d);
        uiState := WithDevice(uiState, d);
      }
    }

    /** The 10-second scan timeout cancelling `scanJob`. */
    method StopBleScan()
      requires Valid()
      modifies this`scanActive
      ensures Valid()
      ensures !scanActive
    {
      scanActive := false;
    }

    /** `connectToBleDevice`: stop scanning, then connect. */
    method ConnectToBleDevice(d: Ble.BleDevice)
      requires Valid()
      modifies this`scanActive, ble
      ensures Valid()
      ensures !scanActive
      ensures ble.connectionState == "Connecting to " + d.address + "..." && ble.gatt == Some(Ble.Gatt(d.address))
    {
      scanActive := false;
      ble.ConnectToDevice(d.address);
    }

    /** `disconnectBle`. */
    method DisconnectBle()
      requires Valid()
      modifies ble
      ensures Valid()
      ensures ble.gatt == None && ble.connectionState == Ble.Disconnected
    {
      ble.Disconnect();
    }

    /** One step of `observeBleConnection`: mirror the manager's connection state. */
    method SyncBleConnectionState()
      requires Valid()
      modifies this`uiState
      ensures Valid()
      ensures uiState == old(uiState).(bleConnectionState := ble.connectionState)
    {
      uiState := uiState.(bleConnectionState := ble.connectionState);
    }

    /**
     * One reading collected by `startSensorMonitoring`, with the battery
     * temperature read at that moment: fold it into the state, pass
     * temperature and light through the edge gate (`published` is what goes
     * to the broker), and on a shock schedule the motion status reset.
     */
    method OnSensorData(d: Sensors.SensorData, batteryTemp: real, now: int) returns (published: Option<Edge.Payload>)
      requires Valid()
      modifies this`uiState, this`movementResetPending, edge
      ensures Valid()
      ensures uiState == WithSensorData(old(uiState), d)
      ensures published.Some? <==> Edge.Significant(old(edge.lastTemp), old(edge.lastLight), batteryTemp, d.lightLux)
      ensures published.Some? ==>
        published.value == Edge.Payload(Edge.DeviceId, Edge.PayloadType, batteryTemp, d.lightLux, now)
      ensures published.Some? ==> edge.lastTemp == Some(batteryTemp) && edge.lastLight == Some(d.lightLux)
      ensures published.None? ==> edge.lastTemp == old(edge.lastTemp) && edge.lastLight == old(edge.lastLight)
      ensures movementResetPending == (old(movementResetPending) || d.isShaking)
    {
      uiState := WithSensorData(uiState, d);
      published := edge.ProcessAndFormat(batteryTemp, d.lightLux, now);
      if d.isShaking {
        movementResetPending := true;
      }
    }

    /** The pending `alertResetJob` firing: the motion status goes back to calm. */
    method ResetMovementAlert()
      requires Valid()
      modifies this`uiState, this`movementResetPending
      ensures Valid()
      ensures old(movementResetPending) ==> uiState == old(uiState).(movementAlert := Calm)
      ensures !old(movementResetPending) ==> uiState == old(uiState)
      ensures !movementResetPending
    {
      if movementResetPending {
        uiState := uiState.(movementAlert := Calm);
        movementResetPending := false;
      }
    }
  }
}
