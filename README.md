# PhoneCam decision logic in Dafny

PhoneCam is an Android app that streams a phone camera and monitors the device it runs on. This project models its decision logic: the rules that decide how the UI state changes, when alerts fire and what is passed on. Every operation takes time, sensor readings and platform answers as parameters. Nothing here talks to Android.

One module per source file:

- `Webcam` (`WebcamViewModel.kt`). The UI state record `UiState` (`WebcamUiState`). Each `_uiState.update { it.copy(...) }` lambda becomes a pure function from the old record to the new one: `Started`, `Stopped`, `Ticked`, `WithCameraName`, `WithDevice` and `WithSensorData`. The class `WebcamViewModel` holds the record and the view model's own variables. These are the half-second counter, the time of the last overheat alert, and one flag each for the three coroutine jobs. The class applies those functions. The invariant `SessionConsistent` is kept by every method:
  - the duration and bitrate texts describe the counter and the bitrate;
  - the critical flag is raised only with a cause;
  - the history holds at most 50 entries;
  - scanned addresses are unique;
  - an idle session has a zero counter and no live figures.
- `Edge` (`utils/EdgeProcessor.kt`). The change-detection gate, as a class with the two nullable memories.
- `Sensors` (`utils/SensorHelper.kt`). The sensor callback, as a class holding the captured `currentLight` and `lastShakeTime`. It also has a fold over accelerometer readings, used to prove how far apart shocks are.
- `Ble` (`network/BleManager.kt`). The scan filter as functions; the connection state and GATT handle as a class.
- `Camera` (`CameraSettings.kt`). The settings record and the video quality tag.
- `MainActivity` (`MainActivity.kt`). The status banner, the card and button colours, the button label, the low-bitrate border and the NFC tag-id encoding.
- `Strings` and `Wrappers`. Kotlin's `String.contains`, `Int` rendering and `%02d` (with ASCII digits), each with the parser that inverts it, and `Option` for nullable values.

Behaviour the code has, which the model keeps:

- `startStreaming` does not reset the half-second counter; only `stopStreaming` does (`WebcamViewModel.kt:413`). `SessionConsistent` shows that the counter is already 0 whenever a session is idle, so every start still begins at `00:00`.
- A light reading keeps the current motion status (`WebcamViewModel.kt:176`). Only the 5-second reset job sets it back to calm.
- The stream stop leaves the bitrate history, battery temperature and voltage as they were.
- `CriticalErrorUnreachable` shows that the banner's last critical branch ("КРИТИЧНА ПОМИЛКА!") is never shown. This holds in every state the view model reaches: the flag is raised only by a sample whose temperature is over 45 or whose voltage is under 4. Under the flag, the voltage tests before that branch therefore always match.

Floats are modelled as `real`, and time as integer milliseconds.

## Model

| member | source | states |
|---|---|---|
| `Strings.ContainsIff` | app/src/main/java/com/example/phonecam/WebcamViewModel.kt:133-135 | the recursive `contains` holds exactly when the token occurs at some position of the string |
| `Strings.NatToString` | app/src/main/java/com/example/phonecam/WebcamViewModel.kt:380 | an `Int`'s decimal text is non-empty, all digits, one digit exactly below 10, and starts with '0' only for 0 (no leading zero) |
| `Strings.IntToString` | app/src/main/java/com/example/phonecam/WebcamViewModel.kt:380 | the text starts with a minus sign exactly for negative values, and has no leading zero after the optional sign (it starts with '0' only for 0) |
| `Strings.IntToStringRoundTrip` | app/src/main/java/com/example/phonecam/WebcamViewModel.kt:380 | the decimal text of any `Int` reads back as that `Int` |
| `Strings.Pad2` | app/src/main/java/com/example/phonecam/WebcamViewModel.kt:427 | `%02d` gives at least two digits, exactly two below 100, and no padding zero from 10 on |
| `Strings.Pad2RoundTrip` | app/src/main/java/com/example/phonecam/WebcamViewModel.kt:427 | a zero-padded number reads back as itself |
| `Camera.VideoQualityTag` | app/src/main/java/com/example/phonecam/CameraSettings.kt:17-24 | each of the four tags is given exactly on its width band (≥3840, [1920,3840), [1280,1920), <1280), so exactly one tag applies |
| `Camera.QualityTagDependsOnlyOnWidth` | app/src/main/java/com/example/phonecam/CameraSettings.kt:17-24 | settings with equal widths get equal tags, whatever their height, fps, name or address |
| `Camera.QualityTagMonotone` | app/src/main/java/com/example/phonecam/CameraSettings.kt:18-23 | a wider frame never gets a lower tag |
| `Edge.FirstReadingIsForwarded` | app/src/main/java/com/example/phonecam/utils/EdgeProcessor.kt:17-20 | with nothing remembered every reading passes the gate |
| `Edge.SignificantIff` | app/src/main/java/com/example/phonecam/utils/EdgeProcessor.kt:12-20 | with a memory the gate opens exactly on a strict move above 0.5 degrees or above 10 lux, in either direction |
| `Edge.RepeatIsSuppressed` | app/src/main/java/com/example/phonecam/utils/EdgeProcessor.kt:17-22 | the reading just forwarded, repeated, is held back |
| `Edge.EdgeProcessor.constructor` | app/src/main/java/com/example/phonecam/utils/EdgeProcessor.kt:8-9 | both memories start empty |
| `Edge.EdgeProcessor.ProcessAndFormat` | app/src/main/java/com/example/phonecam/utils/EdgeProcessor.kt:16-39 | a payload comes back iff the reading is significant; it carries "CAM-01", "sensor_update", the reading and the time, and both memories take the reading; otherwise nothing comes back and both memories are unchanged |
| `Sensors.SensorObserver.constructor` | app/src/main/java/com/example/phonecam/utils/SensorHelper.kt:26-27 | light 0 and last shake time 0 |
| `Sensors.SensorObserver.OnSensorChanged` | app/src/main/java/com/example/phonecam/utils/SensorHelper.kt:30-66 | a null or other event does nothing; a light event stores the lux and sends exactly one non-shaking reading with it; an accelerometer event never changes the light, sends iff g > 2.5 and more than 2000 ms passed, and then sends the stored light, shaking, the g-force, and records the time |
| `Sensors.ShocksSpacedByDebounce` | app/src/main/java/com/example/phonecam/utils/SensorHelper.kt:53-57 | in any run of accelerometer readings, sent shocks are more than 2000 ms apart and after the remembered one |
| `Sensors.CloseShocksYieldOne` | app/src/main/java/com/example/phonecam/utils/SensorHelper.kt:54-57 | two readings at most 2000 ms apart produce at most one shock, since the gate is strict |
| `Ble.DisplayName` | app/src/main/java/com/example/phonecam/network/BleManager.kt:51 | a null name becomes "Unknown Device", any other name is kept |
| `Ble.OnScanResult` | app/src/main/java/com/example/phonecam/network/BleManager.kt:50-64 | a result is passed on iff its displayed name is not "Unknown Device" or its rssi is above -60, with address and rssi copied |
| `Ble.Forwarded` | app/src/main/java/com/example/phonecam/network/BleManager.kt:50-64 | every device passed on is admissible and is what the filter makes of some scan result; every result the filter lets through, named or unnamed with a strong signal, is passed on with its displayed name; there are no more devices than results |
| `Ble.ScanBleDevices` | app/src/main/java/com/example/phonecam/network/BleManager.kt:42-78 | without an adapter or with it off nothing is emitted; otherwise the filtered results |
| `Ble.ForwardedAppend` | app/src/main/java/com/example/phonecam/network/BleManager.kt:50-64 | each accepted callback appends exactly one device, its own, after all earlier ones, and a rejected callback appends nothing, so devices go out one per accepted result in callback order |
| `Ble.ForwardedKeepsNamed` | app/src/main/java/com/example/phonecam/network/BleManager.kt:51-54 | a result with a real name is always passed on, whatever its signal |
| `Ble.NextConnectionState` | app/src/main/java/com/example/phonecam/network/BleManager.kt:86-95 | STATE_CONNECTED gives "Connected", STATE_DISCONNECTED "Disconnected", every other state keeps the current text |
| `Ble.BleManager.constructor` | app/src/main/java/com/example/phonecam/network/BleManager.kt:32-38 | no GATT handle, state "Disconnected" |
| `Ble.BleManager.ConnectToDevice` | app/src/main/java/com/example/phonecam/network/BleManager.kt:82-85 | state "Connecting to <address>..." and a handle for that address |
| `Ble.BleManager.OnConnectionStateChange` | app/src/main/java/com/example/phonecam/network/BleManager.kt:86-95 | the state string moves as `NextConnectionState` says; the handle is untouched |
| `Ble.BleManager.Disconnect` | app/src/main/java/com/example/phonecam/network/BleManager.kt:106-111 | no handle and "Disconnected" whatever the state was, so a second call changes nothing |
| `Webcam.FormatDuration` | app/src/main/java/com/example/phonecam/WebcamViewModel.kt:426-428 | the text has at least five characters with the colon third from the end, exactly five (`MM:SS`) below 100 minutes, and no padding zero in the minutes from 10 minutes on |
| `Webcam.DurationRoundTrip` | app/src/main/java/com/example/phonecam/WebcamViewModel.kt:426-428 | the `MM:SS` text reads back as the seconds it was made from, with a seconds field below 60 |
| `Webcam.FormatBitrate` | app/src/main/java/com/example/phonecam/WebcamViewModel.kt:380 | the text ends in " Kbps" and its number has no leading zero after the optional sign, as Kotlin's template prints it |
| `Webcam.BitrateRoundTrip` | app/src/main/java/com/example/phonecam/WebcamViewModel.kt:380 | the bitrate text reads back as the bitrate |
| `Webcam.StoppedTexts` | app/src/main/java/com/example/phonecam/WebcamViewModel.kt:418-419 | the stop's literals "0 Kbps" and "00:00" are the texts of 0 Kbps and 0 seconds |
| `Webcam.PushBounded` | app/src/main/java/com/example/phonecam/WebcamViewModel.kt:365-368 | the new sample is the last entry and, from a history of at most 50, the result is the last 50 of history plus sample |
| `Webcam.HistoryKeepsLastFifty` | app/src/main/java/com/example/phonecam/WebcamViewModel.kt:365-368 | after any run of ticks the history is exactly the last 50 bitrates, oldest first (FIFO eviction) |
| `Webcam.FiringsSpacedByCooldown` | app/src/main/java/com/example/phonecam/WebcamViewModel.kt:393-397 | in any run of overheated ticks, fired alerts are more than 10000 ms apart and after the remembered one |
| `Webcam.OverheatDebounceExample` | app/src/main/java/com/example/phonecam/WebcamViewModel.kt:396-397 | overheat at t, t+3 s, t+11 s fires at t and t+11 s only |
| `Webcam.Started` | app/src/main/java/com/example/phonecam/WebcamViewModel.kt:349-354 | streaming, server address "192.168.1.105", empty history; every other field and setting unchanged |
| `Webcam.Stopped` | app/src/main/java/com/example/phonecam/WebcamViewModel.kt:411-422 | not streaming, not critical, fps and bitrate 0, "0 Kbps", "00:00", no address; history, temperature, voltage and every other field unchanged |
| `Webcam.Ticked` | app/src/main/java/com/example/phonecam/WebcamViewModel.kt:364-388 | the critical flag is recomputed from the just-applied temperature and voltage; fps, bitrate, temperature and voltage are the sample's; the texts are those of the bitrate and of counter/2 seconds; the history gains the sample FIFO; nothing else changes |
| `Webcam.TickTextsReadBack` | app/src/main/java/com/example/phonecam/WebcamViewModel.kt:380-382 | after a tick the bitrate text reads back as the sample's bitrate and the duration as counter/2 seconds |
| `Webcam.ToggleAction` | app/src/main/java/com/example/phonecam/WebcamViewModel.kt:345-347 | start exactly when not streaming, stop exactly when streaming |
| `Webcam.CommandAction` | app/src/main/java/com/example/phonecam/WebcamViewModel.kt:130-138 | start iff the command names START_STREAM and the session is idle; stop iff it does not name START_STREAM, names STOP_STREAM and the session streams; otherwise nothing |
| `Webcam.RepeatedCommandActsOnce` | app/src/main/java/com/example/phonecam/WebcamViewModel.kt:133-137 | the same command delivered again right after does nothing |
| `Webcam.StartTokenWins` | app/src/main/java/com/example/phonecam/WebcamViewModel.kt:133-135 | a command naming both tokens never stops a session |
| `Webcam.DeviceName` | app/src/main/java/com/example/phonecam/WebcamViewModel.kt:143-147 | CAM-01 anywhere in the code names the workshop camera, else CAM-02 the warehouse camera, else an unknown-device name around the code |
| `Webcam.UnknownNameShowsCode` | app/src/main/java/com/example/phonecam/WebcamViewModel.kt:146 | an unrecognised code appears inside the name shown |
| `Webcam.WithCameraName` | app/src/main/java/com/example/phonecam/WebcamViewModel.kt:149-153 | only the camera name changes |
| `Webcam.MergeByAddress` | app/src/main/java/com/example/phonecam/WebcamViewModel.kt:231-237 | a device whose address is already listed leaves the list as it is; otherwise it is appended at the end |
| `Webcam.MergeAllKeepsAddressesUnique` | app/src/main/java/com/example/phonecam/WebcamViewModel.kt:230-237 | merging any run of scanned devices keeps addresses unique, keeps earlier entries in order, and lists every scanned address |
| `Webcam.MergePreservesUnique` | app/src/main/java/com/example/phonecam/WebcamViewModel.kt:231-237 | one merge keeps addresses unique |
| `Webcam.WithDevice` | app/src/main/java/com/example/phonecam/WebcamViewModel.kt:231-237 | only the device list changes, by the merge |
| `Webcam.WithSensorData` | app/src/main/java/com/example/phonecam/WebcamViewModel.kt:173-178 | the light level is the reading's; a shock sets the motion status to that g-force, a quiet reading keeps it; nothing else changes |
| `Webcam.InitialConsistent` | app/src/main/java/com/example/phonecam/WebcamViewModel.kt:47-68 | the default record satisfies the state invariant with a zero counter |
| `Webcam.StartPreservesConsistency` | app/src/main/java/com/example/phonecam/WebcamViewModel.kt:349-354 | starting keeps the state invariant with the counter untouched |
| `Webcam.StopPreservesConsistency` | app/src/main/java/com/example/phonecam/WebcamViewModel.kt:411-422 | stopping gives a state satisfying the invariant with a zero counter |
| `Webcam.TickPreservesConsistency` | app/src/main/java/com/example/phonecam/WebcamViewModel.kt:360-388 | a tick of a running session keeps the invariant with the incremented counter and keeps streaming |
| `Webcam.ToggleTwiceFromIdle` | app/src/main/java/com/example/phonecam/WebcamViewModel.kt:345-422 | start then stop from any reachable idle state gives it back with an empty history, and gives back the initial state exactly |
| `Webcam.WebcamViewModel.constructor` | app/src/main/java/com/example/phonecam/WebcamViewModel.kt:77-104 | default record, zero counter and alert time, no job running, fresh gate and BLE manager, invariant established |
| `Webcam.WebcamViewModel.StartStreaming` | app/src/main/java/com/example/phonecam/WebcamViewModel.kt:349-391 | the record becomes `Started`, the sample job runs, the counter is untouched, the invariant holds |
| `Webcam.WebcamViewModel.StopStreaming` | app/src/main/java/com/example/phonecam/WebcamViewModel.kt:411-424 | the record becomes `Stopped`, the job is cancelled, the counter is 0, the invariant holds |
| `Webcam.WebcamViewModel.ToggleStreaming` | app/src/main/java/com/example/phonecam/WebcamViewModel.kt:345-347 | start when idle, stop when streaming; the streaming flag always flips |
| `Webcam.WebcamViewModel.HandleCriticalAlert` | app/src/main/java/com/example/phonecam/WebcamViewModel.kt:393-409 | fires iff strictly more than 10000 ms passed since the last alert, and only then records the time |
| `Webcam.WebcamViewModel.Tick` | app/src/main/java/com/example/phonecam/WebcamViewModel.kt:358-390 | with the job cancelled nothing changes; otherwise the counter goes up by one, the record becomes `Ticked`, and the overheat alert fires iff the temperature is over 45 and the cooldown has passed |
| `Webcam.WebcamViewModel.AdvanceSession` | app/src/main/java/com/example/phonecam/WebcamViewModel.kt:360-388 | the counter goes up by one and the record becomes `Ticked` for the new counter; the invariant holds |
| `Webcam.WebcamViewModel.HandleMqttCommand` | app/src/main/java/com/example/phonecam/WebcamViewModel.kt:130-139 | performs exactly the `CommandAction` for the command and the current state, and nothing for an unrecognised one |
| `Webcam.WebcamViewModel.OnDeviceIdentified` | app/src/main/java/com/example/phonecam/WebcamViewModel.kt:141-159 | the camera name becomes `DeviceName(code)` |
| `Webcam.WebcamViewModel.StartBleScan` | app/src/main/java/com/example/phonecam/WebcamViewModel.kt:224-228 | the device list is emptied and the scan job runs |
| `Webcam.WebcamViewModel.OnScannedDevice` | app/src/main/java/com/example/phonecam/WebcamViewModel.kt:230-238 | while the scan job runs, the device is merged by address; afterwards nothing changes |
| `Webcam.WebcamViewModel.StopBleScan` | app/src/main/java/com/example/phonecam/WebcamViewModel.kt:244-247 | the scan job is cancelled |
| `Webcam.WebcamViewModel.ConnectToBleDevice` | app/src/main/java/com/example/phonecam/WebcamViewModel.kt:250-253 | the scan job is cancelled and the manager is connecting to the device's address |
| `Webcam.WebcamViewModel.DisconnectBle` | app/src/main/java/com/example/phonecam/WebcamViewModel.kt:255-257 | the manager has no handle and reports "Disconnected" |
| `Webcam.WebcamViewModel.SyncBleConnectionState` | app/src/main/java/com/example/phonecam/WebcamViewModel.kt:216-222 | the record's BLE state becomes the manager's, nothing else changes |
| `Webcam.WebcamViewModel.OnSensorData` | app/src/main/java/com/example/phonecam/WebcamViewModel.kt:170-193 | the record becomes `WithSensorData`; a payload is published iff the edge gate finds temperature and light significant, and then the gate remembers this reading, otherwise its memory is unchanged; a shock schedules the motion reset |
| `Webcam.WebcamViewModel.ResetMovementAlert` | app/src/main/java/com/example/phonecam/WebcamViewModel.kt:210-213 | a pending reset sets the motion status back to calm and nothing else; no reset is left pending |
| `MainActivity.Status` | app/src/main/java/com/example/phonecam/MainActivity.kt:461-470 | an alarm text iff critical; under it overheat iff over 45, low voltage iff at most 45 and 0.1 < V < 4, waiting iff at most 45 and V ≤ 0.1, generic error iff at most 45 and V ≥ 4; otherwise active iff streaming, stopped iff not |
| `MainActivity.CardColorOf` | app/src/main/java/com/example/phonecam/MainActivity.kt:426-430 | pulse iff critical, green iff not critical and streaming, red iff neither |
| `MainActivity.CardAgreesWithBanner` | app/src/main/java/com/example/phonecam/MainActivity.kt:426-470 | card and banner follow the same priority: pulse with an alarm text, green with "active", red with "stopped" |
| `MainActivity.CriticalErrorUnreachable` | app/src/main/java/com/example/phonecam/MainActivity.kt:462-466 | in every state satisfying the view model's invariant the generic critical-error text is never shown |
| `MainActivity.IdleScreen` | app/src/main/java/com/example/phonecam/MainActivity.kt:426-470 | an idle session reached by the view model shows "stopped", a red card and a primary button |
| `MainActivity.ButtonColorOf` | app/src/main/java/com/example/phonecam/MainActivity.kt:588-592 | error colour iff streaming and critical, grey iff streaming and not critical, primary iff not streaming |
| `MainActivity.ButtonLabel` | app/src/main/java/com/example/phonecam/MainActivity.kt:597 | the stop label iff streaming, the start label iff not |
| `MainActivity.ButtonLabelAgreesWithColor` | app/src/main/java/com/example/phonecam/MainActivity.kt:588-597 | the button offers "stop" exactly when it is not in the primary colour |
| `MainActivity.StabilityCard` | app/src/main/java/com/example/phonecam/MainActivity.kt:545-556 | the card exists iff streaming, and has the red border iff 0 < bitrate < 2000 |
| `MainActivity.Unsigned` | app/src/main/java/com/example/phonecam/MainActivity.kt:118 | a signed byte prints as a value below 256, itself or itself plus 256 |
| `MainActivity.HexByte` | app/src/main/java/com/example/phonecam/MainActivity.kt:118 | exactly two upper-case hex digits whose value is the byte's unsigned value |
| `MainActivity.TagIdHex` | app/src/main/java/com/example/phonecam/MainActivity.kt:118 | twice as many characters as bytes, all upper-case hex digits |
| `MainActivity.TagIdRoundTrip` | app/src/main/java/com/example/phonecam/MainActivity.kt:118 | the tag id text reads back as the bytes' unsigned values, in order |
| `MainActivity.NfcDeviceCode` | app/src/main/java/com/example/phonecam/MainActivity.kt:113-123 | a code is produced iff the intent is NDEF- or tag-discovered and the view model exists; it is "NFC-", the tag id text ("null" without an id), then "-CAM-01" |
| `MainActivity.NfcTagIdentifiesCam01` | app/src/main/java/com/example/phonecam/MainActivity.kt:118-122 | every NFC code, whatever the tag id, makes the view model name the workshop camera CAM-01 |

## Left out

- Coroutines and timing. `simulationJob`, `scanJob` and `alertResetJob` are flags on the view model. The stream's samples, the 10-second scan timeout and the 5-second motion reset arrive as explicit events (`Tick`, `StopBleScan`, `ResetMovementAlert`). Concurrent callers, `MutableStateFlow.update` re-running a lambda under contention, and the one tick that may still be in flight after a stop are not modelled.
- `Webcam.WebcamViewModel.Tick`: the battery temperature is a parameter. Reading it from the battery broadcast (`getBatteryTemperature`, tenths of a degree divided by 10) is platform I/O.
- `Sensors.SensorObserver.OnSensorChanged`: the accelerometer event carries the g-force. The `sqrt` of the squared axis readings over standard gravity is floating-point work.
- Floating point in general: temperatures, voltages, lux and g-forces are exact reals, so float32 rounding near a threshold is not captured.
- The `"%.1f"` renderings are not modelled. This covers the motion text (modelled as `Calm` or `ShockDetected(g)`), the telemetry JSON (modelled as the `Payload` record) and the log, event and notification messages.
- Side effects are not modelled: `addLog`, `_eventFlow.emit`, notifications, vibration, the MQTT publish of payloads and of the shock SOS, and the Toast. They appear only as the values that decide them: `HandleCriticalAlert`'s `fired`, `OnSensorData`'s `published`.
- `loadSettings`, `saveCurrentSettings`, `updateProtocol`, `fetchPublicIp`, `checkControllerStatus`, `connectToSmartHome`, `clearLogs`, `loadMapLocations` and the paged log flow are left out. They are repository, network and database plumbing. The `mapLocations` field is not in `UiState` for the same reason.
- Platform calls are not modelled: sensor and scanner registration, `connectGatt`, `discoverServices`, `gatt.close` and the `BluetoothDevice` object inside `BleDevice`. `connectGatt` is taken to always return a handle.
- Integer widths are not modelled. The 32-bit `secondsCounter` and the 64-bit millisecond arithmetic are unbounded integers. Wrap-around would take decades of ticks.
- `MqttHelper.kt`, `data/WebcamRepository.kt`, `utils/VibrationHelper.kt`, `network/ControllerModels.kt`, `ui/ScanScreen.kt` and `ui/BluetoothScreen.kt` are not part of this model. Neither are the Compose layout, the animation, navigation, permissions, `testCameraLogic` and `connectToPc`.
- `Strings.Pad2` and `Webcam.FormatDuration`: `"%02d".format` uses the device's default locale, so on a device whose locale has its own digits (Arabic-Indic, for example) Kotlin prints those digits. The model always prints ASCII digits. `%02X` and `"${bitrate}"` do not depend on the locale.
- `Ble.Forwarded` and `Sensors.SensorObserver.OnSensorChanged`: both callback flows hand values on with `trySend`, which drops an element when the channel's buffer is full. The model passes every value on, so it holds only while the collector keeps up. A shock dropped this way still sets `lastShakeTime`.
