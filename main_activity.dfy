/**
 * The decisions the main screen makes from the UI state — the status banner,
 * the colours of the status card and of the stream button, the button label,
 * the low-bitrate border — and the NFC tag handling that turns a tag id into
 * a device code for the view model.
 */
module MainActivity {
  import opened Wrappers
  import opened Strings
  import Webcam

  const OverheatTemp: real := 45.0
  const NoDataVoltage: real := 0.1
  const LowVoltage: real := 4.0
  const LowBitrateKbps: int := 2000

  // ---------------------------------------------------------------------------
  // Status card
  // ---------------------------------------------------------------------------

  /** The status card's text, one value per branch of its `when`. */
  datatype StatusBanner =
    | CriticalOverheat
    | LowVoltageAlarm
    | WaitingForData
    | CriticalError
    | StreamActive
    | StreamStopped
  {
    /** The four texts shown while the critical flag is raised. */
    predicate IsAlarm()
    {
      CriticalOverheat? || LowVoltageAlarm? || WaitingForData? || CriticalError?
    }

    function Text(): string
    {
      match this
      case CriticalOverheat => "КРИТИЧНИЙ ПЕРЕГРІВ!"
      case LowVoltageAlarm => "НИЗЬКА НАПРУГА!"
      case WaitingForData => "ОЧІКУВАННЯ ДАНИХ..."
      case CriticalError => "КРИТИЧНА ПОМИЛКА!"
      case StreamActive => "ТРАНСЛЯЦІЯ АКТИВНА"
      case StreamStopped => "ТРАНСЛЯЦІЯ ЗУПИНЕНА"
    }
  }

  /**
   * The banner: the critical flag first, then streaming. Under the flag,
   * overheat first, then a voltage strictly between 0.1 and 4.0, then a
   * voltage of at most 0.1 (no data yet), else a generic error.
   */
  function Status(s: Webcam.UiState): (b: StatusBanner)
    ensures b.IsAlarm() <==> s.isCriticalAlert
    ensures b == StreamActive <==> !s.isCriticalAlert && s.isStreaming
    ensures b == StreamStopped <==> !s.isCriticalAlert && !s.isStreaming
    ensures b == CriticalOverheat <==> s.isCriticalAlert && s.cpuTemp > OverheatTemp
    ensures b == LowVoltageAlarm <==>
      s.isCriticalAlert && s.cpuTemp <= OverheatTemp && NoDataVoltage < s.inputVoltage < LowVoltage
    ensures b == WaitingForData <==>
      s.isCriticalAlert && s.cpuTemp <= OverheatTemp && s.inputVoltage <= NoDataVoltage
    ensures b == CriticalError <==>
      s.isCriticalAlert && s.cpuTemp <= OverheatTemp && s.inputVoltage >= LowVoltage
  {
    if s.isCriticalAlert then
      if s.cpuTemp > OverheatTemp then CriticalOverheat
      else if s.inputVoltage > NoDataVoltage && s.inputVoltage < LowVoltage then LowVoltageAlarm
      else if s.inputVoltage <= NoDataVoltage then WaitingForData
      else CriticalError
    else if s.isStreaming then StreamActive
    else StreamStopped
  }

  /**
   * The card's background: the red pulse (0xFFFF0000 to 0xFF8B0000) under the
   * critical flag, else green 0xFF2E7D32 while streaming, else red 0xFFC62828.
   */
  datatype CardColor = AlertPulse | StreamingGreen | StoppedRed

  function CardColorOf(s: Webcam.UiState): (c: CardColor)
    ensures c == AlertPulse <==> s.isCriticalAlert
    ensures c == StreamingGreen <==> !s.isCriticalAlert && s.isStreaming
    ensures c == StoppedRed <==> !s.isCriticalAlert && !s.isStreaming
  {
    if s.isCriticalAlert then AlertPulse
    else if s.isStreaming then StreamingGreen
    else StoppedRed
  }

  /** Card colour and banner follow the same priority: the card pulses exactly under an alarm text. */
  lemma CardAgreesWithBanner(s: Webcam.UiState)
    ensures CardColorOf(s) == AlertPulse <==> Status(s).IsAlarm()
    ensures CardColorOf(s) == StreamingGreen <==> Status(s) == StreamActive
    ensures CardColorOf(s) == StoppedRed <==> Status(s) == StreamStopped
  {
  }

  /**
   * With the view model's invariant — the flag is raised only by a tick that
   * saw a temperature over 45 or a voltage under 4 — the generic error text
   * can never be shown.
   */
  lemma CriticalErrorUnreachable(s: Webcam.UiState, counter: nat)
    requires Webcam.SessionConsistent(s, counter)
    ensures Status(s) != CriticalError
  {
  }

  /** An idle session always shows the stopped banner, the red card and the primary button. */
  lemma IdleScreen(s: Webcam.UiState, counter: nat)
    requires Webcam.SessionConsistent(s, counter) && !s.isStreaming
    ensures Status(s) == StreamStopped && CardColorOf(s) == StoppedRed && ButtonColorOf(s) == PrimaryColor
  {
  }

  // ---------------------------------------------------------------------------
  // Stream button and stability card
  // ---------------------------------------------------------------------------

  /** The button's colour: the theme's error colour, slate grey 0xFF455A64, or the primary colour. */
  datatype ButtonColor = ErrorColor | SlateGrey | PrimaryColor

  function ButtonColorOf(s: Webcam.UiState): (c: ButtonColor)
    ensures c == ErrorColor <==> s.isStreaming && s.isCriticalAlert
    ensures c == SlateGrey <==> s.isStreaming && !s.isCriticalAlert
    ensures c == PrimaryColor <==> !s.isStreaming
  {
    if s.isStreaming && s.isCriticalAlert then ErrorColor
    else if s.isStreaming then SlateGrey
    else PrimaryColor
  }

  const StopLabel: string := "Зупинити трансляцію"
  const StartLabel: string := "Запустити трансляцію"

  /** The button's label reads the streaming flag only. */
  function ButtonLabel(s: Webcam.UiState): (caption: string)
    ensures caption == StopLabel <==> s.isStreaming
    ensures caption == StartLabel <==> !s.isStreaming
  {
    if s.isStreaming then StopLabel else StartLabel
  }

  /** The button offers "stop" exactly when it is not in the primary colour. */
  lemma ButtonLabelAgreesWithColor(s: Webcam.UiState)
    ensures ButtonLabel(s) == StopLabel <==> ButtonColorOf(s) != PrimaryColor
  {
  }

  /**
   * The network stability card: absent when not streaming; when present, its
   * red border is drawn exactly for a bitrate strictly between 0 and 2000.
   */
  function StabilityCard(s: Webcam.UiState): (border: Option<bool>)
    ensures border.Some? <==> s.isStreaming
    ensures border == Some(true) <==> s.isStreaming && 0 < s.currentBitrate < LowBitrateKbps
  {
    if s.isStreaming then Some(s.currentBitrate < LowBitrateKbps && s.currentBitrate > 0) else None
  }

  // ---------------------------------------------------------------------------
  // NFC tag id
  // ---------------------------------------------------------------------------

  /** Kotlin's signed `Byte`. */
  type SByte = b: int | -128 <= b < 128

  /** The value `%X` prints for a `Byte`: a negative byte has 256 added. */
  function Unsigned(b: SByte): (u: nat)
    ensures u < 256 && (u == b || u == b + 256)
  {
    if b < 0 then b + 256 else b
  }

  predicate IsUpperHex(c: char)
  {
    '0' <= c <= '9' || 'A' <= c <= 'F'
  }

  function HexValue(c: char): (d: nat)
    requires IsUpperHex(c)
    ensures d < 16
  {
    if c <= '9' then c as int - '0' as int else c as int - 'A' as int + 10
  }

  function HexDigit(d: nat): (c: char)
    requires d < 16
    ensures IsUpperHex(c) && HexValue(c) == d
  {
    if d < 10 then ('0' as int + d) as char else ('A' as int + d - 10) as char
  }

  /** `"%02X".format(b)`: two upper-case hex digits, high nibble first. */
  function HexByte(b: SByte): (r: string)
    ensures |r| == 2 && IsUpperHex(r[0]) && IsUpperHex(r[1])
    ensures HexValue(r[0]) * 16 + HexValue(r[1]) == Unsigned(b)
  {
    [HexDigit(Unsigned(b) / 16), HexDigit(Unsigned(b) % 16)]
  }

  /** `joinToString("") { "%02X".format(it) }` over the tag id bytes. */
  function TagIdHex(bytes: seq<SByte>): (r: string)
    ensures |r| == 2 * |bytes|
    ensures forall i :: 0 <= i < |r| ==> IsUpperHex(r[i])
    decreases |bytes|
  {
    if bytes == [] then "" else HexByte(bytes[0]) + TagIdHex(bytes[1..])
  }

  /** The unsigned values of the bytes, in order. */
  function Unsigneds(bytes: seq<SByte>): seq<nat>
    decreases |bytes|
  {
    if bytes == [] then [] else [Unsigned(bytes[0])] + Unsigneds(bytes[1..])
  }

  /** Reads pairs of upper-case hex digits back as byte values. */
  function HexDecode(s: string): seq<nat>
    requires |s| % 2 == 0
    requires forall i :: 0 <= i < |s| ==> IsUpperHex(s[i])
    decreases |s|
  {
    if s == [] then [] else [HexValue(s[0]) * 16 + HexValue(s[1])] + HexDecode(s[2..])
  }

  /** The tag id text loses nothing: it reads back as the bytes' unsigned values, in order. */
  lemma {:induction false} TagIdRoundTrip(bytes: seq<SByte>)
    ensures HexDecode(TagIdHex(bytes)) == Unsigneds(bytes)
    decreases |bytes|
  {
    if bytes != [] {
      TagIdRoundTrip(bytes[1..]);
      var r := TagIdHex(bytes);
      assert r[2..] == TagIdHex(bytes[1..]);
    }
  }

  const ActionNdefDiscovered: string := "android.nfc.action.NDEF_DISCOVERED"
  const ActionTagDiscovered: string := "android.nfc.action.TAG_DISCOVERED"

  /** The tag id as a string template renders it: "null" when the intent carries no id. */
  function TagIdText(extraId: Option<seq<SByte>>): string
  {
    match extraId
    case None => "null"
    case Some(bytes) => TagIdHex(bytes)
  }

  /**
   * `onNewIntent`: for an NDEF- or tag-discovered intent, and once the view
   * model exists, the code handed to `onDeviceIdentified`: "NFC-", the tag id
   * text, "-CAM-01".
   */
  function NfcDeviceCode(action: string, extraId: Option<seq<SByte>>, viewModelReady: bool): (code: Option<string>)
    ensures code.Some? <==> (action == ActionNdefDiscovered || action == ActionTagDiscovered) && viewModelReady
    ensures code.Some? ==>
      |code.value| == 4 + |TagIdText(extraId)| + 7 && code.value[..4] == "NFC-" &&
      code.value[4..|code.value| - 7] == TagIdText(extraId) && code.value[|code.value| - 7..] == "-CAM-01"
  {
    if (action == ActionNdefDiscovered || action == ActionTagDiscovered) && viewModelReady then
      var tagId := TagIdText(extraId);
      ConcatThree("NFC-", tagId, "-CAM-01");
      Some("NFC-" + tagId + "-CAM-01")
    else None
  }

  /** Every NFC tag, whatever its id, identifies the workshop camera CAM-01. */
  lemma NfcTagIdentifiesCam01(action: string, extraId: Option<seq<SByte>>)
    requires NfcDeviceCode(action, extraId, true).Some?
    ensures Webcam.DeviceName(NfcDeviceCode(action, extraId, true).value) == Webcam.Cam01Name
  {
    var code := NfcDeviceCode(action, extraId, true).value;
    assert code[|code| - 6..] == Webcam.Cam01Token by {
      assert code[|code| - 6..] == code[|code| - 7..][1..];
    }
    ContainsAtEnd(code, Webcam.Cam01Token);
  }
}
