/**
 * The edge change-detection gate (`EdgeProcessor`): it remembers the last
 * temperature and light level it forwarded and lets a new reading through
 * only when there is no memory yet or one of them moved by more than its
 * threshold.
 */
module Edge {
  import opened Wrappers

  const TempThreshold: real := 0.5
  const LightThreshold: real := 10.0
  const DeviceId: string := "CAM-01"
  const PayloadType: string := "sensor_update"

  /**
   * The JSON telemetry object the gate returns, as its fields; `timestamp` is
   * the wall-clock time in milliseconds at which it was built.
   */
  datatype Payload = Payload(
    deviceId: string,
    kind: string,
    temperature: real,
    lightLevel: real,
    timestamp: int)

  function Abs(x: real): real
  {
    if x < 0.0 then -x else x
  }

  /** `tempChanged` / `lightChanged`: no memory yet, or a strict move beyond the threshold. */
  predicate Changed(last: Option<real>, current: real, threshold: real)
  {
    last.None? || Abs(current - last.value) > threshold
  }

  /** Whether `processAndFormat` emits for this reading given its memory. */
  predicate Significant(lastTemp: Option<real>, lastLight: Option<real>, temp: real, light: real)
  {
    Changed(lastTemp, temp, TempThreshold) || Changed(lastLight, light, LightThreshold)
  }

  /** The first reading, with nothing remembered, is always forwarded. */
  lemma FirstReadingIsForwarded(temp: real, light: real)
    ensures Significant(None, None, temp, light)
  {
  }

  /** With a memory, the gate opens exactly on a strict move of more than 0.5 degrees or 10 lux. */
  lemma SignificantIff(lastTemp: real, lastLight: real, temp: real, light: real)
    ensures Significant(Some(lastTemp), Some(lastLight), temp, light) <==>
      temp > lastTemp + 0.5 || temp < lastTemp - 0.5 || light > lastLight + 10.0 || light < lastLight - 10.0
  {
  }

  /** Repeating the reading that was just forwarded is suppressed. */
  lemma RepeatIsSuppressed(temp: real, light: real)
    ensures !Significant(Some(temp), Some(light), temp, light)
  {
  }

  class EdgeProcessor {
    var lastTemp: Option<real>
    var lastLight: Option<real>

    /** The two memories are written together, so they are either both empty or both set. */
    ghost predicate Valid()
      reads this
    {
      lastTemp.Some? == lastLight.Some?
    }

    constructor ()
      ensures Valid() && lastTemp == None && lastLight == None
    {
      lastTemp := None;
      lastLight := None;
    }

    /** `processAndFormat`; `now` stands for `System.currentTimeMillis()`. */
    method ProcessAndFormat(currentTemp: real, currentLight: real, now: int) returns (payload: Option<Payload>)
      requires Valid()
      modifies this
      ensures Valid()
      ensures payload.Some? <==> Significant(old(lastTemp), old(lastLight), currentTemp, currentLight)
      ensures payload.Some? ==>
        payload.value == Payload(DeviceId, PayloadType, currentTemp, currentLight, now) &&
        lastTemp == Some(currentTemp) && lastLight == Some(currentLight)
      ensures payload.None? ==> lastTemp == old(lastTemp) && lastLight == old(lastLight)
    {
      var tempChanged := lastTemp == None || Abs(currentTemp - lastTemp.value) > TempThreshold;
      var lightChanged := lastLight == None || Abs(currentLight - lastLight.value) > LightThreshold;
      if tempChanged || lightChanged {
        lastTemp := Some(currentTemp);
        lastLight := Some(currentLight);
        return Some(Payload(DeviceId, PayloadType, currentTemp, currentLight, now));
      }
      return None;
    }
  }

  /**
   * Readings (20.0, 100.0), (20.3, 105.0), (21.0, 100.0): the second moves by
   * only 0.3 degrees and 5 lux and is held back; the third is 1.0 degree away
   * from the remembered 20.0 and is forwarded.
   */
  method ForwardingExample(now: int)
  {
    var edge := new EdgeProcessor();
    var p1 := edge.ProcessAndFormat(20.0, 100.0, now);
    var p2 := edge.ProcessAndFormat(20.3, 105.0, now + 1);
    var p3 := edge.ProcessAndFormat(21.0, 100.0, now + 2);
    assert p1.Some? && p2.None? && p3.Some?;
    assert p3.value.temperature == 21.0 && edge.lastTemp == Some(21.0);
  }
}
