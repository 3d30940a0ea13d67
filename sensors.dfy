/**
 * The sensor callback of `SensorHelper.observeSensors`: light events update
 * the current light level and are always passed on; accelerometer events are
 * passed on as a shock only above 2.5 g and at most once per 2000 ms.
 */
module Sensors {
  import opened Wrappers

  const ShockThreshold: real := 2.5
  const ShakeDebounceMillis: int := 2000

  /** What the callback sends downstream. */
  datatype SensorData = SensorData(lightLux: real, isShaking: bool, gForce: real)

  /**
   * A callback by sensor type. The accelerometer event carries the g-force
   * the source computes from its three axes; `OtherSensor` is any other type,
   * which the callback's `when` ignores.
   */
  datatype SensorEvent =
    | LightEvent(lux: real)
    | AccelerometerEvent(gForce: real)
    | OtherSensor

  /** The shock gate: over the threshold and strictly more than 2000 ms after the last shock. */
  predicate ShockAccepted(lastShakeTime: int, gForce: real, now: int)
  {
    gForce > ShockThreshold && now - lastShakeTime > ShakeDebounceMillis
  }

  /** An accelerometer reading together with the clock value the callback would read. */
  datatype AccelReading = AccelReading(gForce: real, time: int)

  /** The times at which shocks are sent for a run of accelerometer readings. */
  function ShockTimes(lastShakeTime: int, readings: seq<AccelReading>): seq<int>
    decreases |readings|
  {
    if readings == [] then []
    else if ShockAccepted(lastShakeTime, readings[0].gForce, readings[0].time) then
      [readings[0].time] + ShockTimes(readings[0].time, readings[1..])
    else ShockTimes(lastShakeTime, readings[1..])
  }

  /** Shocks that are sent are always more than 2000 ms apart, and after the last remembered one. */
  lemma {:induction false} ShocksSpacedByDebounce(lastShakeTime: int, readings: seq<AccelReading>)
    ensures var ts := ShockTimes(lastShakeTime, readings);
      (|ts| > 0 ==> ts[0] - lastShakeTime > ShakeDebounceMillis) &&
      forall i :: 0 <= i < |ts| - 1 ==> ts[i + 1] - ts[i] > ShakeDebounceMillis
    decreases |readings|
  {
    if readings != [] {
      var r := readings[0];
      if ShockAccepted(lastShakeTime, r.gForce, r.time) {
        ShocksSpacedByDebounce(r.time, readings[1..]);
        var rest := ShockTimes(r.time, readings[1..]);
        assert ShockTimes(lastShakeTime, readings) == [r.time] + rest;
      } else {
        ShocksSpacedByDebounce(lastShakeTime, readings[1..]);
      }
    }
  }

  /** Two readings at most 2000 ms apart yield at most one shock: the gate is strict. */
  lemma {:induction false} CloseShocksYieldOne(lastShakeTime: int, a: AccelReading, b: AccelReading)
    requires a.time <= b.time <= a.time + ShakeDebounceMillis
    ensures |ShockTimes(lastShakeTime, [a, b])| <= 1
  {
    assert [a, b][1..] == [b] && [b][1..] == [];
    if ShockAccepted(lastShakeTime, a.gForce, a.time) {
      assert !ShockAccepted(a.time, b.gForce, b.time);
      assert ShockTimes(a.time, [b]) == ShockTimes(a.time, []) == [];
      assert ShockTimes(lastShakeTime, [a, b]) == [a.time];
    } else {
      assert ShockTimes(lastShakeTime, [a, b]) == ShockTimes(lastShakeTime, [b]);
      assert |ShockTimes(lastShakeTime, [b])| <= 1;
    }
  }

  /** The state captured by the callback: `currentLight` and `lastShakeTime`. */
  class SensorObserver {
    var currentLight: real
    var lastShakeTime: int

    constructor ()
      ensures currentLight == 0.0 && lastShakeTime == 0
    {
      currentLight := 0.0;
      lastShakeTime := 0;
    }

    /**
     * `onSensorChanged`; `None` is a null event. `now` stands for
     * `System.currentTimeMillis()`, read only once the threshold is passed.
     */
    method OnSensorChanged(event: Option<SensorEvent>, now: int) returns (sent: Option<SensorData>)
      modifies this
      ensures event.None? || event.value.OtherSensor? ==>
        sent == None && currentLight == old(currentLight) && lastShakeTime == old(lastShakeTime)
      ensures event.Some? && event.value.LightEvent? ==>
        currentLight == event.value.lux && lastShakeTime == old(lastShakeTime) &&
        sent == Some(SensorData(event.value.lux, false, 0.0))
      ensures event.Some? && event.value.AccelerometerEvent? ==>
        currentLight == old(currentLight) &&
        (sent.Some? <==> ShockAccepted(old(lastShakeTime), event.value.gForce, now)) &&
        (sent.Some? ==> sent.value == SensorData(old(currentLight), true, event.value.gForce) && lastShakeTime == now) &&
        (sent.None? ==> lastShakeTime == old(lastShakeTime))
    {
      sent := None;
      if event.None? {
        return;
      }
      match event.value
      case LightEvent(lux) =>
        currentLight := lux;
        sent := Some(SensorData(currentLight, false, 0.0));
      case AccelerometerEvent(gForce) =>
        if gForce > ShockThreshold {
          if now - lastShakeTime > ShakeDebounceMillis {
            lastShakeTime := now;
            sent := Some(SensorData(currentLight, true, gForce));
          }
        }
      case OtherSensor =>
    }
  }

  /** Two 3.0 g jolts 1000 ms apart give one shock; a third 2100 ms after the first gives another. */
  method DebounceExample(t: int)
    requires t > ShakeDebounceMillis
  {
    var observer := new SensorObserver();
    var s1 := observer.OnSensorChanged(Some(AccelerometerEvent(3.0)), t);
    var s2 := observer.OnSensorChanged(Some(AccelerometerEvent(3.0)), t + 1000);
    var s3 := observer.OnSensorChanged(Some(AccelerometerEvent(3.0)), t + 2100);
    assert s1.Some? && s2.None? && s3.Some?;
  }
}
