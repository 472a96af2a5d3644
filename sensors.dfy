/**
 * The six simulated sensor channels of `this.sensors` (script.js:13-20) and
 * the random-walk step `updateSensorData` applies to each of them
 * (script.js:412-447).
 */
module Sensors {
  import opened WeightedChoice

  datatype SensorId = HeartRate | BreathingRate | BodyTemp | Movement | Oxygen | Noise

  /** The key order of `this.sensors`, which is the order `Object.keys` visits. */
  const SensorOrder: seq<SensorId> := [HeartRate, BreathingRate, BodyTemp, Movement, Oxygen, Noise]

  /** Position of a channel in the key order. */
  function OrderIndex(id: SensorId): (k: nat)
    ensures k < |SensorOrder| && SensorOrder[k] == id
  {
    match id
    case HeartRate => 0
    case BreathingRate => 1
    case BodyTemp => 2
    case Movement => 3
    case Oxygen => 4
    case Noise => 5
  }

  /** The `movement` channel holds one of the strings 'low', 'medium', 'high'. */
  datatype Level = Low | Medium | High

  /** A channel value: a number, or a movement level for the `movement` channel. */
  datatype Value = Number(x: real) | Motion(level: Level)

  /** 'normal', 'warning', and the 'sleeping' the movement channel starts with. */
  datatype Status = Normal | Warning | Sleeping

  datatype Sensor = Sensor(value: Value, status: Status, connected: bool)

  const Levels: seq<Level> := [Low, Medium, High]
  const LevelWeights: seq<real> := [0.7, 0.2, 0.1]

  /** Lower clamp bound of a numeric channel. */
  function Lo(id: SensorId): real
    requires id != Movement
  {
    match id
    case HeartRate => 60.0
    case BreathingRate => 12.0
    case BodyTemp => 36.0
    case Oxygen => 95.0
    case Noise => 20.0
  }

  /** Upper clamp bound of a numeric channel. */
  function Hi(id: SensorId): real
    requires id != Movement
  {
    match id
    case HeartRate => 100.0
    case BreathingRate => 20.0
    case BodyTemp => 37.0
    case Oxygen => 100.0
    case Noise => 60.0
  }

  /** The factor `(draw - 0.5)` is multiplied by: the step is at most half of it. */
  function Width(id: SensorId): real
    requires id != Movement
  {
    match id
    case HeartRate => 4.0
    case BreathingRate => 2.0
    case BodyTemp => 0.2
    case Oxygen => 2.0
    case Noise => 10.0
  }

  /** When a channel's value puts it in 'warning'. */
  predicate Warns(id: SensorId, v: Value)
  {
    match v
    case Motion(level) => level == High
    case Number(x) =>
      match id
      case HeartRate => x > 90.0
      case BreathingRate => x > 18.0
      case BodyTemp => x > 36.8
      case Oxygen => x < 97.0
      case Noise => x > 50.0
      case Movement => false
  }

  /** `Math.max(lo, Math.min(hi, x))`. */
  function Clamp(lo: real, hi: real, x: real): (c: real)
    requires lo <= hi
    ensures lo <= c <= hi
    ensures lo <= x <= hi ==> c == x
    ensures x < lo ==> c == lo
    ensures hi < x ==> c == hi
  {
    var m := if hi < x then hi else x;
    if lo < m then m else lo
  }

  /** The value has the shape of its channel: a level for `movement`, a number otherwise. */
  predicate WellTyped(id: SensorId, s: Sensor)
  {
    (id == Movement) == s.value.Motion?
  }

  /** The value lies in its channel's clamp range. */
  predicate InRange(id: SensorId, s: Sensor)
  {
    WellTyped(id, s) && (s.value.Number? ==> Lo(id) <= s.value.x <= Hi(id))
  }

  /** All six channels are present, well typed and inside their ranges. */
  predicate SensorsValid(m: map<SensorId, Sensor>)
  {
    forall id :: id in m && InRange(id, m[id])
  }

  /** The status a connected channel gets from its new value. */
  function StatusOf(id: SensorId, v: Value): (st: Status)
    ensures st == Warning <==> Warns(id, v)
    ensures st != Sleeping
  {
    if Warns(id, v) then Warning else Normal
  }

  /** The new value of a numeric channel: one random-walk step, clamped to its range. */
  function NextNumber(id: SensorId, x: real, r: real): (v: real)
    requires id != Movement
    ensures Lo(id) <= v <= Hi(id)
  {
    Clamp(Lo(id), Hi(id), x + (r - 0.5) * Width(id))
  }

  /** One `updateSensorData` step of one channel, for draw `r`. */
  function StepSensor(id: SensorId, s: Sensor, r: real): (t: Sensor)
    requires WellTyped(id, s)
    ensures t.connected == s.connected
    ensures !s.connected ==> t == s
    ensures s.connected ==> InRange(id, t)
    ensures s.connected ==> (t.status == Warning <==> Warns(id, t.value))
    ensures s.connected ==> t.status != Sleeping
  {
    if !s.connected then s
    else
      var v := if id == Movement then Motion(Levels[ChoiceIndex(LevelWeights, r)])
               else Number(NextNumber(id, s.value.x, r));
      Sensor(v, StatusOf(id, v), s.connected)
  }

  /**
   * The `switch` of `updateSensorData` for one connected channel: the new
   * value, then the status recomputed from it.
   */
  method StepConnected(id: SensorId, s: Sensor, r: real) returns (t: Sensor)
    requires WellTyped(id, s) && s.connected
    ensures t == StepSensor(id, s, r)
  {
    if id == Movement {
      var level := WeightedRandomChoice(Levels, LevelWeights, r);
      t := s.(value := Motion(level));
    } else {
      t := s.(value := Number(NextNumber(id, s.value.x, r)));
    }
    t := t.(status := StatusOf(id, t.value));
  }

  /**
   * The `forEach` over `Object.keys(this.sensors)`: every connected channel,
   * in key order, takes one step with its own draw; disconnected ones are
   * skipped.
   */
  method StepChannels(before: map<SensorId, Sensor>, draw: SensorId -> real) returns (next: map<SensorId, Sensor>)
    requires SensorsValid(before)
    ensures SensorsValid(next)
    ensures forall id :: next[id] == StepSensor(id, before[id], draw(id))
  {
    next := before;
    var i := 0;
    while i < |SensorOrder|
      invariant 0 <= i <= |SensorOrder|
      invariant forall id :: id in next
      invariant forall id :: OrderIndex(id) < i ==> next[id] == StepSensor(id, before[id], draw(id))
      invariant forall id :: OrderIndex(id) >= i ==> next[id] == before[id]
    {
      var id := SensorOrder[i];
      assert OrderIndex(id) == i;
      var s := next[id];
      assert InRange(id, before[id]);
      if s.connected {
        var t := StepConnected(id, s, draw(id));
        next := next[id := t];
      }
      i := i + 1;
    }
    forall id ensures InRange(id, next[id]) {
      assert InRange(id, before[id]);
    }
  }

  /**
   * A connected numeric channel moves by at most half its width for a draw
   * in [0, 1): clamping toward a range that holds the old value never moves
   * the value further from it.
   */
  lemma StepIsBounded(id: SensorId, s: Sensor, r: real)
    requires id != Movement && InRange(id, s) && s.connected
    requires 0.0 <= r < 1.0
    ensures var t := StepSensor(id, s, r);
      s.value.x - Width(id) / 2.0 <= t.value.x <= s.value.x + Width(id) / 2.0
  {
    var d := (r - 0.5) * Width(id);
    assert -Width(id) / 2.0 <= d <= Width(id) / 2.0;
  }

  /** The movement pick for draw `r`: 'low' up to 0.7, 'medium' up to 0.9, 'high' above. */
  lemma MovementBands(r: real)
    ensures Levels[ChoiceIndex(LevelWeights, r)] ==
      if r <= 0.7 then Low else if r <= 0.9 then Medium else High
  {
    assert Prefix(LevelWeights, 1) == 0.7;
    assert Prefix(LevelWeights, 2) == 0.9;
    if r <= 0.7 {
      ChoiceIndexUnique(LevelWeights, r, 0);
    } else if r <= 0.9 {
      ChoiceIndexUnique(LevelWeights, r, 1);
    } else {
      ChoiceIndexUnique(LevelWeights, r, 2);
    }
  }

  /** The numbers `startDataCollection` and `updateAnomalyDetection` read off the channels. */
  datatype Reading = Reading(heartRate: real, breathingRate: real, bodyTemp: real, movement: Level)

  function ReadingOf(m: map<SensorId, Sensor>): (rd: Reading)
    requires SensorsValid(m)
    ensures 60.0 <= rd.heartRate <= 100.0
    ensures 12.0 <= rd.breathingRate <= 20.0
    ensures 36.0 <= rd.bodyTemp <= 37.0
  {
    assert InRange(HeartRate, m[HeartRate]) && InRange(BreathingRate, m[BreathingRate]);
    assert InRange(BodyTemp, m[BodyTemp]) && InRange(Movement, m[Movement]);
    Reading(m[HeartRate].value.x, m[BreathingRate].value.x, m[BodyTemp].value.x, m[Movement].value.level)
  }

  /** The channels as the constructor sets them (script.js:13-20). */
  const InitialSensors: map<SensorId, Sensor> := map[
    HeartRate := Sensor(Number(72.0), Normal, true),
    BreathingRate := Sensor(Number(16.0), Normal, true),
    BodyTemp := Sensor(Number(36.5), Normal, true),
    Movement := Sensor(Motion(Low), Sleeping, true),
    Oxygen := Sensor(Number(98.0), Normal, true),
    Noise := Sensor(Number(35.0), Normal, true)]

  lemma InitialSensorsValid()
    ensures SensorsValid(InitialSensors)
  {
    forall id: SensorId
      ensures id in InitialSensors && InRange(id, InitialSensors[id])
    {
      match id
      case HeartRate =>
      case BreathingRate =>
      case BodyTemp =>
      case Movement =>
      case Oxygen =>
      case Noise =>
    }
  }
}
