/**
 * The simulated model built in `initializeMLModel` (script.js:67-109):
 * a stage classifier that ignores its input and draws a stage, a threshold
 * anomaly detector and a one-rule recommendation generator.
 */
module MlModel {
  import opened Wrappers
  import opened WeightedChoice
  import Sensors
  import opened SleepData

  const Stages: seq<Stage> := [Awake, Light, Deep, Rem]
  const StageWeights: seq<real> := [0.1, 0.4, 0.3, 0.2]

  /** The stage drawn for `r`: 'awake' up to 0.1, 'light' up to 0.5, 'deep' up to 0.8, 'rem' above. */
  function StageAt(r: real): (stage: Stage)
    ensures stage == if r <= 0.1 then Awake else if r <= 0.5 then Light else if r <= 0.8 then Deep else Rem
  {
    assert Prefix(StageWeights, 1) == 0.1;
    assert Prefix(StageWeights, 2) == 0.5;
    assert Prefix(StageWeights, 3) == 0.8;
    if r <= 0.1 then
      ChoiceIndexUnique(StageWeights, r, 0);
      Stages[ChoiceIndex(StageWeights, r)]
    else if r <= 0.5 then
      ChoiceIndexUnique(StageWeights, r, 1);
      Stages[ChoiceIndex(StageWeights, r)]
    else if r <= 0.8 then
      ChoiceIndexUnique(StageWeights, r, 2);
      Stages[ChoiceIndex(StageWeights, r)]
    else
      ChoiceIndexUnique(StageWeights, r, 3);
      Stages[ChoiceIndex(StageWeights, r)]
  }

  /**
   * `predictSleepStage(data)` (script.js:68-73). The sensors it is handed
   * play no part in the result.
   */
  method PredictSleepStage(data: map<Sensors.SensorId, Sensors.Sensor>, r: real) returns (stage: Stage)
    ensures stage == StageAt(r)
    ensures stage == if r <= 0.1 then Awake else if r <= 0.5 then Light else if r <= 0.8 then Deep else Rem
  {
    stage := WeightedRandomChoice(Stages, StageWeights, r);
  }

  const HeartRateMessage: string := "Frequência cardíaca elevada detectada"
  const MovementMessage: string := "Movimento excessivo durante o sono"

  /**
   * `detectAnomalies(data)` (script.js:74-94) at time `now`: a
   * 'high_heart_rate' anomaly above 100 beats per minute, then an
   * 'excessive_movement' one when the movement level is 'high'.
   */
  function DetectAnomalies(data: Sensors.Reading, now: int): (found: seq<Anomaly>)
    ensures |found| <= 2
    ensures (exists a :: a in found && a.kind == HighHeartRate) <==> data.heartRate > 100.0
    ensures (exists a :: a in found && a.kind == ExcessiveMovement) <==> data.movement == Sensors.High
    ensures |found| == 2 ==> found[0].kind == HighHeartRate && found[1].kind == ExcessiveMovement
    ensures forall a :: a in found ==>
      && a.id == None && a.duration == None && a.timestamp == now
      && (a.kind == HighHeartRate ==> a.severity == HighSeverity && a.message == HeartRateMessage)
      && (a.kind == ExcessiveMovement ==> a.severity == MediumSeverity && a.message == MovementMessage)
      && a.kind != ProlongedAwakening
  {
    var heart := if data.heartRate > 100.0
      then [Anomaly(None, HighHeartRate, HighSeverity, HeartRateMessage, now, None)]
      else [];
    var motion := if data.movement == Sensors.High
      then [Anomaly(None, ExcessiveMovement, MediumSeverity, MovementMessage, now, None)]
      else [];
    heart + motion
  }

  /** A reading taken from valid sensors never reports a high heart rate:
      the step clamps the heart rate to at most 100, and the rule needs more. */
  lemma SensorReadingNeverHighHeartRate(sensors: map<Sensors.SensorId, Sensors.Sensor>, now: int)
    requires Sensors.SensorsValid(sensors)
    ensures forall a :: a in DetectAnomalies(Sensors.ReadingOf(sensors), now) ==> a.kind == ExcessiveMovement
    ensures |DetectAnomalies(Sensors.ReadingOf(sensors), now)| <= 1
  {
  }

  /** A recommendation as `generateRecommendations` builds it: it has a `type`
      where stored ones have a `category`, and no `id` or `completed`. */
  datatype Advice = Advice(kind: string, priority: Priority, title: string, description: string, impact: string)

  /**
   * `generateRecommendations(data)` (script.js:95-108) for
   * `data.sleepEfficiency`: one high-priority 'environment' entry below 80.
   */
  function GenerateRecommendations(sleepEfficiency: real): (advice: seq<Advice>)
    ensures |advice| <= 1
    ensures advice != [] <==> sleepEfficiency < 80.0
    ensures forall a :: a in advice ==> a.kind == "environment" && a.priority == HighPriority
  {
    if sleepEfficiency < 80.0 then
      [Advice("environment", HighPriority, "Melhorar Ambiente do Quarto",
              "Ajustar temperatura e reduzir ruído", "+15 pontos no score")]
    else []
  }
}
