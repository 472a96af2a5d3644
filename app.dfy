/**
 * The application object `SleepSynncc` (script.js:2-973) reduced to its
 * state: the monitoring flag, `sleepData` and `sensors`, with the operations
 * that change them. Every `new Date()` is a millisecond timestamp parameter
 * and every `Math.random()` a draw parameter.
 */
module App {
  import opened Wrappers
  import opened Sensors
  import opened SleepData
  import opened MlModel
  import N = Notices

  const StartedMessage: string := "Monitoramento de sono iniciado"
  const NoActiveMessage: string := "Nenhum monitoramento ativo"
  const FinishedMessage: string := "Monitoramento de sono finalizado"
  const AlertPrefix: string := "Alerta: "
  const AnomalyPrefix: string := "Anomalia detectada: "

  /** One warning notification per anomaly, its message behind `prefix`. */
  function Alerts(prefix: string, found: seq<Anomaly>): (ns: seq<N.Notice>)
    ensures |ns| == |found|
    ensures forall i :: 0 <= i < |found| ==> ns[i] == N.Notice(prefix + found[i].message, N.Warning)
  {
    if found == [] then [] else [N.Notice(prefix + found[0].message, N.Warning)] + Alerts(prefix, found[1..])
  }

  class SleepSynncc {
    var isMonitoring: bool
    var currentSession: Option<OpenSession>
    var sessions: seq<Session>
    var anomalies: seq<Anomaly>
    var recommendations: seq<Recommendation>
    var sensors: map<SensorId, Sensor>

    /**
     * The object invariant: the channels stay well typed and in range, a
     * session is open exactly while monitoring, and every stored session has
     * consistent metrics.
     */
    ghost predicate Valid()
      reads this
    {
      && SensorsValid(sensors)
      && (isMonitoring <==> currentSession.Some?)
      && (forall s :: s in sessions ==> SummaryValid(s.summary))
    }

    /** The state after the constructor and `loadUserData` have run at time `now`. */
    constructor (now: int)
      ensures Valid()
      ensures !isMonitoring && currentSession == None
      ensures sessions == SeededSessions(now) && anomalies == SeededAnomalies(now)
      ensures recommendations == SeededRecommendations && sensors == InitialSensors
    {
      isMonitoring := false;
      currentSession := None;
      sessions := SeededSessions(now);
      anomalies := SeededAnomalies(now);
      recommendations := SeededRecommendations;
      sensors := InitialSensors;
      InitialSensorsValid();
    }

    /**
     * `updateSensorData` (script.js:412-447): visit the channels in key
     * order and step each connected one with its own draw.
     */
    method UpdateSensorData(draw: SensorId -> real)
      requires Valid()
      modifies this
      ensures Valid()
      ensures forall id :: sensors[id] == StepSensor(id, old(sensors)[id], draw(id))
      ensures isMonitoring == old(isMonitoring) && currentSession == old(currentSession)
      ensures sessions == old(sessions) && anomalies == old(anomalies)
      ensures recommendations == old(recommendations)
    {
      sensors := StepChannels(sensors, draw);
    }

    /**
     * `startSleepMonitoring` (script.js:659-672). There is no guard: a
     * session already open is dropped and a fresh one replaces it.
     */
    method StartSleepMonitoring(now: int) returns (notice: N.Notice)
      modifies this
      ensures isMonitoring
      ensures currentSession == Some(OpenSession(now, [], []))
      ensures sessions == old(sessions) && anomalies == old(anomalies)
      ensures recommendations == old(recommendations) && sensors == old(sensors)
      ensures notice == N.Notice(StartedMessage, N.Success)
      ensures old(Valid()) ==> Valid()
    {
      isMonitoring := true;
      currentSession := Some(OpenSession(now, [], []));
      notice := N.Notice(StartedMessage, N.Success);
    }

    /**
     * `stopSleepMonitoring` (script.js:674-697) at time `now`, with the two
     * draws `calculateSessionMetrics` takes.
     */
    method StopSleepMonitoring(now: int, r1: real, r2: real) returns (notice: N.Notice)
      modifies this
      ensures !old(isMonitoring) ==> unchanged(this) && notice == N.Notice(NoActiveMessage, N.Warning)
      ensures old(isMonitoring) ==>
        !isMonitoring && currentSession == None && notice == N.Notice(FinishedMessage, N.Info)
      ensures old(isMonitoring) && old(currentSession).Some? ==>
        sessions == [Seal(old(currentSession).value, now, r1, r2)] + old(sessions)
      ensures old(isMonitoring) && old(currentSession).None? ==> sessions == old(sessions)
      ensures anomalies == old(anomalies) && recommendations == old(recommendations)
      ensures sensors == old(sensors)
      ensures old(Valid()) && InUnit(r1) && InUnit(r2) ==> Valid()
    {
      if !isMonitoring {
        return N.Notice(NoActiveMessage, N.Warning);
      }
      isMonitoring := false;
      if currentSession.Some? {
        var sealed := Seal(currentSession.value, now, r1, r2);
        sessions := [sealed] + sessions;
        currentSession := None;
      }
      notice := N.Notice(FinishedMessage, N.Info);
    }

    /** `toggleSleepMode` (script.js:809-815): stop when monitoring, start otherwise. */
    method ToggleSleepMode(now: int, r1: real, r2: real) returns (notice: N.Notice)
      modifies this
      ensures isMonitoring == !old(isMonitoring)
      ensures !old(isMonitoring) ==>
        currentSession == Some(OpenSession(now, [], [])) && sessions == old(sessions)
      ensures old(isMonitoring) ==> currentSession == None
      ensures old(isMonitoring) && old(currentSession).Some? ==>
        sessions == [Seal(old(currentSession).value, now, r1, r2)] + old(sessions)
      ensures old(isMonitoring) && old(currentSession).None? ==> sessions == old(sessions)
      ensures anomalies == old(anomalies) && recommendations == old(recommendations)
      ensures sensors == old(sensors)
      ensures notice == if old(isMonitoring) then N.Notice(FinishedMessage, N.Info) else N.Notice(StartedMessage, N.Success)
      ensures old(Valid()) && InUnit(r1) && InUnit(r2) ==> Valid()
    {
      if isMonitoring {
        notice := StopSleepMonitoring(now, r1, r2);
      } else {
        notice := StartSleepMonitoring(now);
      }
    }

    /**
     * One tick of the collection interval set up by `startDataCollection`
     * (script.js:730-752) at time `now`, with the draw `predictSleepStage`
     * takes. The anomalies found are only announced, not stored.
     */
    method CollectDataPoint(now: int, stageDraw: real) returns (alerts: seq<N.Notice>)
      requires Valid()
      modifies this
      ensures Valid()
      ensures !old(isMonitoring) ==> unchanged(this) && alerts == []
      ensures old(isMonitoring) ==>
        var point := DataPoint(now, ReadingOf(old(sensors)), StageAt(stageDraw));
        currentSession == Some(old(currentSession).value.(metrics := old(currentSession).value.metrics + [point]))
      ensures isMonitoring == old(isMonitoring) && sessions == old(sessions)
      ensures anomalies == old(anomalies) && recommendations == old(recommendations)
      ensures sensors == old(sensors)
      ensures old(isMonitoring) ==> alerts == Alerts(AlertPrefix, DetectAnomalies(ReadingOf(sensors), now))
      ensures |alerts| <= 1
      ensures alerts != [] <==> old(isMonitoring) && ReadingOf(sensors).movement == High
    {
      if !isMonitoring {
        return [];
      }
      var stage := PredictSleepStage(sensors, stageDraw);
      var point := DataPoint(now, ReadingOf(sensors), stage);
      var open := currentSession.value;
      currentSession := Some(open.(metrics := open.metrics + [point]));
      var found := DetectAnomalies(point.reading, now);
      SensorReadingNeverHighHeartRate(sensors, now);
      alerts := Alerts(AlertPrefix, found);
    }

    /**
     * `updateAnomalyDetection` (script.js:578-595): unlike the collection
     * tick, it appends what it finds to `sleepData.anomalies`.
     */
    method UpdateAnomalyDetection(now: int) returns (alerts: seq<N.Notice>)
      requires Valid()
      modifies this
      ensures Valid()
      ensures anomalies == old(anomalies) + DetectAnomalies(ReadingOf(sensors), now)
      ensures |anomalies| <= |old(anomalies)| + 1
      ensures alerts == Alerts(AnomalyPrefix, DetectAnomalies(ReadingOf(sensors), now))
      ensures isMonitoring == old(isMonitoring) && currentSession == old(currentSession)
      ensures sessions == old(sessions) && recommendations == old(recommendations)
      ensures sensors == old(sensors)
    {
      var found := DetectAnomalies(ReadingOf(sensors), now);
      SensorReadingNeverHighHeartRate(sensors, now);
      var stored := anomalies;
      alerts := [];
      for i := 0 to |found|
        invariant stored == anomalies + found[..i]
        invariant alerts == Alerts(AnomalyPrefix, found[..i])
      {
        stored := stored + [found[i]];
        alerts := alerts + [N.Notice(AnomalyPrefix + found[i].message, N.Warning)];
      }
      assert found[..|found|] == found;
      anomalies := stored;
    }
  }

  /**
   * Starting and then stopping adds exactly one session at the front of the
   * history, whose duration is the elapsed time in hours and whose three
   * stage shares add up to it.
   */
  method StartThenStop(app: SleepSynncc, t0: int, t1: int, r1: real, r2: real)
    requires app.Valid() && InUnit(r1) && InUnit(r2)
    modifies app
    ensures app.Valid() && !app.isMonitoring && app.currentSession == None
    ensures |app.sessions| == |old(app.sessions)| + 1 && app.sessions[1..] == old(app.sessions)
    ensures app.sessions[0].Sealed? && app.sessions[0].metrics == []
    ensures app.sessions[0].summary.duration * 3600000.0 == (t1 - t0) as real
    ensures var m := app.sessions[0].summary; m.deepSleep + m.remSleep + m.lightSleep == m.duration
  {
    var started := app.StartSleepMonitoring(t0);
    var stopped := app.StopSleepMonitoring(t1, r1, r2);
  }
}
