# SleepSynncc telemetry engine in Dafny

SleepSynncc is a browser dashboard that simulates sleep monitoring. This project models its
simulated-telemetry core, which lives in `script.js`:

- six sensor channels that take a clamped random-walk step every tick;
- a weighted random choice that picks the movement level and the sleep stage;
- the threshold rules of the simulated model: anomaly detection and recommendation generation;
- the monitoring state machine: start, stop, toggle and the 30-second collection tick;
- the metrics a session gets when it is sealed;
- the category filter for recommendations, the profile statistics, and the size/type check on a
  new profile picture.

Every `Math.random()` becomes a draw parameter and every `new Date()` an integer millisecond
timestamp. With those inputs fixed, every operation is deterministic. Numbers are `real`, and
`Math.round(x)` is `(x + 0.5).Floor`.

Modules, leaf first:

- `Wrappers`: `Option`, used for `null`.
- `WeightedChoice`: `weightedRandomChoice`. The loop is proved against `ChoiceIndex`, which is
  shown to be the least index whose running weight reaches the draw, or the last index.
- `Sensors`: the channels, the per-channel step `StepSensor`, and the loop `StepChannels` over
  the channels in key order.
- `SleepData`: the records in `sleepData`, `calculateSessionMetrics`, the category filter and
  `calculateUserStats`.
- `MlModel`: `predictSleepStage`, `detectAnomalies` and `generateRecommendations`.
- `ProfileImage`: the file check of `handleProfileImageChange`.
- `Notices`: the notifications, kept as values.
- `App`: the class `SleepSynncc`. Its fields are the monitoring flag, `sleepData.currentSession`,
  `sessions`, `anomalies`, `recommendations` and `sensors`. Its methods change them in place.

The class invariant `Valid()` has three parts:

- every channel is well typed and inside its clamp range;
- a session is open exactly while monitoring;
- every stored session has stage shares that add up to its duration, an efficiency in [80, 100)
  and a score in [64, 100]. The two sessions seeded by `loadUserData` satisfy this too.

The constructor establishes `Valid()`. Every method keeps it, provided the draws are in [0, 1),
as `Math.random()` guarantees.

Where the code differs from what a reader might expect, the model follows the code:

- `startSleepMonitoring` has no guard. Calling it while monitoring throws away the open
  session and starts a fresh one.
- The collection tick only announces the anomalies it finds. It does not store them in
  `sleepData.anomalies`; only `updateAnomalyDetection` does.
- Sessions sealed by `stopSleepMonitoring` get no `id`.
- `detectAnomalies` needs a heart rate strictly above 100, but the sensor step clamps the heart
  rate to at most 100. So a reading taken from the sensors never yields `high_heart_rate`, and a
  tick raises at most one alert: exactly when movement is `high`.

## Model

| member | source | states |
|---|---|---|
| WeightedChoice.ChoiceIndex | script.js:112-122 | the index picked for a draw is a valid index of the item list |
| WeightedChoice.ChoiceIndexIsChoice | script.js:112-122 | the picked index is the least one whose cumulative weight reaches the draw, or the last index when none does |
| WeightedChoice.ChoiceIndexUnique | script.js:112-122 | conversely, any index with that least-covering-or-last property is the one picked |
| WeightedChoice.WeightedRandomChoice | script.js:112-122 | the running-sum loop returns the item at the least index whose cumulative weight reaches the draw, else the last item |
| Sensors.Clamp | script.js:420-441 | `Math.max(lo, Math.min(hi, x))` lies in [lo, hi], is x inside the range and the nearer bound outside it |
| Sensors.StepSensor | script.js:414-446 | a connected channel ends inside its range, with status `warning` exactly when its threshold is crossed and never `sleeping`; a disconnected channel is unchanged; `connected` never changes |
| Sensors.StepConnected | script.js:418-444 | the per-channel `switch` (new value, then status from it) computes exactly `StepSensor` for a connected channel |
| Sensors.StepChannels | script.js:412-447 | the loop over the channels in key order steps every channel with its own draw and keeps all six valid and in range |
| Sensors.StepIsBounded | script.js:420-441 | for a draw in [0, 1) a numeric channel moves by at most half its step width (±2, ±1, ±0.1, ±1, ±5) |
| Sensors.MovementBands | script.js:431-434 | the movement level is `low` for draws up to 0.7, `medium` up to 0.9 and `high` above |
| Sensors.ReadingOf | script.js:735-740 | a reading from valid sensors has heart rate in [60,100], breathing rate in [12,20] and body temperature in [36,37] |
| Sensors.InitialSensorsValid | script.js:13-20 | the channels the constructor sets up are all well typed and inside their ranges |
| SleepData.Round | script.js:708 | `Math.round` gives the integer n with n ≤ x + 0.5 < n + 1 |
| SleepData.SessionMetrics | script.js:699-709 | deep, REM and light sleep are 30/20/50 % of the duration and add up to it; for draws in [0,1) efficiency is in [80,100) and the score in [64,100] |
| SleepData.Hours | script.js:685 | the duration in hours times 3 600 000 is the elapsed milliseconds |
| SleepData.Seal | script.js:683-692 | the sealed session keeps start time, stages and samples, records the end time, has duration (end − start)/3 600 000 h and, for draws in [0,1), valid metrics |
| SleepData.SeededSessions | script.js:126-147 | the two seeded sessions already satisfy the session invariant |
| SleepData.Matching | script.js:632 | `filter` keeps exactly the recommendations of the given category and never lengthens the list |
| SleepData.FilterRecommendationsByCategory | script.js:630-633 | `'all'` returns the list unchanged; any other category keeps exactly the matching recommendations |
| SleepData.MatchingIsSubsequence | script.js:632 | the filtered list keeps the original order |
| SleepData.MatchingCounts | script.js:632 | each matching recommendation is kept as often as it occurs, and no other is kept |
| SleepData.FilterIsOrderedSelection | script.js:630-633 | for every category the result is an order-preserving sub-list, and for any category but `'all'` it holds exactly the matching entries with their multiplicities |
| SleepData.SeededProfile | script.js:124-179 | after `loadUserData` the profile shows 2 days monitored, an average score of 82 (85 and 78, mean 81.5, rounded up) and no recommendation followed; the `environment` filter keeps only the first seeded recommendation |
| SleepData.CountCompleted | script.js:655 | the number of followed recommendations is the number of positions holding a completed recommendation; it is at most the number of recommendations, and equal to it exactly when all are completed |
| SleepData.CalculateUserStats | script.js:651-657 | days monitored is the number of sessions; the average score is undefined exactly when there are no sessions and otherwise is the mean score rounded to the nearest integer, halves up, as `Math.round` does; followed recommendations are exactly the completed ones, counted by position |
| SleepData.SumScoresBounds | script.js:654 | the `reduce` sum of n scores within [lo, hi] lies within [lo·n, hi·n] |
| SleepData.AverageScoreWithin | script.js:654 | the rounded mean score lies within the bounds of the individual scores |
| SleepData.AverageOfValidSessions | script.js:651-657 | when every stored session satisfies the invariant, the average score shown on the profile is in [64, 100] |
| MlModel.StageAt | script.js:68-73 | the stage is `awake` up to 0.1, `light` up to 0.5, `deep` up to 0.8 and `rem` above |
| MlModel.PredictSleepStage | script.js:68-73 | the classifier returns the stage of those bands for its draw, whatever sensors it is given |
| MlModel.DetectAnomalies | script.js:74-94 | at most two anomalies: `high_heart_rate`/high iff heart rate > 100, `excessive_movement`/medium iff movement is `high`, in that order, stamped `now`, without id or duration |
| MlModel.SensorReadingNeverHighHeartRate | script.js:77-84 | on a reading from in-range sensors the detector reports only `excessive_movement`, at most once |
| MlModel.GenerateRecommendations | script.js:95-108 | one high-priority `environment` entry iff efficiency < 80, none from 80 up |
| ProfileImage.CheckProfileImage | script.js:853-867 | a file is accepted iff present, its type starts with `image/` and its size is at most 5·1024·1024 bytes; each refusal names its first failing check |
| ProfileImage.RejectionMessage | script.js:858-866 | an `error` notification is shown for a wrong type or an oversized file, and none when no file was chosen |
| ProfileImage.SizeLimitBoundary | script.js:858-867 | exactly 5 MB is accepted, one byte more is refused, and the type check is made before the size check |
| App.Alerts | script.js:748-751 | one warning notification per anomaly, in order, carrying its message |
| App.SleepSynncc.constructor | script.js:3-32 | the state after the constructor and `loadUserData`: not monitoring, no open session, the seeded lists, the initial channels, `Valid()` |
| App.SleepSynncc.UpdateSensorData | script.js:412-447 | every channel is replaced by its step and nothing else in the state changes; `Valid()` is kept |
| App.SleepSynncc.StartSleepMonitoring | script.js:659-672 | monitoring is on and a fresh session with empty stages and samples is open; history, anomalies, recommendations and sensors are untouched |
| App.SleepSynncc.StopSleepMonitoring | script.js:674-697 | when idle nothing changes; when monitoring, monitoring is off, no session is open, and the open session (if any) is sealed and put at the front of the history, so the history grows by exactly one |
| App.SleepSynncc.ToggleSleepMode | script.js:809-815 | the monitoring flag flips; turning on opens a fresh session and keeps the history; turning off closes the session slot and seals the open session (if any) at the front of the history, keeping the history otherwise; the notice is that of the start or the stop |
| App.SleepSynncc.CollectDataPoint | script.js:729-753 | idle: no change; monitoring: exactly one sample (time, readings, drawn stage) is appended to the open session and nothing else in the state changes; at most one alert, raised exactly when movement is `high` |
| App.SleepSynncc.UpdateAnomalyDetection | script.js:578-595 | the detected anomalies are appended to `sleepData.anomalies`, at most one per call, with one notification each |
| App.StartThenStop | script.js:659-697 | start then stop adds one sealed session, with no samples, at the front of the history; its duration is the elapsed time and its stage shares add up to it |

## Left out

- DOM rendering, charts, navigation, modals and the notification banners are not modelled.
  This covers `showLoading`, `switchSection`, `updateDashboardMetrics`, `updateMonitoringDisplay`,
  `updateSensorsStatus`, the chart setup, `updateMonitoringStatus`, `showNotification` and the
  injected CSS. Notifications are returned as values instead.
- The `setInterval`/`setTimeout` scheduling is not modelled; one sensor step or one collection
  tick is one method call. Every `startSleepMonitoring` call starts another 30-second interval,
  so after repeated starts several ticks can run per period. That is a timer effect and is not
  captured. Cancelling the interval on an idle tick is likewise a timer effect.
- `Math.random()` and `new Date()` are parameters. The browser draws only for connected
  channels; the model passes one draw per channel and ignores it for a disconnected one.
- IEEE-754 arithmetic is not modelled; values are exact reals. In doubles 0.7 + 0.2 is
  0.8999999999999999, so a draw of exactly 0.9 yields movement `high` in the browser and `medium`
  here. Likewise `Math.random() * 20 + 80` rounds to exactly 100 in doubles for the largest draws
  below 1, so the efficiency bound `< 100` of `Valid()` holds over the reals only. The three stage
  shares of a session add up to its duration only up to floating-point rounding in the browser.
- One timestamp stands for every `new Date()` an operation makes. In the browser the data point
  and each anomaly of a tick, and the seeded session dates and the seeded anomaly of
  `loadUserData`, read the clock separately and can differ by a few milliseconds; the model
  stamps them all with the same `now`.
- WeightedChoice.WeightedRandomChoice: requires a non-empty item list and one weight per item,
  as at both call sites. The empty list (which returns `undefined`) and a short weight list
  (whose `NaN` sum fails every test) are not modelled.
- SleepData.SessionMetrics: the `if (!session) return` guard of `calculateSessionMetrics` is not
  modelled. Its only caller, `stopSleepMonitoring`, invokes it with a session open. The in-place
  field assignments are modelled as building the `Summary` that the stop stores.
- `exportData` (JSON serialisation, `Blob`, object URL, download click) is not modelled.
- The image preview, `FileReader`, `localStorage`, `confirmProfileImageChange` and
  `loadProfileImage` are not modelled; only the type/size check is.
- `updateConnectionStatus`, `updatePatternAnalysis`, `updateMLInsights`, `updateSleepStagesTimeline`,
  `generateLast7DaysLabels`, `updateCurrentTime` and the hours/minutes formatting are cosmetic or
  static and are not modelled.
- `filterRecommendations` and `updateRecommendationsDisplay` only log the filtered list. Their
  filter is `FilterRecommendationsByCategory`.
- `sleepData.patterns`, `currentSection`, `charts`, `notifications` and `pendingImageData` are not
  modelled: no core operation reads them.
- No code in `script.js` changes a recommendation's `completed` flag or a channel's `connected`
  flag. The model keeps both flags but has no operation for them.
