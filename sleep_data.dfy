/**
 * The records held in `this.sleepData` (script.js:6-12): sessions, the data
 * points collected into an open session, anomalies and recommendations,
 * together with the pure computations over them: the metrics a session gets
 * when it is sealed (script.js:699-709), the category filter
 * (script.js:630-633) and the profile statistics (script.js:651-657).
 */
module SleepData {
  import opened Wrappers
  import Sensors

  /** A sleep stage label: 'awake', 'light', 'deep', 'rem'. */
  datatype Stage = Awake | Light | Deep | Rem

  /** An anomaly's severity: 'low', 'medium', 'high'. */
  datatype Severity = LowSeverity | MediumSeverity | HighSeverity

  /** A recommendation's priority: 'low', 'medium', 'high'. */
  datatype Priority = LowPriority | MediumPriority | HighPriority

  datatype AnomalyType = HighHeartRate | ExcessiveMovement | ProlongedAwakening

  /** An anomaly; only the seeded one carries an `id` and a `duration`. */
  datatype Anomaly = Anomaly(
    id: Option<nat>,
    kind: AnomalyType,
    severity: Severity,
    message: string,
    timestamp: int,
    duration: Option<nat>)

  /** A stored recommendation; `completed` is the only field that is meant to change. */
  datatype Recommendation = Recommendation(
    id: nat,
    category: string,
    priority: Priority,
    title: string,
    description: string,
    impact: string,
    completed: bool)

  /** One sample pushed onto an open session's `metrics` (script.js:735-742). */
  datatype DataPoint = DataPoint(timestamp: int, reading: Sensors.Reading, stage: Stage)

  /** `sleepData.currentSession` while monitoring (script.js:661-665). */
  datatype OpenSession = OpenSession(startTime: int, stages: seq<Stage>, metrics: seq<DataPoint>)

  /** The derived figures every stored session carries; times are in hours. */
  datatype Summary = Summary(
    duration: real,
    efficiency: real,
    deepSleep: real,
    remSleep: real,
    lightSleep: real,
    score: int)

  /**
   * A session in `sleepData.sessions`: one of the two `loadUserData` seeds
   * (with an `id` and a `date`), or one sealed by `stopSleepMonitoring`,
   * which keeps its start and end time, its samples and no `id`.
   */
  datatype Session =
    | Seeded(id: nat, date: int, summary: Summary)
    | Sealed(startTime: int, endTime: int, stages: seq<Stage>, metrics: seq<DataPoint>, summary: Summary)

  /** `Math.round`: the nearest integer, halves rounded up. */
  function Round(x: real): (n: int)
    ensures n as real <= x + 0.5 < n as real + 1.0
  {
    (x + 0.5).Floor
  }

  /** A draw `Math.random()` can return. */
  predicate InUnit(r: real)
  {
    0.0 <= r < 1.0
  }

  /** What every stored session satisfies: its three stage shares add up to its
      duration, its efficiency is in [80, 100) and its score in [64, 100]. */
  predicate SummaryValid(m: Summary)
  {
    && m.deepSleep + m.remSleep + m.lightSleep == m.duration
    && 80.0 <= m.efficiency < 100.0
    && 64 <= m.score <= 100
  }

  /**
   * `calculateSessionMetrics` for a session of `duration` hours and the two
   * draws it takes, first for the efficiency and then for the score.
   */
  function SessionMetrics(duration: real, r1: real, r2: real): (m: Summary)
    ensures m.duration == duration
    ensures m.deepSleep == 0.3 * duration && m.remSleep == 0.2 * duration && m.lightSleep == 0.5 * duration
    ensures m.deepSleep + m.remSleep + m.lightSleep == duration
    ensures InUnit(r1) ==> 80.0 <= m.efficiency < 100.0
    ensures InUnit(r1) && InUnit(r2) ==> 64 <= m.score <= 100
    ensures InUnit(r1) && InUnit(r2) ==> SummaryValid(m)
  {
    var efficiency := r1 * 20.0 + 80.0;
    Summary(duration, efficiency, duration * 0.3, duration * 0.2, duration * 0.5,
            Round(efficiency * 0.8 + r2 * 20.0))
  }

  /** Milliseconds as hours: `/ (1000 * 60 * 60)`. */
  function Hours(ms: int): (h: real)
    ensures h * 3600000.0 == ms as real
  {
    ms as real / 3600000.0
  }

  /** The session `stopSleepMonitoring` stores for `open`, ended at `endTime`. */
  function Seal(open: OpenSession, endTime: int, r1: real, r2: real): (s: Session)
    ensures s.Sealed? && s.startTime == open.startTime && s.endTime == endTime
    ensures s.stages == open.stages && s.metrics == open.metrics
    ensures s.summary.duration * 3600000.0 == (endTime - open.startTime) as real
    ensures InUnit(r1) && InUnit(r2) ==> SummaryValid(s.summary)
  {
    Sealed(open.startTime, endTime, open.stages, open.metrics,
           SessionMetrics(Hours(endTime - open.startTime), r1, r2))
  }

  // ---------------------------------------------------------------------------
  // The data `loadUserData` installs (script.js:126-179), given `Date.now()`.

  const DayMs: int := 86400000

  function SeededSessions(now: int): (ss: seq<Session>)
    ensures |ss| == 2
    ensures forall s :: s in ss ==> s.Seeded? && SummaryValid(s.summary)
  {
    [Seeded(1, now - DayMs, Summary(7.5, 92.0, 2.2, 1.8, 3.5, 85)),
     Seeded(2, now - 2 * DayMs, Summary(8.1, 88.0, 2.5, 2.0, 3.6, 78))]
  }

  function SeededAnomalies(now: int): seq<Anomaly>
  {
    [Anomaly(Some(1), ProlongedAwakening, HighSeverity, "Despertar noturno prolongado detectado",
             now - 2 * DayMs, Some(45))]
  }

  const SeededRecommendations: seq<Recommendation> := [
    Recommendation(1, "environment", HighPriority, "Reduzir Temperatura do Quarto",
                   "Sua temperatura corporal está elevada durante o sono", "+15 pontos no score", false),
    Recommendation(2, "lifestyle", MediumPriority, "Evitar Telas 1h Antes de Dormir",
                   "O uso de dispositivos está afetando sua qualidade de sono", "+8 pontos no score", false)]

  // ---------------------------------------------------------------------------
  // filterRecommendationsByCategory (script.js:630-633)

  /** `a` is `b` with some elements left out, in the same order. */
  ghost predicate IsSubsequence<T>(a: seq<T>, b: seq<T>)
    decreases |b|
  {
    a == [] || (b != [] && (IsSubsequence(a, b[1..]) || (a[0] == b[0] && IsSubsequence(a[1..], b[1..]))))
  }

  /** `recommendations.filter(rec => rec.category === category)`. */
  function Matching(rs: seq<Recommendation>, category: string): (r: seq<Recommendation>)
    ensures |r| <= |rs|
    ensures forall x :: x in r <==> x in rs && x.category == category
  {
    if rs == [] then []
    else if rs[0].category == category then [rs[0]] + Matching(rs[1..], category)
    else Matching(rs[1..], category)
  }

  function FilterRecommendationsByCategory(rs: seq<Recommendation>, category: string): (r: seq<Recommendation>)
    ensures category == "all" ==> r == rs
    ensures category != "all" ==> forall x :: x in r <==> x in rs && x.category == category
    ensures |r| <= |rs|
  {
    if category == "all" then rs else Matching(rs, category)
  }

  /** The filter keeps the order of the recommendations it keeps. */
  lemma {:induction false} MatchingIsSubsequence(rs: seq<Recommendation>, category: string)
    ensures IsSubsequence(Matching(rs, category), rs)
  {
    if rs != [] {
      MatchingIsSubsequence(rs[1..], category);
      if rs[0].category != category {
        assert Matching(rs, category) == Matching(rs[1..], category);
      } else {
        var m := Matching(rs, category);
        assert m[0] == rs[0] && m[1..] == Matching(rs[1..], category);
      }
    }
  }

  /** The filter keeps every matching recommendation as often as it occurs and no other. */
  lemma {:induction false} MatchingCounts(rs: seq<Recommendation>, category: string, x: Recommendation)
    ensures multiset(Matching(rs, category))[x] == if x.category == category then multiset(rs)[x] else 0
  {
    if rs != [] {
      MatchingCounts(rs[1..], category, x);
      assert rs == [rs[0]] + rs[1..];
    }
  }

  /** Any category but 'all' yields exactly the order-preserving matching sub-list. */
  lemma FilterIsOrderedSelection(rs: seq<Recommendation>, category: string)
    ensures IsSubsequence(FilterRecommendationsByCategory(rs, category), rs)
    ensures category != "all" ==>
      (forall x :: multiset(FilterRecommendationsByCategory(rs, category))[x]
         == if x.category == category then multiset(rs)[x] else 0)
  {
    if category == "all" {
      SubsequenceReflexive(rs);
    } else {
      MatchingIsSubsequence(rs, category);
      forall x ensures multiset(Matching(rs, category))[x] == if x.category == category then multiset(rs)[x] else 0 {
        MatchingCounts(rs, category, x);
      }
    }
  }

  lemma {:induction false} SubsequenceReflexive<T>(s: seq<T>)
    ensures IsSubsequence(s, s)
  {
    if s != [] {
      SubsequenceReflexive(s[1..]);
    }
  }

  // ---------------------------------------------------------------------------
  // calculateUserStats (script.js:651-657)

  /** `averageScore` is `None` where JavaScript divides by zero and gets `NaN`. */
  datatype UserStats = UserStats(daysMonitored: nat, averageScore: Option<int>, recommendationsFollowed: nat)

  /** `sessions.reduce((sum, session) => sum + session.score, 0)`. */
  function SumScores(ss: seq<Session>): int
  {
    if ss == [] then 0 else SumScores(ss[..|ss| - 1]) + ss[|ss| - 1].summary.score
  }

  /** The positions of the completed recommendations. */
  ghost function CompletedAt(rs: seq<Recommendation>): set<int>
  {
    set i | 0 <= i < |rs| && rs[i].completed
  }

  /** `recommendations.filter(rec => rec.completed).length`. */
  function CountCompleted(rs: seq<Recommendation>): (n: nat)
    ensures n == |CompletedAt(rs)|
    ensures n <= |rs|
    ensures n == |rs| <==> forall x :: x in rs ==> x.completed
  {
    if rs == [] then 0
    else
      var init, last := rs[..|rs| - 1], rs[|rs| - 1];
      assert CompletedAt(rs) == CompletedAt(init) + if last.completed then {|rs| - 1} else {};
      assert forall x :: x in rs ==> x in init || x == last;
      CountCompleted(init) + if last.completed then 1 else 0
  }

  function CalculateUserStats(sessions: seq<Session>, recommendations: seq<Recommendation>): (u: UserStats)
    ensures u.daysMonitored == |sessions|
    ensures u.averageScore.None? <==> sessions == []
    ensures sessions != [] ==>
      var mean := SumScores(sessions) as real / |sessions| as real;
      u.averageScore.value as real <= mean + 0.5 < u.averageScore.value as real + 1.0
    ensures u.recommendationsFollowed == |CompletedAt(recommendations)| <= |recommendations|
  {
    UserStats(
      |sessions|,
      if sessions == [] then None else Some(Round(SumScores(sessions) as real / |sessions| as real)),
      CountCompleted(recommendations))
  }

  lemma {:induction false} SumScoresBounds(ss: seq<Session>, lo: int, hi: int)
    requires forall s :: s in ss ==> lo <= s.summary.score <= hi
    ensures lo * |ss| <= SumScores(ss) <= hi * |ss|
  {
    if ss != [] {
      var init := ss[..|ss| - 1];
      assert forall s :: s in init ==> s in ss;
      SumScoresBounds(init, lo, hi);
      assert ss[|ss| - 1] in ss;
      var n := |init|;
      assert lo * (n + 1) == lo * n + lo;
      assert hi * (n + 1) == hi * n + hi;
    }
  }

  /** The rounded mean score lies within the bounds of the individual scores. */
  lemma AverageScoreWithin(sessions: seq<Session>, recommendations: seq<Recommendation>, lo: int, hi: int)
    requires sessions != []
    requires forall s :: s in sessions ==> lo <= s.summary.score <= hi
    ensures var avg := CalculateUserStats(sessions, recommendations).averageScore.value;
      lo <= avg <= hi
  {
    var n := |sessions| as real;
    var sum := SumScores(sessions) as real;
    SumScoresBounds(sessions, lo, hi);
    assert lo as real * n <= sum <= hi as real * n;
    MeanWithin(sum, n, lo as real, hi as real);
  }

  lemma MeanWithin(sum: real, n: real, lo: real, hi: real)
    requires n > 0.0 && lo * n <= sum <= hi * n
    ensures lo <= sum / n <= hi
  {
  }

  /**
   * What the profile shows right after `loadUserData`: two days monitored, an
   * average of 82 (the mean 81.5 of 85 and 78, rounded up), no recommendation
   * followed yet; and the 'environment' filter keeps the first recommendation only.
   */
  lemma SeededProfile(now: int)
    ensures CalculateUserStats(SeededSessions(now), SeededRecommendations) == UserStats(2, Some(82), 0)
    ensures FilterRecommendationsByCategory(SeededRecommendations, "environment") == [SeededRecommendations[0]]
  {
    var ss := SeededSessions(now);
    assert SumScores(ss[..1]) == 85;
    assert SumScores(ss) == 163;
    assert CompletedAt(SeededRecommendations) == {};
    assert SeededRecommendations[1].category != "environment";
  }

  /** Every stored session scores in [64, 100], so the average does too. */
  lemma AverageOfValidSessions(sessions: seq<Session>, recommendations: seq<Recommendation>)
    requires sessions != []
    requires forall s :: s in sessions ==> SummaryValid(s.summary)
    ensures var avg := CalculateUserStats(sessions, recommendations).averageScore.value;
      64 <= avg <= 100
  {
    AverageScoreWithin(sessions, recommendations, 64, 100);
  }
}
