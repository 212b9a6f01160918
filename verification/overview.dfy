/** The totals, goal rings and achievement badges of `DashboardOverview`. */
module Overview {
  import opened Wrappers
  import opened Sums
  import opened Records
  import Trend
  import MoodChart

  /** `fetchExerciseTotal`: the sum of the fetched durations, a missing duration
      counting 0, and 0 when the query returned no data. */
  function ExerciseTotal(data: Option<seq<ExerciseLog>>): (total: int)
    ensures data.None? ==> total == 0
    ensures data.Some? ==> total == TotalMinutes(data.value)
    ensures data.Some? && |data.value| == 0 ==> total == 0
  {
    match data
    case None => 0
    case Some(logs) => TotalMinutes(logs)
  }

  /** `fetchMoodCount`: the number of journal rows, 0 when the query returned no data. */
  function MoodCount(data: Option<seq<JournalEntry>>): (count: nat)
    ensures data.None? ==> count == 0
    ensures data.Some? ==> count == |data.value|
  {
    match data
    case None => 0
    case Some(entries) => |entries|
  }

  /** Both dashboards count the signed-in user's journal rows: the overview's
      check-in total equals the height of all the mood chart's bars together. */
  lemma MoodCountIsChartTotal(rows: seq<JournalEntry>, userId: string)
    ensures MoodCount(Some(MoodChart.ForUser(rows, userId))) == MoodChart.TallySum(MoodChart.MoodCounts(rows, userId))
  {
  }

  /** 1 for an entry written inside the seven-day window ending `today`, else 0. */
  function WindowOne(today: int): JournalEntry -> int {
    (e: JournalEntry) => if today - 6 <= DayKey(e.createdAt) <= today then 1 else 0
  }

  /** The number of mood samples a trend bucket averages. */
  function Samples(b: Trend.Bucket): int {
    b.count
  }

  /** The entry counts of the seven trend buckets, term by term. */
  function WeekCount(entries: seq<JournalEntry>, today: int): int {
    Trend.CountOn(entries, today - 6) + Trend.CountOn(entries, today - 5) + Trend.CountOn(entries, today - 4)
    + Trend.CountOn(entries, today - 3) + Trend.CountOn(entries, today - 2) + Trend.CountOn(entries, today - 1)
    + Trend.CountOn(entries, today)
  }

  lemma {:induction false} WeekCountByEntries(entries: seq<JournalEntry>, today: int)
    ensures WeekCount(entries, today) == Sum(entries, WindowOne(today))
    decreases |entries|
  {
    if |entries| > 0 {
      WeekCountByEntries(entries[..|entries| - 1], today);
    }
  }

  /** Every entry inside the window is counted in exactly one bucket: the trend's
      sample counts add up to the number of entries dated inside the window. */
  lemma WeekCountIsWindowSum(entries: seq<JournalEntry>, today: int)
    ensures Sum(Trend.WeeklyTrend(today, None, Some(entries)), Samples) == Sum(entries, WindowOne(today))
  {
    var week := Trend.WeeklyTrend(today, None, Some(entries));
    forall k | 0 <= k < 7 {
      Trend.TrendAt(today, None, Some(entries), k);
    }
    SumOfSeven(week, Samples);
    WeekCountByEntries(entries, today);
  }

  /** The week's mood samples never outnumber the check-ins counted by
      `fetchMoodCount` over the same rows, and equal them when every row falls in
      the window. */
  lemma WeekSamplesAtMostMoodCount(entries: seq<JournalEntry>, today: int)
    ensures Sum(Trend.WeeklyTrend(today, None, Some(entries)), Samples) <= MoodCount(Some(entries))
    ensures (forall i :: 0 <= i < |entries| ==> today - 6 <= DayKey(entries[i].createdAt) <= today) ==>
      Sum(Trend.WeeklyTrend(today, None, Some(entries)), Samples) == MoodCount(Some(entries))
  {
    WeekCountIsWindowSum(entries, today);
    SumBounds(entries, WindowOne(today), 1);
    if forall i :: 0 <= i < |entries| ==> today - 6 <= DayKey(entries[i].createdAt) <= today {
      AllOnes(entries, WindowOne(today));
    }
  }

  /** The sleep score the component starts with; nothing in it ever changes it. */
  const InitialSleepScore: int := 72

  /** The three figures the badges and rings are computed from. */
  datatype Totals = Totals(exerciseTotal: int, moodCount: nat, sleepScore: int)

  /** The achievement badges, in the order `fetchAchievements` tests them. */
  datatype Badge = Exercise150 | TenMoodLogs | GoodSleep | BeastMode | EmotionExplorer | MoodMaster

  /** Which figure a badge is about. */
  datatype Metric = ExerciseMinutes | MoodLogs | Sleep

  /** The position of each badge's test in `fetchAchievements`. */
  function TableIndex(b: Badge): nat {
    match b
    case Exercise150 => 0
    case TenMoodLogs => 1
    case GoodSleep => 2
    case BeastMode => 3
    case EmotionExplorer => 4
    case MoodMaster => 5
  }

  function MetricOf(b: Badge): Metric {
    match b
    case Exercise150 => ExerciseMinutes
    case TenMoodLogs => MoodLogs
    case GoodSleep => Sleep
    case BeastMode => ExerciseMinutes
    case EmotionExplorer => MoodLogs
    case MoodMaster => MoodLogs
  }

  function Threshold(b: Badge): int {
    match b
    case Exercise150 => 150
    case TenMoodLogs => 10
    case GoodSleep => 70
    case BeastMode => 300
    case EmotionExplorer => 25
    case MoodMaster => 50
  }

  function Figure(t: Totals, m: Metric): int {
    match m
    case ExerciseMinutes => t.exerciseTotal
    case MoodLogs => t.moodCount
    case Sleep => t.sleepScore
  }

  /** A badge is earned when its figure reaches its threshold. */
  predicate Earned(b: Badge, t: Totals) {
    Figure(t, MetricOf(b)) >= Threshold(b)
  }

  /** The text pushed for each badge. */
  function Label(b: Badge): string {
    match b
    case Exercise150 => "\U{1F3C3} 150+ min Exercise"
    case TenMoodLogs => "\U{1F60A} 10 Mood Logs"
    case GoodSleep => "\U{1F634} Good Sleep"
    case BeastMode => "\U{1F4AA} 300+ min Beast Mode"
    case EmotionExplorer => "\U{1F9E0} Emotion Explorer"
    case MoodMaster => "\U{1F9D8} Mood Master"
  }

  /** Different badges read differently. */
  lemma LabelsDistinct(a: Badge, b: Badge)
    requires a != b
    ensures Label(a) != Label(b)
  {
    assert Label(a)[2] != Label(b)[2] || Label(a)[0] != Label(b)[0] || |Label(a)| != |Label(b)|;
  }

  /** `fetchAchievements`: the six threshold tests, each pushing its badge. */
  function Achievements(t: Totals): (earned: seq<Badge>)
    ensures forall b :: b in earned <==> Earned(b, t)
    ensures forall i, j :: 0 <= i < j < |earned| ==> TableIndex(earned[i]) < TableIndex(earned[j])
  {
    var e0: seq<Badge> := [];
    var e1 := if t.exerciseTotal >= 150 then e0 + [Exercise150] else e0;
    var e2 := if t.moodCount >= 10 then e1 + [TenMoodLogs] else e1;
    var e3 := if t.sleepScore >= 70 then e2 + [GoodSleep] else e2;
    var e4 := if t.exerciseTotal >= 300 then e3 + [BeastMode] else e3;
    var e5 := if t.moodCount >= 25 then e4 + [EmotionExplorer] else e4;
    if t.moodCount >= 50 then e5 + [MoodMaster] else e5
  }

  /** No label is shared by two badges. */
  lemma LabelsInjective()
    ensures forall a, b :: Label(a) == Label(b) ==> a == b
  {
    forall a, b | a != b ensures Label(a) != Label(b) {
      LabelsDistinct(a, b);
    }
  }

  /** The labels shown, in the same order: each earned badge's label once, and
      no label of a badge not earned. */
  function AchievementLabels(t: Totals): (labels: seq<string>)
    ensures |labels| == |Achievements(t)|
    ensures forall i :: 0 <= i < |labels| ==> labels[i] == Label(Achievements(t)[i])
    ensures forall b :: Label(b) in labels <==> Earned(b, t)
    ensures forall i, j :: 0 <= i < j < |labels| ==> labels[i] != labels[j]
  {
    var earned := Achievements(t);
    LabelsInjective();
    var labels := seq(|earned|, i requires 0 <= i < |earned| => Label(earned[i]));
    assert forall b :: Label(b) in labels ==> b in earned by {
      forall b | Label(b) in labels ensures b in earned {
        var i :| 0 <= i < |labels| && labels[i] == Label(b);
        assert earned[i] == b;
      }
    }
    assert forall b :: b in earned ==> Label(b) in labels by {
      forall b | b in earned ensures Label(b) in labels {
        var i :| 0 <= i < |earned| && earned[i] == b;
        assert labels[i] == Label(b);
      }
    }
    labels
  }

  /** The higher tiers imply the lower ones. */
  lemma TierImplications(t: Totals)
    ensures BeastMode in Achievements(t) ==> Exercise150 in Achievements(t)
    ensures MoodMaster in Achievements(t) ==> EmotionExplorer in Achievements(t)
    ensures EmotionExplorer in Achievements(t) ==> TenMoodLogs in Achievements(t)
  {
  }

  /** Larger totals never lose a badge. */
  lemma AchievementsMonotone(t: Totals, u: Totals)
    requires t.exerciseTotal <= u.exerciseTotal && t.moodCount <= u.moodCount && t.sleepScore <= u.sleepScore
    ensures forall b :: b in Achievements(t) ==> b in Achievements(u)
  {
  }

  /** With the sleep score the component starts with, Good Sleep is always earned. */
  lemma InitialSleepEarnsBadge(exerciseTotal: int, moodCount: nat)
    ensures GoodSleep in Achievements(Totals(exerciseTotal, moodCount, InitialSleepScore))
  {
  }

  /** The exercise ring's raw value: percent of the 150-minute goal. */
  function ExerciseGoalValue(total: int): real {
    total as real / 150.0 * 100.0
  }

  /** The mood ring's raw value: percent of 10 check-ins. */
  function MoodGoalValue(count: nat): real {
    count as real / 10.0 * 100.0
  }

  /** `Math.min(goal.value, 100)`: what the ring shows. */
  function RingValue(value: real): (shown: real)
    ensures shown <= 100.0
    ensures shown <= value
    ensures shown == value || shown == 100.0
  {
    if value <= 100.0 then value else 100.0
  }

  /** The exercise ring is full exactly when the 150-minute badge is earned. */
  lemma ExerciseRingFullIffBadge(t: Totals)
    ensures RingValue(ExerciseGoalValue(t.exerciseTotal)) == 100.0 <==> Exercise150 in Achievements(t)
  {
  }

  /** The mood ring is full exactly when the 10-log badge is earned. */
  lemma MoodRingFullIffBadge(t: Totals)
    ensures RingValue(MoodGoalValue(t.moodCount)) == 100.0 <==> TenMoodLogs in Achievements(t)
  {
  }

  /** The minutes of the logs dated inside the seven-day window ending `today`. */
  function WindowMinutes(today: int): ExerciseLog -> int {
    (log: ExerciseLog) => if today - 6 <= log.date <= today then Minutes(log) else 0
  }

  /** The exercise minutes of a trend bucket. */
  function BucketMinutes(b: Trend.Bucket): int {
    b.exercise
  }

  /** The minutes of the seven trend buckets, term by term. */
  function WeekMinutes(logs: seq<ExerciseLog>, today: int): int {
    Trend.ExerciseOn(logs, today - 6) + Trend.ExerciseOn(logs, today - 5) + Trend.ExerciseOn(logs, today - 4)
    + Trend.ExerciseOn(logs, today - 3) + Trend.ExerciseOn(logs, today - 2) + Trend.ExerciseOn(logs, today - 1)
    + Trend.ExerciseOn(logs, today)
  }

  lemma {:induction false} WeekMinutesByLogs(logs: seq<ExerciseLog>, today: int)
    ensures WeekMinutes(logs, today) == Sum(logs, WindowMinutes(today))
    decreases |logs|
  {
    if |logs| > 0 {
      WeekMinutesByLogs(logs[..|logs| - 1], today);
    }
  }

  /** Every log inside the window lands in exactly one bucket: the trend's minutes
      add up to the minutes of the logs dated inside the window. */
  lemma WeekMinutesIsWindowSum(logs: seq<ExerciseLog>, today: int)
    ensures Sum(Trend.WeeklyTrend(today, Some(logs), None), BucketMinutes) == Sum(logs, WindowMinutes(today))
  {
    var week := Trend.WeeklyTrend(today, Some(logs), None);
    forall k | 0 <= k < 7 {
      Trend.TrendAt(today, Some(logs), None, k);
    }
    SumOfSeven(week, BucketMinutes);
    WeekMinutesByLogs(logs, today);
  }

  /** With no negative durations, the week's buckets add up to at most the
      all-time exercise total shown on the same dashboard. */
  lemma WeekExerciseAtMostTotal(logs: seq<ExerciseLog>, today: int)
    requires forall i :: 0 <= i < |logs| ==> Minutes(logs[i]) >= 0
    ensures Sum(Trend.WeeklyTrend(today, Some(logs), None), BucketMinutes) <= ExerciseTotal(Some(logs))
  {
    WeekMinutesIsWindowSum(logs, today);
    SumMonotone(logs, WindowMinutes(today), Minutes);
  }
}
