/** The "Weekly Trends" chart of `DashboardOverview`: seven day buckets from six
    days ago to today, each holding the minutes exercised that day and the
    running mean of the day's mood scores. */
module Trend {
  import opened Wrappers
  import opened Sums
  import opened Records

  /** `moodMap`: the five mood symbols and their scores 1 (crying) to 5 (smiling). */
  const MoodMap: map<string, nat> := map[
    "\U{1F622}" := 1, "\U{1F615}" := 2, "\U{1F610}" := 3, "\U{1F642}" := 4, "\U{1F60A}" := 5]

  /** `moodMap[symbol] || 0`: an unknown symbol scores 0. */
  function MoodScore(symbol: string): (score: nat)
    ensures score <= 5
    ensures score == 0 <==> symbol !in MoodMap
  {
    if symbol in MoodMap then MoodMap[symbol] else 0
  }

  /** One element of `trendData`. The source also stores the weekday name; the
      bucket keeps the day key it was built for instead. */
  datatype Bucket = Bucket(day: int, mood: Option<real>, exercise: int, count: nat)

  /** The number of buckets in the window. */
  const WindowDays: nat := 7

  /** The bucket as first built: no mood yet, no minutes, no samples. */
  function EmptyBucket(day: int): Bucket {
    Bucket(day, None, 0, 0)
  }

  // ---------------------------------------------------------------------------
  // The running-mean reducer

  /** One fold step of the mood mean: `((mood || 0) * count + score) / (count + 1)`. */
  function MeanStep(mean: Option<real>, count: nat, score: nat): real {
    (mean.GetOr(0.0) * count as real + score as real) / (count as real + 1.0)
  }

  /** The mean the fold produces for `scores` taken in the given order. */
  function RunningMean(scores: seq<nat>): Option<real>
    decreases |scores|
  {
    if |scores| == 0 then None
    else
      var init := scores[..|scores| - 1];
      Some(MeanStep(RunningMean(init), |init|, scores[|scores| - 1]))
  }

  function NatValue(x: nat): int {
    x
  }

  /** The arithmetic mean, absent for no scores. */
  function Average(scores: seq<nat>): Option<real> {
    if |scores| == 0 then None else Some(Sum(scores, NatValue) as real / |scores| as real)
  }

  /** One step of the incremental formula turns the mean of `count` values with
      sum `total` into the mean of `count + 1` values with sum `total + score`. */
  lemma IncrementalMean(total: int, count: nat, score: nat)
    requires count == 0 ==> total == 0
    ensures MeanStep(if count == 0 then None else Some(total as real / count as real), count, score)
         == (total + score) as real / (count + 1) as real
  {
    if count > 0 {
      var c := count as real;
      assert total as real / c * c == total as real;
    }
  }

  /** The running mean is exactly the arithmetic mean. */
  lemma {:induction false} RunningMeanIsAverage(scores: seq<nat>)
    ensures RunningMean(scores) == Average(scores)
    decreases |scores|
  {
    if |scores| > 0 {
      var init := scores[..|scores| - 1];
      RunningMeanIsAverage(init);
      IncrementalMean(Sum(init, NatValue), |init|, scores[|scores| - 1]);
    }
  }

  /** The running mean does not depend on the order the scores are folded in. */
  lemma RunningMeanOrderIndependent(a: seq<nat>, b: seq<nat>)
    requires multiset(a) == multiset(b)
    ensures RunningMean(a) == RunningMean(b)
  {
    RunningMeanIsAverage(a);
    RunningMeanIsAverage(b);
    SumPermutation(a, b, NatValue);
    assert |a| == |multiset(a)| == |multiset(b)| == |b|;
  }

  // ---------------------------------------------------------------------------
  // Per-day totals

  /** A log's minutes if it is dated `day`, else 0. */
  function DayMinutes(day: int): ExerciseLog -> int {
    (log: ExerciseLog) => if log.date == day then Minutes(log) else 0
  }

  /** An entry's mood score if it was written on `day`, else 0. */
  function DayScore(day: int): JournalEntry -> int {
    (e: JournalEntry) => if DayKey(e.createdAt) == day then MoodScore(e.mood) as int else 0
  }

  /** 1 for an entry written on `day`, else 0. */
  function DayOne(day: int): JournalEntry -> int {
    (e: JournalEntry) => if DayKey(e.createdAt) == day then 1 else 0
  }

  /** Minutes of the logs dated `day`, a missing duration counting 0. */
  function ExerciseOn(logs: seq<ExerciseLog>, day: int): int {
    Sum(logs, DayMinutes(day))
  }

  /** Sum of the mood scores of the entries written on `day`. */
  function MoodTotalOn(entries: seq<JournalEntry>, day: int): int {
    Sum(entries, DayScore(day))
  }

  /** Number of entries written on `day`. */
  function CountOn(entries: seq<JournalEntry>, day: int): nat {
    SumNonNegative(entries, DayOne(day));
    Sum(entries, DayOne(day))
  }

  /** The mean mood of the entries written on `day`, absent when there are none. */
  function MeanOn(entries: seq<JournalEntry>, day: int): Option<real> {
    var c := CountOn(entries, day);
    if c == 0 then None else Some(MoodTotalOn(entries, day) as real / c as real)
  }

  /** What a bucket holds once every log and entry has been folded in. */
  function DayBucket(day: int, logs: seq<ExerciseLog>, entries: seq<JournalEntry>): Bucket {
    Bucket(day, MeanOn(entries, day), ExerciseOn(logs, day), CountOn(entries, day))
  }

  /** The trend as a whole: seven buckets for today - 6 .. today. A failed query
      (`data` null) contributes nothing. */
  function WeeklyTrend(today: int, exercise: Option<seq<ExerciseLog>>, moods: Option<seq<JournalEntry>>): seq<Bucket> {
    seq(WindowDays, k => DayBucket(today - 6 + k, exercise.GetOr([]), moods.GetOr([])))
  }

  /** The bucket at position `k` is the one for day `today - 6 + k`. */
  lemma TrendAt(today: int, exercise: Option<seq<ExerciseLog>>, moods: Option<seq<JournalEntry>>, k: nat)
    requires k < WindowDays
    ensures |WeeklyTrend(today, exercise, moods)| == WindowDays
    ensures WeeklyTrend(today, exercise, moods)[k] == DayBucket(today - 6 + k, exercise.GetOr([]), moods.GetOr([]))
  {
  }

  /** Folding one more log into a bucket. */
  lemma ExerciseStep(day: int, logs: seq<ExerciseLog>, log: ExerciseLog, entries: seq<JournalEntry>)
    ensures DayBucket(day, logs + [log], entries)
         == if log.date == day then DayBucket(day, logs, entries).(exercise := ExerciseOn(logs, day) + Minutes(log))
            else DayBucket(day, logs, entries)
  {
    assert (logs + [log])[..|logs|] == logs;
  }

  /** Folding one more mood entry into a bucket follows the incremental formula. */
  lemma MoodStep(day: int, logs: seq<ExerciseLog>, entries: seq<JournalEntry>, e: JournalEntry)
    ensures DayBucket(day, logs, entries + [e])
         == if DayKey(e.createdAt) == day then
              var b := DayBucket(day, logs, entries);
              b.(mood := Some(MeanStep(b.mood, b.count, MoodScore(e.mood))), count := b.count + 1)
            else DayBucket(day, logs, entries)
  {
    assert (entries + [e])[..|entries|] == entries;
    var c := CountOn(entries, day);
    if c == 0 {
      SumOfZeros(entries, DayScore(day)) by {
        forall i | 0 <= i < |entries| ensures DayScore(day)(entries[i]) == 0 {
          if DayKey(entries[i].createdAt) == day {
            SumAtLeastShare(entries, DayOne(day), i);
          }
        }
      }
    }
    IncrementalMean(MoodTotalOn(entries, day), c, MoodScore(e.mood));
  }

  /** `fetchTrendData` after its two queries: build the seven buckets, add every
      exercise log's minutes to the bucket of its date, then fold every journal
      entry's score into the running mean of its day's bucket. Rows dated outside
      the window find no bucket and are skipped. */
  method FetchTrend(today: int, exercise: Option<seq<ExerciseLog>>, moods: Option<seq<JournalEntry>>)
    returns (buckets: seq<Bucket>)
    ensures |buckets| == WindowDays
    ensures forall k :: 0 <= k < |buckets| ==> buckets[k].day == today - 6 + k
    ensures buckets == WeeklyTrend(today, exercise, moods)
  {
    buckets := [];
    var i := 6;
    while i >= 0
      invariant -1 <= i <= 6
      invariant |buckets| == 6 - i
      invariant forall k :: 0 <= k < |buckets| ==> buckets[k] == EmptyBucket(today - 6 + k)
    {
      buckets := buckets + [EmptyBucket(today - i)];
      i := i - 1;
    }
    assert forall k :: 0 <= k < 7 ==> buckets[k] == DayBucket(today - 6 + k, [], []);

    var logs := exercise.GetOr([]);
    var j := 0;
    while j < |logs|
      invariant 0 <= j <= |logs|
      invariant |buckets| == 7
      invariant forall k :: 0 <= k < 7 ==> buckets[k] == DayBucket(today - 6 + k, logs[..j], [])
    {
      var log := logs[j];
      assert logs[..j + 1] == logs[..j] + [log];
      forall d | today - 6 <= d <= today {
        ExerciseStep(d, logs[..j], log, []);
      }
      var slot := log.date - (today - 6);
      if 0 <= slot < 7 {
        buckets := buckets[slot := buckets[slot].(exercise := buckets[slot].exercise + Minutes(log))];
      }
      j := j + 1;
    }
    assert logs[..|logs|] == logs;

    var entries := moods.GetOr([]);
    j := 0;
    while j < |entries|
      invariant 0 <= j <= |entries|
      invariant |buckets| == 7
      invariant forall k :: 0 <= k < 7 ==> buckets[k] == DayBucket(today - 6 + k, logs, entries[..j])
    {
      var e := entries[j];
      assert entries[..j + 1] == entries[..j] + [e];
      forall d | today - 6 <= d <= today {
        MoodStep(d, logs, entries[..j], e);
      }
      var slot := DayKey(e.createdAt) - (today - 6);
      if 0 <= slot < 7 {
        var b := buckets[slot];
        buckets := buckets[slot := b.(mood := Some(MeanStep(b.mood, b.count, MoodScore(e.mood))), count := b.count + 1)];
      }
      j := j + 1;
    }
    assert entries[..|entries|] == entries;
  }

  // ---------------------------------------------------------------------------
  // Properties of the weekly trend

  /** The trend does not depend on the order the store returns rows in. */
  lemma TrendOrderIndependent(today: int, logs1: seq<ExerciseLog>, logs2: seq<ExerciseLog>,
                              entries1: seq<JournalEntry>, entries2: seq<JournalEntry>)
    requires multiset(logs1) == multiset(logs2)
    requires multiset(entries1) == multiset(entries2)
    ensures WeeklyTrend(today, Some(logs1), Some(entries1)) == WeeklyTrend(today, Some(logs2), Some(entries2))
  {
    forall d | today - 6 <= d <= today
      ensures DayBucket(d, logs1, entries1) == DayBucket(d, logs2, entries2)
    {
      SumPermutation(logs1, logs2, DayMinutes(d));
      SumPermutation(entries1, entries2, DayScore(d));
      SumPermutation(entries1, entries2, DayOne(d));
    }
    forall k | 0 <= k < WindowDays
      ensures WeeklyTrend(today, Some(logs1), Some(entries1))[k] == WeeklyTrend(today, Some(logs2), Some(entries2))[k]
    {
      TrendAt(today, Some(logs1), Some(entries1), k);
      TrendAt(today, Some(logs2), Some(entries2), k);
    }
  }

  /** A log dated outside the window changes nothing. */
  lemma LogOutsideWindowIgnored(today: int, logs: seq<ExerciseLog>, log: ExerciseLog, moods: Option<seq<JournalEntry>>)
    requires log.date < today - 6 || today < log.date
    ensures WeeklyTrend(today, Some(logs + [log]), moods) == WeeklyTrend(today, Some(logs), moods)
  {
    forall d | today - 6 <= d <= today
      ensures DayBucket(d, logs + [log], moods.GetOr([])) == DayBucket(d, logs, moods.GetOr([]))
    {
      ExerciseStep(d, logs, log, moods.GetOr([]));
    }
    forall k | 0 <= k < WindowDays
      ensures WeeklyTrend(today, Some(logs + [log]), moods)[k] == WeeklyTrend(today, Some(logs), moods)[k]
    {
      TrendAt(today, Some(logs + [log]), moods, k);
      TrendAt(today, Some(logs), moods, k);
    }
  }

  /** A journal entry written outside the window changes nothing. */
  lemma EntryOutsideWindowIgnored(today: int, exercise: Option<seq<ExerciseLog>>, entries: seq<JournalEntry>, e: JournalEntry)
    requires DayKey(e.createdAt) < today - 6 || today < DayKey(e.createdAt)
    ensures WeeklyTrend(today, exercise, Some(entries + [e])) == WeeklyTrend(today, exercise, Some(entries))
  {
    forall d | today - 6 <= d <= today
      ensures DayBucket(d, exercise.GetOr([]), entries + [e]) == DayBucket(d, exercise.GetOr([]), entries)
    {
      MoodStep(d, exercise.GetOr([]), entries, e);
    }
    forall k | 0 <= k < WindowDays
      ensures WeeklyTrend(today, exercise, Some(entries + [e]))[k] == WeeklyTrend(today, exercise, Some(entries))[k]
    {
      TrendAt(today, exercise, Some(entries + [e]), k);
      TrendAt(today, exercise, Some(entries), k);
    }
  }

  /** An entry with a symbol outside `moodMap` scores 0 but still enters the
      denominator of its day's mean. */
  lemma UnknownSymbolCounted(entries: seq<JournalEntry>, e: JournalEntry)
    requires e.mood !in MoodMap
    ensures CountOn(entries + [e], DayKey(e.createdAt)) == CountOn(entries, DayKey(e.createdAt)) + 1
    ensures MoodTotalOn(entries + [e], DayKey(e.createdAt)) == MoodTotalOn(entries, DayKey(e.createdAt))
  {
    assert (entries + [e])[..|entries|] == entries;
  }

  /** No entries on a day: the count is 0. An entry on the day: the count is positive. */
  lemma CountZeroIffNoEntries(entries: seq<JournalEntry>, day: int)
    ensures CountOn(entries, day) == 0 <==> forall i :: 0 <= i < |entries| ==> DayKey(entries[i].createdAt) != day
  {
    if forall i :: 0 <= i < |entries| ==> DayKey(entries[i].createdAt) != day {
      SumOfZeros(entries, DayOne(day));
    } else {
      var i :| 0 <= i < |entries| && DayKey(entries[i].createdAt) == day;
      SumAtLeastShare(entries, DayOne(day), i);
    }
  }

  /** A bucket's mood is absent exactly when no journal entry falls on its day;
      a day with only unknown symbols reports 0, not absent. */
  lemma MoodAbsentIffNoEntries(today: int, exercise: Option<seq<ExerciseLog>>, entries: seq<JournalEntry>, k: nat)
    requires k < WindowDays
    ensures var b := WeeklyTrend(today, exercise, Some(entries))[k];
      && (b.mood.None? <==> b.count == 0)
      && (b.mood.None? <==> forall i :: 0 <= i < |entries| ==> DayKey(entries[i].createdAt) != b.day)
  {
    TrendAt(today, exercise, Some(entries), k);
    CountZeroIffNoEntries(entries, today - 6 + k);
  }

  /** The scores of a day's entries sum to at most 5 per entry. */
  lemma {:induction false} MoodTotalBounded(entries: seq<JournalEntry>, day: int)
    ensures 0 <= MoodTotalOn(entries, day) <= 5 * CountOn(entries, day)
    decreases |entries|
  {
    if |entries| > 0 {
      var init := entries[..|entries| - 1];
      MoodTotalBounded(init, day);
    }
  }

  /** Every mood average shown lies between 0 and 5. */
  lemma MoodAverageInRange(today: int, exercise: Option<seq<ExerciseLog>>, moods: Option<seq<JournalEntry>>, k: nat)
    requires k < WindowDays
    ensures var b := WeeklyTrend(today, exercise, moods)[k];
      b.mood.Some? ==> 0.0 <= b.mood.value <= 5.0
  {
    var entries, day := moods.GetOr([]), today - 6 + k;
    TrendAt(today, exercise, moods, k);
    MoodTotalBounded(entries, day);
    var c := CountOn(entries, day);
    if c > 0 {
      var t := MoodTotalOn(entries, day) as real;
      assert t <= 5.0 * c as real;
      assert t / c as real <= 5.0 * c as real / c as real;
    }
  }

  /** The scores of the entries written on `day`, in input order. */
  function DayScores(entries: seq<JournalEntry>, day: int): seq<nat>
    decreases |entries|
  {
    if |entries| == 0 then []
    else
      var init, e := entries[..|entries| - 1], entries[|entries| - 1];
      if DayKey(e.createdAt) == day then DayScores(init, day) + [MoodScore(e.mood)] else DayScores(init, day)
  }

  /** The day's score list has one score per entry of the day and the day's total. */
  lemma {:induction false} DayScoresTotals(entries: seq<JournalEntry>, day: int)
    ensures |DayScores(entries, day)| == CountOn(entries, day)
    ensures Sum(DayScores(entries, day), NatValue) == MoodTotalOn(entries, day)
    decreases |entries|
  {
    if |entries| > 0 {
      var init, e := entries[..|entries| - 1], entries[|entries| - 1];
      DayScoresTotals(init, day);
      var s := DayScores(init, day);
      if DayKey(e.createdAt) == day {
        assert (s + [MoodScore(e.mood)])[..|s|] == s;
      }
    }
  }

  /** Each bucket's mood is the running mean of that day's scores, so the same
      whatever order those entries were folded in. */
  lemma BucketMoodIsRunningMean(today: int, exercise: Option<seq<ExerciseLog>>, entries: seq<JournalEntry>, k: nat)
    requires k < WindowDays
    ensures var b := WeeklyTrend(today, exercise, Some(entries))[k];
      b.mood == RunningMean(DayScores(entries, b.day)) && b.mood == Average(DayScores(entries, b.day))
  {
    var day := today - 6 + k;
    TrendAt(today, exercise, Some(entries), k);
    DayScoresTotals(entries, day);
    RunningMeanIsAverage(DayScores(entries, day));
  }

  /** Two entries today, smiling (5) and neutral (3): today's mean is 4 over 2 samples. */
  lemma TwoMoodsExample(today: int, user: string)
    ensures WeeklyTrend(today, None, Some([
        JournalEntry(user, Timestamp(today, 0), "\U{1F60A}"),
        JournalEntry(user, Timestamp(today, 60), "\U{1F610}")]))[6]
      == Bucket(today, Some(4.0), 0, 2)
  {
    var es := [JournalEntry(user, Timestamp(today, 0), "\U{1F60A}"), JournalEntry(user, Timestamp(today, 60), "\U{1F610}")];
    TrendAt(today, None, Some(es), 6);
    assert es[..1][..0] == [];
    assert es[..1] == [es[0]];
    assert DayScore(today)(es[0]) == 5 && DayScore(today)(es[1]) == 3;
    assert DayOne(today)(es[0]) == 1 && DayOne(today)(es[1]) == 1;
    assert Sum(es[..1], DayScore(today)) == 5;
    assert Sum(es[..1], DayOne(today)) == 1;
    assert MoodTotalOn(es, today) == 8;
    assert CountOn(es, today) == 2;
  }

  /** Two logs yesterday, 30 and 20 minutes: yesterday's bucket shows 50. */
  lemma YesterdayExerciseExample(today: int, user: string)
    ensures WeeklyTrend(today, Some([
        ExerciseLog(user, today - 1, Some(30)), ExerciseLog(user, today - 1, Some(20))]), None)[5].exercise
      == 50
  {
    var ls := [ExerciseLog(user, today - 1, Some(30)), ExerciseLog(user, today - 1, Some(20))];
    TrendAt(today, Some(ls), None, 5);
    assert ls[..1][..0] == [];
    assert ls[..1] == [ls[0]];
    assert DayMinutes(today - 1)(ls[0]) == 30 && DayMinutes(today - 1)(ls[1]) == 20;
    assert Sum(ls[..1], DayMinutes(today - 1)) == 30;
  }
}
