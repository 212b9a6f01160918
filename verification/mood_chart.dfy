/** The bar chart of `MoodAnalyticsChart`: the journal rows are filtered to the
    signed-in user, then counted per mood value into `{mood, count}` rows. */
module MoodChart {
  import opened Wrappers
  import opened Records

  /** One bar of the chart. */
  datatype MoodTally = MoodTally(mood: string, count: nat)

  /** `data.filter(e => e.user_id === userId)`: the rows of that user, in order. */
  function ForUser(entries: seq<JournalEntry>, userId: string): (mine: seq<JournalEntry>)
    ensures forall e :: e in mine <==> e in entries && e.userId == userId
    ensures forall i :: 0 <= i < |mine| ==> mine[i].userId == userId
    ensures |mine| <= |entries|
    decreases |entries|
  {
    if |entries| == 0 then []
    else
      var init, e := entries[..|entries| - 1], entries[|entries| - 1];
      assert entries == init + [e];
      if e.userId == userId then ForUser(init, userId) + [e] else ForUser(init, userId)
  }

  /** The mood values of the entries, in order. */
  function Moods(entries: seq<JournalEntry>): (moods: seq<string>)
    ensures |moods| == |entries|
    ensures forall i :: 0 <= i < |entries| ==> moods[i] == entries[i].mood
    decreases |entries|
  {
    if |entries| == 0 then [] else Moods(entries[..|entries| - 1]) + [entries[|entries| - 1].mood]
  }

  /** The mood values that have a bar. */
  function Bars(tallies: seq<MoodTally>): (moods: seq<string>)
    ensures |moods| == |tallies|
    ensures forall i :: 0 <= i < |tallies| ==> moods[i] == tallies[i].mood
    decreases |tallies|
  {
    if |tallies| == 0 then [] else [tallies[0].mood] + Bars(tallies[1..])
  }

  /** No mood has two bars. */
  ghost predicate DistinctBars(tallies: seq<MoodTally>) {
    forall i, j :: 0 <= i < j < |tallies| ==> tallies[i].mood != tallies[j].mood
  }

  /** The count recorded for `mood`, or 0 when it has no bar (`acc[mood] || 0`). */
  function CountOf(tallies: seq<MoodTally>, mood: string): nat
    decreases |tallies|
  {
    if |tallies| == 0 then 0
    else if tallies[0].mood == mood then tallies[0].count
    else CountOf(tallies[1..], mood)
  }

  /** Sum of the bar heights. */
  function TallySum(tallies: seq<MoodTally>): nat
    decreases |tallies|
  {
    if |tallies| == 0 then 0 else tallies[0].count + TallySum(tallies[1..])
  }

  /** With distinct bars, `CountOf` reads the bar of that mood. */
  lemma {:induction false} CountOfBar(tallies: seq<MoodTally>, i: nat)
    requires DistinctBars(tallies) && i < |tallies|
    ensures CountOf(tallies, tallies[i].mood) == tallies[i].count
    decreases |tallies|
  {
    if i > 0 {
      assert tallies[1..][i - 1] == tallies[i];
      CountOfBar(tallies[1..], i - 1);
    }
  }

  /** A mood without a bar has count 0. */
  lemma {:induction false} CountOfMissing(tallies: seq<MoodTally>, mood: string)
    requires mood !in Bars(tallies)
    ensures CountOf(tallies, mood) == 0
    decreases |tallies|
  {
    if |tallies| > 0 {
      assert Bars(tallies) == [tallies[0].mood] + Bars(tallies[1..]);
      CountOfMissing(tallies[1..], mood);
    }
  }

  /** One `reduce` step: `acc[mood] = (acc[mood] || 0) + 1`. An existing bar grows
      by one; a new mood gets a bar of 1 after the existing ones. */
  function Tally(acc: seq<MoodTally>, mood: string): (r: seq<MoodTally>)
    requires DistinctBars(acc)
    requires forall i :: 0 <= i < |acc| ==> acc[i].count >= 1
    ensures DistinctBars(r)
    ensures forall i :: 0 <= i < |r| ==> r[i].count >= 1
    ensures forall x :: CountOf(r, x) == CountOf(acc, x) + (if x == mood then 1 else 0)
    ensures forall x :: x in Bars(r) <==> x in Bars(acc) || x == mood
    ensures TallySum(r) == TallySum(acc) + 1
    decreases |acc|
  {
    if |acc| == 0 then [MoodTally(mood, 1)]
    else if acc[0].mood == mood then [acc[0].(count := acc[0].count + 1)] + acc[1..]
    else
      var rest := Tally(acc[1..], mood);
      assert Bars([acc[0]] + rest) == [acc[0].mood] + Bars(rest);
      assert Bars(acc) == [acc[0].mood] + Bars(acc[1..]);
      assert acc[0].mood !in Bars(acc[1..]) by {
        forall k | 0 <= k < |acc| - 1 ensures Bars(acc[1..])[k] != acc[0].mood {
          assert Bars(acc[1..])[k] == acc[k + 1].mood;
        }
      }
      assert acc[0].mood !in Bars(rest);
      assert forall j :: 0 <= j < |rest| ==> rest[j].mood != acc[0].mood by {
        forall j | 0 <= j < |rest| ensures rest[j].mood != acc[0].mood {
          assert Bars(rest)[j] == rest[j].mood;
        }
      }
      [acc[0]] + rest
  }

  /** The whole `reduce` over `entries`, from the empty object. */
  function CountMoods(entries: seq<JournalEntry>): (r: seq<MoodTally>)
    ensures DistinctBars(r)
    ensures forall i :: 0 <= i < |r| ==> r[i].count >= 1
    ensures forall x :: CountOf(r, x) == multiset(Moods(entries))[x]
    ensures forall x :: x in Bars(r) <==> x in Moods(entries)
    ensures TallySum(r) == |entries|
    decreases |entries|
  {
    if |entries| == 0 then []
    else
      var init, e := entries[..|entries| - 1], entries[|entries| - 1];
      assert Moods(entries) == Moods(init) + [e.mood];
      Tally(CountMoods(init), e.mood)
  }

  /** A mood occurs among the user's rows exactly when some row of that user carries it. */
  lemma MoodOfUser(entries: seq<JournalEntry>, userId: string, x: string)
    ensures x in Moods(ForUser(entries, userId)) <==> exists e :: e in entries && e.userId == userId && e.mood == x
  {
    var mine := ForUser(entries, userId);
    if x in Moods(mine) {
      var i :| 0 <= i < |mine| && Moods(mine)[i] == x;
      assert mine[i] in mine;
    }
    if exists e :: e in entries && e.userId == userId && e.mood == x {
      var e :| e in entries && e.userId == userId && e.mood == x;
      assert e in mine;
      var i :| 0 <= i < |mine| && mine[i] == e;
      assert Moods(mine)[i] == x;
    }
  }

  /** `fetchMoodCounts` after its query: the user's rows counted per mood. */
  function MoodCounts(entries: seq<JournalEntry>, userId: string): (chart: seq<MoodTally>)
    ensures DistinctBars(chart)
    ensures forall i :: 0 <= i < |chart| ==> chart[i].count >= 1
    ensures forall i :: 0 <= i < |chart| ==> chart[i].count == multiset(Moods(ForUser(entries, userId)))[chart[i].mood]
    ensures forall x :: CountOf(chart, x) == multiset(Moods(ForUser(entries, userId)))[x]
    ensures forall x :: x in Bars(chart) <==> x in Moods(ForUser(entries, userId))
    ensures TallySum(chart) == |ForUser(entries, userId)|
  {
    var mine := ForUser(entries, userId);
    var chart := CountMoods(mine);
    forall i | 0 <= i < |chart|
      ensures chart[i].count == multiset(Moods(mine))[chart[i].mood]
    {
      CountOfBar(chart, i);
    }
    chart
  }

  /** Each mood of the user's rows has exactly one bar, whose height is the number
      of the user's rows with that mood; moods of no row of the user have none. */
  lemma BarsAreUserMoods(entries: seq<JournalEntry>, userId: string, x: string)
    ensures x in Bars(MoodCounts(entries, userId)) <==> exists e :: e in entries && e.userId == userId && e.mood == x
    ensures CountOf(MoodCounts(entries, userId), x) == multiset(Moods(ForUser(entries, userId)))[x]
  {
    MoodOfUser(entries, userId, x);
  }

  /** The chart shown after a fetch: unchanged when the query failed. */
  function FetchMoodCounts(shown: seq<MoodTally>, data: Option<seq<JournalEntry>>, userId: string): (chart: seq<MoodTally>)
    ensures data.None? ==> chart == shown
    ensures data.Some? ==> DistinctBars(chart)
    ensures data.Some? ==> forall i :: 0 <= i < |chart| ==> chart[i].count >= 1
    ensures data.Some? ==> forall x :: CountOf(chart, x) == multiset(Moods(ForUser(data.value, userId)))[x]
    ensures data.Some? ==> forall x :: x in Bars(chart) <==> x in Moods(ForUser(data.value, userId))
    ensures data.Some? ==> TallySum(chart) == |ForUser(data.value, userId)|
  {
    match data
    case None => shown
    case Some(entries) => MoodCounts(entries, userId)
  }

  /** Rows of other users change nothing. */
  lemma OtherUsersIgnored(entries: seq<JournalEntry>, e: JournalEntry, userId: string)
    requires e.userId != userId
    ensures MoodCounts(entries + [e], userId) == MoodCounts(entries, userId)
  {
    assert (entries + [e])[..|entries|] == entries;
  }
}
