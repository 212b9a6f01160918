/** The consecutive-day journalling streak of `StreakTracker`: the days that have
    at least one journal entry are collected into a set, and the streak is the
    number of days, walking backward from today, that are all in the set. */
module Streak {
  import opened Records

  /** Outcome of the journal query: an error, or the rows it returned. */
  datatype Fetch = FetchError | Rows(entries: seq<JournalEntry>)

  /** The distinct calendar days on which the entries were written. */
  function LoggedDays(entries: seq<JournalEntry>): (days: set<int>)
    ensures forall i :: 0 <= i < |entries| ==> DayKey(entries[i].createdAt) in days
    ensures forall d :: d in days ==> exists i :: 0 <= i < |entries| && DayKey(entries[i].createdAt) == d
  {
    set i | 0 <= i < |entries| :: DayKey(entries[i].createdAt)
  }

  /** `n` is the streak ending at `today`: the `n` days `today - n + 1 .. today`
      are all logged and the day before them is not. */
  ghost predicate IsStreak(days: set<int>, today: int, n: nat) {
    && (forall d :: today - n < d <= today ==> d in days)
    && today - n !in days
  }

  /** At most one length is the streak. */
  lemma StreakUnique(days: set<int>, today: int, n: nat, m: nat)
    requires IsStreak(days, today, n) && IsStreak(days, today, m)
    ensures n == m
  {
  }

  /** The days of `days` that are not later than `day`; shrinks on each step back. */
  function UpTo(days: set<int>, day: int): set<int> {
    set d | d in days && d <= day
  }

  /** The streak ending at `day`, counted one day at a time as the source's loop does. */
  function RunFrom(days: set<int>, day: int): (n: nat)
    ensures IsStreak(days, day, n)
    decreases UpTo(days, day)
  {
    if day in days then
      assert day in UpTo(days, day) && day !in UpTo(days, day - 1);
      1 + RunFrom(days, day - 1)
    else
      0
  }

  /** The streak shown for a set of logged days. */
  function CurrentStreak(days: set<int>, today: int): (n: nat)
    ensures IsStreak(days, today, n)
    ensures n > 0 <==> today in days
  {
    RunFrom(days, today)
  }

  /** The `while (dates.has(day))` loop of `fetchStreak`: count and step back one
      day while the day is logged. */
  method CountStreak(days: set<int>, today: int) returns (count: nat)
    ensures IsStreak(days, today, count)
    ensures count == CurrentStreak(days, today)
  {
    count := 0;
    var day := today;
    while day in days
      invariant day == today - count
      invariant forall d :: day < d <= today ==> d in days
      decreases UpTo(days, day)
    {
      assert day in UpTo(days, day) && day !in UpTo(days, day - 1);
      count := count + 1;
      day := day - 1;
    }
    StreakUnique(days, today, count, CurrentStreak(days, today));
  }

  /** The displayed streak after a fetch. The component starts at 0 and only calls
      `setStreak` when the query succeeded with at least one row; otherwise the
      value already shown stays. */
  function FetchStreak(shown: nat, fetch: Fetch, today: int): (r: nat)
    ensures (fetch.FetchError? || |fetch.entries| == 0) ==> r == shown
    ensures fetch.Rows? && |fetch.entries| > 0 ==> IsStreak(LoggedDays(fetch.entries), today, r)
  {
    if fetch.Rows? && |fetch.entries| > 0 then CurrentStreak(LoggedDays(fetch.entries), today) else shown
  }

  /** The value the component shows before any fetch. */
  const InitialStreak: nat := 0

  /** Without entries the streak stays at its initial 0. */
  lemma NoEntriesNoStreak(fetch: Fetch, today: int)
    requires fetch.FetchError? || |fetch.entries| == 0
    ensures FetchStreak(InitialStreak, fetch, today) == 0
  {
  }

  /** The integers `lo .. hi - 1`. */
  function Interval(lo: int, hi: int): (s: set<int>)
    ensures forall d :: d in s <==> lo <= d < hi
    ensures |s| == if lo <= hi then hi - lo else 0
    decreases hi - lo
  {
    if hi <= lo then {} else Interval(lo, hi - 1) + {hi - 1}
  }

  /** The streak never exceeds the number of distinct logged days. */
  lemma StreakAtMostDays(days: set<int>, today: int)
    ensures CurrentStreak(days, today) <= |days|
  {
    var n := CurrentStreak(days, today);
    var w := Interval(today - n + 1, today + 1);
    assert w <= days;
    SubsetSize(w, days);
  }

  lemma SubsetSize(a: set<int>, b: set<int>)
    requires a <= b
    ensures |a| <= |b|
  {
    assert b == a + (b - a);
  }

  /** Logging on more days never shortens the streak. */
  lemma StreakMonotone(days: set<int>, more: set<int>, today: int)
    requires days <= more
    ensures CurrentStreak(days, today) <= CurrentStreak(more, today)
  {
  }

  /** Adding one journal entry never decreases the computed streak. */
  lemma AddEntryKeepsStreak(entries: seq<JournalEntry>, e: JournalEntry, today: int)
    ensures CurrentStreak(LoggedDays(entries), today) <= CurrentStreak(LoggedDays(entries + [e]), today)
  {
    var a, b := LoggedDays(entries), LoggedDays(entries + [e]);
    forall d | d in a ensures d in b {
      var i :| 0 <= i < |entries| && DayKey(entries[i].createdAt) == d;
      assert (entries + [e])[i] == entries[i];
    }
    StreakMonotone(a, b, today);
  }

  /** The logged days, hence the streak, do not depend on the order of the rows or
      on how many entries share a day. */
  lemma LoggedDaysSameElements(a: seq<JournalEntry>, b: seq<JournalEntry>)
    requires forall e :: e in a <==> e in b
    ensures LoggedDays(a) == LoggedDays(b)
  {
    forall d | d in LoggedDays(a) ensures d in LoggedDays(b) {
      var i :| 0 <= i < |a| && DayKey(a[i].createdAt) == d;
      assert a[i] in b;
      var j :| 0 <= j < |b| && b[j] == a[i];
    }
    forall d | d in LoggedDays(b) ensures d in LoggedDays(a) {
      var j :| 0 <= j < |b| && DayKey(b[j].createdAt) == d;
      assert b[j] in a;
      var i :| 0 <= i < |a| && a[i] == b[j];
    }
  }

  /** A second entry on an already logged day changes nothing. */
  lemma SameDayCountsOnce(entries: seq<JournalEntry>, e: JournalEntry)
    requires exists i :: 0 <= i < |entries| && DayKey(entries[i].createdAt) == DayKey(e.createdAt)
    ensures LoggedDays(entries + [e]) == LoggedDays(entries)
  {
    var a, b := LoggedDays(entries), LoggedDays(entries + [e]);
    forall d | d in b ensures d in a {
      var i :| 0 <= i < |entries + [e]| && DayKey((entries + [e])[i].createdAt) == d;
      if i < |entries| {
        assert (entries + [e])[i] == entries[i];
      }
    }
    forall d | d in a ensures d in b {
      var i :| 0 <= i < |entries| && DayKey(entries[i].createdAt) == d;
      assert (entries + [e])[i] == entries[i];
    }
  }

  /** Entries today and yesterday, none before: a streak of 2. */
  lemma TwoDayExample(today: int)
    ensures CurrentStreak({today, today - 1}, today) == 2
  {
    assert IsStreak({today, today - 1}, today, 2);
    StreakUnique({today, today - 1}, today, 2, CurrentStreak({today, today - 1}, today));
  }

  /** Entries today and two days ago: the gap yesterday stops the streak at 1. */
  lemma GapExample(today: int)
    ensures CurrentStreak({today, today - 2}, today) == 1
  {
    assert IsStreak({today, today - 2}, today, 1);
    StreakUnique({today, today - 2}, today, 1, CurrentStreak({today, today - 2}, today));
  }
}
