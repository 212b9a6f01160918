/** The rows the dashboards read from the hosted store, after the query has
    returned. The query itself (table, columns, the `user_id` equality filter
    applied on the server) is not part of this model. */
module Records {
  import opened Wrappers
  import opened Sums

  /** A point in time as the dashboards see it: the local calendar day it falls on,
      and the time within that day. Day keys are consecutive integers, so the day
      before `d` is `d - 1`. */
  datatype Timestamp = Timestamp(day: int, secondOfDay: nat)

  /** A row of `journal_entries`: owner, creation time and the mood symbol chosen. */
  datatype JournalEntry = JournalEntry(userId: string, createdAt: Timestamp, mood: string)

  /** A row of `exercise_logs`: owner, the day it is dated, and an optional duration
      in whole minutes (a missing or zero duration both read as 0). */
  datatype ExerciseLog = ExerciseLog(userId: string, date: int, duration: Option<int>)

  /** The calendar day of a timestamp; the time of day is dropped. */
  function DayKey(t: Timestamp): int {
    t.day
  }

  /** `log.duration || 0`. */
  function Minutes(log: ExerciseLog): int {
    log.duration.GetOr(0)
  }

  /** Sum of the minutes of `logs`, folded left to right as `reduce` does. */
  function TotalMinutes(logs: seq<ExerciseLog>): int {
    Sum(logs, Minutes)
  }
}
