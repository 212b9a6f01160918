/** The daily goals of the Wellness Tracker dashboard
    (`wellnesstracker/src/healthQuestDash.js`): four goals with a target and a
    progress, a log modal with a numeric input, and the progress bars. */
module GoalLog {
  import opened Wrappers
  import opened JsText

  /** One goal: what is wanted and how much has been logged. */
  datatype Goal = Goal(target: real, progress: real)

  /** The log modal: whether it is open, the category it was opened for (the
      button's label, `Activity`, `Sleep`, ...) and the text typed so far. */
  datatype LogModal = LogModal(open: bool, kind: Option<string>, value: string)

  datatype TrackerState = TrackerState(goals: map<string, Goal>, modal: LogModal)

  const InitialGoals: map<string, Goal> := map[
    "activity" := Goal(30.0, 0.0),
    "sleep" := Goal(8.0, 0.0),
    "nutrition" := Goal(2000.0, 0.0),
    "mood" := Goal(1.0, 0.0)]

  const ClosedModal: LogModal := LogModal(false, None, "")

  const InitialState: TrackerState := TrackerState(InitialGoals, ClosedModal)

  /** The labels of the four "Log ..." buttons of the tracker tab. */
  const TrackerKinds: seq<string> := ["Activity", "Sleep", "Nutrition", "Mood"]

  /** Every goal has a positive target and no negative progress. */
  ghost predicate GoalsValid(goals: map<string, Goal>) {
    forall k :: k in goals ==> goals[k].target > 0.0 && goals[k].progress >= 0.0
  }

  /** `openLogModal(type)`. */
  function OpenLogModal(s: TrackerState, kind: string): (s': TrackerState)
    ensures s'.modal == LogModal(true, Some(kind), "")
    ensures s'.goals == s.goals
  {
    s.(modal := LogModal(true, Some(kind), ""))
  }

  /** `closeLogModal()`, also the Cancel button. */
  function CloseLogModal(s: TrackerState): (s': TrackerState)
    ensures !s'.modal.open && s'.modal.value == ""
    ensures s'.modal == ClosedModal && s'.modal.kind.None?
    ensures s'.goals == s.goals
  {
    s.(modal := ClosedModal)
  }

  /** Typing into the number input. */
  function EditValue(s: TrackerState, value: string): (s': TrackerState)
    ensures s'.modal.value == value
    ensures s'.modal.open == s.modal.open && s'.modal.kind == s.modal.kind && s'.goals == s.goals
  {
    s.(modal := s.modal.(value := value))
  }

  /** `parseFloat(logModal.value || 0)`: an empty input reads as 0; `None` is `NaN`. */
  function LoggedAmount(value: string): (amount: Option<real>)
    ensures value == "" ==> amount == Some(0.0)
  {
    if value == "" then ParseNatString(0); ParseFloat(NatString(0)) else ParseFloat(value)
  }

  /** `logModal.type.toLowerCase()`: the goal a category logs to. */
  function GoalKey(kind: string): string {
    ToLower(kind)
  }

  /** The Log button, which is only on screen while the modal is open. A positive
      amount for a category that has a goal is added to that goal's progress;
      anything else leaves the goals alone. The modal closes either way. */
  function SubmitLog(s: TrackerState): (s': TrackerState)
    requires s.modal.open && s.modal.kind.Some?
    ensures s'.modal == ClosedModal
    ensures s'.goals.Keys == s.goals.Keys
    ensures forall k :: k in s.goals ==> s'.goals[k].target == s.goals[k].target
    ensures forall k :: k in s.goals ==> s'.goals[k].progress >= s.goals[k].progress
    ensures forall k :: k in s.goals && k != GoalKey(s.modal.kind.value) ==> s'.goals[k] == s.goals[k]
    ensures var amount, key := LoggedAmount(s.modal.value), GoalKey(s.modal.kind.value);
      if amount.Some? && amount.value > 0.0 && key in s.goals
      then s'.goals[key].progress == s.goals[key].progress + amount.value
      else s'.goals == s.goals
  {
    var amount := LoggedAmount(s.modal.value);
    var key := GoalKey(s.modal.kind.value);
    if amount.Some? && amount.value > 0.0 && key in s.goals then
      var g := s.goals[key];
      TrackerState(s.goals[key := g.(progress := g.progress + amount.value)], ClosedModal)
    else
      TrackerState(s.goals, ClosedModal)
  }

  /** An empty input, a non-positive amount or an unparseable one changes no goal. */
  lemma NonPositiveLogChangesNothing(s: TrackerState)
    requires s.modal.open && s.modal.kind.Some?
    requires s.modal.value == "" || ParseFloat(s.modal.value).None? || ParseFloat(s.modal.value).value <= 0.0
    ensures SubmitLog(s).goals == s.goals
  {
  }

  /** Logging a whole number of units adds exactly that many to the goal. */
  lemma LogWholeAmount(s: TrackerState, n: nat)
    requires s.modal.open && s.modal.kind.Some? && s.modal.value == NatString(n)
    requires n > 0 && GoalKey(s.modal.kind.value) in s.goals
    ensures var key := GoalKey(s.modal.kind.value);
      SubmitLog(s).goals[key].progress == s.goals[key].progress + n as real
  {
    ParseNatString(n);
  }

  /** Each of the four "Log ..." buttons reaches its own goal. */
  lemma TrackerKindHasGoal(i: nat)
    requires i < |TrackerKinds|
    ensures GoalKey(TrackerKinds[i]) in InitialGoals
  {
    if i == 0 {
      KindKey("Activity", "activity");
    } else if i == 1 {
      KindKey("Sleep", "sleep");
    } else if i == 2 {
      KindKey("Nutrition", "nutrition");
    } else {
      KindKey("Mood", "mood");
    }
  }

  lemma KindKey(kind: string, key: string)
    requires |kind| > 0 && 'A' <= kind[0] <= 'Z'
    requires forall i :: 1 <= i < |kind| ==> !('A' <= kind[i] <= 'Z')
    requires key == [(kind[0] as int + 32) as char] + kind[1..]
    ensures GoalKey(kind) == key
  {
    ToLowerCapitalised(kind);
  }

  /** The goals start valid and every event keeps them valid. */
  lemma EventsKeepGoalsValid(s: TrackerState, kind: string, value: string)
    requires GoalsValid(s.goals)
    ensures GoalsValid(InitialGoals)
    ensures GoalsValid(OpenLogModal(s, kind).goals)
    ensures GoalsValid(CloseLogModal(s).goals)
    ensures GoalsValid(EditValue(s, value).goals)
    ensures s.modal.open && s.modal.kind.Some? ==> GoalsValid(SubmitLog(s).goals)
  {
  }

  /** The width of a goal's bar, in percent: `Math.min(100, progress / target * 100)`. */
  function BarWidth(g: Goal): (width: real)
    requires g.target > 0.0
    ensures width <= 100.0
    ensures width == 100.0 <==> g.progress >= g.target
    ensures g.progress >= 0.0 ==> width >= 0.0
    ensures g.progress < g.target ==> width * g.target == g.progress * 100.0
  {
    var raw := g.progress / g.target * 100.0;
    RawWidthAgainstFull(g.progress, g.target);
    if 100.0 <= raw then 100.0 else raw
  }

  /** More progress never shrinks the bar. */
  lemma BarWidthMonotone(g: Goal, more: real)
    requires g.target > 0.0 && more >= 0.0
    ensures BarWidth(g) <= BarWidth(g.(progress := g.progress + more))
  {
    var h := g.(progress := g.progress + more);
    if h.progress < h.target {
      var a, b := BarWidth(g), BarWidth(h);
      assert (b - a) * g.target == more * 100.0;
      FactorOfNonNegative(b - a, g.target);
    }
  }

  /** The unclamped width reaches 100 exactly when the progress reaches the target. */
  lemma RawWidthAgainstFull(progress: real, target: real)
    requires target > 0.0
    ensures progress >= target ==> progress / target * 100.0 >= 100.0
    ensures progress < target ==> progress / target * 100.0 < 100.0
  {
    var raw := progress / target * 100.0;
    assert (raw - 100.0) * target == (progress - target) * 100.0;
    if progress >= target {
      FactorOfNonNegative(raw - 100.0, target);
    } else {
      FactorOfPositive(100.0 - raw, target);
    }
  }

  lemma FactorOfNonNegative(x: real, t: real)
    requires t > 0.0 && x * t >= 0.0
    ensures x >= 0.0
  {
  }

  lemma FactorOfPositive(x: real, t: real)
    requires t > 0.0 && x * t > 0.0
    ensures x > 0.0
  {
  }
}
