/** The activity log of the Health Quest dashboard (`src/healthQuestDash.js`):
    the draft form, the list of recent activities, the weekly mindfulness
    challenge and the legend of the trends chart, as immutable snapshots with
    one function per event handler. */
module QuestDash {
  import opened Wrappers
  import opened JsText

  /** An activity: the shape of the draft being composed and of every entry of the
      recent list (an entry is the draft spread into a new object). Category
      specific fields other than the mood's (duration, meal, calories, sleep) are
      not part of this model. */
  datatype Activity = Activity(
    kind: string,
    description: string,
    time: string,
    points: int,
    entryType: Option<string>,
    moodEmoji: Option<string>,
    moodLevel: Option<int>,
    moodText: string)

  /** The weekly mindfulness challenge: sessions logged and sessions wanted. */
  datatype Challenge = Challenge(mindfulness: int, target: int)

  /** The component's state that the handlers below read and write. */
  datatype DashState = DashState(
    activities: seq<Activity>,
    challenge: Challenge,
    draft: Activity,
    modalOpen: bool,
    visibleLines: map<string, bool>)

  /** The draft the form is reset to after a log or a cancel. */
  const DefaultDraft: Activity := Activity("Activity", "", "", 0, None, None, None, "")

  /** `recentActivities`, the list the dashboard starts with. */
  const RecentActivities: seq<Activity> := [
    Activity("Activity", "Morning walk - 30 minutes", "8:30 AM", 15, None, None, None, ""),
    Activity("Nutrition", "Balanced breakfast", "9:15 AM", 10, None, None, None, ""),
    Activity("Mood", "Feeling positive - logged mood", "12:00 PM", 5, None, None, None, ""),
    Activity("Sleep", "Logged 7.5 hours of sleep", "Yesterday", 10, None, None, None, "")]

  const InitialState: DashState := DashState(
    RecentActivities, Challenge(2, 3), DefaultDraft, false,
    map["mood" := true, "sleep" := true, "activity" := true])

  // ---------------------------------------------------------------------------
  // Logging an activity

  /** The challenge never records more sessions than it asks for. */
  predicate ChallengeValid(c: Challenge) {
    c.mindfulness <= c.target
  }

  function Min(a: int, b: int): int {
    if a <= b then a else b
  }

  /** `mindfulness: Math.min(prev.mindfulness + 1, prev.target)`. */
  function Bump(c: Challenge): (c': Challenge)
    ensures c'.target == c.target
    ensures c.mindfulness < c.target ==> c'.mindfulness == c.mindfulness + 1
    ensures c.mindfulness >= c.target ==> c'.mindfulness == c.target
  {
    c.(mindfulness := Min(c.mindfulness + 1, c.target))
  }

  /** The entry added to the list: the draft, with the clock's time when it has no
      time and `roll + 5` points when it has none (`Math.floor(Math.random() * 10)`
      is the `roll`). */
  function Stamp(draft: Activity, clock: string, roll: nat): (entry: Activity)
    requires roll < 10
    ensures entry.(time := draft.time, points := draft.points) == draft
    ensures draft.time != "" ==> entry.time == draft.time
    ensures draft.time == "" ==> entry.time == clock
    ensures draft.points != 0 ==> entry.points == draft.points
    ensures draft.points == 0 ==> 5 <= entry.points <= 14
  {
    draft.(time := if draft.time != "" then draft.time else clock,
           points := if draft.points != 0 then draft.points else roll + 5)
  }

  /** `handleLogActivity`. A blank description (empty or only whitespace) leaves
      everything as it was. Otherwise the stamped draft goes to the head of the
      list, a Mindfulness entry bumps the challenge, the draft is reset and the
      modal closed. */
  function LogActivity(s: DashState, clock: string, roll: nat): (s': DashState)
    requires roll < 10
    ensures Blank(s.draft.description) ==> s' == s
    ensures !Blank(s.draft.description) ==>
      && |s'.activities| == |s.activities| + 1
      && s'.activities[0] == Stamp(s.draft, clock, roll)
      && s'.activities[1..] == s.activities
      && s'.draft == DefaultDraft
      && !s'.modalOpen
      && s'.visibleLines == s.visibleLines
      && s'.challenge.target == s.challenge.target
      && (s.draft.kind != "Mindfulness" ==> s'.challenge == s.challenge)
      && (s.draft.kind == "Mindfulness" ==> s'.challenge == Bump(s.challenge))
  {
    TrimEmptyIffBlank(s.draft.description);
    if s.draft.description == "" || Trim(s.draft.description) == "" then s
    else
      var entry := Stamp(s.draft, clock, roll);
      var challenge := if entry.kind == "Mindfulness" then Bump(s.challenge) else s.challenge;
      s.(activities := [entry] + s.activities, challenge := challenge, draft := DefaultDraft, modalOpen := false)
  }

  /** The initial challenge is valid, and logging keeps it valid and never lowers it. */
  lemma LogKeepsChallengeValid(s: DashState, clock: string, roll: nat)
    requires roll < 10
    requires ChallengeValid(s.challenge)
    ensures ChallengeValid(InitialState.challenge)
    ensures ChallengeValid(LogActivity(s, clock, roll).challenge)
    ensures s.challenge.mindfulness <= LogActivity(s, clock, roll).challenge.mindfulness
  {
  }

  /** The entries already listed keep their order behind the new one. */
  lemma LogKeepsHistory(s: DashState, clock: string, roll: nat, i: nat)
    requires roll < 10 && i < |s.activities|
    requires !Blank(s.draft.description)
    ensures LogActivity(s, clock, roll).activities[i + 1] == s.activities[i]
  {
    var s' := LogActivity(s, clock, roll);
    assert s'.activities[1..][i] == s'.activities[i + 1];
  }

  // ---------------------------------------------------------------------------
  // The weekly challenge card

  /** What the challenge card shows. */
  datatype ChallengeMessage = Complete | Remaining(more: int)

  /** The card: complete once the target is reached, otherwise "Log k more". */
  function ChallengeStatus(c: Challenge): (msg: ChallengeMessage)
    ensures msg.Complete? <==> c.mindfulness >= c.target
    ensures msg.Remaining? ==> msg.more > 0 && c.mindfulness + msg.more == c.target
  {
    if c.mindfulness >= c.target then Complete else Remaining(c.target - c.mindfulness)
  }

  /** The challenge after `n` more Mindfulness entries. */
  function BumpTimes(c: Challenge, n: nat): Challenge
    decreases n
  {
    if n == 0 then c else Bump(BumpTimes(c, n - 1))
  }

  /** Each Mindfulness entry takes one session off the "Log k more" count, so logging
      the announced number of sessions completes the challenge, and further
      entries keep it exactly at its target. */
  lemma {:induction false} RemainingSessionsComplete(c: Challenge, n: nat)
    requires ChallengeValid(c)
    ensures n <= c.target - c.mindfulness ==> BumpTimes(c, n) == c.(mindfulness := c.mindfulness + n)
    ensures n >= c.target - c.mindfulness ==> BumpTimes(c, n) == c.(mindfulness := c.target)
    ensures n >= c.target - c.mindfulness ==> ChallengeStatus(BumpTimes(c, n)) == Complete
    decreases n
  {
    if n > 0 {
      RemainingSessionsComplete(c, n - 1);
    }
  }

  // ---------------------------------------------------------------------------
  // Opening, choosing and cancelling

  /** The modal is rendered while it is open or a category has been chosen. */
  predicate ModalVisible(s: DashState) {
    s.modalOpen || s.draft.entryType.Some?
  }

  /** The "Log New Activity" button. */
  function OpenModal(s: DashState): (s': DashState)
    ensures ModalVisible(s') && s'.draft == s.draft && s'.activities == s.activities
    ensures s'.modalOpen && s'.(modalOpen := s.modalOpen) == s
  {
    s.(modalOpen := true)
  }

  /** The five category boxes of the tracker tab: `type` and `entryType` of each. */
  const Categories: seq<(string, string)> := [
    ("Activity", "activity"), ("Nutrition", "nutrition"), ("Mood", "mood"),
    ("Sleep", "sleep"), ("Mindfulness", "mindfulness")]

  /** Clicking category box `i`: the draft takes its type and entry type, which
      also makes the modal appear. */
  function ChooseCategory(s: DashState, i: nat): (s': DashState)
    requires i < |Categories|
    ensures ModalVisible(s')
    ensures s'.draft.kind == Categories[i].0 && s'.draft.entryType == Some(Categories[i].1)
    ensures s'.draft.(kind := s.draft.kind, entryType := s.draft.entryType) == s.draft
    ensures s'.(draft := s.draft) == s
  {
    s.(draft := s.draft.(kind := Categories[i].0, entryType := Some(Categories[i].1)))
  }

  /** Typing into a description field. */
  function EditDescription(s: DashState, text: string): (s': DashState)
    ensures s'.draft.description == text
    ensures s'.draft.(description := s.draft.description) == s.draft
    ensures s'.(draft := s.draft) == s
  {
    s.(draft := s.draft.(description := text))
  }

  /** The Cancel button: close the modal and reset the draft. */
  function CancelLog(s: DashState): (s': DashState)
    ensures !ModalVisible(s')
    ensures s'.draft == DefaultDraft
    ensures s'.activities == s.activities && s'.challenge == s.challenge
    ensures s'.(modalOpen := s.modalOpen, draft := s.draft) == s
  {
    s.(modalOpen := false, draft := DefaultDraft)
  }

  /** A successful log hides the modal as well, whatever category had been chosen. */
  lemma LogHidesModal(s: DashState, clock: string, roll: nat)
    requires roll < 10
    requires !Blank(s.draft.description)
    ensures !ModalVisible(LogActivity(s, clock, roll))
  {
  }

  // ---------------------------------------------------------------------------
  // The mood form

  /** The five mood buttons, lowest first. */
  const MoodEmojis: seq<string> := ["\U{1F614}", "\U{1F615}", "\U{1F610}", "\U{1F642}", "\U{1F60A}"]

  const MoodDescriptions: seq<string> := ["Feeling low", "Not great", "Neutral", "Good", "Excellent"]

  /** The description text for mood level `level` (1..5) and the free text: the
      level's description, then ` - ` and the text when there is one. */
  function MoodLine(level: int, text: string): string
    requires 1 <= level <= 5
  {
    if text != "" then MoodDescriptions[level - 1] + " - " + text else MoodDescriptions[level - 1]
  }

  /** The description determines the level and the text it was built from. */
  lemma MoodLineInjective(l1: int, t1: string, l2: int, t2: string)
    requires 1 <= l1 <= 5 && 1 <= l2 <= 5
    requires MoodLine(l1, t1) == MoodLine(l2, t2)
    ensures l1 == l2 && t1 == t2
  {
    var line := MoodLine(l1, t1);
    assert line[0] == MoodDescriptions[l1 - 1][0] && line[0] == MoodDescriptions[l2 - 1][0];
    assert line[1] == MoodDescriptions[l1 - 1][1] && line[1] == MoodDescriptions[l2 - 1][1];
    assert l1 == l2;
    var d := MoodDescriptions[l1 - 1];
    if t1 != "" && t2 != "" {
      assert t1 == line[|d| + 3..];
      assert t2 == line[|d| + 3..];
    }
  }

  /** A mood level is either not chosen yet or one of 1..5. */
  predicate MoodLevelValid(a: Activity) {
    a.moodLevel.None? || 1 <= a.moodLevel.value <= 5
  }

  /** Clicking the mood button at `index`: level `index + 1` and the matching text. */
  function SelectMood(draft: Activity, index: nat): (d: Activity)
    requires index < |MoodEmojis|
    ensures d.moodLevel == Some(index + 1) && MoodLevelValid(d)
    ensures d.moodEmoji == Some(MoodEmojis[index])
    ensures d.description == MoodLine(index + 1, draft.moodText)
    ensures d.(moodEmoji := draft.moodEmoji, moodLevel := draft.moodLevel, description := draft.description) == draft
  {
    draft.(moodEmoji := Some(MoodEmojis[index]), moodLevel := Some(index + 1),
           description := if draft.moodText != "" then MoodDescriptions[index] + " - " + draft.moodText
                          else MoodDescriptions[index])
  }

  /** `newActivity.moodLevel || 3`. */
  function LevelOrNeutral(a: Activity): int {
    if a.moodLevel.None? || a.moodLevel.value == 0 then 3 else a.moodLevel.value
  }

  /** Typing into the mood text area: the text is kept and the description is
      rebuilt from the chosen level, or from level 3 when none is chosen. */
  function EditMoodText(draft: Activity, text: string): (d: Activity)
    requires MoodLevelValid(draft)
    ensures d.moodText == text
    ensures d.description == MoodLine(LevelOrNeutral(draft), text)
    ensures draft.moodLevel.None? ==> MoodDescriptions[2] <= d.description
    ensures d.(moodText := draft.moodText, description := draft.description) == draft
  {
    var level := LevelOrNeutral(draft);
    draft.(moodText := text,
           description := if text != "" then MoodDescriptions[level - 1] + " - " + text
                          else MoodDescriptions[level - 1])
  }

  /** Picking a mood and typing its text give the same draft in either order. */
  lemma SelectAndEditCommute(draft: Activity, index: nat, text: string)
    requires index < |MoodEmojis| && MoodLevelValid(draft)
    ensures SelectMood(EditMoodText(draft, text), index) == EditMoodText(SelectMood(draft, index), text)
  {
  }

  /** The selected level always stays in 1..5 through every draft change. */
  lemma DraftChangesKeepMoodLevel(s: DashState, i: nat, index: nat, text: string, clock: string, roll: nat)
    requires MoodLevelValid(s.draft) && i < |Categories| && index < |MoodEmojis| && roll < 10
    ensures MoodLevelValid(DefaultDraft)
    ensures MoodLevelValid(ChooseCategory(s, i).draft)
    ensures MoodLevelValid(EditDescription(s, text).draft)
    ensures MoodLevelValid(SelectMood(s.draft, index))
    ensures MoodLevelValid(EditMoodText(s.draft, text))
    ensures MoodLevelValid(LogActivity(s, clock, roll).draft)
    ensures MoodLevelValid(CancelLog(s).draft)
  {
  }

  // ---------------------------------------------------------------------------
  // The chart legend

  /** Clicking a legend item: `[key]: !prev[key]`. An absent key reads as hidden,
      so its first click makes it visible. */
  function ToggleLine(visible: map<string, bool>, key: string): (r: map<string, bool>)
    ensures r.Keys == visible.Keys + {key}
    ensures r[key] == !(key in visible && visible[key])
    ensures forall k :: k in visible && k != key ==> r[k] == visible[k]
  {
    visible[key := !(key in visible && visible[key])]
  }

  /** Clicking the same legend item twice restores the visibility map. */
  lemma ToggleTwice(visible: map<string, bool>, key: string)
    requires key in visible
    ensures ToggleLine(ToggleLine(visible, key), key) == visible
  {
  }

  /** For a key not in the map, two clicks leave it recorded as hidden. */
  lemma ToggleTwiceAbsent(visible: map<string, bool>, key: string)
    requires key !in visible
    ensures ToggleLine(ToggleLine(visible, key), key) == visible[key := false]
  {
  }
}
