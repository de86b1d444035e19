/**
 * The goal editor (`frontend/src/components/goals/GoalForm.js`): the
 * priority slider's position-to-name mapping, the `goal` state record and how
 * it is initialised for a new or an edited goal, how an input event changes
 * it, and the submit check that builds the record handed to `onSave`.
 */
module GoalForm {
  import opened Wrappers
  import opened Text
  import opened Lists

  /** `priorityLevels`: slider position 0, 1, 2. */
  const PriorityLevels: seq<string> := ["Low", "Medium", "High"]

  /** The radio values of the goal type. */
  const OneTime: string := "One-time"
  const Recurring: string := "Recurring"

  const MissingFieldsMessage: string := "Please fill out Title and Category."
  const MissingDateMessage: string := "Please fill out the Target Date for One-time goals."

  /**
   * The form's `goal` state. `priority` is `undefined` (`None`) after the slider
   * reports a position outside `priorityLevels`; `progress` holds `parseInt` of
   * the progress slider. An edited goal keeps its `id`; a new one has none.
   */
  datatype GoalDraft = GoalDraft(
    id: Option<int>,
    title: string,
    goalType: string,
    targetDate: string,
    category: string,
    priority: Option<string>,
    description: string,
    progress: JsInt)

  /** A goal as the page hands it to the form for editing; `targetDate` and `priority` may be `null`. */
  datatype StoredGoal = StoredGoal(
    id: int,
    title: string,
    goalType: string,
    targetDate: Option<string>,
    category: string,
    priority: Option<string>,
    description: string,
    progress: int)

  /** The record passed to `onSave`: the state, without the `targetDate` key for a Recurring goal. */
  datatype SavedGoal = SavedGoal(
    id: Option<int>,
    title: string,
    goalType: string,
    targetDate: Option<string>,
    category: string,
    priority: Option<string>,
    description: string,
    progress: JsInt)

  datatype TextField = TitleField | CategoryField | DescriptionField | TargetDateField

  /**
   * An input event: the priority slider, the progress slider (the other
   * `type === "range"` input), a type radio, or a text input, each with the
   * element's text value.
   */
  datatype Input =
    | PriorityInput(value: string)
    | ProgressInput(value: string)
    | TypeInput(value: string)
    | TextInput(field: TextField, value: string)

  datatype Submission = Alert(message: string) | Save(goal: SavedGoal)

  /** `getPriorityString`: `priorityLevels[sliderValue]`, `undefined` off the end or for NaN. */
  function PriorityString(sliderValue: JsInt): (r: Option<string>)
    ensures r.Some? <==> sliderValue.Int? && 0 <= sliderValue.value < |PriorityLevels|
    ensures r.Some? ==> r.value in PriorityLevels
  {
    if sliderValue.Int? && 0 <= sliderValue.value < |PriorityLevels| then Some(PriorityLevels[sliderValue.value])
    else None
  }

  /** `getPrioritySliderValue`: `priorityLevels.indexOf(priority)`. */
  function PrioritySliderValue(priority: Option<string>): (r: int)
    ensures -1 <= r < |PriorityLevels|
    ensures r == -1 <==> priority.None? || priority.value !in PriorityLevels
  {
    match priority
    case Some(p) => IndexOf(PriorityLevels, p)
    case None => -1
  }

  /** Every level name survives the trip to a slider position and back. */
  lemma PriorityNameRoundTrip(p: string)
    requires p in PriorityLevels
    ensures PriorityString(Int(PrioritySliderValue(Some(p)))) == Some(p)
  {
  }

  /** Every slider position survives the trip to a level name and back. */
  lemma SliderPositionRoundTrip(i: int)
    requires 0 <= i < |PriorityLevels|
    ensures PrioritySliderValue(PriorityString(Int(i))) == i
  {
    var p := PriorityLevels[i];
    assert p == "Low" || p == "Medium" || p == "High";
    assert PriorityLevels[0] == "Low" && PriorityLevels[1] == "Medium" && PriorityLevels[2] == "High";
  }

  /** The state of a blank form. */
  function Default(): (d: GoalDraft)
    ensures d.id == None && d.title == "" && d.category == "" && d.targetDate == "" && d.description == ""
    ensures d.goalType == OneTime && d.priority == Some("Low") && d.progress == Int(0)
  {
    GoalDraft(None, "", OneTime, "", "", Some("Low"), "", Int(0))
  }

  /** The state loaded from a goal being edited. */
  function EditInit(g: StoredGoal): GoalDraft {
    GoalDraft(
      Some(g.id), g.title, g.goalType,
      if g.targetDate.Some? && g.targetDate.value != "" then BeforeFirst(g.targetDate.value, 'T') else "",
      g.category,
      if g.priority.Some? && g.priority.value != "" then g.priority else Some("Low"),
      g.description, Int(g.progress))
  }

  /** The effect on `editGoal`: edit it when there is one, start blank otherwise. */
  function Init(editGoal: Option<StoredGoal>): GoalDraft {
    match editGoal
    case Some(g) => EditInit(g)
    case None => Default()
  }

  /**
   * Editing keeps every field of the stored goal except two: the target date
   * is cut before its first `T` (and is "" when missing), and a missing
   * priority becomes "Low".
   */
  lemma EditInitLoads(g: StoredGoal)
    ensures EditInit(g).id == Some(g.id) && EditInit(g).title == g.title && EditInit(g).goalType == g.goalType
    ensures EditInit(g).category == g.category && EditInit(g).description == g.description
    ensures EditInit(g).progress == Int(g.progress)
    ensures 'T' !in EditInit(g).targetDate
    ensures g.targetDate.Some? && 'T' !in g.targetDate.value ==> EditInit(g).targetDate == g.targetDate.value
    ensures g.targetDate.Some? && 'T' in g.targetDate.value ==> EditInit(g).targetDate + "T" <= g.targetDate.value
    ensures g.targetDate.None? ==> EditInit(g).targetDate == ""
    ensures g.priority.None? || g.priority == Some("") ==> EditInit(g).priority == Some("Low")
    ensures g.priority.Some? && g.priority.value != "" ==> EditInit(g).priority == g.priority
  {
    if g.targetDate.Some? {
      var t := g.targetDate.value;
      BeforeFirstIsPrefix(t, 'T');
      var d := BeforeFirst(t, 'T');
      if 'T' in t {
        assert d + "T" == t[..|d| + 1];
      }
    }
  }

  /** `handleChange`: the updater given to `setGoal`. */
  function ApplyChange(d: GoalDraft, input: Input): GoalDraft {
    match input
    case PriorityInput(v) => d.(priority := PriorityString(JsParseInt(v)))
    case ProgressInput(v) => d.(progress := JsParseInt(v))
    case TypeInput(v) => d.(goalType := v, targetDate := if v == Recurring then "" else d.targetDate)
    case TextInput(TitleField, v) => d.(title := v)
    case TextInput(CategoryField, v) => d.(category := v)
    case TextInput(DescriptionField, v) => d.(description := v)
    case TextInput(TargetDateField, v) => d.(targetDate := v)
  }

  /**
   * Moving the priority slider to position `n` stores that level's name;
   * moving the progress slider to `n` stores `n`; every other field stays.
   */
  lemma SlidersStoreTheirValue(d: GoalDraft, n: nat)
    ensures ApplyChange(d, PriorityInput(IntToString(n))) == d.(priority := PriorityString(Int(n)))
    ensures n < |PriorityLevels| ==> ApplyChange(d, PriorityInput(IntToString(n))).priority == Some(PriorityLevels[n])
    ensures n >= |PriorityLevels| ==> ApplyChange(d, PriorityInput(IntToString(n))).priority == None
    ensures ApplyChange(d, ProgressInput(IntToString(n))) == d.(progress := Int(n))
  {
    JsParseIntOfNatString(n);
    assert PriorityString(Int(n)) == (if n < |PriorityLevels| then Some(PriorityLevels[n]) else None);
  }

  /**
   * Choosing "Recurring" clears the target date; choosing any other type keeps
   * it; only the type and the target date change.
   */
  lemma TypeChange(d: GoalDraft, v: string)
    ensures ApplyChange(d, TypeInput(v)).goalType == v
    ensures ApplyChange(d, TypeInput(v)).targetDate == (if v == Recurring then "" else d.targetDate)
    ensures ApplyChange(d, TypeInput(v)).(goalType := d.goalType, targetDate := d.targetDate) == d
  {
  }

  /** A text input stores its text verbatim in the named field and nothing else changes. */
  lemma TextChange(d: GoalDraft, f: TextField, v: string)
    ensures f == TitleField ==> ApplyChange(d, TextInput(f, v)) == d.(title := v)
    ensures f == CategoryField ==> ApplyChange(d, TextInput(f, v)) == d.(category := v)
    ensures f == DescriptionField ==> ApplyChange(d, TextInput(f, v)) == d.(description := v)
    ensures f == TargetDateField ==> ApplyChange(d, TextInput(f, v)) == d.(targetDate := v)
    ensures ApplyChange(d, TextInput(f, v)).id == d.id
  {
  }

  /** `{ ...goal }`, with `targetDate` deleted when the copy is a Recurring goal. */
  function ToSaved(d: GoalDraft): (s: SavedGoal)
    ensures s.targetDate.None? <==> d.goalType == Recurring
  {
    SavedGoal(
      d.id, d.title, d.goalType,
      if d.goalType == Recurring then None else Some(d.targetDate),
      d.category, d.priority, d.description, d.progress)
  }

  /** `handleSubmit`: an alert, or the record passed to `onSave`. */
  function HandleSubmit(d: GoalDraft): (r: Submission)
    ensures r.Save? <==> d.title != "" && d.category != "" && (d.goalType == OneTime ==> d.targetDate != "")
    ensures (d.title == "" || d.category == "") ==> r == Alert(MissingFieldsMessage)
    ensures d.title != "" && d.category != "" && d.goalType == OneTime && d.targetDate == "" ==>
      r == Alert(MissingDateMessage)
    ensures r.Save? ==> r.goal == ToSaved(d)
  {
    if d.title == "" || d.category == "" then Alert(MissingFieldsMessage)
    else if d.goalType == OneTime && d.targetDate == "" then Alert(MissingDateMessage)
    else Save(ToSaved(d))
  }

  /**
   * What `onSave` receives is the form state, field for field, except that a
   * Recurring goal carries no target date; a One-time goal always carries a
   * non-empty one.
   */
  lemma SavedGoalIsState(d: GoalDraft)
    requires HandleSubmit(d).Save?
    ensures var s := HandleSubmit(d).goal;
      s.id == d.id && s.title == d.title && s.goalType == d.goalType && s.category == d.category &&
      s.priority == d.priority && s.description == d.description && s.progress == d.progress &&
      (d.goalType == Recurring <==> s.targetDate.None?) &&
      (d.goalType != Recurring ==> s.targetDate == Some(d.targetDate)) &&
      (d.goalType == OneTime ==> s.targetDate.Some? && s.targetDate.value != "")
  {
  }

  /** A blank form cannot be submitted: title and category are missing. */
  lemma DefaultRejected()
    ensures HandleSubmit(Default()) == Alert(MissingFieldsMessage)
  {
  }

  /**
   * Switching a One-time goal to Recurring and back loses its target date, so
   * submitting it again asks for the date.
   */
  lemma RecurringRoundTripLosesDate(d: GoalDraft)
    requires d.title != "" && d.category != ""
    ensures var back := ApplyChange(ApplyChange(d, TypeInput(Recurring)), TypeInput(OneTime));
      back.targetDate == "" && HandleSubmit(back) == Alert(MissingDateMessage)
  {
  }

  /**
   * An edited One-time goal whose stored date is set and whose title and
   * category are present can be saved unchanged; what is saved has the date
   * part of the stored date and the stored priority (or "Low").
   */
  lemma EditedGoalSubmittable(g: StoredGoal)
    requires g.title != "" && g.category != "" && g.goalType == OneTime
    requires g.targetDate.Some? && |g.targetDate.value| > 0 && g.targetDate.value[0] != 'T'
    ensures HandleSubmit(EditInit(g)).Save?
    ensures HandleSubmit(EditInit(g)).goal.targetDate == Some(BeforeFirst(g.targetDate.value, 'T'))
    ensures HandleSubmit(EditInit(g)).goal.priority == EditInit(g).priority
  {
    var t := g.targetDate.value;
    BeforeFirstIsPrefix(t, 'T');
  }
}
