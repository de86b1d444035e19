/**
 * The goal page's save and delete handlers
 * (`frontend/src/components/pages/GoalPage.js`): the record sent to the API
 * for a goal the form hands back, the choice between creating and updating,
 * and the confirmation guard on delete.
 */
module GoalPage {
  import opened Wrappers
  import opened Text
  import opened Records
  import opened GoalForm

  /** The `goalData` body sent to the API. It has no `id` field; `progress` is present only when editing. */
  datatype GoalPayload = GoalPayload(
    title: string,
    goalType: string,
    targetDate: Option<string>,
    category: string,
    priority: Option<string>,
    description: string,
    progress: Option<JsInt>)

  /** The mutation `handleSaveGoal` fires. */
  datatype GoalMutation = CreateGoal(goalData: GoalPayload) | UpdateGoal(goalId: int, goalData: GoalPayload)

  /** The payload: six fields copied, plus `...(goalToSave.id && { progress })`. */
  function Payload(g: SavedGoal): GoalPayload {
    GoalPayload(
      g.title, g.goalType, g.targetDate, g.category, g.priority, g.description,
      if HasId(g.id) then Some(g.progress) else None)
  }

  /** `handleSaveGoal`: update the goal with this id, or create a new one. */
  function SaveGoal(g: SavedGoal): (m: GoalMutation)
    ensures m.UpdateGoal? <==> HasId(g.id)
    ensures m.UpdateGoal? ==> m.goalId == g.id.value
    ensures m.goalData == Payload(g)
  {
    if HasId(g.id) then UpdateGoal(g.id.value, Payload(g)) else CreateGoal(Payload(g))
  }

  /**
   * The payload carries the form's six descriptive fields unchanged, and its
   * progress exactly when the goal has an id.
   */
  lemma PayloadCopiesFields(g: SavedGoal)
    ensures var p := SaveGoal(g).goalData;
      p.title == g.title && p.goalType == g.goalType && p.targetDate == g.targetDate &&
      p.category == g.category && p.priority == g.priority && p.description == g.description &&
      (p.progress.Some? <==> HasId(g.id)) &&
      (p.progress.Some? ==> p.progress.value == g.progress)
  {
  }

  /** `handleDeleteGoal`: the id whose delete is issued, only when the user confirms. */
  function DeleteGoal(goalId: int, confirmed: bool): (deleted: Option<int>)
    ensures deleted.Some? <==> confirmed
    ensures deleted.Some? ==> deleted.value == goalId
  {
    if confirmed then Some(goalId) else None
  }

  /**
   * A new goal typed into the blank form, saved as Recurring, reaches the API
   * as a create with no target date and no progress.
   */
  lemma NewRecurringGoalPayload(d: GoalDraft)
    requires d.id.None? && d.title != "" && d.category != "" && d.goalType == Recurring
    ensures HandleSubmit(d).Save?
    ensures SaveGoal(HandleSubmit(d).goal) == CreateGoal(
      GoalPayload(d.title, Recurring, None, d.category, d.priority, d.description, None))
  {
  }

  /**
   * Editing a stored goal (with a non-zero id) and saving it sends an update
   * of that goal carrying its stored progress, the date part of its stored
   * target date, and its priority or "Low".
   */
  lemma EditAndSaveGoal(g: StoredGoal)
    requires g.id != 0 && g.title != "" && g.category != "" && g.goalType == OneTime
    requires g.targetDate.Some? && |g.targetDate.value| > 0 && g.targetDate.value[0] != 'T'
    ensures HandleSubmit(EditInit(g)).Save?
    ensures var m := SaveGoal(HandleSubmit(EditInit(g)).goal);
      m.UpdateGoal? && m.goalId == g.id &&
      m.goalData.progress == Some(Int(g.progress)) &&
      m.goalData.targetDate == Some(BeforeFirst(g.targetDate.value, 'T')) &&
      m.goalData.priority == (if g.priority.Some? && g.priority.value != "" then g.priority else Some("Low")) &&
      m.goalData.title == g.title && m.goalData.category == g.category
  {
    EditedGoalSubmittable(g);
  }
}
