/**
 * The goal grid of `frontend/src/components/goals/GoalList.js`: goals are
 * shown High first, then Medium, then Low, then any other priority, and a
 * hint is shown when there are no goals.
 */
module GoalList {
  import opened Wrappers
  import opened Records
  import opened StableSort

  /** A goal as the list receives it; `priority` is whatever text the API sent, or missing. */
  datatype Goal = Goal(id: int, title: string, priority: Option<string>)

  /** `priorityOrder[priority] || 4`. */
  function PriorityRank(priority: Option<string>): (rank: int)
    ensures 1 <= rank <= 4
    ensures rank == 1 <==> priority == Some("High")
    ensures rank == 2 <==> priority == Some("Medium")
    ensures rank == 3 <==> priority == Some("Low")
  {
    match priority
    case Some("High") => 1
    case Some("Medium") => 2
    case Some("Low") => 3
    case _ => 4
  }

  function ByPriority(): Goal -> int {
    (g: Goal) => PriorityRank(g.priority)
  }

  /** `[...goals].sort(...)`: a sorted copy; `goals` itself is a value and stays as it was. */
  function SortedGoals(goals: seq<Goal>): seq<Goal> {
    Sort(goals, ByPriority())
  }

  /** The "No goals set yet" hint. */
  predicate ShowsEmptyHint(goals: seq<Goal>) {
    |goals| == 0
  }

  /** The three named priorities rank 1, 2, 3 in the order High, Medium, Low. */
  lemma NamedPrioritiesRank(p: GoalPriority)
    ensures PriorityRank(Some(p.Name())) == match p case High => 1 case Medium => 2 case Low => 3
  {
  }

  /** The grid shows every goal exactly as often as it occurs in the input. */
  lemma SortedGoalsPermutes(goals: seq<Goal>)
    ensures multiset(SortedGoals(goals)) == multiset(goals)
    ensures |SortedGoals(goals)| == |goals|
  {
    SortPermutes(goals, ByPriority());
  }

  /** A goal of higher priority is never shown after one of lower priority; unknown priorities come last. */
  lemma SortedGoalsByRank(goals: seq<Goal>)
    ensures var r := SortedGoals(goals);
      forall i, j :: 0 <= i < j < |r| ==> PriorityRank(r[i].priority) <= PriorityRank(r[j].priority)
  {
    SortSorted(goals, ByPriority());
  }

  /** Goals of equal rank keep their input order. */
  lemma SortedGoalsStable(goals: seq<Goal>, rank: int)
    ensures WithKey(SortedGoals(goals), ByPriority(), rank) == WithKey(goals, ByPriority(), rank)
  {
    SortStable(goals, ByPriority(), rank);
  }

  /** The hint appears exactly when the grid has no cards. */
  lemma HintIffNoCards(goals: seq<Goal>)
    ensures ShowsEmptyHint(goals) <==> |SortedGoals(goals)| == 0
  {
    SortPermutes(goals, ByPriority());
  }
}
