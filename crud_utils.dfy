/**
 * `get_recent_entries` from `backend/app/db/crud/utils.py`: for every goal
 * with linked journal entries, keep only the most recent ones, updating the
 * goal objects in place and returning the same list.
 */
module CrudUtils {
  import opened Wrappers
  import opened StableSort

  /** A linked journal entry; `date` is its calendar day as an ordered day number. */
  datatype StoredEntry = StoredEntry(id: int, title: string, date: int)

  /** A goal object; only `journalEntries` is ever reassigned. `None` stands for Python's `None`. */
  class GoalRecord {
    const id: int
    var title: string
    var journalEntries: Option<seq<StoredEntry>>

    constructor (id: int, title: string, journalEntries: Option<seq<StoredEntry>>)
      ensures this.id == id && this.title == title && this.journalEntries == journalEntries
    {
      this.id := id;
      this.title := title;
      this.journalEntries := journalEntries;
    }
  }

  const DefaultMaxEntriesPerGoal: int := 3

  /** `sorted(..., key=lambda entry: entry.date, reverse=True)` is a stable sort on the negated date. */
  function Latest(): StoredEntry -> int {
    (e: StoredEntry) => -e.date
  }

  function Min(a: int, b: int): int {
    if a <= b then a else b
  }

  function Max(a: int, b: int): int {
    if a <= b then b else a
  }

  /** Python's `s[:k]`: a negative `k` counts from the end. */
  function PySliceTo<T>(s: seq<T>, k: int): (r: seq<T>)
    ensures |r| == if k >= 0 then Min(k, |s|) else Max(0, |s| + k)
    ensures r == s[..|r|]
  {
    if k >= 0 then s[..Min(k, |s|)] else s[..Max(0, |s| + k)]
  }

  /** The entries kept for one goal. */
  function RecentEntries(entries: seq<StoredEntry>, maxEntries: int): seq<StoredEntry> {
    PySliceTo(Sort(entries, Latest()), maxEntries)
  }

  /** One pass of the loop body on a goal's field: only a non-empty list is replaced. */
  function Truncate(field: Option<seq<StoredEntry>>, maxEntries: int): Option<seq<StoredEntry>> {
    if field.Some? && |field.value| > 0 then Some(RecentEntries(field.value, maxEntries)) else field
  }

  /** The loop body applied `n` times, which is what a goal listed `n` times receives. */
  function TruncateTimes(field: Option<seq<StoredEntry>>, maxEntries: int, n: nat): Option<seq<StoredEntry>> {
    if n == 0 then field else Truncate(TruncateTimes(field, maxEntries, n - 1), maxEntries)
  }

  /** How often `x` appears in `s`. */
  function Occurrences<T(==)>(s: seq<T>, x: T): nat {
    if |s| == 0 then 0 else Occurrences(s[..|s| - 1], x) + (if s[|s| - 1] == x then 1 else 0)
  }

  lemma {:induction false} OccurrencesCount<T>(s: seq<T>, x: T)
    ensures Occurrences(s, x) == multiset(s)[x]
  {
    if |s| > 0 {
      OccurrencesCount(s[..|s| - 1], x);
      assert s == s[..|s| - 1] + [s[|s| - 1]];
    }
  }

  /** The loop body for one goal: a non-empty entry list is replaced by its most recent entries. */
  method TruncateGoal(goal: GoalRecord, maxEntries: int)
    modifies goal`journalEntries
    ensures goal.journalEntries == Truncate(old(goal.journalEntries), maxEntries)
  {
    if goal.journalEntries.Some? && |goal.journalEntries.value| > 0 {
      var sortedEntries := Sort(goal.journalEntries.value, Latest());
      goal.journalEntries := Some(PySliceTo(sortedEntries, maxEntries));
    }
  }

  /**
   * The function itself: returns the list it was given, and each goal in it
   * has had the body applied once per occurrence in the list. Only
   * `journalEntries` of the listed goals changes.
   */
  method GetRecentEntries(goals: seq<GoalRecord>, maxEntriesPerGoal: int := DefaultMaxEntriesPerGoal)
    returns (r: seq<GoalRecord>)
    modifies (set g | g in goals)`journalEntries
    ensures r == goals
    ensures forall g :: g in goals ==>
      g.journalEntries == TruncateTimes(old(g.journalEntries), maxEntriesPerGoal, multiset(goals)[g])
  {
    var i := 0;
    while i < |goals|
      invariant 0 <= i <= |goals|
      invariant forall g :: g in goals ==>
        g.journalEntries == TruncateTimes(old(g.journalEntries), maxEntriesPerGoal, Occurrences(goals[..i], g))
    {
      var goal := goals[i];
      TruncateGoal(goal, maxEntriesPerGoal);
      assert goals[..i + 1][..i] == goals[..i];
      i := i + 1;
    }
    assert goals[..|goals|] == goals;
    forall g | g in goals
      ensures g.journalEntries == TruncateTimes(old(g.journalEntries), maxEntriesPerGoal, multiset(goals)[g])
    {
      OccurrencesCount(goals, g);
    }
    r := goals;
  }

  // ---------------------------------------------------------------------------
  // What is kept

  /** With a non-negative limit at most that many entries remain, and all of them when there are fewer. */
  lemma RecentCount(entries: seq<StoredEntry>, maxEntries: int)
    ensures maxEntries >= 0 ==> |RecentEntries(entries, maxEntries)| == Min(maxEntries, |entries|)
    ensures maxEntries < 0 ==> |RecentEntries(entries, maxEntries)| == Max(0, |entries| + maxEntries)
  {
    SortPermutes(entries, Latest());
  }

  /**
   * The kept entries are the start of the entries sorted latest first: they are
   * in date order, latest first, none of the dropped entries is more recent
   * than any kept one, and they are a sub-multiset of the original entries.
   */
  lemma RecentAreMostRecent(entries: seq<StoredEntry>, maxEntries: int)
    ensures var s := Sort(entries, Latest());
      var r := RecentEntries(entries, maxEntries);
      && multiset(s) == multiset(entries)
      && r == s[..|r|]
      && multiset(r) <= multiset(entries)
      && (forall i, j :: 0 <= i < j < |r| ==> r[i].date >= r[j].date)
      && (forall i, j :: 0 <= i < |r| <= j < |s| ==> s[i].date >= s[j].date)
  {
    var s := Sort(entries, Latest());
    var r := RecentEntries(entries, maxEntries);
    SortPermutes(entries, Latest());
    SortSorted(entries, Latest());
    assert s == r + s[|r|..];
    assert multiset(s) == multiset(r) + multiset(s[|r|..]);
  }

  /** Entries of the same date keep their original relative order. */
  lemma RecentTiesKeepOrder(entries: seq<StoredEntry>, day: int)
    ensures WithKey(Sort(entries, Latest()), Latest(), -day) == WithKey(entries, Latest(), -day)
  {
    SortStable(entries, Latest(), -day);
  }

  lemma SliceOfSlice<T>(s: seq<T>, k: int)
    requires k >= 0
    ensures PySliceTo(PySliceTo(s, k), k) == PySliceTo(s, k)
  {
  }

  /** With a non-negative limit, truncating an already truncated list changes nothing. */
  lemma RecentIdempotent(entries: seq<StoredEntry>, maxEntries: int)
    requires maxEntries >= 0
    ensures RecentEntries(RecentEntries(entries, maxEntries), maxEntries) == RecentEntries(entries, maxEntries)
  {
    var r := RecentEntries(entries, maxEntries);
    RecentAreMostRecent(entries, maxEntries);
    assert Sorted(r, Latest());
    SortOfSorted(r, Latest());
  }

  /** Goals without linked entries (`None` or an empty list) are left untouched, however often they are listed. */
  lemma {:induction false} EmptyUntouched(field: Option<seq<StoredEntry>>, maxEntries: int, n: nat)
    requires field.None? || field.value == []
    ensures TruncateTimes(field, maxEntries, n) == field
  {
    if n > 0 {
      EmptyUntouched(field, maxEntries, n - 1);
    }
  }

  /** With a non-negative limit, a goal listed several times ends up as if listed once. */
  lemma {:induction false} RepeatedGoalTruncatedOnce(field: Option<seq<StoredEntry>>, maxEntries: int, n: nat)
    requires maxEntries >= 0 && n >= 1
    ensures TruncateTimes(field, maxEntries, n) == Truncate(field, maxEntries)
  {
    if n > 1 {
      RepeatedGoalTruncatedOnce(field, maxEntries, n - 1);
      var t := Truncate(field, maxEntries);
      if t.Some? && |t.value| > 0 {
        RecentIdempotent(field.value, maxEntries);
      }
    }
  }

  /** A negative limit drops that many of the oldest entries instead of keeping that many. */
  lemma NegativeLimitDropsOldest(entries: seq<StoredEntry>, maxEntries: int)
    requires maxEntries < 0
    ensures var s := Sort(entries, Latest());
      |s| == |entries| && RecentEntries(entries, maxEntries) == s[..Max(0, |s| + maxEntries)]
  {
    SortPermutes(entries, Latest());
  }
}
