/**
 * The journal entry as the REST API returns it to the front end (the JSON
 * form of `JournalEntryBasic` in `backend/app/models/entry_goal.py`), the
 * 1-5 rating scales, the goal priorities, and the millisecond time line that
 * `new Date(...)` places dates on.
 */
module Records {
  import opened Wrappers

  /** The four wellbeing scales all run from 1 to 5 (`SentimentLevel`, `SleepQuality`, `StressLevel`, `SocialEngagement`). */
  type Rating = r: int | 1 <= r <= 5 witness 3

  /** `GoalPriority`, a string enumeration. */
  datatype GoalPriority = High | Medium | Low {
    function Name(): string {
      match this
      case High => "High"
      case Medium => "Medium"
      case Low => "Low"
    }
  }

  /** A stored journal entry: `date` is the ISO text the API sends; each rating may be `null`. */
  datatype Entry = Entry(
    id: int,
    title: string,
    content: string,
    date: string,
    sentimentLevel: Option<Rating>,
    sleepQuality: Option<Rating>,
    stressLevel: Option<Rating>,
    socialEngagement: Option<Rating>)

  /**
   * The sort key behind the comparator `(a, b) => new Date(b.date) - new Date(a.date)`:
   * ascending in this key is latest first. `parse` is `new Date(...)` on the entry's date text.
   */
  function Newest(parse: string -> int): Entry -> int {
    (e: Entry) => -parse(e.date)
  }

  /** JavaScript truthiness of an optional numeric id: a missing id and 0 are both false. */
  predicate HasId(id: Option<int>) {
    id.Some? && id.value != 0
  }

  // ---------------------------------------------------------------------------
  // Instants and days. A JavaScript `Date` is a count of milliseconds; the
  // model places it on the local time line, so a civil day is a block of
  // `MsPerDay` consecutive instants.

  const MsPerDay: int := 86400000

  function DayOf(t: int): int {
    t / MsPerDay
  }

  /** `setHours(0, 0, 0, 0)`: the first instant of the day holding `t`. */
  function StartOfDay(t: int): (r: int)
    ensures r <= t < r + MsPerDay
    ensures DayOf(r) == DayOf(t)
  {
    DayOf(t) * MsPerDay
  }

  /** `setHours(23, 59, 59, 999)`: the last instant of the day holding `t`. */
  function EndOfDay(t: int): (r: int)
    ensures r - MsPerDay < t <= r
    ensures DayOf(r) == DayOf(t)
  {
    StartOfDay(t) + MsPerDay - 1
  }

  /** An instant is at or after the start of a day exactly when its own day is not earlier. */
  lemma AtOrAfterStartOfDay(t: int, s: int)
    ensures t >= StartOfDay(s) <==> DayOf(t) >= DayOf(s)
  {
    var _ := StartOfDay(t);
  }

  /** An instant is at or before the end of a day exactly when its own day is not later. */
  lemma AtOrBeforeEndOfDay(t: int, e: int)
    ensures t <= EndOfDay(e) <==> DayOf(t) <= DayOf(e)
  {
    var _ := StartOfDay(t);
  }
}
