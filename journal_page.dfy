/**
 * The journal list page (`frontend/src/components/pages/JournalPage.js`):
 * the effect that filters and sorts the fetched entries for display, and
 * the mapping of a saved form into an API mutation.
 */
module JournalPage {
  import opened Wrappers
  import opened Text
  import opened Records
  import opened Filtering
  import opened StableSort
  import EntryForm

  /**
   * The filter controls. Every value is the control's text; `""` means
   * "All" (or no date chosen). The rating selects offer "1" to "5".
   */
  datatype Filters = Filters(
    searchTerm: string,
    sentiment: string,
    sleep: string,
    stress: string,
    socialEngagement: string,
    startDate: string,
    endDate: string)

  predicate AnyActive(f: Filters) {
    f.searchTerm != "" || f.sentiment != "" || f.sleep != "" || f.stress != ""
    || f.socialEngagement != "" || f.startDate != "" || f.endDate != ""
  }

  /** `entry.title.toLowerCase().includes(searchTerm.toLowerCase())`: the content is not searched. */
  predicate TitleMatches(e: Entry, term: string) {
    Contains(Lower(e.title), Lower(term))
  }

  /** The rating is neither `null` nor `undefined` and `String(rating) === selected`. */
  predicate RatingMatches(r: Option<Rating>, selected: string) {
    r.Some? && IntToString(r.value) == selected
  }

  /**
   * The entry's instant is not before 00:00:00.000 on the start date's day and
   * not after 23:59:59.999 on the end date's day; an unset bound does not
   * restrict. `parse` is `new Date(...)` on the local time line.
   */
  predicate InDateRange(e: Entry, startDate: string, endDate: string, parse: string -> int) {
    var t := parse(e.date);
    (startDate == "" || t >= StartOfDay(parse(startDate)))
    && (endDate == "" || t <= EndOfDay(parse(endDate)))
  }

  /** `list = list.filter(p)` when the control is set, the list itself otherwise. */
  function Stage(s: seq<Entry>, active: bool, p: Entry -> bool): seq<Entry> {
    if active then Filter(s, p) else s
  }

  function SearchTest(f: Filters): Entry -> bool {
    (e: Entry) => TitleMatches(e, f.searchTerm)
  }

  function SentimentTest(f: Filters): Entry -> bool {
    (e: Entry) => RatingMatches(e.sentimentLevel, f.sentiment)
  }

  function SleepTest(f: Filters): Entry -> bool {
    (e: Entry) => RatingMatches(e.sleepQuality, f.sleep)
  }

  function StressTest(f: Filters): Entry -> bool {
    (e: Entry) => RatingMatches(e.stressLevel, f.stress)
  }

  function SocialTest(f: Filters): Entry -> bool {
    (e: Entry) => RatingMatches(e.socialEngagement, f.socialEngagement)
  }

  function DateTest(f: Filters, parse: string -> int): Entry -> bool {
    (e: Entry) => InDateRange(e, f.startDate, f.endDate, parse)
  }

  /**
   * The six `if` blocks of the effect, in their order: stage `k` (0 to 5) runs
   * when `StageActive(f, k)` and keeps what `StageTest(f, parse, k)` accepts.
   */
  function StageActive(f: Filters, k: nat): bool
    requires k < 6
  {
    match k
    case 0 => f.searchTerm != ""
    case 1 => f.sentiment != ""
    case 2 => f.sleep != ""
    case 3 => f.stress != ""
    case 4 => f.socialEngagement != ""
    case _ => f.startDate != "" || f.endDate != ""
  }

  function StageTest(f: Filters, parse: string -> int, k: nat): Entry -> bool
    requires k < 6
  {
    match k
    case 0 => SearchTest(f)
    case 1 => SentimentTest(f)
    case 2 => SleepTest(f)
    case 3 => StressTest(f)
    case 4 => SocialTest(f)
    case _ => DateTest(f, parse)
  }

  /** The list after the first `k` blocks. */
  function Chain(all: seq<Entry>, f: Filters, parse: string -> int, k: nat): seq<Entry>
    requires k <= 6
  {
    if k == 0 then all else Stage(Chain(all, f, parse, k - 1), StageActive(f, k - 1), StageTest(f, parse, k - 1))
  }

  /** The whole filter chain: title, the four ratings, the date range. */
  function ApplyFilters(all: seq<Entry>, f: Filters, parse: string -> int): seq<Entry> {
    Chain(all, f, parse, 6)
  }

  /** The conjunction of every control that is set. */
  predicate Matches(e: Entry, f: Filters, parse: string -> int) {
    (f.searchTerm == "" || TitleMatches(e, f.searchTerm))
    && (f.sentiment == "" || RatingMatches(e.sentimentLevel, f.sentiment))
    && (f.sleep == "" || RatingMatches(e.sleepQuality, f.sleep))
    && (f.stress == "" || RatingMatches(e.stressLevel, f.stress))
    && (f.socialEngagement == "" || RatingMatches(e.socialEngagement, f.socialEngagement))
    && InDateRange(e, f.startDate, f.endDate, parse)
  }

  function MatchesOf(f: Filters, parse: string -> int): Entry -> bool {
    (e: Entry) => Matches(e, f, parse)
  }

  /**
   * `filteredEntries` for the fetched `allEntries`: nothing before the fetch
   * has answered, otherwise the filtered entries sorted by date, latest first.
   */
  function FilteredEntries(allEntries: Option<seq<Entry>>, f: Filters, parse: string -> int): seq<Entry> {
    match allEntries
    case None => []
    case Some(all) => Sort(ApplyFilters(all, f, parse), Newest(parse))
  }

  // ---------------------------------------------------------------------------
  // The chain is one conjunction

  lemma StageChain(s: seq<Entry>, pre: Entry -> bool, active: bool, p: Entry -> bool, post: Entry -> bool)
    requires forall i :: 0 <= i < |s| ==> post(s[i]) == (pre(s[i]) && (!active || p(s[i])))
    ensures Stage(Filter(s, pre), active, p) == Filter(s, post)
  {
    if active {
      FilterChain(s, pre, p, post);
    } else {
      var always := (e: Entry) => true;
      FilterChain(s, pre, always, post);
      FilterAll(Filter(s, pre), always);
    }
  }

  /** An entry survives the first `k` stages. */
  predicate PassesFirst(e: Entry, f: Filters, parse: string -> int, k: nat)
    requires k <= 6
  {
    k == 0 || (PassesFirst(e, f, parse, k - 1) && (!StageActive(f, k - 1) || StageTest(f, parse, k - 1)(e)))
  }

  function Survivors(f: Filters, parse: string -> int, k: nat): Entry -> bool
    requires k <= 6
  {
    (e: Entry) => PassesFirst(e, f, parse, k)
  }

  lemma StageStep(all: seq<Entry>, f: Filters, parse: string -> int, k: nat)
    requires k < 6
    ensures Stage(Filter(all, Survivors(f, parse, k)), StageActive(f, k), StageTest(f, parse, k))
         == Filter(all, Survivors(f, parse, k + 1))
  {
    StageChain(all, Survivors(f, parse, k), StageActive(f, k), StageTest(f, parse, k), Survivors(f, parse, k + 1));
  }

  lemma SurvivingAllIsMatching(e: Entry, f: Filters, parse: string -> int)
    ensures PassesFirst(e, f, parse, 6) == Matches(e, f, parse)
  {
    assert PassesFirst(e, f, parse, 1) == (f.searchTerm == "" || TitleMatches(e, f.searchTerm));
    assert PassesFirst(e, f, parse, 2) == (PassesFirst(e, f, parse, 1)
      && (f.sentiment == "" || RatingMatches(e.sentimentLevel, f.sentiment)));
    assert PassesFirst(e, f, parse, 3) == (PassesFirst(e, f, parse, 2)
      && (f.sleep == "" || RatingMatches(e.sleepQuality, f.sleep)));
    assert PassesFirst(e, f, parse, 4) == (PassesFirst(e, f, parse, 3)
      && (f.stress == "" || RatingMatches(e.stressLevel, f.stress)));
    assert PassesFirst(e, f, parse, 5) == (PassesFirst(e, f, parse, 4)
      && (f.socialEngagement == "" || RatingMatches(e.socialEngagement, f.socialEngagement)));
    assert PassesFirst(e, f, parse, 6) == (PassesFirst(e, f, parse, 5)
      && InDateRange(e, f.startDate, f.endDate, parse));
  }

  lemma {:induction false} ChainKeepsSurvivors(all: seq<Entry>, f: Filters, parse: string -> int, k: nat)
    requires k <= 6
    ensures Chain(all, f, parse, k) == Filter(all, Survivors(f, parse, k))
  {
    if k == 0 {
      FilterAll(all, Survivors(f, parse, 0));
    } else {
      ChainKeepsSurvivors(all, f, parse, k - 1);
      StageStep(all, f, parse, k - 1);
    }
  }

  /**
   * The six stages keep exactly the entries that satisfy every set control,
   * in input order; the order of the stages is therefore immaterial.
   */
  lemma ApplyFiltersIsConjunction(all: seq<Entry>, f: Filters, parse: string -> int)
    ensures ApplyFilters(all, f, parse) == Filter(all, MatchesOf(f, parse))
  {
    ChainKeepsSurvivors(all, f, parse, 6);
    forall i | 0 <= i < |all|
      ensures Survivors(f, parse, 6)(all[i]) == MatchesOf(f, parse)(all[i])
    {
      SurvivingAllIsMatching(all[i], f, parse);
    }
    FilterSame(all, Survivors(f, parse, 6), MatchesOf(f, parse));
  }

  // ---------------------------------------------------------------------------
  // What the displayed list holds

  /**
   * Each entry appears in the list as often as in the fetched list when it
   * satisfies every set control, and not at all otherwise: nothing is added
   * or duplicated.
   */
  lemma FilteredCount(all: seq<Entry>, f: Filters, parse: string -> int, x: Entry)
    ensures multiset(FilteredEntries(Some(all), f, parse))[x] == if Matches(x, f, parse) then multiset(all)[x] else 0
  {
    ApplyFiltersIsConjunction(all, f, parse);
    SortPermutes(ApplyFilters(all, f, parse), Newest(parse));
    FilterCount(all, (e: Entry) => Matches(e, f, parse), x);
  }

  /** With no control set, no stage runs and the chain hands back the list it was given. */
  lemma NoActiveStageKeepsAll(all: seq<Entry>, f: Filters, parse: string -> int)
    requires !AnyActive(f)
    ensures ApplyFilters(all, f, parse) == all
  {
    assert Chain(all, f, parse, 1) == all;
    assert Chain(all, f, parse, 2) == all;
    assert Chain(all, f, parse, 3) == all;
    assert Chain(all, f, parse, 4) == all;
    assert Chain(all, f, parse, 5) == all;
  }

  /** With no control set, the list holds exactly the fetched entries, only reordered. */
  lemma NoFilterKeepsAll(all: seq<Entry>, f: Filters, parse: string -> int)
    requires !AnyActive(f)
    ensures FilteredEntries(Some(all), f, parse) == Sort(all, Newest(parse))
    ensures multiset(FilteredEntries(Some(all), f, parse)) == multiset(all)
  {
    NoActiveStageKeepsAll(all, f, parse);
    SortPermutes(all, Newest(parse));
  }

  /** The list is in date order, latest first. */
  lemma FilteredNewestFirst(allEntries: Option<seq<Entry>>, f: Filters, parse: string -> int)
    ensures var r := FilteredEntries(allEntries, f, parse);
      forall i, j :: 0 <= i < j < |r| ==> parse(r[i].date) >= parse(r[j].date)
  {
    if allEntries.Some? {
      SortSorted(ApplyFilters(allEntries.value, f, parse), Newest(parse));
    }
  }

  /** Entries with the same instant keep the order they had in the fetched list. */
  lemma FilteredTiesKeepOrder(all: seq<Entry>, f: Filters, parse: string -> int, t: int)
    ensures WithKey(FilteredEntries(Some(all), f, parse), Newest(parse), -t)
         == WithKey(Filter(all, MatchesOf(f, parse)), Newest(parse), -t)
  {
    ApplyFiltersIsConjunction(all, f, parse);
    var kept := ApplyFilters(all, f, parse);
    assert FilteredEntries(Some(all), f, parse) == Sort(kept, Newest(parse));
    SortStable(kept, Newest(parse), -t);
  }

  // ---------------------------------------------------------------------------
  // The individual controls

  /** The search looks at the title only: changing the content never changes the outcome. */
  lemma SearchIgnoresContent(e: Entry, c: string, f: Filters, parse: string -> int)
    ensures Matches(e.(content := c), f, parse) == Matches(e, f, parse)
  {
  }

  /** `String` is injective on integers. */
  lemma IntToStringInjective(a: int, b: int)
    requires IntToString(a) == IntToString(b)
    ensures a == b
  {
    PyIntOfIntToString(a);
    PyIntOfIntToString(b);
  }

  /** Selecting a rating keeps exactly the entries that carry that rating; a missing rating never matches. */
  lemma RatingMatchesExactly(r: Option<Rating>, n: int)
    ensures RatingMatches(r, IntToString(n)) <==> r == Some(n)
    ensures RatingMatches(None, IntToString(n)) == false
  {
    if RatingMatches(r, IntToString(n)) {
      IntToStringInjective(r.value, n);
    }
  }

  /** Both ends of the date range are inclusive, compared by whole days. */
  lemma DateRangeByDay(e: Entry, startDate: string, endDate: string, parse: string -> int)
    ensures InDateRange(e, startDate, endDate, parse) <==>
      (startDate == "" || DayOf(parse(startDate)) <= DayOf(parse(e.date)))
      && (endDate == "" || DayOf(parse(e.date)) <= DayOf(parse(endDate)))
  {
    AtOrAfterStartOfDay(parse(e.date), parse(startDate));
    AtOrBeforeEndOfDay(parse(e.date), parse(endDate));
  }

  /** A start date on a later day than the end date empties the list. */
  lemma StartAfterEndIsEmpty(all: seq<Entry>, f: Filters, parse: string -> int)
    requires f.startDate != "" && f.endDate != ""
    requires DayOf(parse(f.startDate)) > DayOf(parse(f.endDate))
    ensures FilteredEntries(Some(all), f, parse) == []
  {
    forall i | 0 <= i < |all| ensures !Matches(all[i], f, parse) {
      DateRangeByDay(all[i], f.startDate, f.endDate, parse);
    }
    FilterNone(all, MatchesOf(f, parse));
    ApplyFiltersIsConjunction(all, f, parse);
  }

  /** Two entries of the same date with sentiment 5 and 2: selecting "5" shows only the first. */
  lemma SentimentFiveScenario(parse: string -> int)
    ensures var a := Entry(1, "a", "x", "2024-03-01", Some(5), None, None, None);
      var b := Entry(2, "b", "y", "2024-03-01", Some(2), None, None, None);
      FilteredEntries(Some([a, b]), Filters("", "5", "", "", "", "", ""), parse) == [a]
  {
    var a := Entry(1, "a", "x", "2024-03-01", Some(5), None, None, None);
    var b := Entry(2, "b", "y", "2024-03-01", Some(2), None, None, None);
    var f := Filters("", "5", "", "", "", "", "");
    assert IntToString(5) == "5";
    assert IntToString(2) == "2";
    ApplyFiltersIsConjunction([a, b], f, parse);
    assert Matches(a, f, parse) && !Matches(b, f, parse);
    assert [a, b][1..] == [b];
    assert Filter([a, b], MatchesOf(f, parse)) == [a];
    assert Sort([a], Newest(parse)) == [a];
  }

  // ---------------------------------------------------------------------------
  // The effect on arrays

  /**
   * The effect body. A `null` list (not fetched yet) gives a fresh empty array.
   * With no control set no `filter` runs, so `sort` reorders the fetched array
   * itself and that array becomes the displayed list; otherwise the chain
   * produces a fresh array, which is sorted, and the fetched one is left alone.
   */
  method RefreshFilteredEntries(allEntries: array?<Entry>, f: Filters, parse: string -> int)
    returns (filtered: array<Entry>)
    modifies allEntries
    ensures allEntries == null ==> fresh(filtered) && filtered[..] == []
    ensures allEntries != null ==>
      filtered[..] == FilteredEntries(Some(old(allEntries[..])), f, parse)
    ensures allEntries != null && !AnyActive(f) ==> filtered == allEntries
    ensures allEntries != null && AnyActive(f) ==> fresh(filtered) && allEntries[..] == old(allEntries[..])
  {
    if allEntries == null {
      filtered := new Entry[0];
      return;
    }
    var kept := ApplyFilters(allEntries[..], f, parse);
    if AnyActive(f) {
      filtered := new Entry[|kept|](i requires 0 <= i < |kept| => kept[i]);
    } else {
      NoActiveStageKeepsAll(allEntries[..], f, parse);
      filtered := allEntries;
    }
    assert filtered[..] == kept;
    SortInPlace(filtered, Newest(parse));
  }

  // ---------------------------------------------------------------------------
  // Saving

  /** The body sent to the API: the form's names mapped to the API's snake_case names. */
  datatype EntryPayload = EntryPayload(
    content: string,
    sentimentLevel: JsInt,
    sleepQuality: JsInt,
    stressLevel: JsInt,
    socialEngagement: JsInt,
    date: string,
    title: string)

  datatype EntryMutation = CreateEntry(payload: EntryPayload) | UpdateEntry(entryId: int, payload: EntryPayload)

  /** `handleSaveEntry`: update when the saved form has a truthy `id` (present and not 0), create otherwise. */
  function SaveEntry(d: EntryForm.Draft): (m: EntryMutation)
    ensures m.UpdateEntry? <==> HasId(d.id)
    ensures m.UpdateEntry? ==> m.entryId == d.id.value
    ensures m.payload.title == d.title && m.payload.content == d.content && m.payload.date == d.date
    ensures m.payload.sentimentLevel == d.sentiment && m.payload.sleepQuality == d.sleep
    ensures m.payload.stressLevel == d.stress && m.payload.socialEngagement == d.socialEngagement
  {
    var payload := EntryPayload(d.content, d.sentiment, d.sleep, d.stress, d.socialEngagement, d.date, d.title);
    match d.id
    case Some(id) => if id != 0 then UpdateEntry(id, payload) else CreateEntry(payload)
    case None => CreateEntry(payload)
  }

  /**
   * Opening a stored entry in the form and saving it unchanged updates that
   * entry with its own title, content and ratings (3 where a rating was
   * missing), and with its date cut to the part before the first `T`.
   */
  lemma EditAndSaveRoundTrip(e: Entry)
    ensures var m := SaveEntry(EntryForm.EditInit(e));
      && (m.UpdateEntry? <==> e.id != 0)
      && (m.UpdateEntry? ==> m.entryId == e.id)
      && m.payload.title == e.title && m.payload.content == e.content
      && (e.sentimentLevel.Some? ==> m.payload.sentimentLevel == Int(e.sentimentLevel.value))
      && (e.sleepQuality.Some? ==> m.payload.sleepQuality == Int(e.sleepQuality.value))
      && (e.stressLevel.Some? ==> m.payload.stressLevel == Int(e.stressLevel.value))
      && (e.socialEngagement.Some? ==> m.payload.socialEngagement == Int(e.socialEngagement.value))
      && (e.sentimentLevel.None? ==> m.payload.sentimentLevel == Int(3))
      && (e.sleepQuality.None? ==> m.payload.sleepQuality == Int(3))
      && (e.stressLevel.None? ==> m.payload.stressLevel == Int(3))
      && (e.socialEngagement.None? ==> m.payload.socialEngagement == Int(3))
      && 'T' !in m.payload.date
      && ('T' !in e.date ==> m.payload.date == e.date)
      && ('T' in e.date ==> m.payload.date + "T" <= e.date)
  {
    EntryForm.EditInitLoads(e);
  }
}
