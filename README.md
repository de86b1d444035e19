# Journaling app core, modelled in Dafny

This project models the core of a personal journaling application. A React front end records journal entries. Each entry has a title, free text, a date, and four wellbeing ratings on a 1-5 scale: sentiment, sleep quality, stress and social engagement. The front end also records goals, with a type, a category, a target date and a priority. It shows charts of the ratings over time. A small set of Python helpers sits behind the REST API.

The model covers:

- the journal page's filter-and-sort chain;
- the month calendar grid;
- the goal list ordering;
- the entry and goal editors;
- the stand-alone entry form;
- the API client (error messages, listeners, URLs);
- the entry list, card and detail views;
- the analytics dashboard state;
- the backend's "recent entries per goal" truncation;
- the period parser;
- the list parsing and joining in the LLM agent.

Each source file has its own module. Shared modules:

- `Wrappers` holds `Option`.
- `Text` holds the JavaScript and Python string primitives: `toLowerCase`, `includes`, `trim`/`strip`, `split`, `join`, `str.replace`, `int()`, `parseInt` and `String(n)`. White space follows the language: JavaScript's `trim()` and `parseInt` skip the six ASCII white-space characters, and Python's `strip()` and `int()` also skip the separators U+001C to U+001F.
- `StableSort` is a stable insertion sort by an integer key. It exists as a function and as an in-place array method, and the method is proved equal to the function.
- `Filtering` is `Array.prototype.filter`.
- `Lists` holds `indexOf` and `splice`.
- `Records` holds the entry record, the 1-5 rating type and the day arithmetic of `Date`.

React state updates `prev => ({...prev, ...})` are pure functions from the old state to the new one. Components that keep several `useState` variables and update them step by step are classes with those fields:

- `JournalEntryForm.Form`;
- `AnalyticsDashboard.Dashboard`;
- `Api.ListenerRegistry`.

Objects that are mutated in place are classes too: the Python goal object `CrudUtils.GoalRecord`, whose `journal_entries` is reassigned, and the JavaScript correlation object `AnalyticsDashboard.Correlation`, whose `data` is reassigned.

Things outside the program are parameters:

- the clock;
- `new Date(...)`, a function `string -> int` giving milliseconds on the local time line;
- date formatting (`date-fns` `format`, `toLocaleDateString`);
- the server's reply.

## Model

| member | source | states |
|---|---|---|
| StableSort.SortInPlace | frontend/src/components/pages/JournalPage.js:158-160 | `Array.prototype.sort` with a key-difference comparator reorders the array itself into exactly `Sort(old contents)` |
| StableSort.InsertLast | frontend/src/components/pages/JournalPage.js:158-160 | one insertion step leaves `a[..i+1]` equal to inserting the old `a[i]` into the old prefix, and the rest of the array untouched |
| StableSort.SortPermutes | frontend/src/components/pages/JournalPage.js:158-160 | sorting keeps every element exactly as often as in the input |
| StableSort.SortSorted | frontend/src/components/pages/JournalPage.js:158-160 | the sorted sequence is in ascending key order |
| StableSort.SortStable | frontend/src/components/pages/JournalPage.js:158-160 | elements with equal keys keep their input order (ES2019 stable sort) |
| StableSort.SortOfSorted | frontend/src/components/pages/JournalPage.js:158-160 | sorting an already sorted sequence changes nothing |
| Filtering.FilterCount | frontend/src/components/pages/JournalPage.js:91-131 | `filter` keeps each accepted value as often as it occurs, and drops rejected ones entirely |
| Filtering.FilterChain | frontend/src/components/pages/JournalPage.js:91-131 | two successive `filter` calls equal one filter by the conjunction |
| Filtering.FilterCommutes | frontend/src/components/pages/JournalPage.js:91-131 | the order of two filters does not matter |
| Filtering.FilterAll | frontend/src/components/pages/JournalPage.js:91-131 | a filter that accepts everything returns the list unchanged |
| Filtering.FilterMember | frontend/src/components/pages/JournalPage.js:91-131 | an element is in the result iff it is in the input and accepted |
| Records.AtOrAfterStartOfDay | frontend/src/components/pages/JournalPage.js:138-144 | an instant is at or after `setHours(0,0,0,0)` of a date iff its day is not earlier |
| Records.AtOrBeforeEndOfDay | frontend/src/components/pages/JournalPage.js:146-152 | an instant is at or before `setHours(23,59,59,999)` of a date iff its day is not later |
| JournalPage.ApplyFiltersIsConjunction | frontend/src/components/pages/JournalPage.js:89-156 | the six `if (...) list = list.filter(...)` blocks keep exactly the entries satisfying every set control, in input order |
| JournalPage.ApplyFilters | frontend/src/components/pages/JournalPage.js:89-156 | the six filter blocks in their source order: title search, the four ratings, then the date range; a block whose control is empty is skipped |
| JournalPage.FilteredEntries | frontend/src/components/pages/JournalPage.js:83-161 | no entries before the fetch answers; otherwise the filtered entries sorted latest first by `new Date(date)` |
| JournalPage.ChainKeepsSurvivors | frontend/src/components/pages/JournalPage.js:89-156 | after the first k blocks the list is the input filtered by the first k tests |
| JournalPage.StageStep | frontend/src/components/pages/JournalPage.js:89-156 | one more block narrows the survivors of k blocks to those of k+1 |
| JournalPage.SurvivingAllIsMatching | frontend/src/components/pages/JournalPage.js:89-156 | passing all six blocks is the conjunction of every set control |
| JournalPage.FilteredCount | frontend/src/components/pages/JournalPage.js:83-161 | the displayed list holds each matching entry as often as fetched, and no other |
| JournalPage.NoActiveStageKeepsAll | frontend/src/components/pages/JournalPage.js:89-156 | with no control set no filter runs and the list is the fetched one |
| JournalPage.NoFilterKeepsAll | frontend/src/components/pages/JournalPage.js:83-161 | with no control set the display is the fetched entries, only reordered |
| JournalPage.FilteredNewestFirst | frontend/src/components/pages/JournalPage.js:83-161 | the displayed list is latest first; a list not yet fetched shows nothing |
| JournalPage.FilteredTiesKeepOrder | frontend/src/components/pages/JournalPage.js:158-160 | entries at the same instant keep their fetched order |
| JournalPage.SearchIgnoresContent | frontend/src/components/pages/JournalPage.js:91-95 | the search looks at the title only |
| JournalPage.IntToStringInjective | frontend/src/components/pages/JournalPage.js:97-131 | distinct ratings print differently, so a selected value picks one rating |
| JournalPage.RatingMatchesExactly | frontend/src/components/pages/JournalPage.js:97-131 | a rating control keeps an entry iff its rating equals the selected number; a missing rating never matches |
| JournalPage.DateRangeByDay | frontend/src/components/pages/JournalPage.js:133-156 | both date bounds are inclusive and compare whole days |
| JournalPage.StartAfterEndIsEmpty | frontend/src/components/pages/JournalPage.js:133-156 | a start day after the end day empties the list |
| JournalPage.SentimentFiveScenario | frontend/src/components/pages/JournalPage.js:97-104 | two entries with sentiment 5 and 2: selecting "5" shows only the first |
| JournalPage.RefreshFilteredEntries | frontend/src/components/pages/JournalPage.js:83-161 | the effect produces `FilteredEntries`; with no control set it sorts the fetched array in place and shows that array, otherwise it sorts a fresh copy and leaves the fetched array alone |
| JournalPage.SaveEntry | frontend/src/components/pages/JournalPage.js:212-229 | an update iff the form has a truthy id, carrying that id; the payload copies title, content, date and the four ratings under the API's names |
| JournalPage.EditAndSaveRoundTrip | frontend/src/components/pages/JournalPage.js:212-229 | opening a stored entry and saving it updates that entry with its own title, content and ratings (3 for a missing one) and the date cut at `T`, so the saved date has no `T` |
| JournalCalendar.CreateDaysArray | frontend/src/components/calendar/JournalCalendar.js:28-51 | the loop pushes exactly 35 cells, cell i being `CellAt(i)` |
| JournalCalendar.CellAt | frontend/src/components/calendar/JournalCalendar.js:35-47 | cell i stands for day i - weekday + 1: before the 1st it shows 30 plus that, after day 31 it shows that minus 31, and only days 1 to 31 are in the month and can be marked |
| JournalCalendar.DisplayedDayInRange | frontend/src/components/calendar/JournalCalendar.js:35-47 | every number shown is between 1 and 31 |
| JournalCalendar.DisplayedDayLayout | frontend/src/components/calendar/JournalCalendar.js:35-47 | leading cells show the end of a 30-day previous month, month cells 1, 2, ..., and trailing cells restart at 1 |
| JournalCalendar.CurrentMonthCellCount | frontend/src/components/calendar/JournalCalendar.js:35-47 | the month gets min(31, 35 - weekday of the 1st) cells, so days 30 and 31 can fall off the grid |
| JournalCalendar.MarkedIff | frontend/src/components/calendar/JournalCalendar.js:7-12 | a cell is marked iff it is in the month and some entry has that day of the month |
| JournalCalendar.HasEntry | frontend/src/components/calendar/JournalCalendar.js:7-12 | some entry's day of the month is the given day |
| JournalCalendar.EntryTitleIsFirstMatch | frontend/src/components/calendar/JournalCalendar.js:14-20 | the title shown is that of the first entry on the day, or `''` |
| JournalCalendar.EntryTitle | frontend/src/components/calendar/JournalCalendar.js:14-20 | the title of the first entry on the given day, or `''` |
| JournalCalendar.MonthAndYearIgnored | frontend/src/components/calendar/JournalCalendar.js:7-20 | entries that differ only in month and year give the same grid |
| GoalList.PriorityRank | frontend/src/components/goals/GoalList.js:5-15 | the rank is 1 to 4; 1, 2 and 3 exactly for "High", "Medium" and "Low" |
| GoalList.SortedGoals | frontend/src/components/goals/GoalList.js:11-15 | a sorted copy of the goals, by priority rank |
| GoalList.NamedPrioritiesRank | frontend/src/components/goals/GoalList.js:5-9 | the named priorities rank in the order High, Medium, Low |
| GoalList.SortedGoalsPermutes | frontend/src/components/goals/GoalList.js:11-15 | the grid shows every goal exactly as often as given |
| GoalList.SortedGoalsByRank | frontend/src/components/goals/GoalList.js:11-15 | no goal is shown after one of lower priority; unknown priorities come last |
| GoalList.SortedGoalsStable | frontend/src/components/goals/GoalList.js:11-15 | goals of equal rank keep their order |
| GoalList.HintIffNoCards | frontend/src/components/goals/GoalList.js:28-32 | the empty hint shows iff there are no cards |
| CrudUtils.GoalRecord.constructor | backend/app/db/crud/utils.py:13-33 | a goal object holds the given id, title and entry list |
| CrudUtils.PySliceTo | backend/app/db/crud/utils.py:32 | `s[:k]` is a prefix of length min(k, len) for k >= 0, and len + k (at least 0) for negative k |
| CrudUtils.Truncate | backend/app/db/crud/utils.py:28-32 | one pass of the loop body: a non-empty `journal_entries` is replaced by its most recent entries; `None` and `[]` are left alone |
| CrudUtils.TruncateGoal | backend/app/db/crud/utils.py:27-32 | the loop body replaces a non-empty entry list by its most recent entries and leaves `None` or `[]` alone |
| CrudUtils.GetRecentEntries | backend/app/db/crud/utils.py:13-33 | returns the same list; each listed goal has had the body applied once per occurrence; only `journal_entries` changes |
| CrudUtils.OccurrencesCount | backend/app/db/crud/utils.py:27 | the per-occurrence count used by the loop is the multiset count |
| CrudUtils.RecentCount | backend/app/db/crud/utils.py:29-32 | at most `max_entries_per_goal` remain (all when fewer); a negative limit drops that many |
| CrudUtils.RecentAreMostRecent | backend/app/db/crud/utils.py:29-32 | the kept entries are latest first, no dropped entry is more recent than a kept one, and they come from the original list |
| CrudUtils.RecentTiesKeepOrder | backend/app/db/crud/utils.py:29-31 | entries of the same date keep their order under `sorted(..., reverse=True)` |
| CrudUtils.RecentIdempotent | backend/app/db/crud/utils.py:29-32 | truncating twice with a non-negative limit equals truncating once |
| CrudUtils.EmptyUntouched | backend/app/db/crud/utils.py:28 | goals without entries are never changed |
| CrudUtils.RepeatedGoalTruncatedOnce | backend/app/db/crud/utils.py:27-32 | a goal listed several times ends up as if listed once (non-negative limit) |
| CrudUtils.NegativeLimitDropsOldest | backend/app/db/crud/utils.py:32 | a negative limit keeps all but that many of the oldest entries |
| AnalyticsUtils.DaysRoundTrip | backend/app/utils/analytics.py:10-11 | "<n>days" is n days |
| AnalyticsUtils.ParsePeriodToDays | backend/app/utils/analytics.py:8-19 | the branches in the order written: a suffix "days", "months" or "years" is removed everywhere and the rest read by `int()` (times 1, 30 or 365) outside the `try`; otherwise `int(period)`, with `ValueError` turned into the 400 error |
| AnalyticsUtils.MonthsRoundTrip | backend/app/utils/analytics.py:12-13 | "<n>months" is 30n days |
| AnalyticsUtils.YearsRoundTrip | backend/app/utils/analytics.py:14-15 | "<n>years" is 365n days |
| AnalyticsUtils.BareIntegerRoundTrip | backend/app/utils/analytics.py:16-17 | a bare integer is that many days |
| AnalyticsUtils.UnitRemovedEverywhere | backend/app/utils/analytics.py:10-11 | `replace` removes every occurrence of the unit, so "1days2days" reads as 12 days |
| AnalyticsUtils.SingularUnitRejected | backend/app/utils/analytics.py:16-19 | a number followed by a word not ending in "s" (such as "1year") is the 400 error |
| AnalyticsUtils.SingularUnitExamples | backend/app/utils/analytics.py:16-19 | "1year" and "1day" are the 400 error |
| AnalyticsUtils.MalformedNumberEscapes | backend/app/utils/analytics.py:10-11 | as written, a malformed number before "days" raises an uncaught `ValueError` |
| AnalyticsUtils.MalformedNumberExample | backend/app/utils/analytics.py:10-11 | "x" is such a malformed number |
| AnalyticsUtils.ParsePeriodToDaysChecked | backend/app/utils/analytics.py:8-19 | with every `int()` guarded, no `ValueError` escapes and every HTTP error is the 400 "Invalid period format." |
| AnalyticsUtils.CheckedAgrees | backend/app/utils/analytics.py:8-19 | the guarded parser agrees with the original wherever the original returns, and answers 400 where it raised |
| AnalyticsUtils.CheckedRejectsMalformedNumber | backend/app/utils/analytics.py:10-19 | the guarded parser rejects "xdays" with 400 |
| EntryForm.Default | frontend/src/components/journal/EntryForm.js:14-22 | a blank form has no id, empty title and content, every slider at 3, and as date the clock's ISO string up to its first `T` (the whole string when it has none) |
| EntryForm.EditInit | frontend/src/components/journal/EntryForm.js:24-49 | the draft loaded from an entry: its id, title and content, its date cut at the first `T` (empty when the date is empty), and each rating or 3 when missing |
| EntryForm.EditInitLoads | frontend/src/components/journal/EntryForm.js:24-49 | editing loads the entry's id, title and content, its date cut at `T`, and each rating (3 when missing), all within 1-5 |
| EntryForm.ApplyChange | frontend/src/components/journal/EntryForm.js:63-69 | a slider event stores `parseInt(value, 10)` in its slider; a text event stores the text in its field |
| EntryForm.ApplyChangeUpdatesOneField | frontend/src/components/journal/EntryForm.js:63-69 | a slider event stores `parseInt` of its value in that slider only; a text event stores its text in that field only; nothing else changes |
| EntryForm.HandleSubmit | frontend/src/components/journal/EntryForm.js:71-78 | the draft is saved unchanged iff title, content and date are non-empty, otherwise the alert text is shown |
| EntryForm.DefaultRejected | frontend/src/components/journal/EntryForm.js:14-22 | a blank form cannot be submitted |
| EntryForm.SliderKeepsSubmittability | frontend/src/components/journal/EntryForm.js:63-78 | moving a slider never changes whether the form can be submitted |
| EntryForm.EditedEntrySubmittable | frontend/src/components/journal/EntryForm.js:24-78 | an edited entry can be submitted iff its title, content and date are non-empty and the date does not start with `T` |
| GoalForm.PriorityString | frontend/src/components/goals/GoalForm.js:14-15 | a slider position names a priority iff it is 0, 1 or 2 |
| GoalForm.PrioritySliderValue | frontend/src/components/goals/GoalForm.js:16-17 | a priority's slider position is -1 exactly for unknown names |
| GoalForm.PriorityNameRoundTrip | frontend/src/components/goals/GoalForm.js:14-17 | a named priority survives the trip to the slider and back |
| GoalForm.SliderPositionRoundTrip | frontend/src/components/goals/GoalForm.js:14-17 | a slider position survives the trip to a name and back |
| GoalForm.Default | frontend/src/components/goals/GoalForm.js:4-12 | the blank goal is One-time, priority Low, progress 0, with empty text fields |
| GoalForm.EditInit | frontend/src/components/goals/GoalForm.js:19-27 | the draft loaded from a goal: its fields, the target date cut at the first `T` (empty when missing or empty), priority "Low" when missing or empty |
| GoalForm.EditInitLoads | frontend/src/components/goals/GoalForm.js:19-27 | editing copies the goal, cuts the target date at `T` (empty when missing) and defaults a missing or empty priority to Low |
| GoalForm.ApplyChange | frontend/src/components/goals/GoalForm.js:44-67 | the priority slider stores the level name at `parseInt` of its value; the progress slider stores `parseInt`; choosing Recurring clears the target date; a text input stores its text |
| GoalForm.SlidersStoreTheirValue | frontend/src/components/goals/GoalForm.js:44-55 | the priority slider stores the named level (undefined beyond 2); the progress slider stores its number |
| GoalForm.TypeChange | frontend/src/components/goals/GoalForm.js:56-61 | choosing Recurring clears the target date; nothing else changes |
| GoalForm.TextChange | frontend/src/components/goals/GoalForm.js:62-67 | a text input changes only its own field |
| GoalForm.ToSaved | frontend/src/components/goals/GoalForm.js:81-84 | the saved goal lacks a target date iff it is Recurring |
| GoalForm.HandleSubmit | frontend/src/components/goals/GoalForm.js:70-87 | saves iff title and category are set and a One-time goal has a date; each failure shows its own alert |
| GoalForm.SavedGoalIsState | frontend/src/components/goals/GoalForm.js:81-86 | what is handed to `onSave` is the form state, minus the target date for Recurring goals |
| GoalForm.DefaultRejected | frontend/src/components/goals/GoalForm.js:72-75 | the blank form is rejected with the title/category alert |
| GoalForm.RecurringRoundTripLosesDate | frontend/src/components/goals/GoalForm.js:56-61 | switching to Recurring and back loses the target date, so submitting asks for the date |
| GoalForm.EditedGoalSubmittable | frontend/src/components/goals/GoalForm.js:19-87 | an edited One-time goal with a date is submittable, with the date part of its target date and its own priority |
| GoalPage.SaveGoal | frontend/src/components/pages/GoalPage.js:61-77 | an update iff the goal has a truthy id, carrying that id and the payload |
| GoalPage.Payload | frontend/src/components/pages/GoalPage.js:62-69 | the six descriptive fields of the goal, and its progress only when it has a truthy id |
| GoalPage.PayloadCopiesFields | frontend/src/components/pages/GoalPage.js:62-69 | the payload copies the six descriptive fields, and progress exactly when editing |
| GoalPage.DeleteGoal | frontend/src/components/pages/GoalPage.js:79-83 | the delete is issued iff the user confirms, for that id |
| GoalPage.NewRecurringGoalPayload | frontend/src/components/pages/GoalPage.js:61-77 | a new Recurring goal is created with no target date and no progress |
| GoalPage.EditAndSaveGoal | frontend/src/components/pages/GoalPage.js:61-77 | editing and saving a stored goal updates it with its progress, date part and priority |
| JournalEntryForm.ValidateReports | frontend/src/components/JournalEntryForm.js:28-36 | a blank title is reported first, then a blank content; anything with non-space text passes |
| JournalEntryForm.RequestFor | frontend/src/components/JournalEntryForm.js:41-67 | a PUT to the entry's URL when the entry has a truthy id, else a POST to the collection; the body has title, content and the mood or `null` |
| JournalEntryForm.Validate | frontend/src/components/JournalEntryForm.js:28-36 | "Title is required" when the trimmed title is empty, else "Content is required" when the trimmed content is empty, else no error |
| JournalEntryForm.RequestChoosesVerb | frontend/src/components/JournalEntryForm.js:41-67 | PUT to the entry's URL iff the entry has an id, else POST to the collection; the body has the typed text and `mood \|\| null` |
| JournalEntryForm.PutUrlsDistinct | frontend/src/components/JournalEntryForm.js:49-58 | distinct entries are saved to distinct URLs |
| JournalEntryForm.OutcomeOf | frontend/src/components/JournalEntryForm.js:69-81 | a fetch or JSON-parse failure gives its own message; a reply that is not ok gives its `error` field or "Failed to save entry"; an ok reply is saved |
| JournalEntryForm.OutcomeReports | frontend/src/components/JournalEntryForm.js:69-81 | only an ok JSON reply reaches `onSave`; otherwise the fetch error, the parse error, the `error` field or "Failed to save entry" is shown |
| JournalEntryForm.FailedSaveReportsAMessage | frontend/src/components/JournalEntryForm.js:69-72 | a failed save never reaches `onSave` and always shows a non-empty message |
| JournalEntryForm.TitleCheckedFirst | frontend/src/components/JournalEntryForm.js:28-31 | a blank title is reported whatever the content |
| JournalEntryForm.PaddedTextSentVerbatim | frontend/src/components/JournalEntryForm.js:28-45 | surrounding spaces pass validation and are sent untrimmed |
| JournalEntryForm.Form.constructor | frontend/src/components/JournalEntryForm.js:4-8 | the five state variables start empty, not saving, with no error |
| JournalEntryForm.Form.Init | frontend/src/components/JournalEntryForm.js:11-22 | the effect copies the entry's fields (missing ones as `''`) or clears them |
| JournalEntryForm.Form.HandleSubmit | frontend/src/components/JournalEntryForm.js:24-85 | a validation failure sets the error and sends nothing; otherwise the request for the current text is sent, `saving` ends false, and the outcome is recorded |
| JournalEntryForm.Form.Send | frontend/src/components/JournalEntryForm.js:38-84 | sends `RequestFor(...)`, appends a saved document to the `onSave` log or sets the error, and clears `saving` |
| Api.HandleResponse | frontend/src/api/api.js:5-18 | resolves with the data iff the response is ok, otherwise rejects with the error message |
| Api.ErrorMessage | frontend/src/api/api.js:6-14 | "HTTP error! status: " followed by the status, " - " and the explanation |
| Api.ErrorMessageParts | frontend/src/api/api.js:6-14 | the message is "HTTP error! status: <status> - " plus the JSON `detail`, the stringified document, or the text |
| Api.PlainTextWithoutJsonType | frontend/src/api/api.js:7-13 | without a JSON content type the raw text is reported |
| Api.SpliceAtIndexOf | frontend/src/api/api.js:44-49 | `indexOf` + `splice` removes the first occurrence, or nothing |
| Api.RemoveFirstMultiset | frontend/src/api/api.js:44-49 | removing drops exactly one copy of the listener |
| Api.RemoveFirstLength | frontend/src/api/api.js:44-49 | removing shortens the list by one iff the listener is registered |
| Api.RemoveAfterAdd | frontend/src/api/api.js:40-49 | adding then removing a new listener restores the list |
| Lists.IndexOf | frontend/src/api/api.js:45 | `indexOf` is the first position holding the value, or -1 iff absent |
| Lists.RemoveAt | frontend/src/api/api.js:47 | `splice(i, 1)` drops exactly position i |
| Lists.RemoveAtMultiset | frontend/src/api/api.js:47 | `splice(i, 1)` removes exactly that element |
| Api.ListenerRegistry.constructor | frontend/src/api/api.js:38 | the registry starts empty |
| Api.ListenerRegistry.Add | frontend/src/api/api.js:40-42 | appends the listener |
| Api.ListenerRegistry.Remove | frontend/src/api/api.js:44-49 | removes the first occurrence only |
| Api.ListenerRegistry.Notify | frontend/src/api/api.js:51-53 | calls every listener once, in registration order |
| Api.UrlNamesRecord | frontend/src/api/api.js:78-163 | update and delete URLs are the collection URL followed by the record's id |
| Api.SaveAndNotify | frontend/src/api/api.js:64-90 | the result is `handleResponse`'s, and listeners are notified iff the response was ok |
| Api.DeleteAndNotify | frontend/src/api/api.js:92-110 | resolves with `true` iff ok, notifying listeners; otherwise rejects with the error message and notifies nobody |
| Api.FetchedEntriesNewestFirst | frontend/src/api/api.js:56-62 | an ok fetch returns every entry sent, latest first, ties in server order; a failed one rejects with the message |
| Api.FetchJournalEntries | frontend/src/api/api.js:56-62 | the rejection of a failed response, or the entries of an ok one sorted latest first |
| EntryView.BandOf | frontend/src/components/journal/EntryCard.js:22-44 | the three thresholds `>= 4`, `<= 2`, otherwise 3 |
| EntryView.RatingBand | frontend/src/components/journal/EntryCard.js:18-44 | a printed rating parses back to its own band |
| EntryView.NoBandWithoutNumber | frontend/src/components/journal/EntryCard.js:18-20 | a missing or non-numeric value has no band |
| EntryView.OutOfFiveReadsBack | frontend/src/components/journal/EntryCard.js:60-99 | the caption "<r>/5" ends in "/5" and `parseInt` reads r back from it |
| EntryView.RatingCells | frontend/src/components/journal/EntryCard.js:60-99 | one cell per present rating, in the fixed order sentiment, sleep, stress, social |
| EntryView.RatingsCount | frontend/src/components/journal/EntryCard.js:60-99 | there are as many cells as present ratings, and the row shows iff one is present |
| EntryView.RatingsAreOwn | frontend/src/components/journal/EntryCard.js:60-99 | every cell is a known metric showing the entry's own rating for it |
| EntryView.RatingsDistinct | frontend/src/components/journal/EntryCard.js:60-99 | no metric is shown twice |
| EntryView.RatingRowShowsPresentRatings | frontend/src/components/journal/EntryCard.js:60-99 | the row shows iff some rating is present; each cell has caption "<rating>/5" and the icon for its metric |
| EntryView.DateLine | frontend/src/components/journal/EntryCard.js:57 | "No date" for an empty date, the formatted date otherwise |
| EntryCard.CardIconShape | frontend/src/components/journal/EntryCard.js:17-46 | an icon is drawn iff the type is known and the value parses; its shape follows the band |
| EntryCard.RenderStateIcon | frontend/src/components/journal/EntryCard.js:17-46 | no icon for a missing value or one `parseInt` cannot read; otherwise per type: 4 and up, 2 and below, and 3 get their own icon and colour; an unknown type gets none |
| EntryCard.CardColors | frontend/src/components/journal/EntryCard.js:22-44 | yellow iff 3; green for high and red for low, reversed for stress |
| EntryCard.RatingGetsIcon | frontend/src/components/journal/EntryCard.js:17-44 | every 1-5 rating of a known metric gets the icon of its band |
| EntryCard.NoIconWithoutNumberOrType | frontend/src/components/journal/EntryCard.js:18-20 | no icon for a null or non-numeric value or an unknown type |
| EntryCard.CardShowsEntry | frontend/src/components/journal/EntryCard.js:48-99 | the card shows the title, the date line, and a ratings row iff a rating is present, each cell with its band's icon |
| EntryDetail.DetailAgreesWithCard | frontend/src/components/journal/EntryDetail.js:7-33 | the detail draws an icon iff the card does, of the same shape; sentiment icons are identical |
| EntryDetail.RenderStateIcon | frontend/src/components/journal/EntryDetail.js:7-33 | the same thresholds and tests as the card, with the detail view's own icons and colours |
| EntryDetail.DetailColors | frontend/src/components/journal/EntryDetail.js:12-31 | the detail's own color tables: sleep yellow/blue/gray, stress red/green/gray, social blue for high and gray otherwise |
| EntryDetail.LowSocialLooksAlike | frontend/src/components/journal/EntryDetail.js:27-31 | social ratings 1 to 3 draw the same gray single-user icon |
| EntryDetail.DetailShowsEntry | frontend/src/components/journal/EntryDetail.js:36-107 | no entry shows nothing; otherwise title, date line, content, and a ratings row iff the card has one |
| EntryDetail.SameCellsUpToIcon | frontend/src/components/journal/EntryDetail.js:71-101 | detail and card show the same metrics, ratings and captions; only the icon colors differ |
| AnalyticsDashboard.DashboardShapesMatchEntries | frontend/src/components/analytics/AnalyticsDashboard.js:126-145 | for whole numbers the dashboard icons agree with the entry views' thresholds |
| AnalyticsDashboard.AverageBands | frontend/src/components/analytics/AnalyticsDashboard.js:126-145 | for averages the middle icon shows strictly between 2 and 4; all four switch to their high icon at the same threshold |
| AnalyticsDashboard.StatCaption | frontend/src/components/analytics/AnalyticsDashboard.js:51 | a rating's card appends "/5" to the value; other cards show it as is |
| AnalyticsDashboard.InitiallyOnlySentiment | frontend/src/components/analytics/AnalyticsDashboard.js:67-72 | only the sentiment trend is shown at first |
| AnalyticsDashboard.Toggle | frontend/src/components/analytics/AnalyticsDashboard.js:74-76 | the visibility map with the given trend negated |
| AnalyticsDashboard.ToggleFlipsOne | frontend/src/components/analytics/AnalyticsDashboard.js:74-76 | a toggle flips one trend, leaves the others alone, and a second toggle undoes it |
| AnalyticsDashboard.At | frontend/src/components/analytics/AnalyticsDashboard.js:91-98 | an index past the end reads as missing |
| AnalyticsDashboard.ZipTrends | frontend/src/components/analytics/AnalyticsDashboard.js:91-98 | one chart point per date |
| AnalyticsDashboard.Unzip | frontend/src/components/analytics/AnalyticsDashboard.js:91-98 | taking the points apart gives five columns as long as the point list |
| AnalyticsDashboard.UnzipZip | frontend/src/components/analytics/AnalyticsDashboard.js:91-98 | with columns of equal length, zipping loses nothing |
| AnalyticsDashboard.ZipUnzip | frontend/src/components/analytics/AnalyticsDashboard.js:91-98 | points taken apart and zipped again are unchanged |
| AnalyticsDashboard.ZipTakesIndex | frontend/src/components/analytics/AnalyticsDashboard.js:91-98 | point i holds the i-th value of each column, missing beyond a short column |
| AnalyticsDashboard.Augment | frontend/src/components/analytics/AnalyticsDashboard.js:99-113 | augmenting keeps the number of points |
| AnalyticsDashboard.AugmentKeepsFields | frontend/src/components/analytics/AnalyticsDashboard.js:99-113 | point i gains `x_avg`/`y_avg` from the i-th averages and keeps every other field |
| AnalyticsDashboard.AugmentIdempotent | frontend/src/components/analytics/AnalyticsDashboard.js:99-113 | augmenting twice equals augmenting once, so a correlation listed twice ends the same |
| AnalyticsDashboard.Correlation.constructor | frontend/src/components/analytics/AnalyticsDashboard.js:99-113 | a correlation holds its data and average columns |
| AnalyticsDashboard.AugmentAll | frontend/src/components/analytics/AnalyticsDashboard.js:99-113 | every listed correlation's data is augmented in place; the averages stay |
| AnalyticsDashboard.Dashboard.constructor | frontend/src/components/analytics/AnalyticsDashboard.js:58-72 | loading, no error, no data, only sentiment visible |
| AnalyticsDashboard.Dashboard.HandleTrendToggle | frontend/src/components/analytics/AnalyticsDashboard.js:74-76 | the visibility map is toggled at that trend |
| AnalyticsDashboard.Dashboard.FetchData | frontend/src/components/analytics/AnalyticsDashboard.js:78-121 | loading ends; on failure the fixed error is set and the data kept; on success the error clears and the stats, zipped trends and augmented correlations are stored |
| EntryList.MoodEmojiIgnoresCase | frontend/src/components/EntryList.js:31-42 | the emoji depends on the lower-cased mood; one is drawn iff it is one of the three moods, and it names that mood |
| EntryList.MoodEmoji | frontend/src/components/EntryList.js:31-42 | the emoji for "good", "neutral" or "not great" after lower-casing; nothing for a missing or other mood |
| EntryList.CapitalisedMoods | frontend/src/components/EntryList.js:31-42 | "Good", "NEUTRAL" and "Not Great" get their emoji |
| EntryList.FormatDate | frontend/src/components/EntryList.js:45-52 | a formatting failure shows the raw date string |
| EntryList.Preview | frontend/src/components/EntryList.js:75-77 | content of at most 100 characters is shown whole, longer content as its first 100 plus "..." |
| EntryList.PreviewProperties | frontend/src/components/EntryList.js:75-77 | the preview is at most 103 long, idempotent, and equal to the content iff the content is short or already a 103-character preview |
| EntryList.ListShowsEveryEntry | frontend/src/components/EntryList.js:54-80 | when loaded without error every entry gets one item, in order, with its title, its preview, and a mood line iff it has a non-empty mood |
| GeminiAgent.ParseAll | backend/app/services/gemini_agent.py:306-309 | all pieces parse, giving their values, or some piece fails `int()` |
| GeminiAgent.ExtractGoalIds | backend/app/services/gemini_agent.py:306-309 | the reply split on commas, each piece stripped and read by `int()`; `[]` when any piece fails |
| GeminiAgent.GoalIdsCount | backend/app/services/gemini_agent.py:306-309 | a reply that parses gives one id per comma plus one |
| GeminiAgent.NoIdsForEmptyOrTrailingComma | backend/app/services/gemini_agent.py:306-309 | an empty reply or a trailing comma yields `[]` |
| GeminiAgent.PaddedNumber | backend/app/services/gemini_agent.py:306-307 | `int(x.strip())` reads " <n>" as n |
| GeminiAgent.IdsTextPieces | backend/app/services/gemini_agent.py:301-307 | splitting "2, 5, 7" on commas gives the printed ids, each after the first with one leading space |
| GeminiAgent.GoalIdsRoundTrip | backend/app/services/gemini_agent.py:301-309 | a reply in the prompted format "2, 5, 7" parses back to exactly those ids |
| GeminiAgent.JoinValues | backend/app/services/gemini_agent.py:223-224 | joining nothing gives "" and one value gives it unchanged |
| GeminiAgent.JoinValuesSplitsBack | backend/app/services/gemini_agent.py:223-224 | values without commas, joined with ", ", split back into the same values up to surrounding space |
| Text.PyIntOfIntToString | backend/app/services/gemini_agent.py:307 | `int(str(n)) == n` |
| Text.JsParseIntOfNatToString | frontend/src/components/journal/EntryForm.js:63-69 | `parseInt` reads back a printed natural number and stops at the first non-digit |
| Text.StripEmptyIffBlank | frontend/src/components/JournalEntryForm.js:28-36 | `trim()` (and Python's `strip()`) is empty iff the text is all white space under that language's rule |
| Text.SplitJoin | backend/app/services/gemini_agent.py:306-307 | `split` undoes `join` for pieces without the separator |
| Text.LowerIdempotent | frontend/src/components/EntryList.js:33 | lower-casing twice equals lower-casing once |

## Left out

- Network I/O, `async` and promises are left out. `fetch`, `response.json()` and the React Query mutations become parameters or returned request values. The server's reply is an input.
- React rendering, JSX markup, styling, icons' pixels, effects' scheduling and re-render timing are left out. Each component is its state plus the values it shows.
- `fetchCalendarData` (api.js lines 21-35) is left out. It is two `handleResponse` calls, each covered by `Api.HandleResponse`.
- The AI chat call in api.js and every LLM request in the agent are left out, because they are calls into external services. Only the parsing of their replies and the joining of their lists are modelled.
- `response.text` being `None` in the agent (an `AttributeError`, not the caught `ValueError`) is left out, because it depends on the external client library.
- Real date parsing, time zones and locale formatting are left out. `new Date(...)` is a parameter `string -> int`, and `format`/`toLocaleDateString` are parameters. Invalid dates (NaN instants) are not modelled.
- Unicode case mapping and non-ASCII white space (such as U+00A0, U+2028 and U+3000, which `trim()` and `strip()` also remove) are left out, because strings are treated as ASCII only. JavaScript's UTF-16 string lengths are also left out: `substring(0, 100)` counts characters here.
- Python `int()` accepting underscores and non-ASCII digits is left out, as is `parseInt` with a radix other than 10.
- Text.JsParseIntOfNatToString: the `parseInt` round trip is stated for natural numbers only. Ratings and slider values are never negative.
- JavaScript's distinction between `null` and `undefined` is left out: both are `None`.
- Entry and goal fields that the core does not read are left out (timestamps, tags, mood on the page's entries).
- Rendering of the dashboard's averages as decimal text (`toFixed`) is left out. Stat values reach `StatCaption` as text.
- The analytics summary request and the broken analytics imports of the page are left out. The dashboard's fetch result is a parameter (`FetchData`).
- A listener that adds or removes listeners while `notifyCalendarUpdate` runs is left out. `Notify` calls the list as it stands.
- An `onSave` callback that throws is left out.
- The database and HTTP route layers and `backend/app/services/analytics.py` are not part of this model.
- The calendar grid always has 35 cells and a 31-day month, as the code has it. That code differs from a fuller month or week view, and the model follows the code: `CurrentMonthCellCount` shows the days that fall off.
- Ratings are the raw integers 1-5 on every scale. The stress scale's labelling (whether 5 means high or low stress) is not interpreted beyond the colors the views draw.

## Findings

| source | as written | input that shows it | evidently intended | confidence | as-written member | corrected member |
|---|---|---|---|---|---|---|
| backend/app/utils/analytics.py:10-19 | only the final `int(period)` sits inside `try`, so `int()` on the text before "days", "months" or "years" raises an uncaught `ValueError` | "xdays" | the HTTP 400 "Invalid period format." for every malformed period | not executed | AnalyticsUtils.MalformedNumberEscapes | AnalyticsUtils.CheckedRejectsMalformedNumber |
