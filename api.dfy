/**
 * The front end's API client (`frontend/src/api/api.js`): the error message
 * built from a failed response, the calendar-update listener registry, the
 * date ordering of fetched journal entries, and the rule that a create,
 * update or delete tells the listeners only after the server accepted it.
 *
 * `fetch` itself is left out: each operation takes the response it would
 * receive, already read (`detail`, `JSON.stringify(errorData)`, the text).
 */
module Api {
  import opened Wrappers
  import opened Text
  import opened Records
  import opened StableSort
  import opened Lists

  const ApiBaseUrl: string := "http://localhost:8000"
  const ErrorPrefix: string := "HTTP error! status: "

  /**
   * A response: the `ok` flag, the status code, the `content-type` header
   * (`null` when absent), and the body read three ways: the parsed `data`,
   * the `detail` field and `JSON.stringify` of an error document, and the
   * raw text.
   */
  datatype Response<D> = Response(
    ok: bool,
    status: nat,
    contentType: Option<string>,
    detail: Option<string>,
    errorJson: string,
    text: string,
    data: D)

  /** How an `async` API function settles: it resolves with a value or rejects with an `Error`'s message. */
  datatype Outcome<T> = Resolved(value: T) | Rejected(message: string)

  /** `contentType && contentType.indexOf("application/json") !== -1`. */
  predicate IsJson(contentType: Option<string>) {
    contentType.Some? && contentType.value != "" && Contains(contentType.value, "application/json")
  }

  /** What follows the status in the message: `detail` (or the whole error document) for JSON, the raw text otherwise. */
  function Explanation<D>(r: Response<D>): string {
    if IsJson(r.contentType) then
      (if r.detail.Some? && r.detail.value != "" then r.detail.value else r.errorJson)
    else r.text
  }

  /** The message of the `Error` thrown for a failed response. */
  function ErrorMessage<D>(r: Response<D>): string {
    ErrorPrefix + NatToString(r.status) + (" - " + Explanation(r))
  }

  /** `handleResponse`: reject with the error message, or resolve with the parsed body. */
  function HandleResponse<D>(r: Response<D>): (o: Outcome<D>)
    ensures o.Resolved? <==> r.ok
    ensures o.Resolved? ==> o.value == r.data
    ensures o.Rejected? ==> o.message == ErrorMessage(r)
  {
    if !r.ok then Rejected(ErrorMessage(r)) else Resolved(r.data)
  }

  /**
   * The message can be taken apart again: after the fixed prefix,
   * `parseInt` reads back the status code, and the message ends with
   * " - " and the explanation, which is `detail` when a JSON body has one.
   */
  lemma ErrorMessageParts<D>(r: Response<D>)
    ensures var m := ErrorMessage(r);
      |m| >= |ErrorPrefix| && m[..|ErrorPrefix|] == ErrorPrefix &&
      JsParseInt(m[|ErrorPrefix|..]) == Int(r.status)
    ensures var m, x := ErrorMessage(r), " - " + Explanation(r);
      |m| >= |x| && m[|m| - |x|..] == x
    ensures IsJson(r.contentType) && r.detail.Some? && r.detail.value != "" ==> Explanation(r) == r.detail.value
    ensures IsJson(r.contentType) && (r.detail.None? || r.detail == Some("")) ==> Explanation(r) == r.errorJson
    ensures !IsJson(r.contentType) ==> Explanation(r) == r.text
  {
    var digits, rest := NatToString(r.status), " - " + Explanation(r);
    SplitAfterPrefix(ErrorPrefix, digits, rest);
    JsParseIntOfNatToString(r.status, rest);
  }

  lemma SplitAfterPrefix(p: string, d: string, x: string)
    ensures var m := p + d + x;
      m[..|p|] == p && m[|p|..] == d + x && m[|m| - |x|..] == x
  {
  }

  /** A missing or empty content type, or one that does not name JSON, means the raw text is shown. */
  lemma PlainTextWithoutJsonType<D>(r: Response<D>)
    requires r.contentType.None? || !Contains(r.contentType.value, "application/json")
    ensures Explanation(r) == r.text
  {
  }

  // ---------------------------------------------------------------------------
  // The listener registry

  /** `calendarUpdateListeners.splice(calendarUpdateListeners.indexOf(l), 1)` as an independent definition. */
  function RemoveFirst<L(==)>(s: seq<L>, l: L): seq<L> {
    if |s| == 0 then []
    else if s[0] == l then s[1..]
    else [s[0]] + RemoveFirst(s[1..], l)
  }

  /** `indexOf` followed by `splice(index, 1)` removes the first occurrence, and nothing when there is none. */
  lemma SpliceAtIndexOf<L>(s: seq<L>, l: L)
    ensures IndexOf(s, l) == -1 ==> RemoveFirst(s, l) == s
    ensures IndexOf(s, l) != -1 ==> RemoveAt(s, IndexOf(s, l)) == RemoveFirst(s, l)
  {
    if l in s {
      SpliceFound(s, l);
    } else {
      RemoveAbsent(s, l);
    }
  }

  lemma {:induction false} RemoveAbsent<L>(s: seq<L>, l: L)
    requires l !in s
    ensures RemoveFirst(s, l) == s
  {
    if |s| > 0 {
      RemoveAbsent(s[1..], l);
      assert s == [s[0]] + s[1..];
    }
  }

  lemma {:induction false} SpliceFound<L>(s: seq<L>, l: L)
    requires l in s
    ensures RemoveAt(s, IndexOf(s, l)) == RemoveFirst(s, l)
  {
    if s[0] != l {
      var t := s[1..];
      assert l in t by { assert s == [s[0]] + t; }
      SpliceFound(t, l);
      var k := IndexOf(t, l);
      assert IndexOf(s, l) == k + 1;
      RemoveAtBehindHead(s[0], t, k);
      assert s == [s[0]] + t;
    }
  }

  lemma RemoveAtBehindHead<L>(x: L, t: seq<L>, k: nat)
    requires k < |t|
    ensures RemoveAt([x] + t, k + 1) == [x] + RemoveAt(t, k)
  {
  }

  /** Removing drops exactly one registration of the listener, or none when it is not registered. */
  lemma {:induction false} RemoveFirstMultiset<L>(s: seq<L>, l: L)
    ensures multiset(RemoveFirst(s, l)) == multiset(s) - multiset{l}
  {
    if |s| > 0 {
      RemoveFirstMultiset(s[1..], l);
      assert s == [s[0]] + s[1..];
    }
  }

  /** A listener that is not registered leaves the registry as it is; one that is shortens it by one. */
  lemma RemoveFirstLength<L>(s: seq<L>, l: L)
    ensures l !in s ==> RemoveFirst(s, l) == s
    ensures l in s ==> |RemoveFirst(s, l)| == |s| - 1
  {
    SpliceAtIndexOf(s, l);
    if l in s {
      RemoveAtMultiset(s, IndexOf(s, l));
    }
  }

  /** Adding a listener that was not registered and removing it again restores the registry. */
  lemma {:induction false} RemoveAfterAdd<L>(s: seq<L>, l: L)
    requires l !in s
    ensures RemoveFirst(s + [l], l) == s
  {
    if |s| > 0 {
      assert (s + [l])[1..] == s[1..] + [l];
      RemoveAfterAdd(s[1..], l);
      assert s == [s[0]] + s[1..];
    } else {
      assert s + [l] == [l];
    }
  }

  /** The module-level `calendarUpdateListeners` array. `calls` records every listener invocation, in order. */
  class ListenerRegistry<L(==)> {
    var listeners: seq<L>
    var calls: seq<L>

    constructor ()
      ensures listeners == [] && calls == []
    {
      listeners, calls := [], [];
    }

    /** `addCalendarUpdateListener`: `push`, so a listener added twice is registered twice. */
    method Add(l: L)
      modifies this`listeners
      ensures listeners == old(listeners) + [l]
    {
      listeners := listeners + [l];
    }

    /** `removeCalendarUpdateListener`: remove the first registration of `l`, if any. */
    method Remove(l: L)
      modifies this`listeners
      ensures listeners == RemoveFirst(old(listeners), l)
    {
      var index := IndexOf(listeners, l);
      SpliceAtIndexOf(listeners, l);
      if index != -1 {
        listeners := RemoveAt(listeners, index);
      }
    }

    /** `notifyCalendarUpdate`: call every registered listener once per registration, in registration order. */
    method Notify()
      modifies this`calls
      ensures calls == old(calls) + listeners
    {
      var i := 0;
      while i < |listeners|
        invariant 0 <= i <= |listeners|
        invariant calls == old(calls) + listeners[..i]
      {
        calls := calls + [listeners[i]];
        i := i + 1;
      }
      assert listeners[..i] == listeners;
    }
  }

  // ---------------------------------------------------------------------------
  // Operations

  /** The requests the client sends: the verb and the URL. */
  datatype Operation =
    | FetchEntries | CreateEntry | UpdateEntry(entryId: int) | DeleteEntry(entryId: int)
    | FetchGoals | CreateGoal | UpdateGoal(goalId: int) | DeleteGoal(goalId: int)

  const EntriesUrl: string := ApiBaseUrl + "/journal/entries/"
  const GoalsUrl: string := ApiBaseUrl + "/goals/"

  function Verb(op: Operation): string {
    match op
    case FetchEntries | FetchGoals => "GET"
    case CreateEntry | CreateGoal => "POST"
    case UpdateEntry(_) | UpdateGoal(_) => "PUT"
    case DeleteEntry(_) | DeleteGoal(_) => "DELETE"
  }

  function Url(op: Operation): string {
    match op
    case FetchEntries | CreateEntry => EntriesUrl
    case UpdateEntry(id) => EntriesUrl + IntToString(id)
    case DeleteEntry(id) => EntriesUrl + IntToString(id)
    case FetchGoals | CreateGoal => GoalsUrl
    case UpdateGoal(id) => GoalsUrl + IntToString(id)
    case DeleteGoal(id) => GoalsUrl + IntToString(id)
  }

  /** An update or a delete addresses the record by its id, under the collection's URL. */
  lemma UrlNamesRecord(op: Operation)
    ensures op.UpdateEntry? || op.DeleteEntry? ==>
      |Url(op)| > |EntriesUrl| && Url(op)[..|EntriesUrl|] == EntriesUrl && PyInt(Url(op)[|EntriesUrl|..]) == Some(op.entryId)
    ensures op.UpdateGoal? || op.DeleteGoal? ==>
      |Url(op)| > |GoalsUrl| && Url(op)[..|GoalsUrl|] == GoalsUrl && PyInt(Url(op)[|GoalsUrl|..]) == Some(op.goalId)
  {
    match op
    case UpdateEntry(id) =>
      assert Url(op)[|EntriesUrl|..] == IntToString(id);
      PyIntOfIntToString(id);
    case DeleteEntry(id) =>
      assert Url(op)[|EntriesUrl|..] == IntToString(id);
      PyIntOfIntToString(id);
    case UpdateGoal(id) =>
      assert Url(op)[|GoalsUrl|..] == IntToString(id);
      PyIntOfIntToString(id);
    case DeleteGoal(id) =>
      assert Url(op)[|GoalsUrl|..] == IntToString(id);
      PyIntOfIntToString(id);
    case _ =>
  }

  /**
   * `createJournalEntry`, `updateJournalEntry`, `createGoal` and `updateGoal`:
   * `handleResponse`, then `notifyCalendarUpdate` — reached only when the
   * response was ok, since a failed one throws first.
   */
  method SaveAndNotify<L(==), D>(registry: ListenerRegistry<L>, response: Response<D>) returns (result: Outcome<D>)
    modifies registry`calls
    ensures result == HandleResponse(response)
    ensures response.ok ==> registry.calls == old(registry.calls) + registry.listeners
    ensures !response.ok ==> registry.calls == old(registry.calls)
  {
    result := HandleResponse(response);
    if result.Rejected? {
      return;
    }
    registry.Notify();
  }

  /** `deleteJournalEntry` and `deleteGoal`: the same error check written inline, then notify and resolve with `true`. */
  method DeleteAndNotify<L(==), D>(registry: ListenerRegistry<L>, response: Response<D>) returns (result: Outcome<bool>)
    modifies registry`calls
    ensures response.ok <==> result == Resolved(true)
    ensures !response.ok ==> result == Rejected(ErrorMessage(response))
    ensures response.ok ==> registry.calls == old(registry.calls) + registry.listeners
    ensures !response.ok ==> registry.calls == old(registry.calls)
  {
    if !response.ok {
      return Rejected(ErrorMessage(response));
    }
    registry.Notify();
    result := Resolved(true);
  }

  /** `fetchJournalEntries`: the entries of an ok response, sorted latest first. */
  function FetchJournalEntries(response: Response<seq<Entry>>, parse: string -> int): Outcome<seq<Entry>> {
    match HandleResponse(response)
    case Rejected(m) => Rejected(m)
    case Resolved(data) => Resolved(Sort(data, Newest(parse)))
  }

  /**
   * A successful fetch returns every entry the server sent, each as often
   * as it was sent, latest first, with entries of the same instant in the
   * server's order; a failed one rejects with the error message.
   */
  lemma FetchedEntriesNewestFirst(response: Response<seq<Entry>>, parse: string -> int, t: int)
    ensures FetchJournalEntries(response, parse).Rejected? <==> !response.ok
    ensures !response.ok ==> FetchJournalEntries(response, parse).message == ErrorMessage(response)
    ensures response.ok ==> var r := FetchJournalEntries(response, parse).value;
      multiset(r) == multiset(response.data) &&
      (forall i, j :: 0 <= i < j < |r| ==> parse(r[i].date) >= parse(r[j].date)) &&
      WithKey(r, Newest(parse), -t) == WithKey(response.data, Newest(parse), -t)
  {
    SortPermutes(response.data, Newest(parse));
    SortSorted(response.data, Newest(parse));
    SortStable(response.data, Newest(parse), -t);
  }
}
