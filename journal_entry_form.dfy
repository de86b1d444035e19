/**
 * The stand-alone journal entry form (`frontend/src/components/JournalEntryForm.js`):
 * five state variables (`title`, `content`, `mood`, `saving`, `error`), the
 * effect that fills them from the entry being edited, and the submit handler
 * that validates, sends a POST or a PUT, and records the outcome.
 *
 * The server's answer is a parameter of the submit handler; the values
 * passed to `onSave` are kept, in order, in `savedLog`.
 */
module JournalEntryForm {
  import opened Wrappers
  import opened Text
  import opened Records

  const EntriesUrl: string := "http://localhost:5000/api/entries"
  const TitleRequired: string := "Title is required"
  const ContentRequired: string := "Content is required"
  const SaveFailed: string := "Failed to save entry"

  /** The `entry` prop: each field may be missing. */
  datatype EditedEntry = EditedEntry(id: Option<int>, title: Option<string>, content: Option<string>, mood: Option<string>)

  /** `entryData`: title and content as typed, `mood || null`. */
  datatype EntryBody = EntryBody(title: string, content: string, mood: Option<string>)

  datatype Request = Request(verb: string, url: string, body: EntryBody)

  /** What `response.json()` yields: a document with an optional `error` field, or a parse failure with its message. */
  datatype Body = Json(errorField: Option<string>, document: string) | NotJson(parseError: string)

  /** How `fetch` ends: it rejects with a message, or a response arrives with its `ok` flag and body. */
  datatype Reply = NetworkFailure(message: string) | Answer(ok: bool, body: Body)

  /** The end of a submission that passed validation: the value handed to `onSave`, or the error shown. */
  datatype Outcome = Saved(document: string) | Failed(message: string)

  /** `x || ''` for an optional text. */
  function OrEmpty(x: Option<string>): string {
    match x
    case Some(s) => s
    case None => ""
  }

  /** The validation at the top of `handleSubmit`: the error to show, or none. */
  function Validate(title: string, content: string): Option<string> {
    if Strip(title, Js) == "" then Some(TitleRequired)
    else if Strip(content, Js) == "" then Some(ContentRequired)
    else None
  }

  /**
   * A blank (empty or white-space-only) title is reported first; then a blank
   * content; text with anything but white space passes, untrimmed.
   */
  lemma ValidateReports(title: string, content: string)
    ensures Validate(title, content) == Some(TitleRequired) <==> AllSpace(title, Js)
    ensures Validate(title, content) == Some(ContentRequired) <==> !AllSpace(title, Js) && AllSpace(content, Js)
    ensures Validate(title, content) == None <==> !AllSpace(title, Js) && !AllSpace(content, Js)
  {
    StripEmptyIffBlank(title, Js);
    StripEmptyIffBlank(content, Js);
  }

  /** The request `handleSubmit` sends. */
  function RequestFor(entry: Option<EditedEntry>, title: string, content: string, mood: string): Request {
    var body := EntryBody(title, content, if mood == "" then None else Some(mood));
    if entry.Some? && HasId(entry.value.id) then Request("PUT", EntriesUrl + "/" + IntToString(entry.value.id.value), body)
    else Request("POST", EntriesUrl, body)
  }

  /**
   * Title and content are sent as typed and an empty mood as `null`; the
   * request is a PUT to the entry's own URL exactly when the entry has an id,
   * and a POST to the collection otherwise.
   */
  lemma RequestChoosesVerb(entry: Option<EditedEntry>, title: string, content: string, mood: string)
    ensures var r := RequestFor(entry, title, content, mood);
      r.body.title == title && r.body.content == content &&
      r.body.mood == (if mood == "" then None else Some(mood)) &&
      (r.verb == "PUT" <==> entry.Some? && HasId(entry.value.id)) &&
      (r.verb == "PUT" || r.verb == "POST") &&
      (r.verb == "PUT" ==> r.url == EntriesUrl + "/" + IntToString(entry.value.id.value)) &&
      (r.verb == "POST" ==> r.url == EntriesUrl)
  {
  }

  /** Distinct entries are saved to distinct URLs. */
  lemma PutUrlsDistinct(a: int, b: int)
    requires a != b
    ensures EntriesUrl + "/" + IntToString(a) != EntriesUrl + "/" + IntToString(b)
  {
    var p := EntriesUrl + "/";
    assert (p + IntToString(a))[|p|..] == IntToString(a);
    assert (p + IntToString(b))[|p|..] == IntToString(b);
    PyIntOfIntToString(a);
    PyIntOfIntToString(b);
  }

  /**
   * The rest of the `try`/`catch`: a rejected fetch or an unparsable body
   * surfaces its own message; a response that is not ok surfaces its
   * `error` field, or "Failed to save entry" when that is missing or empty;
   * only an ok response with a JSON body reaches `onSave`.
   */
  function OutcomeOf(reply: Reply): Outcome {
    match reply
    case NetworkFailure(m) => Failed(m)
    case Answer(ok, body) =>
      match body
      case NotJson(m) => Failed(m)
      case Json(e, doc) =>
        if !ok then Failed(if e.Some? && e.value != "" then e.value else SaveFailed)
        else Saved(doc)
  }

  /** Only an ok response with a JSON body is saved; each failure carries the message the source shows. */
  lemma OutcomeReports(reply: Reply)
    ensures OutcomeOf(reply).Saved? <==> reply.Answer? && reply.ok && reply.body.Json?
    ensures OutcomeOf(reply).Saved? ==> OutcomeOf(reply).document == reply.body.document
    ensures reply.NetworkFailure? ==> OutcomeOf(reply) == Failed(reply.message)
    ensures reply.Answer? && reply.body.NotJson? ==> OutcomeOf(reply) == Failed(reply.body.parseError)
    ensures reply.Answer? && !reply.ok && reply.body.Json? ==>
      OutcomeOf(reply) == Failed(if reply.body.errorField.Some? && reply.body.errorField.value != "" then reply.body.errorField.value else SaveFailed)
  {
  }

  class Form {
    var title: string
    var content: string
    var mood: string
    var saving: bool
    var error: Option<string>
    /** The values passed to `onSave`, oldest first. */
    var savedLog: seq<string>

    /** The `useState` initial values. */
    constructor ()
      ensures title == "" && content == "" && mood == ""
      ensures !saving && error == None && savedLog == []
    {
      title, content, mood := "", "", "";
      saving, error := false, None;
      savedLog := [];
    }

    /** The effect on `entry`: copy its fields (missing ones as ''), or clear all three. */
    method Init(entry: Option<EditedEntry>)
      modifies this`title, this`content, this`mood
      ensures entry.Some? ==> title == OrEmpty(entry.value.title) && content == OrEmpty(entry.value.content) && mood == OrEmpty(entry.value.mood)
      ensures entry.None? ==> title == "" && content == "" && mood == ""
    {
      if entry.Some? {
        title := OrEmpty(entry.value.title);
        content := OrEmpty(entry.value.content);
        mood := OrEmpty(entry.value.mood);
      } else {
        title := "";
        content := "";
        mood := "";
      }
    }

    /**
     * `handleSubmit`, with the server's `reply`. Returns the request sent,
     * none when validation stopped the submission.
     */
    method HandleSubmit(entry: Option<EditedEntry>, reply: Reply) returns (sent: Option<Request>)
      modifies this`saving, this`error, this`savedLog
      ensures var problem := Validate(old(title), old(content));
        problem.Some? ==> sent == None && error == problem && saving == old(saving) && savedLog == old(savedLog)
      ensures var problem := Validate(old(title), old(content));
        problem.None? ==> sent == Some(RequestFor(entry, old(title), old(content), old(mood))) && !saving
      ensures var problem, outcome := Validate(old(title), old(content)), OutcomeOf(reply);
        problem.None? && outcome.Saved? ==> error == None && savedLog == old(savedLog) + [outcome.document]
      ensures var problem, outcome := Validate(old(title), old(content)), OutcomeOf(reply);
        problem.None? && outcome.Failed? ==> error == Some(outcome.message) && savedLog == old(savedLog)
    {
      var t, c, m := title, content, mood;
      var problem := Validate(t, c);
      if problem.Some? {
        error := problem;
        return None;
      }
      var request := Send(entry, t, c, m, reply);
      sent := Some(request);
    }

    /**
     * The part of `handleSubmit` after validation, given the form's text:
     * mark the form as saving, send the request, record the outcome, and
     * clear `saving` again.
     */
    method Send(entry: Option<EditedEntry>, title: string, content: string, mood: string, reply: Reply) returns (request: Request)
      modifies this`saving, this`error, this`savedLog
      ensures request == RequestFor(entry, title, content, mood)
      ensures !saving
      ensures OutcomeOf(reply).Saved? ==> error == None && savedLog == old(savedLog) + [OutcomeOf(reply).document]
      ensures OutcomeOf(reply).Failed? ==> error == Some(OutcomeOf(reply).message) && savedLog == old(savedLog)
    {
      saving := true;
      request := RequestFor(entry, title, content, mood);
      var outcome := OutcomeOf(reply);
      match outcome {
        case Saved(doc) =>
          savedLog := savedLog + [doc];
          error := None;
        case Failed(msg) =>
          error := Some(msg);
      }
      saving := false;
    }
  }

  /** The title is checked first: a blank title is reported whatever the content. */
  lemma TitleCheckedFirst(title: string, content: string)
    requires AllSpace(title, Js)
    ensures Validate(title, content) == Some(TitleRequired)
  {
    ValidateReports(title, content);
  }

  /** Surrounding white space does not fail validation, and the body keeps it. */
  lemma PaddedTextSentVerbatim(entry: Option<EditedEntry>, title: string, content: string, mood: string)
    requires |title| > 0 && !IsSpace(title[0], Js) && |content| > 0 && !IsSpace(content[0], Js)
    ensures Validate(" " + title + " ", " " + content + " ") == None
    ensures RequestFor(entry, " " + title + " ", content, mood).body.title == " " + title + " "
  {
    ValidateReports(" " + title + " ", " " + content + " ");
    assert !IsSpace((" " + title + " ")[1], Js);
    assert !IsSpace((" " + content + " ")[1], Js);
  }

  /** A failed save never reaches `onSave`, and its message is never empty when the server gave none. */
  lemma FailedSaveReportsAMessage(errorField: Option<string>, doc: string)
    ensures OutcomeOf(Answer(false, Json(errorField, doc))).Failed?
    ensures errorField.None? || errorField == Some("") ==> OutcomeOf(Answer(false, Json(errorField, doc))).message == SaveFailed
    ensures OutcomeOf(Answer(false, Json(errorField, doc))).message != ""
  {
  }
}
