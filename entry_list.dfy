/**
 * The stand-alone entry list (`frontend/src/components/EntryList.js`): the
 * mood emoji, the date fallback, the content preview and the loading /
 * error / list branches of the render. The fetch effect that fills the
 * state is not modelled; the list's entries come from the older
 * `/api/entries` service, with `created_at` and a free-text `mood`.
 */
module EntryList {
  import opened Wrappers
  import opened Text

  const GoodEmoji: string := "\U{1F60A}"
  const NeutralEmoji: string := "\U{1F610}"
  const NotGreatEmoji: string := "\U{1F614}"

  /** `renderMoodEmoji`: a `switch` on the lower-cased mood; no emoji for a missing or unknown mood. */
  function MoodEmoji(mood: Option<string>): string {
    match mood
    case None => ""
    case Some(m) =>
      var l := Lower(m);
      if l == "good" then GoodEmoji
      else if l == "neutral" then NeutralEmoji
      else if l == "not great" then NotGreatEmoji
      else ""
  }

  /** The mood an emoji stands for, in lower case. */
  function MoodOf(emoji: string): Option<string> {
    if emoji == GoodEmoji then Some("good")
    else if emoji == NeutralEmoji then Some("neutral")
    else if emoji == NotGreatEmoji then Some("not great")
    else None
  }

  /**
   * Matching ignores case: a mood and its lower-cased form get the same
   * emoji, and an emoji is drawn exactly for the three known moods, each
   * with its own, so the emoji gives the mood back.
   */
  lemma MoodEmojiIgnoresCase(m: string)
    ensures MoodEmoji(Some(Lower(m))) == MoodEmoji(Some(m))
    ensures MoodEmoji(Some(m)) != "" <==> Lower(m) in {"good", "neutral", "not great"}
    ensures MoodEmoji(Some(m)) != "" ==> MoodOf(MoodEmoji(Some(m))) == Some(Lower(m))
    ensures MoodEmoji(None) == ""
  {
    LowerIdempotent(m);
  }

  /** "Good", "NEUTRAL" and "Not Great" are recognised. */
  lemma CapitalisedMoods()
    ensures MoodEmoji(Some("Good")) == GoodEmoji
    ensures MoodEmoji(Some("NEUTRAL")) == NeutralEmoji
    ensures MoodEmoji(Some("Not Great")) == NotGreatEmoji
  {
    assert Lower("Good") == "good";
    assert Lower("NEUTRAL") == "neutral";
    assert Lower("Not Great") == "not great";
  }

  /** `formatDate`: date-fns' text, or the input itself when formatting throws (`format` gives none). */
  function FormatDate(dateString: string, format: string -> Option<string>): (r: string)
    ensures format(dateString).None? ==> r == dateString
    ensures format(dateString).Some? ==> r == format(dateString).value
  {
    match format(dateString)
    case None => dateString
    case Some(text) => text
  }

  const PreviewLength: nat := 100

  /** The preview: content of at most 100 characters as it is, longer content cut to 100 with "..." added. */
  function Preview(content: string): (r: string)
    ensures |content| <= PreviewLength ==> r == content
    ensures |content| > PreviewLength ==> |r| == PreviewLength + 3 && r[..PreviewLength] == content[..PreviewLength] && r[PreviewLength..] == "..."
  {
    if |content| > PreviewLength then content[..PreviewLength] + "..." else content
  }

  /**
   * A preview is never longer than 103 characters and shows a prefix of the
   * content; previewing a preview changes nothing; and the preview equals
   * the content exactly when the content is short or already ends in "..."
   * at length 103.
   */
  lemma PreviewProperties(content: string)
    ensures |Preview(content)| <= PreviewLength + 3
    ensures Preview(content) == content || content[..PreviewLength] + "..." == Preview(content)
    ensures Preview(Preview(content)) == Preview(content)
    ensures Preview(content) == content <==>
      |content| <= PreviewLength || (|content| == PreviewLength + 3 && content[PreviewLength..] == "...")
  {
    var r := Preview(content);
    if |content| > PreviewLength {
      assert r[..PreviewLength] == content[..PreviewLength];
      if |content| == PreviewLength + 3 && content[PreviewLength..] == "..." {
        assert content == content[..PreviewLength] + content[PreviewLength..];
      }
    }
  }

  /** An entry of the older service. */
  datatype ListEntry = ListEntry(id: int, title: string, content: string, createdAt: string, mood: Option<string>)

  /** One card of the list; `mood` holds the emoji and the mood text when the mood line is drawn. */
  datatype Item = Item(title: string, date: string, mood: Option<(string, string)>, preview: string)

  /** `entry.mood && ...`: the mood line appears only for a non-empty mood. */
  function ItemOf(e: ListEntry, format: string -> Option<string>): Item {
    Item(
      e.title,
      FormatDate(e.createdAt, format),
      if e.mood.Some? && e.mood.value != "" then Some((MoodEmoji(e.mood), e.mood.value)) else None,
      Preview(e.content))
  }

  datatype View = Loading | Failure(message: string) | List(items: seq<Item>)

  /** The render: the loading text first, then a truthy error, then the list. */
  function Render(loading: bool, error: Option<string>, entries: seq<ListEntry>, format: string -> Option<string>): View {
    if loading then Loading
    else if error.Some? && error.value != "" then Failure(error.value)
    else List(seq(|entries|, i requires 0 <= i < |entries| => ItemOf(entries[i], format)))
  }

  /**
   * Once loaded without error, the list shows one card per entry in order;
   * a card has a mood line exactly when the mood is a non-empty text, and its
   * preview is the content's preview.
   */
  lemma ListShowsEveryEntry(error: Option<string>, entries: seq<ListEntry>, format: string -> Option<string>)
    requires error.None? || error == Some("")
    ensures Render(false, error, entries, format).List?
    ensures var items := Render(false, error, entries, format).items;
      |items| == |entries| &&
      forall i :: 0 <= i < |entries| ==>
        items[i].title == entries[i].title &&
        items[i].preview == Preview(entries[i].content) &&
        (items[i].mood.Some? <==> entries[i].mood.Some? && entries[i].mood.value != "") &&
        (items[i].mood.Some? ==> items[i].mood.value.1 == entries[i].mood.value)
  {
  }
}
