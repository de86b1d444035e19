/**
 * The journal entry detail modal
 * (`frontend/src/components/journal/EntryDetail.js`): its own copy of
 * `renderStateIcon`, which keeps the card's shapes but not its colours, the
 * guard that renders nothing without an entry, and the date line.
 */
module EntryDetail {
  import opened Wrappers
  import opened Text
  import opened Records
  import opened EntryView
  import EntryCard

  /** The detail view's `renderStateIcon`: the card's thresholds, with other colours. */
  function RenderStateIcon(metric: string, value: Option<string>): Option<Icon> {
    if value.None? then None
    else
      match JsParseInt(value.value)
      case NaN => None
      case Int(n) =>
        if metric == SentimentType then
          if n >= 4 then Some(Icon(Smile, Green)) else if n <= 2 then Some(Icon(Frown, Red)) else Some(Icon(Meh, Yellow))
        else if metric == SleepType then
          if n >= 4 then Some(Icon(Sun, Yellow)) else if n <= 2 then Some(Icon(Moon, Blue)) else Some(Icon(Moon, Gray))
        else if metric == StressType then
          if n >= 4 then Some(Icon(Zap, Red)) else if n <= 2 then Some(Icon(Feather, Green)) else Some(Icon(Feather, Gray))
        else if metric == SocialType then
          if n >= 4 then Some(Icon(Users, Blue)) else if n <= 2 then Some(Icon(User, Gray)) else Some(Icon(User, Gray))
        else None
  }

  /**
   * The detail view draws an icon exactly when the card does, in the same
   * shape; the sentiment icons are identical in both.
   */
  lemma DetailAgreesWithCard(metric: string, value: Option<string>)
    ensures RenderStateIcon(metric, value).Some? <==> EntryCard.RenderStateIcon(metric, value).Some?
    ensures RenderStateIcon(metric, value).Some? ==>
      RenderStateIcon(metric, value).value.shape == EntryCard.RenderStateIcon(metric, value).value.shape
    ensures metric == SentimentType ==> RenderStateIcon(metric, value) == EntryCard.RenderStateIcon(metric, value)
  {
    EntryCard.CardIconShape(metric, value);
  }

  /**
   * The colours that differ from the card: sleep is yellow, blue, gray;
   * stress keeps red and green but shows gray for the middle band; social
   * engagement is blue at 4 and up and gray otherwise, so 2 and below and 3
   * look the same.
   */
  lemma DetailColors(metric: string, value: Option<string>)
    requires RenderStateIcon(metric, value).Some?
    ensures var c, b := RenderStateIcon(metric, value).value.color, ParsedBand(value).value;
      (metric == SleepType ==> c == (match b case AtLeastFour => Yellow case AtMostTwo => Blue case Between => Gray)) &&
      (metric == StressType ==> c == (match b case AtLeastFour => Red case AtMostTwo => Green case Between => Gray)) &&
      (metric == SocialType ==> (c == Blue <==> b == AtLeastFour) && (c == Gray <==> b != AtLeastFour))
  {
  }

  /** Social engagement 1, 2 and 3 all show the same gray User icon. */
  lemma LowSocialLooksAlike(r: Rating)
    requires r <= 3
    ensures RenderStateIcon(SocialType, Some(IntToString(r))) == Some(Icon(User, Gray))
  {
    RatingBand(r);
  }

  /** What the modal shows: title, date line, the rating row when some rating is present, and the content. */
  datatype Detail = Detail(title: string, dateLine: string, ratings: Option<seq<RatingCell>>, content: string)

  /** The component: nothing for a missing entry. `format` is the long-form `toLocaleDateString`. */
  function Render(entry: Option<Entry>, format: string -> string): Option<Detail> {
    match entry
    case None => None
    case Some(e) => Some(Detail(e.title, DateLine(e.date, format), RatingRow(e, RenderStateIcon), e.content))
  }

  /**
   * A missing entry renders nothing; an entry renders its title and content,
   * "No date" for an empty date, and its rating row exactly when the card
   * shows one.
   */
  lemma DetailShowsEntry(e: Entry, format: string -> string)
    ensures Render(None, format) == None
    ensures Render(Some(e), format).Some?
    ensures var d := Render(Some(e), format).value;
      d.title == e.title && d.content == e.content &&
      (e.date == "" ==> d.dateLine == "No date") &&
      (e.date != "" ==> d.dateLine == format(e.date)) &&
      (d.ratings.Some? <==> EntryCard.Render(e, format).ratings.Some?) &&
      (d.ratings.Some? ==> d.ratings.value == RatingCells(e, RenderStateIcon))
  {
    EntryCard.CardShowsEntry(e, format);
  }

  /** The detail row and the card row list the same spans, with icons of the same shape. */
  lemma SameCellsUpToIcon(e: Entry)
    ensures var d, c := RatingCells(e, RenderStateIcon), RatingCells(e, EntryCard.RenderStateIcon);
      |d| == |c| &&
      forall i :: 0 <= i < |d| ==>
        d[i].metric == c[i].metric && d[i].rating == c[i].rating && d[i].caption == c[i].caption &&
        (d[i].icon.Some? <==> c[i].icon.Some?) &&
        (d[i].icon.Some? ==> d[i].icon.value.shape == c[i].icon.value.shape)
  {
    var d, c := RatingCells(e, RenderStateIcon), RatingCells(e, EntryCard.RenderStateIcon);
    forall i | 0 <= i < |d|
      ensures (d[i].icon.Some? <==> c[i].icon.Some?) && (d[i].icon.Some? ==> d[i].icon.value.shape == c[i].icon.value.shape)
    {
      DetailAgreesWithCard(d[i].metric, Some(IntToString(d[i].rating)));
    }
  }
}
