/**
 * The journal card (`frontend/src/components/journal/EntryCard.js`): its
 * `renderStateIcon` thresholds and colours, and what the card shows of an
 * entry. Click handlers only hand the entry or its id to the parent and are
 * not modelled.
 */
module EntryCard {
  import opened Wrappers
  import opened Text
  import opened Records
  import opened EntryView

  /**
   * `renderStateIcon(type, value)`: no icon for a missing value or one
   * `parseInt` cannot read; otherwise the threshold chain of each type, and
   * no icon for a type it does not know.
   */
  function RenderStateIcon(metric: string, value: Option<string>): Option<Icon> {
    if value.None? then None
    else
      match JsParseInt(value.value)
      case NaN => None
      case Int(n) =>
        if metric == SentimentType then
          if n >= 4 then Some(Icon(Smile, Green)) else if n <= 2 then Some(Icon(Frown, Red)) else Some(Icon(Meh, Yellow))
        else if metric == SleepType then
          if n >= 4 then Some(Icon(Sun, Green)) else if n <= 2 then Some(Icon(Moon, Red)) else Some(Icon(Moon, Yellow))
        else if metric == StressType then
          if n >= 4 then Some(Icon(Zap, Red)) else if n <= 2 then Some(Icon(Feather, Green)) else Some(Icon(Feather, Yellow))
        else if metric == SocialType then
          if n >= 4 then Some(Icon(Users, Green)) else if n <= 2 then Some(Icon(User, Red)) else Some(Icon(User, Yellow))
        else None
  }

  /**
   * An icon is drawn exactly for a recognised type and a value that parses;
   * its shape is the one every view gives that type and band.
   */
  lemma CardIconShape(metric: string, value: Option<string>)
    ensures RenderStateIcon(metric, value).Some? <==> KnownMetric(metric) && ParsedBand(value).Some?
    ensures RenderStateIcon(metric, value).Some? ==>
      RenderStateIcon(metric, value).value.shape == ShapeFor(metric, ParsedBand(value).value)
  {
  }

  /**
   * The card colours on a traffic-light scale: yellow exactly for the middle
   * band; green for the good end and red for the bad end, where stress is the
   * one scale on which a high value is bad.
   */
  lemma CardColors(metric: string, value: Option<string>)
    requires RenderStateIcon(metric, value).Some?
    ensures var c, b := RenderStateIcon(metric, value).value.color, ParsedBand(value).value;
      (c == Yellow <==> b == Between) &&
      (metric != StressType ==> (c == Green <==> b == AtLeastFour) && (c == Red <==> b == AtMostTwo)) &&
      (metric == StressType ==> (c == Red <==> b == AtLeastFour) && (c == Green <==> b == AtMostTwo))
  {
    CardIconShape(metric, value);
  }

  /** A stored rating of a recognised type always gets an icon, in the band of its value. */
  lemma RatingGetsIcon(metric: string, r: Rating)
    requires KnownMetric(metric)
    ensures RenderStateIcon(metric, Some(IntToString(r))).Some?
    ensures RenderStateIcon(metric, Some(IntToString(r))).value.shape == ShapeFor(metric, BandOf(r))
  {
    RatingBand(r);
    CardIconShape(metric, Some(IntToString(r)));
  }

  /** A null value, text that does not start with a number, and an unknown type give no icon. */
  lemma NoIconWithoutNumberOrType(metric: string, v: string)
    requires v == "" || (!IsDigit(v[0]) && !IsSpace(v[0], Js) && v[0] != '-' && v[0] != '+')
    ensures RenderStateIcon(metric, None) == None
    ensures RenderStateIcon(metric, Some(v)) == None
    ensures !KnownMetric(metric) ==> RenderStateIcon(metric, Some(IntToString(3))) == None
  {
    NoBandWithoutNumber(v);
    CardIconShape(metric, Some(v));
  }

  /** What the card shows: title, date line, and the rating row when some rating is present. */
  datatype Card = Card(title: string, dateLine: string, ratings: Option<seq<RatingCell>>)

  /** The card for an entry; `format` is `toLocaleDateString` on the parsed date. */
  function Render(e: Entry, format: string -> string): Card {
    Card(e.title, DateLine(e.date, format), RatingRow(e, RenderStateIcon))
  }

  /**
   * The card shows the title and "No date" for an empty date; its rating row
   * appears exactly when some rating is present, and then every span has the
   * icon of its rating's band.
   */
  lemma CardShowsEntry(e: Entry, format: string -> string)
    ensures Render(e, format).title == e.title
    ensures e.date == "" ==> Render(e, format).dateLine == "No date"
    ensures e.date != "" ==> Render(e, format).dateLine == format(e.date)
    ensures Render(e, format).ratings.Some? <==> AnyRatingPresent(e)
    ensures Render(e, format).ratings.Some? ==>
      |Render(e, format).ratings.value| == PresentCount(e) > 0 &&
      forall c :: c in Render(e, format).ratings.value ==>
        c.icon.Some? && c.icon.value.shape == ShapeFor(c.metric, BandOf(c.rating))
  {
    RatingRowShowsPresentRatings(e, RenderStateIcon);
    forall c | c in RatingCells(e, RenderStateIcon)
      ensures c.icon.Some? && c.icon.value.shape == ShapeFor(c.metric, BandOf(c.rating))
    {
      RatingGetsIcon(c.metric, c.rating);
    }
  }
}
