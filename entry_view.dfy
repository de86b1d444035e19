/**
 * What the journal card, the journal detail view and the analytics dashboard
 * have in common when they draw an entry: an icon for a rating (a lucide
 * shape in a colour), the three bands a rating falls into (4 and up, 2 and
 * down, in between), the "value/5" label, the row of ratings shown only when
 * some rating is present, and the date line with its "No date" fallback.
 */
module EntryView {
  import opened Wrappers
  import opened Text
  import opened Records

  datatype Shape = Smile | Frown | Meh | Sun | Moon | Zap | Feather | User | Users
  datatype Color = Green | Red | Yellow | Blue | Gray

  datatype Icon = Icon(shape: Shape, color: Color)

  /** The bands of `if (v >= 4) ...; if (v <= 2) ...; ...`. */
  datatype Band = AtLeastFour | AtMostTwo | Between

  function BandOf(n: int): (b: Band)
    ensures b == AtLeastFour <==> n >= 4
    ensures b == AtMostTwo <==> n <= 2
    ensures b == Between <==> n == 3
  {
    if n >= 4 then AtLeastFour else if n <= 2 then AtMostTwo else Between
  }

  /** The `type` strings `renderStateIcon` recognises. */
  const SentimentType: string := "sentiment"
  const SleepType: string := "sleep"
  const StressType: string := "stress"
  const SocialType: string := "social_engagement"

  /**
   * The shape each recognised type gets for a band; the card and the detail
   * view differ only in colour.
   */
  function ShapeFor(metric: string, b: Band): Shape
    requires KnownMetric(metric)
  {
    if metric == SentimentType then (match b case AtLeastFour => Smile case AtMostTwo => Frown case Between => Meh)
    else if metric == SleepType then (if b == AtLeastFour then Sun else Moon)
    else if metric == StressType then (if b == AtLeastFour then Zap else Feather)
    else (if b == AtLeastFour then Users else User)
  }

  /**
   * The part `renderStateIcon` shares in both components: no icon for a
   * missing value or one `parseInt` cannot read, otherwise the band of the
   * parsed number. A rating reaches `parseInt` as its decimal text.
   */
  function ParsedBand(value: Option<string>): Option<Band> {
    match value
    case None => None
    case Some(v) =>
      match JsParseInt(v)
      case NaN => None
      case Int(n) => Some(BandOf(n))
  }

  /** A stored rating always gets an icon, in the band of its own value. */
  lemma RatingBand(r: nat)
    ensures ParsedBand(Some(IntToString(r))) == Some(BandOf(r))
  {
    JsParseIntOfNatToString(r, "");
    assert NatToString(r) + "" == IntToString(r);
  }

  /** Missing values and text that does not start with a number get no icon. */
  lemma NoBandWithoutNumber(v: string)
    requires v == "" || (!IsDigit(v[0]) && !IsSpace(v[0], Js) && v[0] != '-' && v[0] != '+')
    ensures ParsedBand(None) == None
    ensures ParsedBand(Some(v)) == None
  {
  }

  /** The "{value}/5" label next to a rating, and the dashboard's `isRating` text. */
  function OutOfFive(value: string): string {
    value + "/5"
  }

  /** A rating's label reads back as the rating, and ends in "/5". */
  lemma OutOfFiveReadsBack(r: nat)
    ensures JsParseInt(OutOfFive(IntToString(r))) == Int(r)
    ensures |OutOfFive(IntToString(r))| >= 2 && OutOfFive(IntToString(r))[|OutOfFive(IntToString(r))| - 2..] == "/5"
  {
    JsParseIntOfNatToString(r, "/5");
  }

  /** The set of `type` strings `renderStateIcon` recognises. */
  predicate KnownMetric(metric: string) {
    metric in {SentimentType, SleepType, StressType, SocialType}
  }

  /** A rating that is present, with the metric it belongs to. */
  datatype Slot = Slot(metric: string, rating: Rating)

  /** The slot for one rating, present only when the rating is not null. */
  function Present(metric: string, rating: Option<Rating>): seq<Slot> {
    match rating
    case None => []
    case Some(r) => [Slot(metric, r)]
  }

  /** The present ratings, in the fixed order sentiment, sleep, stress, social engagement. */
  function Ratings(e: Entry): seq<Slot> {
    Present(SentimentType, e.sentimentLevel) + Present(SleepType, e.sleepQuality) +
    Present(StressType, e.stressLevel) + Present(SocialType, e.socialEngagement)
  }

  /**
   * One `<span>` of the rating row: the metric, the rating, the icon that
   * `renderStateIcon` draws for it, and the "value/5" caption.
   */
  datatype RatingCell = RatingCell(metric: string, rating: Rating, icon: Option<Icon>, caption: string)

  function CellFor(s: Slot, icon: (string, Option<string>) -> Option<Icon>): RatingCell {
    RatingCell(s.metric, s.rating, icon(s.metric, Some(IntToString(s.rating))), OutOfFive(IntToString(s.rating)))
  }

  /** The spans of the rating row, one per present rating; `icon` is the view's `renderStateIcon`. */
  function RatingCells(e: Entry, icon: (string, Option<string>) -> Option<Icon>): (cells: seq<RatingCell>)
    ensures |cells| == |Ratings(e)|
    ensures forall i :: 0 <= i < |cells| ==> cells[i] == CellFor(Ratings(e)[i], icon)
  {
    var slots := Ratings(e);
    seq(|slots|, i requires 0 <= i < |slots| => CellFor(slots[i], icon))
  }

  /** The condition around the rating row: at least one of the four ratings is not null. */
  predicate AnyRatingPresent(e: Entry) {
    e.sentimentLevel.Some? || e.sleepQuality.Some? || e.stressLevel.Some? || e.socialEngagement.Some?
  }

  /** The rating row: absent unless some rating is present. */
  function RatingRow(e: Entry, icon: (string, Option<string>) -> Option<Icon>): Option<seq<RatingCell>> {
    if AnyRatingPresent(e) then Some(RatingCells(e, icon)) else None
  }

  /** How many of the entry's four ratings are present. */
  function PresentCount(e: Entry): nat {
    (if e.sentimentLevel.Some? then 1 else 0) + (if e.sleepQuality.Some? then 1 else 0) +
    (if e.stressLevel.Some? then 1 else 0) + (if e.socialEngagement.Some? then 1 else 0)
  }

  /** Each present rating has one slot. */
  lemma RatingsCount(e: Entry)
    ensures |Ratings(e)| == PresentCount(e)
    ensures AnyRatingPresent(e) <==> |Ratings(e)| > 0
  {
  }

  /** Each slot is for a recognised metric and holds the entry's rating for that metric. */
  lemma RatingsAreOwn(e: Entry, s: Slot)
    requires s in Ratings(e)
    ensures KnownMetric(s.metric)
    ensures s.metric == SentimentType ==> e.sentimentLevel == Some(s.rating)
    ensures s.metric == SleepType ==> e.sleepQuality == Some(s.rating)
    ensures s.metric == StressType ==> e.stressLevel == Some(s.rating)
    ensures s.metric == SocialType ==> e.socialEngagement == Some(s.rating)
  {
  }

  /** The slots follow the fixed order, so no metric appears twice. */
  lemma RatingsDistinct(e: Entry, i: int, j: int)
    requires 0 <= i < j < |Ratings(e)|
    ensures Ratings(e)[i].metric != Ratings(e)[j].metric
  {
    var a := Present(SentimentType, e.sentimentLevel);
    var b := Present(SleepType, e.sleepQuality);
    var c := Present(StressType, e.stressLevel);
    var d := Present(SocialType, e.socialEngagement);
    assert Ratings(e) == a + b + c + d;
  }

  /**
   * The row is drawn exactly when it would hold a span; it then holds one
   * span per present rating, each captioned with its own value and drawn
   * with the view's icon for it.
   */
  lemma RatingRowShowsPresentRatings(e: Entry, icon: (string, Option<string>) -> Option<Icon>)
    ensures RatingRow(e, icon).Some? <==> |RatingCells(e, icon)| > 0
    ensures |RatingCells(e, icon)| == PresentCount(e)
    ensures forall c :: c in RatingCells(e, icon) ==>
      KnownMetric(c.metric) && c.caption == OutOfFive(IntToString(c.rating)) && c.icon == icon(c.metric, Some(IntToString(c.rating)))
  {
    RatingsCount(e);
    var cells := RatingCells(e, icon);
    forall c | c in cells
      ensures KnownMetric(c.metric)
    {
      var i :| 0 <= i < |cells| && cells[i] == c;
      RatingsAreOwn(e, Ratings(e)[i]);
    }
  }

  /** `entry.date ? format(entry.date) : 'No date'`, with the locale formatting as a parameter. */
  function DateLine(date: string, format: string -> string): (r: string)
    ensures date == "" ==> r == "No date"
    ensures date != "" ==> r == format(date)
  {
    if date == "" then "No date" else format(date)
  }
}
