/**
 * The transforms of the analytics dashboard
 * (`frontend/src/components/analytics/AnalyticsDashboard.js`): the icon
 * thresholds on the average ratings, the "value/5" stat caption, the trend
 * visibility toggles, the zip of the trend arrays into chart points, and the
 * in-place augmentation of each correlation's data points with the matching
 * averages. The four requests are one parameter: their joint result, or
 * none when `Promise.all` rejects.
 */
module AnalyticsDashboard {
  import opened Wrappers
  import opened EntryView

  // ---------------------------------------------------------------------------
  // Icons for the average ratings (`get*Icon`): averages are not whole numbers.

  function SentimentIcon(v: real): Shape {
    if v >= 4.0 then Smile else if v <= 2.0 then Frown else Meh
  }

  function SleepIcon(v: real): Shape {
    if v >= 4.0 then Sun else Moon
  }

  function StressIcon(v: real): Shape {
    if v >= 4.0 then Zap else Feather
  }

  function SocialIcon(v: real): Shape {
    if v >= 4.0 then Users else User
  }

  /** On a whole rating the dashboard draws the same shape as the journal views. */
  lemma DashboardShapesMatchEntries(r: int)
    ensures SentimentIcon(r as real) == ShapeFor(SentimentType, BandOf(r))
    ensures SleepIcon(r as real) == ShapeFor(SleepType, BandOf(r))
    ensures StressIcon(r as real) == ShapeFor(StressType, BandOf(r))
    ensures SocialIcon(r as real) == ShapeFor(SocialType, BandOf(r))
  {
  }

  /**
   * Between the whole numbers the bands split at the thresholds: an average
   * strictly between 2 and 4 is neutral, and sleep, stress and social change
   * shape only at 4.
   */
  lemma AverageBands(v: real)
    ensures SentimentIcon(v) == Meh <==> 2.0 < v < 4.0
    ensures SentimentIcon(v) == Frown <==> v <= 2.0
    ensures SleepIcon(v) == Sun <==> StressIcon(v) == Zap
    ensures StressIcon(v) == Zap <==> SocialIcon(v) == Users
    ensures SocialIcon(v) == Users <==> SentimentIcon(v) == Smile
  {
  }

  /** The big text of a `StatCard`: the value, followed by "/5" for a rating. */
  function StatCaption(value: string, isRating: bool): (r: string)
    ensures isRating ==> |r| == |value| + 2 && r[..|value|] == value && r[|value|..] == "/5"
    ensures !isRating ==> r == value
  {
    if isRating then OutOfFive(value) else value
  }

  // ---------------------------------------------------------------------------
  // Which trend lines are drawn.

  /** The `visibleTrends` record; a key it lacks reads as `undefined`, which is falsy. */
  type Visibility = map<string, bool>

  const InitialVisibility: Visibility := map["sentiment" := true, "sleep" := false, "stress" := false, "social" := false]

  predicate Visible(v: Visibility, trend: string) {
    trend in v && v[trend]
  }

  /** `handleTrendToggle`: `{ ...prev, [trend]: !prev[trend] }`. */
  function Toggle(v: Visibility, trend: string): Visibility {
    v[trend := !Visible(v, trend)]
  }

  /** At first only the sentiment line is drawn. */
  lemma InitiallyOnlySentiment(trend: string)
    ensures Visible(InitialVisibility, trend) <==> trend == "sentiment"
  {
  }

  /**
   * A toggle flips the named line, leaves every other key as it was, and a
   * second toggle restores what is drawn (and the record itself, when the key
   * was already there).
   */
  lemma ToggleFlipsOne(v: Visibility, trend: string)
    ensures Visible(Toggle(v, trend), trend) == !Visible(v, trend)
    ensures forall k :: k != trend ==> (k in Toggle(v, trend) <==> k in v) && (k in v ==> Toggle(v, trend)[k] == v[k])
    ensures forall k :: Visible(Toggle(Toggle(v, trend), trend), k) == Visible(v, k)
    ensures trend in v ==> Toggle(Toggle(v, trend), trend) == v
  {
    if trend in v {
      var w := Toggle(Toggle(v, trend), trend);
      assert w.Keys == v.Keys;
      assert forall k :: k in v ==> w[k] == v[k];
    }
  }

  // ---------------------------------------------------------------------------
  // The trends zip.

  /** The trends response: the dates and one value per date for each metric (a value may be null). */
  datatype TrendsData = TrendsData(dates: seq<string>, sentiment: seq<Option<real>>, sleep: seq<Option<real>>, stress: seq<Option<real>>, social: seq<Option<real>>)

  /** A chart point. */
  datatype TrendPoint = TrendPoint(date: string, sentiment: Option<real>, sleep: Option<real>, stress: Option<real>, social: Option<real>)

  /** `a[i]` on a JavaScript array: nothing past the end. */
  function At(s: seq<Option<real>>, i: int): (r: Option<real>)
    ensures 0 <= i < |s| ==> r == s[i]
    ensures !(0 <= i < |s|) ==> r == None
  {
    if 0 <= i < |s| then s[i] else None
  }

  /** `trendsData.dates.map((date, index) => ({ date, sentiment: trendsData.sentiment[index], ... }))`. */
  function ZipTrends(t: TrendsData): (points: seq<TrendPoint>)
    ensures |points| == |t.dates|
  {
    seq(|t.dates|, i requires 0 <= i < |t.dates| =>
      TrendPoint(t.dates[i], At(t.sentiment, i), At(t.sleep, i), At(t.stress, i), At(t.social, i)))
  }

  /** The inverse: the columns of a list of chart points. */
  function Unzip(points: seq<TrendPoint>): (t: TrendsData)
    ensures |t.dates| == |t.sentiment| == |t.sleep| == |t.stress| == |t.social| == |points|
  {
    TrendsData(
      seq(|points|, i requires 0 <= i < |points| => points[i].date),
      seq(|points|, i requires 0 <= i < |points| => points[i].sentiment),
      seq(|points|, i requires 0 <= i < |points| => points[i].sleep),
      seq(|points|, i requires 0 <= i < |points| => points[i].stress),
      seq(|points|, i requires 0 <= i < |points| => points[i].social))
  }

  /** Columns as long as `dates` survive the zip unchanged. */
  lemma UnzipZip(t: TrendsData)
    requires |t.sentiment| == |t.sleep| == |t.stress| == |t.social| == |t.dates|
    ensures Unzip(ZipTrends(t)) == t
  {
    var u := Unzip(ZipTrends(t));
    assert u.dates == t.dates;
    assert u.sentiment == t.sentiment;
    assert u.sleep == t.sleep;
    assert u.stress == t.stress;
    assert u.social == t.social;
  }

  /** Every list of chart points is the zip of its own columns. */
  lemma ZipUnzip(points: seq<TrendPoint>)
    ensures ZipTrends(Unzip(points)) == points
  {
  }

  /**
   * Record i takes index i of each column; a column shorter than `dates`
   * leaves the later points without that metric, and a longer one is cut.
   */
  lemma ZipTakesIndex(t: TrendsData, i: int)
    requires 0 <= i < |t.dates|
    ensures ZipTrends(t)[i].date == t.dates[i]
    ensures i < |t.sleep| ==> ZipTrends(t)[i].sleep == t.sleep[i]
    ensures i >= |t.sleep| ==> ZipTrends(t)[i].sleep == None
    ensures ZipTrends(t)[i].sentiment == At(t.sentiment, i) && ZipTrends(t)[i].stress == At(t.stress, i) && ZipTrends(t)[i].social == At(t.social, i)
  {
  }

  // ---------------------------------------------------------------------------
  // The correlation augmentation.

  /** A data point of a correlation: its JSON fields. */
  type Point = map<string, Option<real>>

  const XAvg: string := "x_avg"
  const YAvg: string := "y_avg"

  /** `data.map((d, i) => ({ ...d, x_avg: x_avg[i], y_avg: y_avg[i] }))`. */
  function Augment(data: seq<Point>, xAvg: seq<Option<real>>, yAvg: seq<Option<real>>): (r: seq<Point>)
    ensures |r| == |data|
  {
    seq(|data|, i requires 0 <= i < |data| => data[i][XAvg := At(xAvg, i)][YAvg := At(yAvg, i)])
  }

  /** Each point keeps its other fields and gains the averages at its own index. */
  lemma AugmentKeepsFields(data: seq<Point>, xAvg: seq<Option<real>>, yAvg: seq<Option<real>>, i: int, k: string)
    requires 0 <= i < |data|
    ensures var r := Augment(data, xAvg, yAvg);
      XAvg in r[i] && r[i][XAvg] == At(xAvg, i) && YAvg in r[i] && r[i][YAvg] == At(yAvg, i) &&
      (k != XAvg && k != YAvg ==> (k in r[i] <==> k in data[i]) && (k in data[i] ==> r[i][k] == data[i][k]))
  {
  }

  /** Augmenting twice with the same averages is augmenting once. */
  lemma AugmentIdempotent(data: seq<Point>, xAvg: seq<Option<real>>, yAvg: seq<Option<real>>)
    ensures Augment(Augment(data, xAvg, yAvg), xAvg, yAvg) == Augment(data, xAvg, yAvg)
  {
    var once := Augment(data, xAvg, yAvg);
    var twice := Augment(once, xAvg, yAvg);
    forall i | 0 <= i < |data|
      ensures twice[i] == once[i]
    {
      assert twice[i].Keys == once[i].Keys;
    }
  }

  /** One entry of `strongest_correlations`, whose `data` the loop replaces. */
  class Correlation {
    var data: seq<Point>
    var xAvg: seq<Option<real>>
    var yAvg: seq<Option<real>>

    constructor (data: seq<Point>, xAvg: seq<Option<real>>, yAvg: seq<Option<real>>)
      ensures this.data == data && this.xAvg == xAvg && this.yAvg == yAvg
    {
      this.data, this.xAvg, this.yAvg := data, xAvg, yAvg;
    }
  }

  /**
   * The `for ... in` loop: each correlation's `data` is replaced by its
   * augmented points, in place. An object listed twice ends as if listed
   * once, because augmenting is idempotent.
   */
  method AugmentAll(cs: seq<Correlation>)
    modifies set c | c in cs
    ensures forall c :: c in cs ==> c.data == Augment(old(c.data), old(c.xAvg), old(c.yAvg))
    ensures forall c :: c in cs ==> c.xAvg == old(c.xAvg) && c.yAvg == old(c.yAvg)
  {
    var i := 0;
    while i < |cs|
      invariant 0 <= i <= |cs|
      invariant forall c :: c in cs ==> c.xAvg == old(c.xAvg) && c.yAvg == old(c.yAvg)
      invariant forall c :: c in cs[..i] ==> c.data == Augment(old(c.data), c.xAvg, c.yAvg)
      invariant forall c :: c in cs && c !in cs[..i] ==> c.data == old(c.data)
    {
      var c := cs[i];
      if c in cs[..i] {
        AugmentIdempotent(old(c.data), c.xAvg, c.yAvg);
      }
      c.data := Augment(c.data, c.xAvg, c.yAvg);
      assert cs[..i + 1] == cs[..i] + [c];
      i := i + 1;
    }
    assert cs[..|cs|] == cs;
  }

  // ---------------------------------------------------------------------------
  // The component's state.

  const LoadFailed: string := "Could not load analytics data. Please try again later."

  /** The average ratings of the stats response. */
  datatype Stats = Stats(sentiment: real, sleep: real, stress: real, social: real)

  /** What the four requests deliver together; `strongest` is `strongest_correlations`, absent or falsy as none. */
  datatype Fetched = Fetched(stats: Stats, trends: TrendsData, strongest: Option<seq<Correlation>>)

  /** The correlation objects a response holds. */
  function CorrelationsOf(f: Option<Fetched>): set<Correlation> {
    if f.Some? && f.value.strongest.Some? then set c | c in f.value.strongest.value else {}
  }

  class Dashboard {
    var loading: bool
    var error: Option<string>
    var stats: Option<Stats>
    var trends: seq<TrendPoint>
    var strongest: Option<seq<Correlation>>
    var visible: Visibility

    /** The `useState` initial values. */
    constructor ()
      ensures loading && error == None && stats == None && trends == [] && strongest == None
      ensures visible == InitialVisibility
    {
      loading, error, stats, trends, strongest := true, None, None, [], None;
      visible := InitialVisibility;
    }

    method HandleTrendToggle(trend: string)
      modifies this`visible
      ensures visible == Toggle(old(visible), trend)
    {
      visible := Toggle(visible, trend);
    }

    /**
     * `fetchData` with the joint result of the four requests: on a rejection
     * the error message is set and the data kept; otherwise stats, zipped
     * trends and correlations (augmented in place when present) are stored.
     * Either way `loading` ends false.
     */
    method FetchData(fetched: Option<Fetched>)
      modifies this, CorrelationsOf(fetched)
      ensures !loading
      ensures visible == old(visible)
      ensures fetched.None? ==> error == Some(LoadFailed) && stats == old(stats) && trends == old(trends) && strongest == old(strongest)
      ensures fetched.Some? ==>
        error == None && stats == Some(fetched.value.stats) &&
        trends == ZipTrends(fetched.value.trends) && strongest == fetched.value.strongest
      ensures forall c :: c in CorrelationsOf(fetched) ==>
        c.data == Augment(old(c.data), old(c.xAvg), old(c.yAvg)) && c.xAvg == old(c.xAvg) && c.yAvg == old(c.yAvg)
    {
      loading := true;
      error := None;
      if fetched.None? {
        error := Some(LoadFailed);
      } else {
        var f := fetched.value;
        stats := Some(f.stats);
        trends := ZipTrends(f.trends);
        if f.strongest.Some? {
          AugmentAll(f.strongest.value);
        }
        strongest := f.strongest;
      }
      loading := false;
    }
  }
}
