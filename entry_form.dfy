/**
 * The journal entry editor (`frontend/src/components/journal/EntryForm.js`):
 * its `entry` state record, how that record is initialised for a new or an
 * edited entry, how an input event changes it, and the submit check.
 */
module EntryForm {
  import opened Wrappers
  import opened Text
  import opened Records

  /**
   * The form's `entry` state. The sliders hold numbers: 3 by default, the
   * stored rating when editing, and `parseInt` of the slider text after a
   * change. An edited entry keeps its `id`; a new one has none.
   */
  datatype Draft = Draft(
    id: Option<int>,
    title: string,
    content: string,
    date: string,
    sentiment: JsInt,
    sleep: JsInt,
    stress: JsInt,
    socialEngagement: JsInt)

  datatype Slider = SentimentSlider | SleepSlider | StressSlider | SocialEngagementSlider
  datatype TextField = TitleField | ContentField | DateField

  /** An input event: a slider (`type === "range"`) or one of the text inputs, with the element's text value. */
  datatype Input = RangeInput(slider: Slider, value: string) | TextInput(field: TextField, value: string)

  datatype Submission = Alert(message: string) | Save(draft: Draft)

  const DefaultRating: int := 3

  function SliderValue(d: Draft, s: Slider): JsInt {
    match s
    case SentimentSlider => d.sentiment
    case SleepSlider => d.sleep
    case StressSlider => d.stress
    case SocialEngagementSlider => d.socialEngagement
  }

  function TextValue(d: Draft, f: TextField): string {
    match f
    case TitleField => d.title
    case ContentField => d.content
    case DateField => d.date
  }

  /**
   * The state of a blank form: no id, empty text, every slider at 3, and the
   * date part (before the first `T`) of `todayIso`, which is
   * `new Date().toISOString()` read from the clock.
   */
  function Default(todayIso: string): (d: Draft)
    ensures d.id == None && d.title == "" && d.content == ""
    ensures forall s :: SliderValue(d, s) == Int(DefaultRating)
    ensures 'T' !in d.date
    ensures 'T' !in todayIso ==> d.date == todayIso
    ensures 'T' in todayIso ==> d.date + "T" <= todayIso
  {
    BeforeFirstIsPrefix(todayIso, 'T');
    BeforeFirstThenSep(todayIso, 'T');
    Draft(None, "", "", BeforeFirst(todayIso, 'T'), Int(DefaultRating), Int(DefaultRating), Int(DefaultRating), Int(DefaultRating))
  }

  function RatingOrDefault(r: Option<Rating>): JsInt {
    Int(r.GetOr(DefaultRating))
  }

  /** The state loaded from an entry being edited. */
  function EditInit(e: Entry): Draft {
    Draft(
      Some(e.id), e.title, e.content,
      if e.date != "" then BeforeFirst(e.date, 'T') else "",
      RatingOrDefault(e.sentimentLevel), RatingOrDefault(e.sleepQuality),
      RatingOrDefault(e.stressLevel), RatingOrDefault(e.socialEngagement))
  }

  /** The effect on `editEntry`: edit it when there is one, start blank otherwise. */
  function Init(editEntry: Option<Entry>, todayIso: string): Draft {
    match editEntry
    case Some(e) => EditInit(e)
    case None => Default(todayIso)
  }

  /**
   * The date loaded for editing is the part of the stored date before the first
   * `T`; every slider starts at the stored rating, or at 3 when there is none,
   * so always within the slider's 1-5 range.
   */
  lemma EditInitLoads(e: Entry)
    ensures EditInit(e).id == Some(e.id)
    ensures EditInit(e).title == e.title && EditInit(e).content == e.content
    ensures 'T' !in EditInit(e).date && EditInit(e).date <= e.date
    ensures 'T' !in e.date ==> EditInit(e).date == e.date
    ensures 'T' in e.date ==> EditInit(e).date + "T" <= e.date
    ensures e.sentimentLevel.Some? ==> EditInit(e).sentiment == Int(e.sentimentLevel.value)
    ensures e.sentimentLevel.None? ==> EditInit(e).sentiment == Int(DefaultRating)
    ensures e.sleepQuality.Some? ==> EditInit(e).sleep == Int(e.sleepQuality.value)
    ensures e.sleepQuality.None? ==> EditInit(e).sleep == Int(DefaultRating)
    ensures e.stressLevel.Some? ==> EditInit(e).stress == Int(e.stressLevel.value)
    ensures e.stressLevel.None? ==> EditInit(e).stress == Int(DefaultRating)
    ensures e.socialEngagement.Some? ==> EditInit(e).socialEngagement == Int(e.socialEngagement.value)
    ensures e.socialEngagement.None? ==> EditInit(e).socialEngagement == Int(DefaultRating)
    ensures forall s :: SliderValue(EditInit(e), s).Int? && 1 <= SliderValue(EditInit(e), s).value <= 5
  {
    BeforeFirstIsPrefix(e.date, 'T');
    var d := BeforeFirst(e.date, 'T');
    if 'T' in e.date {
      assert d + "T" == e.date[..|d| + 1];
    }
  }

  /** `setEntry(prev => ({ ...prev, [name]: newValue }))`, with `parseInt(value, 10)` for a slider. */
  function ApplyChange(d: Draft, input: Input): Draft {
    match input
    case RangeInput(SentimentSlider, v) => d.(sentiment := JsParseInt(v))
    case RangeInput(SleepSlider, v) => d.(sleep := JsParseInt(v))
    case RangeInput(StressSlider, v) => d.(stress := JsParseInt(v))
    case RangeInput(SocialEngagementSlider, v) => d.(socialEngagement := JsParseInt(v))
    case TextInput(TitleField, v) => d.(title := v)
    case TextInput(ContentField, v) => d.(content := v)
    case TextInput(DateField, v) => d.(date := v)
  }

  /**
   * A slider set to the text of a natural number stores that number; a text input stores
   * its text verbatim; every other field, and the id, stay as they were.
   */
  lemma ApplyChangeUpdatesOneField(d: Draft, input: Input)
    ensures ApplyChange(d, input).id == d.id
    ensures input.RangeInput? ==>
      (forall n: nat :: input.value == IntToString(n) ==> SliderValue(ApplyChange(d, input), input.slider) == Int(n))
    ensures input.RangeInput? ==>
      forall s :: s != input.slider ==> SliderValue(ApplyChange(d, input), s) == SliderValue(d, s)
    ensures input.RangeInput? ==> forall f :: TextValue(ApplyChange(d, input), f) == TextValue(d, f)
    ensures input.TextInput? ==> TextValue(ApplyChange(d, input), input.field) == input.value
    ensures input.TextInput? ==>
      forall f :: f != input.field ==> TextValue(ApplyChange(d, input), f) == TextValue(d, f)
    ensures input.TextInput? ==> forall s :: SliderValue(ApplyChange(d, input), s) == SliderValue(d, s)
  {
    if input.RangeInput? {
      forall n: nat | input.value == IntToString(n)
        ensures SliderValue(ApplyChange(d, input), input.slider) == Int(n)
      {
        SliderStoresNumber(d, input.slider, n);
      }
    }
  }

  lemma SliderStoresNumber(d: Draft, s: Slider, n: nat)
    ensures SliderValue(ApplyChange(d, RangeInput(s, IntToString(n))), s) == Int(n)
  {
    JsParseIntOfNatString(n);
  }

  /** Submit passes the state to `onSave` exactly when title, content and date are all non-empty. */
  function HandleSubmit(d: Draft): (r: Submission)
    ensures r.Save? <==> d.title != "" && d.content != "" && d.date != ""
    ensures r.Save? ==> r.draft == d
    ensures r.Alert? ==> r.message == "Please fill out Title, Content, and Date."
  {
    if d.title == "" || d.content == "" || d.date == "" then Alert("Please fill out Title, Content, and Date.")
    else Save(d)
  }

  /** A blank form is rejected until both title and content are typed in. */
  lemma DefaultRejected(todayIso: string)
    ensures HandleSubmit(Default(todayIso)).Alert?
  {
  }

  /** Moving a slider never changes whether the form can be submitted. */
  lemma SliderKeepsSubmittability(d: Draft, s: Slider, v: string)
    ensures HandleSubmit(ApplyChange(d, RangeInput(s, v))).Save? == HandleSubmit(d).Save?
  {
  }

  /** An unchanged edited entry can be saved exactly when its title and content are non-empty and its date does not start with `T`. */
  lemma EditedEntrySubmittable(e: Entry)
    ensures HandleSubmit(EditInit(e)).Save? <==> e.title != "" && e.content != "" && e.date != "" && e.date[0] != 'T'
  {
    BeforeFirstIsPrefix(e.date, 'T');
    var d := BeforeFirst(e.date, 'T');
    if e.date != "" && e.date[0] != 'T' {
      assert 'T' in e.date ==> |d| > 0;
    }
    if e.date != "" && e.date[0] == 'T' {
      assert 'T' in e.date;
    }
  }
}
