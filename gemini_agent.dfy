/**
 * The parts of `backend/app/services/gemini_agent.py` that run after the
 * language model has answered: the comma-separated goal ids of
 * `extract_goals` read into integers, and the `", "` joins that
 * `extract_activities` and `extract_sentiments` return. The model's answer
 * is a parameter.
 */
module GeminiAgent {
  import opened Wrappers
  import opened Text

  /**
   * `[int(x.strip()) for x in pieces]`: every piece parsed, or none when some
   * piece raises `ValueError`.
   */
  function ParseAll(pieces: seq<string>): (r: Option<seq<int>>)
    ensures r.Some? ==> |r.value| == |pieces| && forall k :: 0 <= k < |pieces| ==> PyInt(Strip(pieces[k], Py)) == Some(r.value[k])
    ensures r.None? ==> exists k :: 0 <= k < |pieces| && PyInt(Strip(pieces[k], Py)).None?
  {
    if |pieces| == 0 then Some([])
    else
      match PyInt(Strip(pieces[0], Py))
      case None => None
      case Some(v) =>
        match ParseAll(pieces[1..])
        case None =>
          assert exists k :: 1 <= k < |pieces| && PyInt(Strip(pieces[k], Py)).None? by {
            var j :| 0 <= j < |pieces[1..]| && PyInt(Strip(pieces[1..][j], Py)).None?;
            assert pieces[1..][j] == pieces[j + 1];
          }
          None
        case Some(vs) => Some([v] + vs)
  }

  /** The goal ids in the model's answer, in order and with duplicates; `[]` when any piece is not an integer. */
  function ExtractGoalIds(text: string): seq<int> {
    match ParseAll(Split(text, ','))
    case Some(ids) => ids
    case None => []
  }

  /** A successful parse yields one id per comma-separated piece: the number of commas plus one. */
  lemma GoalIdsCount(text: string)
    requires ParseAll(Split(text, ',')).Some?
    ensures |ExtractGoalIds(text)| == Count(text, ',') + 1
  {
    SplitCount(text, ',');
  }

  /** An empty answer and an answer with a trailing comma both give no ids. */
  lemma NoIdsForEmptyOrTrailingComma(text: string)
    ensures ExtractGoalIds("") == []
    ensures ExtractGoalIds(text + ",") == []
  {
    PyIntOfEmpty();
    assert Split("", ',') == [""];
    SplitAppend(text, ',', "");
    assert text + [','] + "" == text + ",";
    var pieces := Split(text + ",", ',');
    assert pieces[|pieces| - 1] == "";
  }

  /** Stripping a text that has a space before it and no outer white space of its own gives the text. */
  lemma StripPadded(s: string)
    requires |s| > 0 && !IsSpace(s[0], Py) && !IsSpace(s[|s| - 1], Py)
    ensures Strip(" " + s, Py) == s
  {
    var p := " " + s;
    assert p[1..] == s;
    assert IsSpace(p[0], Py);
    assert TrimStart(p, Py) == TrimStart(s, Py);
    StripNoOuterSpace(s, Py);
  }

  /** A piece with a space before a number reads as that number. */
  lemma PaddedNumber(n: int)
    ensures PyInt(Strip(" " + IntToString(n), Py)) == Some(n)
  {
    var s := IntToString(n);
    StripPadded(s);
    PyIntOfIntToString(n);
  }

  /** The text of a list of ids in the requested format, e.g. "2, 5, 7". */
  function IdsText(ids: seq<int>): string {
    Join(seq(|ids|, k requires 0 <= k < |ids| => IntToString(ids[k])), ", ")
  }

  /** The answer "2, 5, 7" splits on its commas into "2", " 5", " 7". */
  lemma IdsTextPieces(ids: seq<int>)
    requires |ids| >= 1
    ensures var pieces := Split(IdsText(ids), ',');
      |pieces| == |ids| && pieces[0] == IntToString(ids[0]) &&
      forall k :: 1 <= k < |ids| ==> pieces[k] == " " + IntToString(ids[k])
  {
    var strs := seq(|ids|, k requires 0 <= k < |ids| => IntToString(ids[k]));
    NumbersHaveNoComma(ids);
    assert [','] + " " == ", ";
    SplitJoin("", strs, ',', " ");
    assert "" + IdsText(ids) == IdsText(ids);
    var pieces := Split(IdsText(ids), ',');
    var tail := seq(|ids| - 1, k requires 0 <= k < |ids| - 1 => " " + strs[k + 1]);
    assert pieces == ["" + strs[0]] + tail;
    forall k | 1 <= k < |ids|
      ensures pieces[k] == " " + IntToString(ids[k])
    {
      assert pieces[k] == tail[k - 1];
    }
  }

  lemma NumbersHaveNoComma(ids: seq<int>)
    ensures forall k :: 0 <= k < |ids| ==> ',' !in IntToString(ids[k])
  {
    forall k | 0 <= k < |ids|
      ensures ',' !in IntToString(ids[k])
    {
      IntToStringChars(ids[k]);
    }
  }

  /** An answer in the requested format gives back exactly its ids, in order. */
  lemma GoalIdsRoundTrip(ids: seq<int>)
    requires |ids| >= 1
    ensures ExtractGoalIds(IdsText(ids)) == ids
  {
    IdsTextPieces(ids);
    var pieces := Split(IdsText(ids), ',');
    forall k | 0 <= k < |pieces|
      ensures PyInt(Strip(pieces[k], Py)) == Some(ids[k])
    {
      PieceParses(ids, pieces, k);
    }
    var r := ParseAll(pieces);
    assert r.Some?;
    assert r.value == ids;
  }

  /** Each piece of the answer, stripped, reads as its id. */
  lemma PieceParses(ids: seq<int>, pieces: seq<string>, k: int)
    requires |pieces| == |ids| && 0 <= k < |ids|
    requires k == 0 ==> pieces[k] == IntToString(ids[k])
    requires k > 0 ==> pieces[k] == " " + IntToString(ids[k])
    ensures PyInt(Strip(pieces[k], Py)) == Some(ids[k])
  {
    if k == 0 {
      StripNoOuterSpace(IntToString(ids[0]), Py);
      PyIntOfIntToString(ids[0]);
    } else {
      PaddedNumber(ids[k]);
    }
  }

  /** `", ".join(values)`, as `extract_activities` and `extract_sentiments` return it. */
  function JoinValues(values: seq<string>): (r: string)
    ensures |values| == 0 ==> r == ""
    ensures |values| == 1 ==> r == values[0]
  {
    Join(values, ", ")
  }

  /**
   * The joined text splits back on its commas into the values in the order
   * received, each stripped as the goal parser strips its pieces, when no
   * value holds a comma.
   */
  lemma {:induction false} JoinValuesSplitsBack(values: seq<string>)
    requires |values| >= 1
    requires forall k :: 0 <= k < |values| ==> ',' !in values[k]
    ensures var pieces := Split(JoinValues(values), ',');
      |pieces| == |values| &&
      forall k :: 0 <= k < |values| ==> Strip(pieces[k], Py) == Strip(values[k], Py)
  {
    assert [','] + " " == ", ";
    SplitJoin("", values, ',', " ");
    assert "" + JoinValues(values) == JoinValues(values);
    var pieces := Split(JoinValues(values), ',');
    forall k | 1 <= k < |values|
      ensures Strip(pieces[k], Py) == Strip(values[k], Py)
    {
      assert pieces[k] == " " + values[k];
      assert (" " + values[k])[1..] == values[k];
    }
    assert pieces[0] == "" + values[0] == values[0];
  }
}
