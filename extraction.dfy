/**
 * The two pure steps between the inference call and parsing in
 * app/routes/upload.tsx: choosing the response text, and cutting the JSON
 * object out of it with the greedy pattern `/\{[\s\S]*\}/`.
 */
module Extraction {
  import opened Wrappers
  import Constants

  /** One element of an array-shaped `message.content`; `text` is absent when the element has none. */
  datatype Part = Part(text: Option<string>)

  /**
   * A present `message.content`: a string, an array of parts, or some other
   * truthy value. The other falsy values JavaScript has (`0`, `false`,
   * `null`, `NaN`, `undefined`) are not told apart: each is modelled as a
   * missing content, `Response(None)`, which the code rejects the same way.
   */
  datatype Content = Text(s: string) | Parts(parts: seq<Part>) | OtherValue

  /** What `ai.feedback` resolves to: nothing, or a response whose `message.content` may be missing. */
  datatype AiResponse = NoResponse | Response(content: Option<Content>)

  /**
   * JavaScript truthiness of a present `message.content`. Of the values
   * `Content` can hold only the empty string is falsy; the other falsy values
   * are modelled as absent content.
   */
  predicate IsTruthy(c: Content) {
    !(c.Text? && c.s == "")
  }

  /** A part whose `text` is a non-empty string. */
  predicate HasText(p: Part) {
    p.text.Some? && p.text.value != ""
  }

  /**
   * The text the analysis is read from: string content as it is; for array
   * content the first element's `text` when that is truthy; otherwise `''`.
   */
  function SelectText(c: Content): (t: string)
    ensures c.Text? ==> t == c.s
    ensures c.Parts? && |c.parts| > 0 && HasText(c.parts[0]) ==> t == c.parts[0].text.value
    ensures !c.Text? && !(c.Parts? && |c.parts| > 0 && HasText(c.parts[0])) ==> t == ""
  {
    match c
    case Text(s) => s
    case Parts(ps) => if |ps| > 0 && HasText(ps[0]) then ps[0].text.value else ""
    case OtherValue => ""
  }

  /**
   * The response check and text selection: `None` when there is no response
   * or its content is missing or falsy (the run then fails before any
   * extraction), the selected text otherwise.
   */
  function ResponseText(r: AiResponse): (t: Option<string>)
    ensures t.None? <==> r.NoResponse? || r.content.None? || !IsTruthy(r.content.value)
    ensures t.Some? ==> t.value == SelectText(r.content.value)
  {
    if r.NoResponse? || r.content.None? || !IsTruthy(r.content.value) then None
    else Some(SelectText(r.content.value))
  }

  /** The position of the first `c` in `s`, if any. */
  function FirstIndexOf(s: string, c: char): (r: Option<nat>)
    ensures r.Some? ==> r.value < |s| && s[r.value] == c && forall k :: 0 <= k < r.value ==> s[k] != c
    ensures r.None? ==> forall k :: 0 <= k < |s| ==> s[k] != c
  {
    if s == [] then None
    else if s[0] == c then Some(0)
    else match FirstIndexOf(s[1..], c)
      case None => None
      case Some(i) => Some(i + 1)
  }

  /** The position of the last `c` in `s`, if any. */
  function LastIndexOf(s: string, c: char): (r: Option<nat>)
    ensures r.Some? ==> r.value < |s| && s[r.value] == c && forall k :: r.value < k < |s| ==> s[k] != c
    ensures r.None? ==> forall k :: 0 <= k < |s| ==> s[k] != c
  {
    if s == [] then None
    else if s[|s| - 1] == c then Some(|s| - 1)
    else LastIndexOf(s[..|s| - 1], c)
  }

  /**
   * `feedbackText.match(/\{[\s\S]*\}/)`: there is a match exactly when some
   * `}` comes after some `{`, and the match runs from the first `{` to the
   * last `}`, both included.
   */
  function ExtractJson(text: string): (r: Option<string>)
    ensures r.Some? <==> exists i, j :: 0 <= i < j < |text| && text[i] == '{' && text[j] == '}'
    ensures r.Some? ==> exists i, j :: 0 <= i < j < |text| && r.value == text[i..j + 1]
                          && text[i] == '{' && (forall k :: 0 <= k < i ==> text[k] != '{')
                          && text[j] == '}' && (forall k :: j < k < |text| ==> text[k] != '}')
  {
    match FirstIndexOf(text, '{')
    case None => None
    case Some(i) =>
      match LastIndexOf(text, '}')
      case None => None
      case Some(j) => if i < j then Some(text[i..j + 1]) else None
  }

  /** `{` at `i` and `}` at `j - 1`: the pattern matches `text[i..j]`. */
  predicate IsMatch(text: string, i: int, j: int) {
    0 <= i && i + 2 <= j <= |text| && text[i] == '{' && text[j - 1] == '}'
  }

  /**
   * The match a JavaScript regular expression engine reports for this
   * pattern: it starts at the leftmost position where a match starts, and the
   * greedy `[\s\S]*` makes it the longest match from there.
   */
  ghost predicate IsReportedMatch(text: string, i: int, j: int) {
    && IsMatch(text, i, j)
    && (forall i', j' :: IsMatch(text, i', j') ==> i <= i')
    && (forall j' :: IsMatch(text, i, j') ==> j' <= j)
  }

  /** The extraction agrees with the regular-expression semantics of the pattern. */
  lemma ExtractJsonIsReportedMatch(text: string)
    ensures ExtractJson(text).None? <==> forall i, j :: !IsMatch(text, i, j)
    ensures ExtractJson(text).Some? ==> exists i, j :: IsReportedMatch(text, i, j)
    ensures forall i, j :: IsReportedMatch(text, i, j) ==> ExtractJson(text) == Some(text[i..j])
  {
    var r := ExtractJson(text);
    if r.None? {
      forall i, j ensures !IsMatch(text, i, j) {
        if IsMatch(text, i, j) {
          assert false;
        }
      }
    } else {
      var a := FirstIndexOf(text, '{').value;
      var b := LastIndexOf(text, '}').value;
      assert r == Some(text[a..b + 1]);
      assert IsReportedMatch(text, a, b + 1);
      forall i, j | IsReportedMatch(text, i, j) ensures r == Some(text[i..j]) {
        assert i <= a;
        assert a <= i;
        assert j <= b + 1;
        assert b + 1 <= j by {
          assert IsMatch(text, i, b + 1);
        }
      }
    }
  }

  /** A text that starts with `{` and ends with `}` comes out of the extraction unchanged. */
  lemma {:induction false} ExtractJsonKeepsBracedText(t: string)
    requires 2 <= |t| && t[0] == '{' && t[|t| - 1] == '}'
    ensures ExtractJson(t) == Some(t)
  {
    assert FirstIndexOf(t, '{') == Some(0);
    assert LastIndexOf(t, '}') == Some(|t| - 1);
    assert t[0..|t|] == t;
  }

  /** The extraction is idempotent: extracting from its own output gives that output back. */
  lemma ExtractJsonIsIdempotent(text: string)
    ensures ExtractJson(text).Some? ==> ExtractJson(ExtractJson(text).value) == ExtractJson(text)
  {
    if ExtractJson(text).Some? {
      var t := ExtractJson(text).value;
      var i, j :| 0 <= i < j < |text| && t == text[i..j + 1] && text[i] == '{' && text[j] == '}';
      assert t[0] == '{' && t[|t| - 1] == '}';
      ExtractJsonKeepsBracedText(t);
    }
  }

  /**
   * Prose around the payload is dropped: with no `{` before the payload and
   * no `}` after it, the extraction returns exactly the payload.
   */
  lemma ExtractJsonDropsSurroundingProse(before: string, payload: string, after: string)
    requires forall k :: 0 <= k < |before| ==> before[k] != '{'
    requires forall k :: 0 <= k < |after| ==> after[k] != '}'
    requires 2 <= |payload| && payload[0] == '{' && payload[|payload| - 1] == '}'
    ensures ExtractJson(before + payload + after) == Some(payload)
  {
    var text := before + payload + after;
    var a := |before|;
    var b := |before| + |payload| - 1;
    assert text[a] == '{' && text[b] == '}';
    forall k | 0 <= k < a ensures text[k] != '{' {
      assert text[k] == before[k];
    }
    forall k | b < k < |text| ensures text[k] != '}' {
      assert text[k] == after[k - b - 1];
    }
    assert FirstIndexOf(text, '{') == Some(a);
    assert LastIndexOf(text, '}') == Some(b);
    assert text[a..b + 1] == payload;
  }

  /** A text whose every `}` comes before every `{` gives no match. */
  lemma ClosingBraceFirstIsNoMatch(text: string)
    requires forall i, j :: 0 <= i < j < |text| && text[i] == '{' ==> text[j] != '}'
    ensures ExtractJson(text) == None
  {
  }

  /** For instance `"} {"`: a closing brace and an opening brace, in that order. */
  lemma ClosingBraceFirstExample()
    ensures ExtractJson("} {") == None
  {
    ClosingBraceFirstIsNoMatch("} {");
  }

  /** The example payload in the instructions passes through the extraction unchanged. */
  lemma JsonExampleSurvivesExtraction()
    ensures ExtractJson(Constants.JsonExampleFormat) == Some(Constants.JsonExampleFormat)
  {
    Constants.JsonExampleIsBraced();
    ExtractJsonKeepsBracedText(Constants.JsonExampleFormat);
  }
}
