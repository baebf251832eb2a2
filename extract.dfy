/** Recovering the JSON object from the model's free-form answer with the
    greedy pattern `/\{[\s\S]*\}/`: the leftmost match starts at the first
    `{` and, being greedy, runs to the last `}` of the text. */
module ResponseExtractor {
  import opened Optional

  /** Position of the first `c` in `s`, if any. */
  function FirstIndex(s: string, c: char): (r: Option<nat>)
    ensures r.None? ==> forall k :: 0 <= k < |s| ==> s[k] != c
    ensures r.Some? ==> r.value < |s| && s[r.value] == c
                        && forall k :: 0 <= k < r.value ==> s[k] != c
  {
    if |s| == 0 then None
    else if s[0] == c then Some(0)
    else match FirstIndex(s[1..], c)
      case None => None
      case Some(i) => Some(i + 1)
  }

  /** Position of the last `c` in `s`, if any. */
  function LastIndex(s: string, c: char): (r: Option<nat>)
    ensures r.None? ==> forall k :: 0 <= k < |s| ==> s[k] != c
    ensures r.Some? ==> r.value < |s| && s[r.value] == c
                        && forall k :: r.value < k < |s| ==> s[k] != c
  {
    if |s| == 0 then None
    else if s[|s| - 1] == c then Some(|s| - 1)
    else LastIndex(s[..|s| - 1], c)
  }

  /** Some `{` comes before some `}`: the pattern has something to match. */
  predicate HasBraceSpan(text: string)
  {
    exists i, j :: 0 <= i < j < |text| && text[i] == '{' && text[j] == '}'
  }

  /** `text[i..j + 1]` runs from the first `{` of the text to its last `}`. */
  predicate IsWidestSpan(text: string, i: int, j: int)
  {
    && 0 <= i < j < |text|
    && text[i] == '{' && text[j] == '}'
    && (forall k :: 0 <= k < i ==> text[k] != '{')
    && (forall k :: j < k < |text| ==> text[k] != '}')
  }

  /** `content.match(/\{[\s\S]*\}/)`, giving the matched text or None. */
  function ExtractJson(text: string): (r: Option<string>)
    ensures r.Some? ==> 2 <= |r.value| && r.value[0] == '{' && r.value[|r.value| - 1] == '}'
  {
    match FirstIndex(text, '{')
    case None => None
    case Some(i) =>
      match LastIndex(text, '}')
      case None => None
      case Some(j) => if i < j then Some(text[i..j + 1]) else None
  }

  /** There is at most one widest span. */
  lemma WidestSpanUnique(text: string, i1: int, j1: int, i2: int, j2: int)
    requires IsWidestSpan(text, i1, j1) && IsWidestSpan(text, i2, j2)
    ensures i1 == i2 && j1 == j2
  {
  }

  /** The match exists exactly when some `{` precedes some `}`, and it is
      then the text from the first `{` to the last `}`, both included. */
  lemma ExtractJsonSpec(text: string)
    ensures ExtractJson(text).Some? <==> HasBraceSpan(text)
    ensures ExtractJson(text).Some? ==>
              exists i, j :: IsWidestSpan(text, i, j) && ExtractJson(text).value == text[i..j + 1]
    ensures forall i, j :: IsWidestSpan(text, i, j) ==> ExtractJson(text) == Some(text[i..j + 1])
  {
    var first := FirstIndex(text, '{');
    var last := LastIndex(text, '}');
    if HasBraceSpan(text) {
      var i0, j0 :| 0 <= i0 < j0 < |text| && text[i0] == '{' && text[j0] == '}';
      assert first.Some? && first.value <= i0;
      assert last.Some? && j0 <= last.value;
      assert IsWidestSpan(text, first.value, last.value);
      forall i, j | IsWidestSpan(text, i, j)
        ensures ExtractJson(text) == Some(text[i..j + 1])
      {
        WidestSpanUnique(text, i, j, first.value, last.value);
      }
    }
  }

  /** An object embedded in prose is recovered intact, provided the text
      before it has no `{` and the text after it has no `}`. */
  lemma ExtractEmbedded(prose: string, json: string, trailer: string)
    requires '{' !in prose && '}' !in trailer
    requires 2 <= |json| && json[0] == '{' && json[|json| - 1] == '}'
    ensures ExtractJson(prose + json + trailer) == Some(json)
  {
    var text := prose + json + trailer;
    var i, j := |prose|, |prose| + |json| - 1;
    forall k | 0 <= k < i ensures text[k] != '{' {
      assert text[k] == prose[k];
    }
    forall k | j < k < |text| ensures text[k] != '}' {
      assert text[k] == trailer[k - j - 1];
    }
    assert IsWidestSpan(text, i, j);
    ExtractJsonSpec(text);
    assert text[i..j + 1] == json;
  }

  /** Text with no `{`, or with no `}`, yields no match. */
  lemma NoBraceNoMatch(text: string)
    requires '{' !in text || '}' !in text
    ensures ExtractJson(text).None?
  {
  }
}
