/** The `analyzeCode` lifecycle over the component's `loading` and
    `review` state. The asynchronous exchange is split in two steps: Begin
    runs up to the network call and Settle runs once the call settles. */
module ReviewPipeline {
  import opened Optional
  import opened ReviewModel
  import opened JsText
  import opened PromptBuilder
  import opened ResponseExtractor
  import Display

  /** How the exchange settled: something threw before a text was in hand
      (fetch rejected, the body was not JSON, or `data.content[0].text` was
      missing), or the first content block's text arrived. */
  datatype Outcome = Threw | Replied(text: string)

  /** The review a settled exchange publishes, where `parse` stands for
      `JSON.parse` (None when it throws). None means that nothing is
      published: the text held no brace span. */
  function Settled(outcome: Outcome, parse: string -> Option<Review>): Option<Review>
  {
    match outcome
    case Threw => Some(PipelineErrorReview())
    case Replied(text) =>
      match ExtractJson(text)
      case None => None
      case Some(span) =>
        match parse(span)
        case None => Some(PipelineErrorReview())
        case Some(parsed) => Some(parsed)
  }

  /** The review the parser made of the response's brace span, if any. */
  predicate ParsedFromResponse(outcome: Outcome, parse: string -> Option<Review>, r: Review)
  {
    && outcome.Replied?
    && ExtractJson(outcome.text).Some?
    && parse(ExtractJson(outcome.text).value) == Some(r)
  }

  /** Something threw: the transport, the response's shape or the parser. */
  predicate Raised(outcome: Outcome, parse: string -> Option<Review>)
  {
    || outcome.Threw?
    || (ExtractJson(outcome.text).Some? && parse(ExtractJson(outcome.text).value).None?)
  }

  /** Every exception, whatever threw, publishes the one pipeline-error
      review. */
  lemma RaisedPublishesPipelineError(outcome: Outcome, parse: string -> Option<Review>)
    requires Raised(outcome, parse)
    ensures Settled(outcome, parse) == Some(PipelineErrorReview())
    ensures IsPipelineErrorShape(Settled(outcome, parse).value)
  {
  }

  /** A response with no brace span publishes nothing and, in particular,
      not the pipeline-error review; one with a span always publishes. */
  lemma NoSpanPublishesNothing(text: string, parse: string -> Option<Review>)
    ensures Settled(Replied(text), parse).None? <==> !HasBraceSpan(text)
  {
  }

  /** A span the parser accepts is published exactly as parsed. */
  lemma ParsedSpanPublished(outcome: Outcome, parse: string -> Option<Review>, r: Review)
    requires ParsedFromResponse(outcome, parse, r)
    ensures Settled(outcome, parse) == Some(r)
  {
  }

  /** Whatever is published is either the parser's review of the response
      or the pipeline-error review after an exception; there is no third
      kind. */
  lemma PublishedIsParsedOrPipelineError(outcome: Outcome, parse: string -> Option<Review>)
    requires Settled(outcome, parse).Some?
    ensures ParsedFromResponse(outcome, parse, Settled(outcome, parse).value)
            || (Raised(outcome, parse) && Settled(outcome, parse).value == PipelineErrorReview())
  {
  }

  /** A reply in which the object follows a line of prose is published as
      the parser reads that object. */
  lemma ReplyAfterProse(prose: string, json: string, parse: string -> Option<Review>, r: Review)
    requires '{' !in prose
    requires 2 <= |json| && json[0] == '{' && json[|json| - 1] == '}'
    requires parse(json) == Some(r)
    ensures Settled(Replied(prose + json), parse) == Some(r)
  {
    ExtractEmbedded(prose, json, "");
    assert prose + json + "" == prose + json;
  }

  /** A reply lacking `{` or lacking `}` publishes no review, whatever
      the parser would have done. */
  lemma BracelessReply(text: string, parse: string -> Option<Review>)
    requires '{' !in text || '}' !in text
    ensures Settled(Replied(text), parse).None?
  {
  }

  /** A reply with no braces at all, such as "not json at all", publishes
      no review, whatever the parser would have done. */
  lemma PlainTextReply(parse: string -> Option<Review>)
    ensures Settled(Replied("not json at all"), parse).None?
  {
    NoBraceNoMatch("not json at all");
  }

  /** The pipeline-error review is shown with score 0 in the bottom band,
      under a red badge and with the warning icon. */
  lemma PipelineErrorDisplay()
    ensures var r := PipelineErrorReview();
            && Display.ScoreColor(r.score) == Display.RedToRose
            && Display.ScoreCaption(r.score) == Display.AttentionCaption
            && Display.SeverityStyleOf(r.issues[0].severity) == Display.RedBadge
            && Display.TypeIconOf(r.issues[0].kind) == Display.WarningIcon
  {
  }

  /** The component's `loading` and `review` state. */
  class Reviewer {
    var loading: bool
    var review: Option<Review>

    /** While an exchange is in flight no review is shown. */
    ghost predicate Valid()
      reads this
    {
      loading ==> review.None?
    }

    /** The initial state: not loading, no review. */
    constructor ()
      ensures Valid() && !loading && review.None?
    {
      loading := false;
      review := None;
    }

    /** `analyzeCode` up to the network call. The caller (the button, which
        is disabled while loading) never starts a second exchange while one
        is in flight. White-space-only code changes nothing; otherwise the
        old review is cleared, loading is set, and the prompt to send is
        returned. */
    method Begin(code: string, language: string) returns (request: Option<string>)
      requires Valid() && !loading
      modifies this
      ensures Valid()
      ensures AllWhitespace(code) ==>
                loading == old(loading) && review == old(review) && request.None?
      ensures !AllWhitespace(code) ==>
                loading && review.None? && request == Some(BuildPrompt(code, language))
    {
      TrimEmptyIffBlank(code);
      if Trim(code) == [] {
        return None;
      }
      loading := true;
      review := None;
      request := Some(BuildPrompt(code, language));
    }

    /** `analyzeCode` after the network call: the try block publishes the
        parsed span (and nothing when there is no span), the catch block
        publishes the pipeline-error review, and the finally block clears
        loading on every path. */
    method Settle(outcome: Outcome, parse: string -> Option<Review>)
      requires Valid() && loading
      modifies this
      ensures Valid() && !loading
      ensures review == Settled(outcome, parse)
    {
      match outcome {
        case Threw =>
          review := Some(PipelineErrorReview());
        case Replied(text) =>
          var span := ExtractJson(text);
          if span.Some? {
            var parsed := parse(span.value);
            if parsed.Some? {
              review := parsed;
            } else {
              review := Some(PipelineErrorReview());
            }
          }
      }
      loading := false;
    }
  }

  /** One full `analyzeCode` call on an idle component showing `previous`:
      a blank submission keeps that review, a non-blank one publishes
      whatever Settled says, and loading ends false either way. */
  method AnalyzeOnce(previous: Option<Review>, code: string, language: string,
                     outcome: Outcome, parse: string -> Option<Review>)
    returns (loading: bool, review: Option<Review>)
    ensures !loading
    ensures review == if AllWhitespace(code) then previous else Settled(outcome, parse)
  {
    var reviewer := new Reviewer();
    reviewer.review := previous;
    var request := reviewer.Begin(code, language);
    if request.Some? {
      reviewer.Settle(outcome, parse);
    }
    loading, review := reviewer.loading, reviewer.review;
  }
}
