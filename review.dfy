/** The review a completed cycle publishes: what the model returned after
    parsing, or the fixed pipeline-error review built in the catch block. */
module ReviewModel {
  import opened Optional

  /** One flagged problem. `kind` is the JSON field `type`, and it and
      `severity` stay plain strings because the parser passes through
      whatever the model wrote; the display classifiers give them meaning. */
  datatype Issue = Issue(kind: string, severity: string, line: Option<int>, description: string)

  /** `score` is a JavaScript number, so it may be fractional; it is kept
      as a real number. */
  datatype Review = Review(score: real, issues: seq<Issue>, positives: seq<string>, suggestions: seq<string>)

  const FailureDescription: string := "Failed to analyze code. Please try again."

  /** The shape every failure review has: score 0, exactly one issue of
      type error and severity high with a non-empty description, and no
      positives or suggestions. */
  predicate IsPipelineErrorShape(r: Review)
  {
    && r.score == 0.0
    && |r.issues| == 1
    && r.issues[0].kind == "error"
    && r.issues[0].severity == "high"
    && r.issues[0].line.None?
    && |r.issues[0].description| > 0
    && r.positives == []
    && r.suggestions == []
  }

  /** The review published when anything in the exchange throws. */
  function PipelineErrorReview(): (r: Review)
    ensures IsPipelineErrorShape(r)
    ensures r.issues[0].description == FailureDescription
  {
    Review(0.0, [Issue("error", "high", None, FailureDescription)], [], [])
  }
}
