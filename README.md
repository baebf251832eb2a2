# AI code reviewer: the review pipeline

A model of the part of the `AICodeReviewer` React component that does
more than draw the page. Given the code typed in and a language tag, the
component builds a review prompt and sends it to a language-model
completion endpoint. It then pulls the JSON object out of the model's
free-form answer and publishes that object as the current review. On any
exception it publishes a fixed error review instead. While the exchange
runs it shows a loading state. The display of a review uses a few pure
classifiers: the score gradient and caption, the severity badge and the
issue-type icon.

Modules, one per component of the pipeline:

- `Optional` (optional.dfy): the `Option` type, standing for a JavaScript value or `null`.
- `ReviewModel` (review.dfy): `Issue`, `Review` and the pipeline-error review from the catch block.
- `JsText` (jstext.dfy): `String.prototype.trim` and the white-space-only guard it implements.
- `PromptBuilder` (prompt.dfy): the prompt template, with an inverse that recovers the code from a prompt.
- `ResponseExtractor` (extract.dfy): the greedy `/\{[\s\S]*\}/` match, as first-`{` to last-`}`.
- `Display` (display.dfy): `getScoreColor`, the score caption, `getSeverityStyle` and `getTypeIcon`.
- `ReviewPipeline` (pipeline.dfy): the class `Reviewer` with the `loading`/`review` state, and the lifecycle of `analyzeCode`.

The asynchronous `analyzeCode` is split at its `await`s into two steps.
`Begin` runs the guard and sets the state up to the network call, and
returns the prompt to send. `Settle(outcome, parse)` runs the rest.
`outcome` is either `Threw` or `Replied(text)`. `Threw` covers a rejected
`fetch`, a body that is not JSON, and a missing `data.content[0].text`.
`Replied(text)` carries the text of the first content block. `parse`
stands for `JSON.parse`: any function from the span to a review, or None
when it throws. Every lemma about it holds for every such function.

The single-flight guard is not inside `analyzeCode`. The only thing
preventing a second call mid-flight is the button's `disabled={loading ||
!code.trim()}` (ai-code-reviewer.jsx:159). The model therefore states it
as the precondition `!loading` of `Begin`, an obligation of the caller.
A second call while loading is not stopped by `analyzeCode` itself:
only the button's `disabled` stops it.

A reply with no `{`…`}` span, such as `"not json at all"`, does not end
in the error review: the `if (jsonMatch)` block (lines 56-59) is skipped,
there is no `else`, and nothing is published, so the review stays
cleared. See `ReviewPipeline.PlainTextReply` and
`ReviewPipeline.NoSpanPublishesNothing`.

## Model

| member | source | states |
|---|---|---|
| `ReviewModel.PipelineErrorReview` | ai-code-reviewer.jsx:62-67 | the catch-block review has score 0, exactly one issue of type "error" and severity "high", no line, a non-empty description, and no positives or suggestions |
| `JsText.TrimStart` | ai-code-reviewer.jsx:11 | the result is a suffix of the input; what was removed is all white space; the result does not start with white space |
| `JsText.TrimEnd` | ai-code-reviewer.jsx:11 | the result is a prefix of the input; what was removed is all white space; the result does not end with white space |
| `JsText.Trim` | ai-code-reviewer.jsx:11 | `code.trim()`: strips leading then trailing white space; its properties are carried by `TrimStart`, `TrimEnd`, `TrimEmptyIffBlank` and `TrimIsInnerText` |
| `JsText.TrimEmptyIffBlank` | ai-code-reviewer.jsx:11 | `code.trim()` is empty exactly when every character of the code is ECMAScript white space or a line terminator |
| `JsText.TrimIsInnerText` | ai-code-reviewer.jsx:11 | the trimmed text is a contiguous part of the input with only white space around it and none at its ends |
| `PromptBuilder.BuildPrompt` | ai-code-reviewer.jsx:28-45 | the user message: the fixed instruction text with the language interpolated twice and the code inside the closing fence; its properties are carried by `PromptNamesLanguage`, `PromptFencesCode`, `CodeOfBuildPrompt`, `BuildPromptOfCodeOf` and `BuildPromptInjective` |
| `PromptBuilder.PromptNamesLanguage` | ai-code-reviewer.jsx:28 | the prompt contains the language tag at the position of `${language}` in the first sentence |
| `PromptBuilder.PromptFencesCode` | ai-code-reviewer.jsx:43-45 | the code occurs verbatim at the end of the prompt, directly after the fence line "```" + language and directly before the closing "\n```" |
| `PromptBuilder.CodeOfBuildPrompt` | ai-code-reviewer.jsx:28-45 | the code can be recovered from the prompt built for it |
| `PromptBuilder.BuildPromptOfCodeOf` | ai-code-reviewer.jsx:28-45 | whatever code is recovered from a prompt rebuilds exactly that prompt |
| `PromptBuilder.BuildPromptInjective` | ai-code-reviewer.jsx:28-45 | for one language tag, different code gives different prompts |
| `ResponseExtractor.FirstIndex` | ai-code-reviewer.jsx:55 | the result is the position of the first occurrence of the character, or None when it does not occur |
| `ResponseExtractor.LastIndex` | ai-code-reviewer.jsx:55 | the result is the position of the last occurrence of the character, or None when it does not occur |
| `ResponseExtractor.ExtractJson` | ai-code-reviewer.jsx:55 | a match starts with `{`, ends with `}` and has at least two characters |
| `ResponseExtractor.WidestSpanUnique` | ai-code-reviewer.jsx:55 | there is at most one first-`{`-to-last-`}` span |
| `ResponseExtractor.ExtractJsonSpec` | ai-code-reviewer.jsx:55 | the match exists exactly when some `{` precedes some `}`, and it is then the text from the first `{` to the last `}`, both included |
| `ResponseExtractor.ExtractEmbedded` | ai-code-reviewer.jsx:55-57 | an object preceded by prose without `{` and followed by prose without `}` is extracted intact |
| `ResponseExtractor.NoBraceNoMatch` | ai-code-reviewer.jsx:55-56 | a text lacking `{` or lacking `}` has no match |
| `Display.ScoreColor` | ai-code-reviewer.jsx:73-77 | the gradient is emerald for scores of at least 80, amber for scores from 60 up to (not including) 80, and red for everything below 60, negative and fractional scores included |
| `Display.ScoreCaption` | ai-code-reviewer.jsx:195 | the caption is "Excellent code!" for at least 80, "Good, with room for improvement" from 60 up to (not including) 80, and "Needs attention" below 60 |
| `Display.ColorAndCaptionAgree` | ai-code-reviewer.jsx:195 | the gradient and the caption always pick the same band |
| `Display.ScoreColorMonotone` | ai-code-reviewer.jsx:73-77 | a higher score never gets a lower band |
| `Display.SeverityStyleOf` | ai-code-reviewer.jsx:79-85 | "high" gets the red badge and "medium" the amber badge, each exactly; every other value gets the blue badge |
| `Display.TypeIconOf` | ai-code-reviewer.jsx:87-95 | each of bug, security, performance and style gets its own icon, exactly; every other type gets the warning icon |
| `Display.TypeIconRoundTrip` | ai-code-reviewer.jsx:87-95 | a known issue type can be read back from its icon |
| `ReviewPipeline.Settled` | ai-code-reviewer.jsx:52-67 | the review the try/catch publishes for an outcome: the error review when anything throws, the parsed span, or none when the reply has no span; its properties are carried by `RaisedPublishesPipelineError`, `NoSpanPublishesNothing`, `ParsedSpanPublished`, `PublishedIsParsedOrPipelineError`, `ReplyAfterProse`, `BracelessReply`, `PlainTextReply`, and it is what `Reviewer.Settle` ensures |
| `ReviewPipeline.RaisedPublishesPipelineError` | ai-code-reviewer.jsx:60-67 | whenever the transport, the response shape or `JSON.parse` throws, the published review is the pipeline-error review, with its fixed shape |
| `ReviewPipeline.NoSpanPublishesNothing` | ai-code-reviewer.jsx:55-59 | a reply publishes nothing exactly when it has no `{` before a `}`; no error review is published then |
| `ReviewPipeline.ParsedSpanPublished` | ai-code-reviewer.jsx:56-58 | a span that parses is published exactly as parsed |
| `ReviewPipeline.PublishedIsParsedOrPipelineError` | ai-code-reviewer.jsx:52-67 | a published review is either the parse of the reply's span or, after an exception, the pipeline-error review |
| `ReviewPipeline.ReplyAfterProse` | ai-code-reviewer.jsx:55-58 | an object after a line of prose without `{` is published as the parser reads it |
| `ReviewPipeline.BracelessReply` | ai-code-reviewer.jsx:55-59 | a reply lacking `{` or lacking `}` publishes no review, whatever the parser does |
| `ReviewPipeline.PlainTextReply` | ai-code-reviewer.jsx:55-59 | the reply "not json at all" publishes no review |
| `ReviewPipeline.PipelineErrorDisplay` | ai-code-reviewer.jsx:62-67 | the error review shows in the bottom score band, with a red badge and the warning icon |
| `ReviewPipeline.Reviewer.constructor` | ai-code-reviewer.jsx:7-8 | the component starts with loading false and no review |
| `ReviewPipeline.Reviewer.Begin` | ai-code-reviewer.jsx:10-14 | for white-space-only code nothing changes and nothing is sent; otherwise loading becomes true, the review is cleared, and the request is the prompt for the code and language |
| `ReviewPipeline.Reviewer.Settle` | ai-code-reviewer.jsx:52-70 | loading ends false on every path, and the review becomes what `Settled` gives: the parsed span, the error review, or still none when there is no span |
| `ReviewPipeline.AnalyzeOnce` | ai-code-reviewer.jsx:10-70 | a whole call from an idle state ends with loading false; it keeps the previous review for blank code and otherwise publishes what `Settled` gives |

## Left out

- The `fetch` request, its headers, the model identifier, the token budget and `response.json()` (lines 17-51): network I/O, replaced by the `Outcome` parameter of `Settle`. An HTTP error status does not make `fetch` throw. It surfaces as `Threw` because `response.json()` rejects a non-JSON body, or reading `data.content[0].text` throws on a JSON error body.
- `JSON.stringify` of the request body: there is no serialiser in the model. `Begin` returns the prompt string that goes into the single user message.
- `JSON.parse` (line 57): a library call, replaced by the `parse` function parameter. The parsed value is modelled as a `Review`. JSON objects with missing fields, non-numeric scores (`NaN`, strings, `null`) or an absent `type`/`severity` are not represented. Scores are real numbers, so fractional scores such as 79.5 are covered; issue line numbers are taken as integers because they are only displayed. The display classifiers take any string, and an absent severity or type behaves like any unrecognised string.
- JavaScript strings are UTF-16 code-unit sequences, and the model uses Dafny `string`. Characters outside the Basic Multilingual Plane are not split into surrogate pairs. Neither the white-space set nor the brace search is affected by that.
- `async`/`await` scheduling and React's `useState` re-rendering: setters are plain field assignments, and everything between the two awaits is one step.
- `console.error` (line 61): logging only.
- The input handlers (lines 135 and 149) and all JSX rendering, class strings, fonts and animations (lines 97-293): presentation. The CSS classes and emoji returned by the classifiers are enumeration values.
