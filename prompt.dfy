/** The review request: a fixed instruction text with the language tag
    and the submitted code interpolated into it. */
module PromptBuilder {
  import opened Optional

  /** The instruction up to the first interpolation of the language. */
  const PromptIntro: string := "You are an expert code reviewer. Analyze this "

  /** The instruction between the two interpolations of the language; it
      ends by opening the fenced code block. */
  const PromptBody: string :=
    " code and provide a structured review with:\n"
    + "1. Overall quality score (0-100)\n"
    + "2. Specific issues found (bugs, security, performance, style)\n"
    + "3. Positive aspects\n"
    + "4. Actionable suggestions for improvement\n"
    + "\n"
    + "Format your response as JSON with this structure:\n"
    + "{\n"
    + "  \"score\": number,\n"
    + "  \"issues\": [{\"type\": \"bug|security|performance|style\", \"severity\": \"high|medium|low\", \"line\": number or null, \"description\": string}],\n"
    + "  \"positives\": [string],\n"
    + "  \"suggestions\": [string]\n"
    + "}\n"
    + "\n"
    + "Code to review:\n"
    + "```"

  /** The line break after the code and the fence that closes the block. */
  const FenceClose: string := "\n```"

  /** Everything in front of the code. */
  function PromptHead(language: string): string
  {
    PromptIntro + language + PromptBody + language + "\n"
  }

  /** The user message sent to the completion endpoint. */
  function BuildPrompt(code: string, language: string): string
  {
    PromptHead(language) + code + FenceClose
  }

  /** `needle` occurs in `hay` starting at position `k`. */
  predicate OccursAt(needle: string, hay: string, k: int)
  {
    0 <= k && k + |needle| <= |hay| && hay[k..k + |needle|] == needle
  }

  /** The language tag is named in the instruction sentence. */
  lemma PromptNamesLanguage(code: string, language: string)
    ensures OccursAt(language, BuildPrompt(code, language), |PromptIntro|)
  {
  }

  /** The code appears verbatim and last, right after the fence line
      "```" + language and right before the closing "```". */
  lemma PromptFencesCode(code: string, language: string)
    ensures var p := BuildPrompt(code, language);
            var k := |p| - |code| - |FenceClose|;
            && OccursAt(code, p, k)
            && OccursAt("```" + language + "\n", p, k - |language| - 4)
            && p[k + |code|..] == "\n```"
  {
  }

  /** Recovers the code from a prompt built for `language`: the inverse
      of BuildPrompt. */
  function CodeOf(prompt: string, language: string): Option<string>
  {
    var head := PromptHead(language);
    if |head| + |FenceClose| <= |prompt|
       && prompt[..|head|] == head
       && prompt[|prompt| - |FenceClose|..] == FenceClose
    then Some(prompt[|head|..|prompt| - |FenceClose|])
    else None
  }

  /** Every prompt gives back the code it was built from. */
  lemma CodeOfBuildPrompt(code: string, language: string)
    ensures CodeOf(BuildPrompt(code, language), language) == Some(code)
  {
  }

  /** Conversely, whatever CodeOf recovers rebuilds the same prompt. */
  lemma BuildPromptOfCodeOf(prompt: string, language: string)
    requires CodeOf(prompt, language).Some?
    ensures BuildPrompt(CodeOf(prompt, language).value, language) == prompt
  {
  }

  /** For one language tag, different code gives different prompts. */
  lemma BuildPromptInjective(code1: string, code2: string, language: string)
    requires BuildPrompt(code1, language) == BuildPrompt(code2, language)
    ensures code1 == code2
  {
    CodeOfBuildPrompt(code1, language);
    CodeOfBuildPrompt(code2, language);
  }
}
