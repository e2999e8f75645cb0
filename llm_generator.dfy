/** `generateErrorAnalysis`: one fixed prompt, a closed switch over three AI
    providers, and one `JSON.parse` of the raw reply.

    The provider SDK calls are oracles taking (API key, model name, prompt):
    OpenAI's yields the first choice's message content (null when absent),
    Anthropic's the first content block, Google's the response text. Each
    may throw instead. `JSON.parse` is an oracle too. */
module LlmGenerator {
  import opened Wrappers
  import opened Js

  datatype ContentBlock = TextBlock(text: string) | OtherBlock(kind: string)

  datatype Sdk = Sdk(
    openai: (string, string, string) -> Result<Option<string>, Thrown>,
    claude: (string, string, string) -> Result<ContentBlock, Thrown>,
    gemini: (string, string, string) -> Result<string, Thrown>)

  type JsonParser = string -> Result<Json, Thrown>

  /** What `JSON.parse` does with the empty string: it throws. */
  ghost predicate RejectsEmpty(parse: JsonParser) {
    parse("").Failure?
  }

  const PROMPT_HEAD := "Analyze this error and provide a brief response in JSON format with three fields: \"location\" (where the error occurred), \"reason\" (why it happened), and \"solution\" (how to fix it). Keep each response concise and developer-friendly.\nError: "
  const PROMPT_TAIL := "\nRespond only with valid JSON."

  /** The prompt sent to every provider. */
  function Prompt(errorMessage: string): string {
    PROMPT_HEAD + errorMessage + PROMPT_TAIL
  }

  /** The prompt is the fixed instructions, `Error: ` and the error text
      verbatim, then the fixed closing line. */
  lemma PromptShape(errorMessage: string)
    ensures var p := Prompt(errorMessage);
      && |p| == |PROMPT_HEAD| + |errorMessage| + |PROMPT_TAIL|
      && p[|PROMPT_HEAD| - 7..|PROMPT_HEAD| + |errorMessage|] == "Error: " + errorMessage
      && p[..|PROMPT_HEAD| - 7] == PROMPT_HEAD[..|PROMPT_HEAD| - 7]
      && p[|PROMPT_HEAD| + |errorMessage|..] == PROMPT_TAIL
  {
    var p := Prompt(errorMessage);
    var n := |PROMPT_HEAD|;
    assert PROMPT_HEAD[n - 7..] == "Error: ";
    assert p[n - 7..n + |errorMessage|] == PROMPT_HEAD[n - 7..] + errorMessage;
  }

  /** Different error texts never share a prompt. */
  lemma PromptInjective(a: string, b: string)
    requires Prompt(a) == Prompt(b)
    ensures a == b
  {
    var n := |PROMPT_HEAD|;
    PromptShape(a);
    PromptShape(b);
    assert |a| == |b|;
    assert a == Prompt(a)[n..n + |a|];
    assert b == Prompt(b)[n..n + |b|];
  }

  predicate Supported(provider: string) {
    provider == "openai" || provider == "claude" || provider == "gemini"
  }

  /** The reply text of the selected provider: one SDK call, then
      `content || ""` for OpenAI and "" for a non-text first Anthropic block. */
  function Complete(sdk: Sdk, provider: string, apiKey: string, modelName: string, prompt: string): (r: Result<string, Thrown>)
    ensures !Supported(provider) ==> r == Failure(Error("Unsupported provider: " + provider))
    ensures provider == "openai" && sdk.openai(apiKey, modelName, prompt) == Success(None) ==> r == Success("")
    ensures (provider == "claude" && sdk.claude(apiKey, modelName, prompt).Success?
             && sdk.claude(apiKey, modelName, prompt).value.OtherBlock?) ==> r == Success("")
  {
    if provider == "openai" then
      var content :- sdk.openai(apiKey, modelName, prompt);
      Success(if content.Some? then content.value else "")
    else if provider == "claude" then
      var block :- sdk.claude(apiKey, modelName, prompt);
      Success(if block.TextBlock? then block.text else "")
    else if provider == "gemini" then
      sdk.gemini(apiKey, modelName, prompt)
    else
      Failure(Error("Unsupported provider: " + provider))
  }

  /** `generateErrorAnalysis(provider, apiKey, modelName, errorMessage)`. */
  function GenerateErrorAnalysis(sdk: Sdk, parse: JsonParser, provider: string, apiKey: string, modelName: string, errorMessage: string): (r: Result<Json, Thrown>)
    ensures !Supported(provider) ==> r == Failure(Error("Unsupported provider: " + provider))
    ensures Complete(sdk, provider, apiKey, modelName, Prompt(errorMessage)).Failure? ==>
      r == Failure(Complete(sdk, provider, apiKey, modelName, Prompt(errorMessage)).error)
  {
    var response :- Complete(sdk, provider, apiKey, modelName, Prompt(errorMessage));
    parse(response)
  }

  /** The raw reply goes to `JSON.parse` as it is: no fence stripping, no
      brace extraction. */
  lemma ParsesRawReply(sdk: Sdk, parse: JsonParser, provider: string, apiKey: string, modelName: string, errorMessage: string, reply: string)
    requires Complete(sdk, provider, apiKey, modelName, Prompt(errorMessage)) == Success(reply)
    ensures GenerateErrorAnalysis(sdk, parse, provider, apiKey, modelName, errorMessage) == parse(reply)
  {
  }

  /** "google", the name the project form offers, is not a provider here. */
  lemma GoogleIsRejected(sdk: Sdk, parse: JsonParser, apiKey: string, modelName: string, errorMessage: string)
    ensures GenerateErrorAnalysis(sdk, parse, "google", apiKey, modelName, errorMessage) == Failure(Error("Unsupported provider: google"))
  {
    assert "google"[0] == 'g';
    assert !Supported("google");
    assert "Unsupported provider: " + "google" == "Unsupported provider: google";
  }

  /** An empty OpenAI reply, or a non-text first Anthropic block, makes the
      analysis throw. */
  lemma EmptyReplyThrows(sdk: Sdk, parse: JsonParser, provider: string, apiKey: string, modelName: string, errorMessage: string)
    requires RejectsEmpty(parse)
    requires var prompt := Prompt(errorMessage);
      || (provider == "openai" && sdk.openai(apiKey, modelName, prompt) == Success(None))
      || (provider == "claude" && sdk.claude(apiKey, modelName, prompt).Success? && sdk.claude(apiKey, modelName, prompt).value.OtherBlock?)
    ensures GenerateErrorAnalysis(sdk, parse, provider, apiKey, modelName, errorMessage).Failure?
  {
  }

  /** The SDKs agree on the one call the analysis makes. */
  predicate SameCall(a: Sdk, b: Sdk, provider: string, apiKey: string, modelName: string, prompt: string) {
    && (provider == "openai" ==> a.openai(apiKey, modelName, prompt) == b.openai(apiKey, modelName, prompt))
    && (provider == "claude" ==> a.claude(apiKey, modelName, prompt) == b.claude(apiKey, modelName, prompt))
    && (provider == "gemini" ==> a.gemini(apiKey, modelName, prompt) == b.gemini(apiKey, modelName, prompt))
  }

  /** Exactly one provider call decides the outcome: two SDKs that answer
      that single call alike give the same analysis, and no SDK is consulted
      at all for an unsupported provider. */
  lemma OneCallDecides(a: Sdk, b: Sdk, parse: JsonParser, provider: string, apiKey: string, modelName: string, errorMessage: string)
    requires SameCall(a, b, provider, apiKey, modelName, Prompt(errorMessage))
    ensures GenerateErrorAnalysis(a, parse, provider, apiKey, modelName, errorMessage)
         == GenerateErrorAnalysis(b, parse, provider, apiKey, modelName, errorMessage)
  {
  }
}
