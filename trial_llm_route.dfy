/** `POST /api/package/nodexp/trialLlm`: maps what `processTrialLlm` returns
    (or throws) to the HTTP response. */
module TrialLlmRoute {
  import opened Wrappers
  import opened Js
  import opened Http
  import opened TrialHelper

  /** The success body's `data` and `analysis`; either is `undefined` when
      the helper's result has none. */
  datatype TrialView = TrialView(data: Option<string>, analysis: Option<Json>)

  const INTERNAL := "Internal Server Error"

  /** `result.status || 200`. */
  function StatusOr200(status: nat): (s: nat)
    ensures s != 0 && (status != 0 ==> s == status)
  {
    if status == 0 then 200 else status
  }

  /** The route as written: `if (result.error)` tests the message's
      truthiness, so a helper error with an empty message falls through to
      the success branch with the helper's status. */
  function TrialLlmReply(result: Result<Response<TrialAnalysis>, Thrown>): (reply: Response<TrialView>)
    ensures result.Failure? ==> reply == Err(500, MessageOr(result.error, INTERNAL))
    ensures result.Success? && result.value.Err? && result.value.error != "" ==> reply == Err(result.value.status, result.value.error)
  {
    match result
    case Failure(failure) => Err(500, MessageOr(failure, INTERNAL))
    case Success(Err(status, error)) =>
      if error != "" then Err(status, error) else Ok(StatusOr200(status), TrialView(None, None))
    case Success(Ok(status, payload)) => Ok(StatusOr200(status), TrialView(Some(payload.data), Some(payload.analysis)))
  }

  /** The route as evidently intended: every helper error is answered as an
      error, whatever its message. */
  function IntendedTrialLlmReply(result: Result<Response<TrialAnalysis>, Thrown>): (reply: Response<TrialView>)
  {
    match result
    case Failure(failure) => Err(500, MessageOr(failure, INTERNAL))
    case Success(Err(status, error)) => Err(status, error)
    case Success(Ok(status, payload)) => Ok(StatusOr200(status), TrialView(Some(payload.data), Some(payload.analysis)))
  }

  /** The `logId` of a trial row never reaches the client. */
  lemma LogIdNotForwarded(status: nat, data: string, analysis: Json, a: Option<string>, b: Option<string>)
    ensures TrialLlmReply(Success(Ok(status, TrialAnalysis(data, analysis, a))))
         == TrialLlmReply(Success(Ok(status, TrialAnalysis(data, analysis, b))))
    ensures TrialLlmReply(Success(Ok(status, TrialAnalysis(data, analysis, a)))) == Ok(StatusOr200(status), TrialView(Some(data), Some(analysis)))
  {
  }

  /** An AI provider that throws an Error with an empty message makes the
      route answer `message: 'success'` with status 500 and neither data nor
      analysis. */
  lemma EmptyErrorReadsAsSuccess(projects: seq<Schema.Project>, c: Encryption.Cipher, env: Option<string>,
                                 sdk: LlmGenerator.Sdk, parse: LlmGenerator.JsonParser,
                                 body: TrialBody, random: real, insert: Schema.Insertion, cfg: LlmConfig)
    requires 0.0 <= random < 1.0
    requires ResolveLlmConfig(projects, c, env, body) == Success(Use(cfg))
    requires LlmGenerator.GenerateErrorAnalysis(sdk, parse, cfg.provider, cfg.apiKey, cfg.modelName, SelectedError(random)) == Failure(Error(""))
    ensures var e := TrialLlmEffect(projects, c, env, sdk, parse, body, random, insert);
      && e.Success? && e.value.response == Err(500, "")
      && TrialLlmReply(Success(e.value.response)) == Ok(500, TrialView(None, None))
      && IntendedTrialLlmReply(Success(e.value.response)) == Err(500, "")
  {
  }

  /** The intended mapping keeps the helper's verdict: an error stays an
      error with its status and message, a success stays a success with its
      data and analysis, and a throw becomes 500. It agrees with the route as
      written except on empty error messages. */
  lemma IntendedReplyKeepsVerdict(result: Result<Response<TrialAnalysis>, Thrown>)
    ensures var reply := IntendedTrialLlmReply(result);
      && (result.Success? && result.value.Err? ==> reply == Err(result.value.status, result.value.error))
      && (result.Success? && result.value.Ok? ==>
            && reply.Ok? && reply.payload.data == Some(result.value.payload.data)
            && reply.payload.analysis == Some(result.value.payload.analysis))
      && (result.Failure? ==> reply.Err? && reply.status == 500)
      && (reply != TrialLlmReply(result) <==> result.Success? && result.value.Err? && result.value.error == "")
  {
  }
}
