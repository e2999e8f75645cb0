/** `POST /api/package/nodexp/ingest`: a client application reports an error
    with its Notaify credentials; the service analyses it with the project's
    own AI provider, stores one error-log row and, when SMTP is configured,
    mails an alert.

    `IngestEffect` is the whole decision as a value (the response, the rows
    appended to the error log, the mail handed to the SMTP transport); `Post`
    performs it step by step on the database. The insert's generated id and
    timestamp, or its failure, are an input. */
module Ingest {
  import opened Wrappers
  import opened Js
  import opened Schema
  import opened Http
  import opened LlmGenerator

  /** The JSON body fields the route reads. */
  datatype IngestBody = IngestBody(
    apiKeyId: Option<string>,
    apiKey: Option<string>,
    error: Option<string>,
    location: Option<string>,
    stack: Option<string>)

  /** The success payload: `data`, `logId` and `analysis`. */
  datatype Ingested = Ingested(data: string, logId: string, analysis: Json)

  const MISSING_CREDENTIALS := "Missing Notaify API credentials (apiKeyId, apiKey)"
  const MISSING_ERROR := "Missing error message to analyze"
  const NOT_FOUND := "Project not found or invalid credentials"
  const MISSING_LLM := "Project is missing LLM configuration. Cannot analyze error."
  const INGESTED := "Error successfully ingested and analyzed."
  const INTERNAL := "Internal Server Error"
  const MAX_ERROR_LENGTH: nat := 1000
  const ALERT_SUBJECT := "\U{00F0}\U{0178}\U{0161}\U{00A8} Notaify Alert: Error in "

  /** The `findFirst` filter: both columns equal the request values as stored. */
  predicate PlainMatch(p: Project, apiKeyId: string, apiKey: string) {
    p.notaifyApiKeyId == Some(apiKeyId) && p.notaifyApiKey == Some(apiKey)
  }

  /** `project.findFirst({ where: { notaifyApiKeyId, notaifyApiKey } })`: the
      index of the first row that matches. */
  function FirstWithPlainCredentials(projects: seq<Project>, apiKeyId: string, apiKey: string): (r: Option<nat>)
    ensures r.Some? ==> r.value < |projects| && PlainMatch(projects[r.value], apiKeyId, apiKey)
    ensures r.Some? ==> forall j :: 0 <= j < r.value ==> !PlainMatch(projects[j], apiKeyId, apiKey)
    ensures r.None? ==> forall j :: 0 <= j < |projects| ==> !PlainMatch(projects[j], apiKeyId, apiKey)
  {
    if projects == [] then None
    else if PlainMatch(projects[0], apiKeyId, apiKey) then Some(0)
    else
      match FirstWithPlainCredentials(projects[1..], apiKeyId, apiKey)
      case None => None
      case Some(i) => Some(i + 1)
  }

  predicate HasLlmConfig(p: Project) {
    Truthy(p.llmType) && Truthy(p.llmApiKey) && Truthy(p.llmApiModel)
  }

  predicate HasMailConfig(p: Project) {
    Truthy(p.smtpUser) && Truthy(p.smtpPass) && Truthy(p.emailTo)
  }

  /** The text given to the analysis: the error, its location and its stack. */
  function ErrorContext(errorMsg: string, location: Option<string>, stack: Option<string>): string {
    errorMsg + "\nLocation: " + Or(location, "Unknown") + "\nStack: " + Or(stack, "No Stack")
  }

  /** The analysis stored when the AI provider call or the parse fails. */
  function Fallback(location: Option<string>, failure: Thrown): (a: Json)
    ensures a.JObject? && |a.members| == 5
    ensures a.members[0] == ("location", JString(Or(location, "Unknown")))
    ensures a.members[1] == ("reason", JString("LLM Analysis failed or timed out: " + MessageOr(failure, "Unknown error")))
    ensures a.members[2] == ("solution", JString("Please review the raw error log."))
    ensures a.members[3] == ("errorType", JString("LLM_FAILURE"))
    ensures a.members[4] == ("statusCode", JString("N/A"))
  {
    JObject([
      ("location", JString(Or(location, "Unknown"))),
      ("reason", JString("LLM Analysis failed or timed out: " + MessageOr(failure, "Unknown error"))),
      ("solution", JString("Please review the raw error log.")),
      ("errorType", JString("LLM_FAILURE")),
      ("statusCode", JString("N/A"))])
  }

  /** Whether the template can interpolate property `k` of the analysis:
      it is absent (`undefined`) or converts to a string. */
  predicate Interpolates(analysis: Json, k: string) {
    var v := Property(analysis, k);
    v.None? || !ToStringThrows(v.value)
  }

  /** Whether the alert template can be built from the analysis. Reading a
      property of `null` throws, and so does interpolating `errorType`,
      `statusCode`, `location`, `reason` or `solution` when its string
      conversion throws (`x || 'Unknown'` keeps an object, as every object is
      truthy). Either throw is caught with the mail's own failures, so
      nothing is sent. */
  predicate AlertRenders(analysis: Json) {
    && !analysis.JNull?
    && Interpolates(analysis, "errorType")
    && Interpolates(analysis, "statusCode")
    && Interpolates(analysis, "location")
    && Interpolates(analysis, "reason")
    && Interpolates(analysis, "solution")
  }

  /** An analysis object whose members are all `null`, booleans, numbers or
      strings always renders, whatever their names and order. */
  lemma FlatAnalysisRenders(analysis: Json)
    requires analysis.JObject?
    requires forall i :: 0 <= i < |analysis.members| ==>
      !analysis.members[i].1.JArray? && !analysis.members[i].1.JObject?
    ensures AlertRenders(analysis)
  {
    forall k | k in ["errorType", "statusCode", "location", "reason", "solution"]
      ensures Interpolates(analysis, k)
    {
      var v := Property(analysis, k);
      if v.Some? {
        var i :| 0 <= i < |analysis.members| && analysis.members[i] == (k, v.value);
        assert !v.value.JArray? && !v.value.JObject?;
      }
    }
  }

  /** The fallback analysis always renders: its five members are strings. */
  lemma FallbackRenders(location: Option<string>, failure: Thrown)
    ensures AlertRenders(Fallback(location, failure))
  {
    FlatAnalysisRenders(Fallback(location, failure));
  }

  /** An `errorType` that owns a `toString` member, nested in an array or
      not, keeps the alert from being built although the analysis is an
      object with every other property missing. */
  lemma OwnedToStringBlocksAlert(nested: bool)
    ensures var bad := JObject([("toString", JNumber(1))]);
      !AlertRenders(JObject([("errorType", if nested then JArray([JString("x"), bad]) else bad)]))
  {
    var bad := JObject([("toString", JNumber(1))]);
    var v := if nested then JArray([JString("x"), bad]) else bad;
    assert bad.members[0].0 == "toString";
    if nested {
      assert v.items[1] == bad;
    }
    assert Property(JObject([("errorType", v)]), "errorType") == Some(v);
  }

  /** The alert handed to the transport logged in with the project's SMTP user. */
  function AlertMail(p: Project): Mail
    requires HasMailConfig(p)
  {
    Mail(p.smtpUser.value, p.smtpPass.value, "Notaify Alerts <" + p.smtpUser.value + ">", p.emailTo.value, ALERT_SUBJECT + p.projectName)
  }

  /** The analysis the route keeps: the provider's parsed reply, or the fallback. */
  function Analysis(sdk: Sdk, parse: JsonParser, p: Project, context: string, location: Option<string>): Json
    requires HasLlmConfig(p)
  {
    match GenerateErrorAnalysis(sdk, parse, p.llmType.value, p.llmApiKey.value, p.llmApiModel.value, context)
    case Success(analysis) => analysis
    case Failure(failure) => Fallback(location, failure)
  }

  /** The route as a decision over the project table. */
  function IngestEffect(projects: seq<Project>, sdk: Sdk, parse: JsonParser, body: IngestBody, insert: Insertion): Effect<Ingested> {
    if !Truthy(body.apiKeyId) || !Truthy(body.apiKey) then
      Effect(Err(401, MISSING_CREDENTIALS), [], [])
    else if !Truthy(body.error) then
      Effect(Err(400, MISSING_ERROR), [], [])
    else
      match FirstWithPlainCredentials(projects, body.apiKeyId.value, body.apiKey.value)
      case None => Effect(Err(404, NOT_FOUND), [], [])
      case Some(i) =>
        var p := projects[i];
        if !HasLlmConfig(p) then Effect(Err(400, MISSING_LLM), [], [])
        else
          var context := ErrorContext(body.error.value, body.location, body.stack);
          var analysis := Analysis(sdk, parse, p, context, body.location);
          match insert
          case InsertFailed(failure) => Effect(Err(500, MessageOr(failure, INTERNAL)), [], [])
          case Inserted(id, timestamp) =>
            var row := ErrorLog(id, p.id, Prefix(context, MAX_ERROR_LENGTH), p.llmType.value, p.llmApiModel.value, analysis, false, timestamp);
            Effect(Ok(201, Ingested(INGESTED, id, analysis)), [row], if HasMailConfig(p) && AlertRenders(analysis) then [AlertMail(p)] else [])
  }

  /** The handler: guards, lookup, analysis, insert, optional alert. */
  method Post(db: Database, sdk: Sdk, parse: JsonParser, body: IngestBody, insert: Insertion) returns (r: Response<Ingested>)
    modifies db
    ensures var e := IngestEffect(old(db.projects), sdk, parse, body, insert);
      && r == e.response
      && db.projects == old(db.projects)
      && db.logs == old(db.logs) + e.logs
      && db.outbox == old(db.outbox) + e.mails
  {
    if !Truthy(body.apiKeyId) || !Truthy(body.apiKey) {
      return Err(401, MISSING_CREDENTIALS);
    }
    if !Truthy(body.error) {
      return Err(400, MISSING_ERROR);
    }
    var found := FirstWithPlainCredentials(db.projects, body.apiKeyId.value, body.apiKey.value);
    if found.None? {
      return Err(404, NOT_FOUND);
    }
    var currentProject := db.projects[found.value];
    if !Truthy(currentProject.llmType) || !Truthy(currentProject.llmApiKey) || !Truthy(currentProject.llmApiModel) {
      return Err(400, MISSING_LLM);
    }
    var provider := currentProject.llmType.value;
    var llmApiKey := currentProject.llmApiKey.value;
    var modelName := currentProject.llmApiModel.value;
    var fullErrorContext := ErrorContext(body.error.value, body.location, body.stack);

    var analysis: Json;
    var generated := GenerateErrorAnalysis(sdk, parse, provider, llmApiKey, modelName, fullErrorContext);
    if generated.Success? {
      analysis := generated.value;
    } else {
      analysis := Fallback(body.location, generated.error);
    }

    if insert.InsertFailed? {
      return Err(500, MessageOr(insert.thrown, INTERNAL));
    }
    var newLog := ErrorLog(insert.id, currentProject.id, Prefix(fullErrorContext, MAX_ERROR_LENGTH), provider, modelName, analysis, false, insert.timestamp);
    db.logs := db.logs + [newLog];

    if HasMailConfig(currentProject) {
      // A template that throws, like a failed send, is caught and ignored:
      // it never reaches the response.
      if AlertRenders(analysis) {
        db.outbox := db.outbox + [AlertMail(currentProject)];
      }
    }
    return Ok(201, Ingested(INGESTED, insert.id, analysis));
  }

  // ---------------------------------------------------------------------
  // Properties of the route

  /** Missing credentials answer 401 before the error text is looked at; a
      missing error text answers 400; neither touches a table. */
  lemma GuardOrder(projects: seq<Project>, sdk: Sdk, parse: JsonParser, body: IngestBody, insert: Insertion)
    ensures !Truthy(body.apiKeyId) || !Truthy(body.apiKey) ==>
      IngestEffect(projects, sdk, parse, body, insert) == Effect(Err(401, MISSING_CREDENTIALS), [], [])
    ensures Truthy(body.apiKeyId) && Truthy(body.apiKey) && !Truthy(body.error) ==>
      IngestEffect(projects, sdk, parse, body, insert) == Effect(Err(400, MISSING_ERROR), [], [])
  {
  }

  /** With credentials and an error text, the answer is 404 with no effect
      exactly when no row holds both credentials as stored. */
  lemma NotFoundIffNoPlainMatch(projects: seq<Project>, sdk: Sdk, parse: JsonParser, body: IngestBody, insert: Insertion)
    requires Truthy(body.apiKeyId) && Truthy(body.apiKey) && Truthy(body.error)
    ensures IngestEffect(projects, sdk, parse, body, insert) == Effect(Err(404, NOT_FOUND), [], [])
        <==> forall p :: p in projects ==> !PlainMatch(p, body.apiKeyId.value, body.apiKey.value)
  {
    var found := FirstWithPlainCredentials(projects, body.apiKeyId.value, body.apiKey.value);
    if found.Some? {
      assert projects[found.value] in projects;
    } else {
      forall p | p in projects
        ensures !PlainMatch(p, body.apiKeyId.value, body.apiKey.value)
      {
        var j :| 0 <= j < |projects| && projects[j] == p;
      }
    }
  }

  /** A stored secret that has been encrypted (an `iv:tag:body` triple) is
      never equal to a request key without `:`: once the stored keys are
      encrypted, a client presenting its plain key is answered 404. */
  lemma EncryptedKeysNeverMatch(projects: seq<Project>, sdk: Sdk, parse: JsonParser, body: IngestBody, insert: Insertion)
    requires Truthy(body.apiKeyId) && Truthy(body.apiKey) && Truthy(body.error)
    requires Count(body.apiKey.value, ':') == 0
    requires forall p :: p in projects && p.notaifyApiKey.Some? ==> Count(p.notaifyApiKey.value, ':') == 2
    ensures IngestEffect(projects, sdk, parse, body, insert) == Effect(Err(404, NOT_FOUND), [], [])
  {
    NotFoundIffNoPlainMatch(projects, sdk, parse, body, insert);
  }

  /** The matched project must carry all three AI settings; otherwise 400,
      no analysis, no row. */
  lemma MissingLlmConfig(projects: seq<Project>, sdk: Sdk, parse: JsonParser, body: IngestBody, insert: Insertion, i: nat)
    requires Truthy(body.apiKeyId) && Truthy(body.apiKey) && Truthy(body.error)
    requires FirstWithPlainCredentials(projects, body.apiKeyId.value, body.apiKey.value) == Some(i)
    requires !HasLlmConfig(projects[i])
    ensures IngestEffect(projects, sdk, parse, body, insert) == Effect(Err(400, MISSING_LLM), [], [])
  {
  }

  /** Tables change only on success: a row is appended exactly when the
      response is 201, and mail is handed over only then. */
  lemma EffectsOnlyOnSuccess(projects: seq<Project>, sdk: Sdk, parse: JsonParser, body: IngestBody, insert: Insertion)
    ensures var e := IngestEffect(projects, sdk, parse, body, insert);
      && (e.response.Ok? <==> |e.logs| == 1)
      && (e.response.Err? <==> e.logs == [])
      && (e.response.Err? ==> e.mails == [])
      && (e.response.Ok? ==> e.response.status == 201)
      && |e.mails| <= 1
  {
  }

  /** On a successful ingest: one row with the truncated error context, the
      provider and model of the project, `isTrial` false and the analysis
      that is also returned with the row's id; mail goes out exactly when
      user, password and recipient are all set and the template can be
      built from the analysis, never for a `null` one. */
  lemma SuccessfulIngest(projects: seq<Project>, sdk: Sdk, parse: JsonParser, body: IngestBody, id: string, timestamp: int, i: nat)
    requires Truthy(body.apiKeyId) && Truthy(body.apiKey) && Truthy(body.error)
    requires FirstWithPlainCredentials(projects, body.apiKeyId.value, body.apiKey.value) == Some(i)
    requires HasLlmConfig(projects[i])
    ensures var e := IngestEffect(projects, sdk, parse, body, Inserted(id, timestamp));
      var p := projects[i];
      var context := ErrorContext(body.error.value, body.location, body.stack);
      && e.response.Ok? && e.response.payload.logId == id
      && |e.logs| == 1
      && e.logs[0].projectId == p.id
      && e.logs[0].error == Prefix(context, MAX_ERROR_LENGTH)
      && |e.logs[0].error| <= MAX_ERROR_LENGTH
      && e.logs[0].llmType == p.llmType.value
      && e.logs[0].llmApiModel == p.llmApiModel.value
      && !e.logs[0].isTrial
      && e.logs[0].resolution == e.response.payload.analysis
      && (e.mails != [] <==> HasMailConfig(p) && AlertRenders(e.response.payload.analysis))
      && (e.response.payload.analysis == JNull ==> e.mails == [])
      && (e.mails != [] ==> e.mails[0].to == p.emailTo.value && e.mails[0].user == p.smtpUser.value)
  {
  }

  /** An analysis failure never fails the request: the fallback carries the
      location and the reason and is stored and returned. */
  lemma AnalysisFailureFallsBack(projects: seq<Project>, sdk: Sdk, parse: JsonParser, body: IngestBody, id: string, timestamp: int, i: nat, failure: Thrown)
    requires Truthy(body.apiKeyId) && Truthy(body.apiKey) && Truthy(body.error)
    requires FirstWithPlainCredentials(projects, body.apiKeyId.value, body.apiKey.value) == Some(i)
    requires HasLlmConfig(projects[i])
    requires var p := projects[i];
      GenerateErrorAnalysis(sdk, parse, p.llmType.value, p.llmApiKey.value, p.llmApiModel.value,
        ErrorContext(body.error.value, body.location, body.stack)) == Failure(failure)
    ensures var e := IngestEffect(projects, sdk, parse, body, Inserted(id, timestamp));
      && e.response == Ok(201, Ingested(INGESTED, id, Fallback(body.location, failure)))
      && e.logs[0].resolution == Fallback(body.location, failure)
      && (e.mails != [] <==> HasMailConfig(projects[i]))
  {
    FallbackRenders(body.location, failure);
  }

  /** A failed insert answers 500 with the thrown message. */
  lemma InsertFailureIs500(projects: seq<Project>, sdk: Sdk, parse: JsonParser, body: IngestBody, failure: Thrown, i: nat)
    requires Truthy(body.apiKeyId) && Truthy(body.apiKey) && Truthy(body.error)
    requires FirstWithPlainCredentials(projects, body.apiKeyId.value, body.apiKey.value) == Some(i)
    requires HasLlmConfig(projects[i])
    ensures IngestEffect(projects, sdk, parse, body, InsertFailed(failure)) == Effect(Err(500, MessageOr(failure, INTERNAL)), [], [])
  {
  }

  /** The stored error text begins with the reported error, cut at 1000
      characters. */
  lemma StoredErrorStartsWithReport(errorMsg: string, location: Option<string>, stack: Option<string>)
    ensures var stored := Prefix(ErrorContext(errorMsg, location, stack), MAX_ERROR_LENGTH);
      stored == Prefix(errorMsg, MAX_ERROR_LENGTH) + stored[|Prefix(errorMsg, MAX_ERROR_LENGTH)|..]
  {
    var context := ErrorContext(errorMsg, location, stack);
    var stored := Prefix(context, MAX_ERROR_LENGTH);
    var head := Prefix(errorMsg, MAX_ERROR_LENGTH);
    assert context[..|errorMsg|] == errorMsg;
    assert |head| <= |stored|;
    assert stored[..|head|] == head;
  }
}
