/** The trial helpers behind the dashboard's "test my configuration" buttons.

    `processTrialLlm` checks an AI provider configuration by analysing one of
    five canned errors. The configuration is the stored project's (found by
    Notaify credentials, secrets decrypted) or, without credentials, the one
    given inline. `processTrialMail` sends a test message with inline SMTP
    settings or with the stored project's.

    Each helper is a specification function giving its effect and a method
    that performs it on the database. The credential lookup runs outside the
    helpers' `try`, so its throw (no `ENCRYPTION_KEY`) escapes to the caller:
    both helpers return `Result<…, Thrown>`. `Math.random()` is a real in
    [0, 1); the SMTP transport's outcome and the log insert are inputs. */
module TrialHelper {
  import opened Wrappers
  import opened Js
  import opened Schema
  import opened Http
  import opened Encryption
  import opened LlmGenerator

  /** The body fields the helpers read (`Record<string, string>`). */
  datatype TrialBody = TrialBody(
    provider: Option<string>,
    llmApiKey: Option<string>,
    modelName: Option<string>,
    apiKeyId: Option<string>,
    apiKey: Option<string>,
    smtpUser: Option<string>,
    smtpPass: Option<string>,
    emailTo: Option<string>)

  /** A configuration to use, or the status and message that refuse the request. */
  datatype Resolved<+T> = Use(config: T) | Reject(status: nat, error: string)

  datatype LlmConfig = LlmConfig(provider: string, apiKey: string, modelName: string, projectId: Option<string>)

  datatype MailConfig = MailConfig(user: string, pass: string, to: string)

  /** The success payload of `processTrialLlm`. */
  datatype TrialAnalysis = TrialAnalysis(data: string, analysis: Json, logId: Option<string>)

  /** What the transport does: `verify()` fails, `sendMail()` fails, or both succeed. */
  datatype SmtpOutcome = Delivered | VerifyFailed(thrown: Thrown) | SendFailed(thrown: Thrown)

  const NOT_FOUND := "Project not found or invalid credentials"
  const MISSING_LLM := "Project is missing LLM configuration."
  const MISSING_REQUIRED := "Missing required credentials. Please provide Notaify API credentials or LLM configuration."
  const LLM_FAILED := "Failed to analyze error using the LLM API."
  const VERIFIED := "LLM verification successful! Configuration is working beautifully."
  const MISSING_SMTP := "Project is missing SMTP configuration. Please set SMTP User, SMTP Password, and Email To."
  const MISSING_MAIL_CREDENTIALS := "Please provide SMTP credentials or Notaify API credentials."
  const SENT_TO := "Test email sent successfully to "
  const TEST_SUBJECT := "\U{2705} Notaify \U{2014} SMTP Test Successful"
  const AUTH_FAILED := "Authentication failed. Please check your SMTP username and password (use an App Password for Gmail)."
  const CONNECT_FAILED := "Could not connect to the SMTP server. Please check your network and try again."
  const CERTIFICATE_FAILED := "SSL certificate error. Try with a different SMTP configuration."
  const SEND_FAILED := "Failed to send test email."

  /** The canned errors a trial analyses. */
  const STATIC_ERRORS: seq<string> := [
    "TypeError: Cannot read properties of undefined (reading 'map') at renderList (Components/List.tsx:42:15)",
    "MongoServerError: E11000 duplicate key error collection: test.users index: email_1 dup key: { email: \"test@example.com\" }",
    "AxiosError: Request failed with status code 401 at createError (node_modules/axios/lib/core/createError.js:16:15)",
    "ReferenceError: process is not defined at Object.<anonymous> (server.js:12:3)",
    "RangeError: Maximum call stack size exceeded at recursionFunc (utils/math.js:100:5)"
  ]

  predicate HasCredentials(body: TrialBody) {
    Truthy(body.apiKeyId) && Truthy(body.apiKey)
  }

  /** Candidate `i` is the first whose decrypted secret is `apiKey`: the
      project the credential lookup returns. */
  predicate FirstMatch(c: Cipher, env: Option<string>, candidates: seq<Project>, apiKey: string, i: int) {
    && 0 <= i < |candidates|
    && KeyMatches(c, env, candidates[i], apiKey)
    && forall j :: 0 <= j < i ==> !KeyMatches(c, env, candidates[j], apiKey)
  }

  /** A column as the helpers read it: a null or empty value counts as absent. */
  function Filled(o: Option<string>): Option<string> {
    if Truthy(o) then o else None
  }

  /** A stored project carries all three AI settings, its key once decrypted. */
  predicate StoredLlmComplete(c: Cipher, env: Option<string>, q: Project)
    requires Truthy(env)
  {
    Truthy(q.llmType) && Truthy(DecryptIfPresent(c, env, q.llmApiKey).value) && Truthy(q.llmApiModel)
  }

  /** A stored project carries all three SMTP settings, its password once decrypted. */
  predicate StoredMailComplete(c: Cipher, env: Option<string>, q: Project)
    requires Truthy(env)
  {
    Truthy(q.smtpUser) && Truthy(DecryptIfPresent(c, env, q.smtpPass).value) && Truthy(q.emailTo)
  }

  /** `staticErrors[Math.floor(Math.random() * staticErrors.length)]`. */
  function SelectedError(random: real): (e: string)
    requires 0.0 <= random < 1.0
    ensures e in STATIC_ERRORS
  {
    var i := (random * |STATIC_ERRORS| as real).Floor;
    assert 0 <= i < |STATIC_ERRORS|;
    STATIC_ERRORS[i]
  }

  // ---------------------------------------------------------------------
  // processTrialLlm

  /** Which AI configuration the trial uses: the stored project's when both
      Notaify credentials are given, else a complete inline one. */
  function ResolveLlmConfig(projects: seq<Project>, c: Cipher, env: Option<string>, body: TrialBody): Result<Resolved<LlmConfig>, Thrown> {
    if HasCredentials(body) then
      var found :- FindIn(c, env, WithKeyId(projects, body.apiKeyId.value), body.apiKey.value);
      match found
      case None => Success(Reject(404, NOT_FOUND))
      case Some(project) =>
        if !Truthy(TextOf(project, "llmType")) || !Truthy(TextOf(project, "llmApiKey")) || !Truthy(TextOf(project, "llmApiModel")) then
          Success(Reject(400, MISSING_LLM))
        else
          Success(Use(LlmConfig(TextOf(project, "llmType").value, TextOf(project, "llmApiKey").value,
            TextOf(project, "llmApiModel").value, TextOf(project, "id"))))
    else if !Truthy(body.provider) || !Truthy(body.llmApiKey) || !Truthy(body.modelName) then
      Success(Reject(400, MISSING_REQUIRED))
    else
      Success(Use(LlmConfig(body.provider.value, body.llmApiKey.value, body.modelName.value, None)))
  }

  /** The trial as a decision: response and error-log rows, or the lookup's throw. */
  function TrialLlmEffect(projects: seq<Project>, c: Cipher, env: Option<string>, sdk: Sdk, parse: JsonParser,
                          body: TrialBody, random: real, insert: Insertion): Result<Effect<TrialAnalysis>, Thrown>
    requires 0.0 <= random < 1.0
  {
    var resolved :- ResolveLlmConfig(projects, c, env, body);
    match resolved
    case Reject(status, error) => Success(Effect(Err(status, error), [], []))
    case Use(cfg) =>
      var selected := SelectedError(random);
      match GenerateErrorAnalysis(sdk, parse, cfg.provider, cfg.apiKey, cfg.modelName, selected)
      case Failure(failure) => Success(Effect(Err(500, ErrorMessageOr(failure, LLM_FAILED)), [], []))
      case Success(analysis) =>
        if cfg.projectId.None? then
          Success(Effect(Ok(200, TrialAnalysis(VERIFIED, analysis, None)), [], []))
        else
          match insert
          case InsertFailed(failure) => Success(Effect(Err(500, ErrorMessageOr(failure, LLM_FAILED)), [], []))
          case Inserted(id, timestamp) =>
            var row := ErrorLog(id, cfg.projectId.value, selected, cfg.provider, cfg.modelName, analysis, true, timestamp);
            Success(Effect(Ok(200, TrialAnalysis(VERIFIED, analysis, Some(id))), [row], []))
  }

  /** The credential block of `processTrialLlm`: look the project up by its
      Notaify credentials, or fall back to the inline configuration. */
  method ResolveTrialLlm(db: Database, c: Cipher, env: Option<string>, body: TrialBody) returns (r: Result<Resolved<LlmConfig>, Thrown>)
    ensures r == ResolveLlmConfig(db.projects, c, env, body)
  {
    if Truthy(body.apiKeyId) && Truthy(body.apiKey) {
      var found := FindProjectByApiCredentials(c, env, db.projects, body.apiKeyId.value, body.apiKey.value);
      if found.Failure? {
        return Failure(found.error);
      }
      if found.value.None? {
        return Success(Reject(404, NOT_FOUND));
      }
      var currentProject := found.value.value;
      if !Truthy(TextOf(currentProject, "llmType")) || !Truthy(TextOf(currentProject, "llmApiKey")) || !Truthy(TextOf(currentProject, "llmApiModel")) {
        return Success(Reject(400, MISSING_LLM));
      }
      return Success(Use(LlmConfig(TextOf(currentProject, "llmType").value, TextOf(currentProject, "llmApiKey").value,
        TextOf(currentProject, "llmApiModel").value, TextOf(currentProject, "id"))));
    } else if !Truthy(body.provider) || !Truthy(body.llmApiKey) || !Truthy(body.modelName) {
      return Success(Reject(400, MISSING_REQUIRED));
    }
    return Success(Use(LlmConfig(body.provider.value, body.llmApiKey.value, body.modelName.value, None)));
  }

  /** `processTrialLlm(body)`. */
  method ProcessTrialLlm(db: Database, c: Cipher, env: Option<string>, sdk: Sdk, parse: JsonParser,
                         body: TrialBody, random: real, insert: Insertion) returns (r: Result<Response<TrialAnalysis>, Thrown>)
    requires 0.0 <= random < 1.0
    modifies db
    ensures var e := TrialLlmEffect(old(db.projects), c, env, sdk, parse, body, random, insert);
      && r == (if e.Success? then Success(e.value.response) else Failure(e.error))
      && db.projects == old(db.projects)
      && db.logs == old(db.logs) + (if e.Success? then e.value.logs else [])
      && db.outbox == old(db.outbox)
  {
    var resolved := ResolveTrialLlm(db, c, env, body);
    if resolved.Failure? {
      return Failure(resolved.error);
    }
    if resolved.value.Reject? {
      return Success(Err(resolved.value.status, resolved.value.error));
    }
    var cfg := resolved.value.config;

    var selectedError := SelectedError(random);
    var analysis := GenerateErrorAnalysis(sdk, parse, cfg.provider, cfg.apiKey, cfg.modelName, selectedError);
    if analysis.Failure? {
      return Success(Err(500, ErrorMessageOr(analysis.error, LLM_FAILED)));
    }

    var savedLogId: Option<string> := None;
    if cfg.projectId.Some? {
      if insert.InsertFailed? {
        return Success(Err(500, ErrorMessageOr(insert.thrown, LLM_FAILED)));
      }
      var newLog := ErrorLog(insert.id, cfg.projectId.value, selectedError, cfg.provider, cfg.modelName, analysis.value, true, insert.timestamp);
      db.logs := db.logs + [newLog];
      savedLogId := Some(insert.id);
    }
    return Success(Ok(200, TrialAnalysis(VERIFIED, analysis.value, savedLogId)));
  }

  // ---------------------------------------------------------------------
  // processTrialMail

  /** Which SMTP settings the test uses: complete inline settings first, then
      the stored project's when both Notaify credentials are given. */
  function ResolveMailConfig(projects: seq<Project>, c: Cipher, env: Option<string>, body: TrialBody): Result<Resolved<MailConfig>, Thrown> {
    if Truthy(body.smtpUser) && Truthy(body.smtpPass) && Truthy(body.emailTo) then
      Success(Use(MailConfig(body.smtpUser.value, body.smtpPass.value, body.emailTo.value)))
    else if HasCredentials(body) then
      var found :- FindIn(c, env, WithKeyId(projects, body.apiKeyId.value), body.apiKey.value);
      match found
      case None => Success(Reject(404, NOT_FOUND))
      case Some(project) =>
        if !Truthy(TextOf(project, "smtpUser")) || !Truthy(TextOf(project, "smtpPass")) || !Truthy(TextOf(project, "emailTo")) then
          Success(Reject(400, MISSING_SMTP))
        else
          Success(Use(MailConfig(TextOf(project, "smtpUser").value, TextOf(project, "smtpPass").value, TextOf(project, "emailTo").value)))
    else
      Success(Reject(400, MISSING_MAIL_CREDENTIALS))
  }

  /** `message.includes(marker)`, stated by position. */
  ghost predicate Mentions(message: string, marker: string) {
    exists i :: OccursAt(message, marker, i)
  }

  /** The message shown for a failed test send: three known causes, checked
      in order, then the raw message of an Error, then a generic text. */
  function ClassifyMailError(failure: Thrown): (m: string)
    ensures failure.NonError? ==> m == SEND_FAILED
    ensures failure.Error? && (Mentions(failure.message, "Invalid login") || Mentions(failure.message, "auth"))
      ==> m == AUTH_FAILED
    ensures failure.Error? && !Mentions(failure.message, "Invalid login") && !Mentions(failure.message, "auth")
      && (Mentions(failure.message, "ECONNREFUSED") || Mentions(failure.message, "ETIMEDOUT"))
      ==> m == CONNECT_FAILED
    ensures failure.Error? && !Mentions(failure.message, "Invalid login") && !Mentions(failure.message, "auth")
      && !Mentions(failure.message, "ECONNREFUSED") && !Mentions(failure.message, "ETIMEDOUT")
      && Mentions(failure.message, "self signed certificate")
      ==> m == CERTIFICATE_FAILED
    ensures failure.Error? && !Mentions(failure.message, "Invalid login") && !Mentions(failure.message, "auth")
      && !Mentions(failure.message, "ECONNREFUSED") && !Mentions(failure.message, "ETIMEDOUT")
      && !Mentions(failure.message, "self signed certificate")
      ==> m == failure.message
  {
    match failure
    case NonError => SEND_FAILED
    case Error(message) =>
      IncludesOccurrence(message, "Invalid login");
      IncludesOccurrence(message, "auth");
      IncludesOccurrence(message, "ECONNREFUSED");
      IncludesOccurrence(message, "ETIMEDOUT");
      IncludesOccurrence(message, "self signed certificate");
      if Includes(message, "Invalid login") || Includes(message, "auth") then AUTH_FAILED
      else if Includes(message, "ECONNREFUSED") || Includes(message, "ETIMEDOUT") then CONNECT_FAILED
      else if Includes(message, "self signed certificate") then CERTIFICATE_FAILED
      else message
  }

  function TestMail(cfg: MailConfig): Mail {
    Mail(cfg.user, cfg.pass, "Notaify Test <" + cfg.user + ">", cfg.to, TEST_SUBJECT)
  }

  /** The test send as a decision: response and mail handed over, or the lookup's throw. */
  function TrialMailEffect(projects: seq<Project>, c: Cipher, env: Option<string>, body: TrialBody, outcome: SmtpOutcome): Result<Effect<string>, Thrown> {
    var resolved :- ResolveMailConfig(projects, c, env, body);
    match resolved
    case Reject(status, error) => Success(Effect(Err(status, error), [], []))
    case Use(cfg) =>
      match outcome
      case VerifyFailed(failure) => Success(Effect(Err(500, ClassifyMailError(failure)), [], []))
      case SendFailed(failure) => Success(Effect(Err(500, ClassifyMailError(failure)), [], [TestMail(cfg)]))
      case Delivered => Success(Effect(Ok(200, SENT_TO + cfg.to), [], [TestMail(cfg)]))
  }

  /** The settings block of `processTrialMail`: inline settings, or the
      project found by its Notaify credentials. */
  method ResolveTrialMail(db: Database, c: Cipher, env: Option<string>, body: TrialBody) returns (r: Result<Resolved<MailConfig>, Thrown>)
    ensures r == ResolveMailConfig(db.projects, c, env, body)
  {
    if Truthy(body.smtpUser) && Truthy(body.smtpPass) && Truthy(body.emailTo) {
      return Success(Use(MailConfig(body.smtpUser.value, body.smtpPass.value, body.emailTo.value)));
    } else if Truthy(body.apiKeyId) && Truthy(body.apiKey) {
      var found := FindProjectByApiCredentials(c, env, db.projects, body.apiKeyId.value, body.apiKey.value);
      if found.Failure? {
        return Failure(found.error);
      }
      if found.value.None? {
        return Success(Reject(404, NOT_FOUND));
      }
      var currentProject := found.value.value;
      if !Truthy(TextOf(currentProject, "smtpUser")) || !Truthy(TextOf(currentProject, "smtpPass")) || !Truthy(TextOf(currentProject, "emailTo")) {
        return Success(Reject(400, MISSING_SMTP));
      }
      return Success(Use(MailConfig(TextOf(currentProject, "smtpUser").value, TextOf(currentProject, "smtpPass").value,
        TextOf(currentProject, "emailTo").value)));
    }
    return Success(Reject(400, MISSING_MAIL_CREDENTIALS));
  }

  /** `processTrialMail(body)`. */
  method ProcessTrialMail(db: Database, c: Cipher, env: Option<string>, body: TrialBody, outcome: SmtpOutcome)
    returns (r: Result<Response<string>, Thrown>)
    modifies db
    ensures var e := TrialMailEffect(old(db.projects), c, env, body, outcome);
      && r == (if e.Success? then Success(e.value.response) else Failure(e.error))
      && db.projects == old(db.projects)
      && db.logs == old(db.logs)
      && db.outbox == old(db.outbox) + (if e.Success? then e.value.mails else [])
  {
    var resolved := ResolveTrialMail(db, c, env, body);
    if resolved.Failure? {
      return Failure(resolved.error);
    }
    if resolved.value.Reject? {
      return Success(Err(resolved.value.status, resolved.value.error));
    }
    var cfg := resolved.value.config;

    if outcome.VerifyFailed? {
      return Success(Err(500, ClassifyMailError(outcome.thrown)));
    }
    db.outbox := db.outbox + [TestMail(cfg)];
    if outcome.SendFailed? {
      return Success(Err(500, ClassifyMailError(outcome.thrown)));
    }
    return Success(Ok(200, SENT_TO + cfg.to));
  }

  // ---------------------------------------------------------------------
  // Properties of processTrialLlm

  /** With both Notaify credentials, the inline provider, key and model are
      ignored: two bodies that differ only there behave alike. */
  lemma StoredLlmConfigOverridesInline(projects: seq<Project>, c: Cipher, env: Option<string>, sdk: Sdk, parse: JsonParser,
                                       a: TrialBody, b: TrialBody, random: real, insert: Insertion)
    requires 0.0 <= random < 1.0
    requires HasCredentials(a) && a.apiKeyId == b.apiKeyId && a.apiKey == b.apiKey
    ensures TrialLlmEffect(projects, c, env, sdk, parse, a, random, insert) == TrialLlmEffect(projects, c, env, sdk, parse, b, random, insert)
  {
  }

  /** The refusals: no credentials and an incomplete inline configuration
      400, whatever the key; with `ENCRYPTION_KEY` set, unknown credentials
      404 and a project without full AI settings 400. None of them analyses
      or writes anything. */
  lemma TrialLlmRefusals(projects: seq<Project>, c: Cipher, env: Option<string>, sdk: Sdk, parse: JsonParser,
                         body: TrialBody, random: real, insert: Insertion)
    requires 0.0 <= random < 1.0
    ensures var e := TrialLlmEffect(projects, c, env, sdk, parse, body, random, insert);
      var candidates := if HasCredentials(body) then WithKeyId(projects, body.apiKeyId.value) else [];
      && (Truthy(env) || !HasCredentials(body) ==> e.Success?)
      && (!HasCredentials(body) && !(Truthy(body.provider) && Truthy(body.llmApiKey) && Truthy(body.modelName))
          ==> e == Success(Effect(Err(400, MISSING_REQUIRED), [], [])))
      && (Truthy(env) && HasCredentials(body)
          && (forall i :: 0 <= i < |candidates| ==> !KeyMatches(c, env, candidates[i], body.apiKey.value))
          ==> e == Success(Effect(Err(404, NOT_FOUND), [], [])))
      && (Truthy(env) && HasCredentials(body)
          && (exists i :: FirstMatch(c, env, candidates, body.apiKey.value, i) && !StoredLlmComplete(c, env, candidates[i]))
          ==> e == Success(Effect(Err(400, MISSING_LLM), [], [])))
      && (e.Success? && e.value.response.Err? && e.value.response.status != 500 ==> e.value.logs == [])
  {
    ResolveLlmRefusals(projects, c, env, body);
    TrialRowOnlyForProjects(projects, c, env, sdk, parse, body, random, insert);
    var r := ResolveLlmConfig(projects, c, env, body);
    if r.Success? && r.value.Reject? {
      RejectedTrialLlm(projects, c, env, sdk, parse, body, random, insert);
    }
  }

  /** A refused configuration is answered with its status and message, and
      nothing else happens. */
  lemma RejectedTrialLlm(projects: seq<Project>, c: Cipher, env: Option<string>, sdk: Sdk, parse: JsonParser,
                         body: TrialBody, random: real, insert: Insertion)
    requires 0.0 <= random < 1.0
    requires ResolveLlmConfig(projects, c, env, body).Success? && ResolveLlmConfig(projects, c, env, body).value.Reject?
    ensures var r := ResolveLlmConfig(projects, c, env, body).value;
      TrialLlmEffect(projects, c, env, sdk, parse, body, random, insert) == Success(Effect(Err(r.status, r.error), [], []))
  {
  }

  lemma ResolveLlmRefusals(projects: seq<Project>, c: Cipher, env: Option<string>, body: TrialBody)
    ensures var r := ResolveLlmConfig(projects, c, env, body);
      var candidates := if HasCredentials(body) then WithKeyId(projects, body.apiKeyId.value) else [];
      && (Truthy(env) || !HasCredentials(body) ==> r.Success?)
      && (!HasCredentials(body) && !(Truthy(body.provider) && Truthy(body.llmApiKey) && Truthy(body.modelName))
          ==> r == Success(Reject(400, MISSING_REQUIRED)))
      && (Truthy(env) && HasCredentials(body)
          && (forall i :: 0 <= i < |candidates| ==> !KeyMatches(c, env, candidates[i], body.apiKey.value))
          ==> r == Success(Reject(404, NOT_FOUND)))
      && (Truthy(env) && HasCredentials(body)
          && (exists i :: FirstMatch(c, env, candidates, body.apiKey.value, i) && !StoredLlmComplete(c, env, candidates[i]))
          ==> r == Success(Reject(400, MISSING_LLM)))
  {
    if HasCredentials(body) && Truthy(env) {
      var candidates := WithKeyId(projects, body.apiKeyId.value);
      FindInFirstMatch(c, env, candidates, body.apiKey.value);
      FindInNone(c, env, candidates, body.apiKey.value);
      if exists i :: FirstMatch(c, env, candidates, body.apiKey.value, i) && !StoredLlmComplete(c, env, candidates[i]) {
        var i :| FirstMatch(c, env, candidates, body.apiKey.value, i) && !StoredLlmComplete(c, env, candidates[i]);
        StoredLlmConfig(projects, c, env, body, i);
      }
    }
  }

  /** Only the credential lookup throws, and only when `ENCRYPTION_KEY` is
      unset; every other failure is answered with a status. */
  lemma TrialLlmThrowsOnlyWithoutKey(projects: seq<Project>, c: Cipher, env: Option<string>, sdk: Sdk, parse: JsonParser,
                                     body: TrialBody, random: real, insert: Insertion)
    requires 0.0 <= random < 1.0
    ensures var e := TrialLlmEffect(projects, c, env, sdk, parse, body, random, insert);
      e.Failure? ==> HasCredentials(body) && !Truthy(env) && e.error == Error(MISSING_KEY)
  {
    ResolveLlmFailure(projects, c, env, body);
  }

  lemma ResolveLlmFailure(projects: seq<Project>, c: Cipher, env: Option<string>, body: TrialBody)
    ensures var r := ResolveLlmConfig(projects, c, env, body);
      r.Failure? ==> HasCredentials(body) && !Truthy(env) && r.error == Error(MISSING_KEY)
  {
    if HasCredentials(body) {
      var candidates := WithKeyId(projects, body.apiKeyId.value);
      if Truthy(env) {
        FindInFirstMatch(c, env, candidates, body.apiKey.value);
      } else {
        FindInWithoutKey(c, env, candidates, body.apiKey.value);
      }
    }
  }

  /** A failed analysis is not replaced by a fallback: the answer is 500 with
      the Error's message (or the generic text) and no row is written. */
  lemma TrialAnalysisFailureIs500(projects: seq<Project>, c: Cipher, env: Option<string>, sdk: Sdk, parse: JsonParser,
                                  body: TrialBody, random: real, insert: Insertion, cfg: LlmConfig, failure: Thrown)
    requires 0.0 <= random < 1.0
    requires ResolveLlmConfig(projects, c, env, body) == Success(Use(cfg))
    requires GenerateErrorAnalysis(sdk, parse, cfg.provider, cfg.apiKey, cfg.modelName, SelectedError(random)) == Failure(failure)
    ensures TrialLlmEffect(projects, c, env, sdk, parse, body, random, insert)
      == Success(Effect(Err(500, ErrorMessageOr(failure, LLM_FAILED)), [], []))
  {
  }

  /** A row is written only for a configuration that came from a stored
      project; it is a trial row holding one of the canned errors, and its id
      is the `logId` returned. Without a project `logId` is null. */
  lemma TrialRowOnlyForProjects(projects: seq<Project>, c: Cipher, env: Option<string>, sdk: Sdk, parse: JsonParser,
                                body: TrialBody, random: real, insert: Insertion)
    requires 0.0 <= random < 1.0
    ensures var e := TrialLlmEffect(projects, c, env, sdk, parse, body, random, insert);
      e.Success? ==>
        && |e.value.logs| <= 1
        && (e.value.logs != [] ==>
              && HasCredentials(body) && e.value.logs[0].isTrial && e.value.logs[0].error in STATIC_ERRORS
              && e.value.response == Ok(200, TrialAnalysis(VERIFIED, e.value.logs[0].resolution, Some(e.value.logs[0].id))))
        && (!HasCredentials(body) ==> e.value.logs == [] && (e.value.response.Ok? ==> e.value.response.payload.logId == None))
  {
  }

  /** The record the lookup returns for the first matching candidate: its
      id, plain columns as stored, and its secrets decrypted. */
  lemma MatchedRecord(c: Cipher, env: Option<string>, candidates: seq<Project>, apiKey: string, i: nat)
    requires Truthy(env) && FirstMatch(c, env, candidates, apiKey, i)
    ensures FindIn(c, env, candidates, apiKey).Success? && FindIn(c, env, candidates, apiKey).value.Some?
    ensures var rec := FindIn(c, env, candidates, apiKey).value.value;
      var q := candidates[i];
      && TextOf(rec, "id") == Filled(Some(q.id))
      && TextOf(rec, "llmType") == Filled(q.llmType)
      && TextOf(rec, "llmApiKey") == Filled(DecryptIfPresent(c, env, q.llmApiKey).value)
      && TextOf(rec, "llmApiModel") == Filled(q.llmApiModel)
      && TextOf(rec, "smtpUser") == Filled(q.smtpUser)
      && TextOf(rec, "smtpPass") == Filled(DecryptIfPresent(c, env, q.smtpPass).value)
      && TextOf(rec, "emailTo") == Filled(q.emailTo)
  {
    LookupOpensMatch(c, env, candidates, apiKey, i);
    OpenedColumns(c, env, candidates[i]);
  }

  /** The lookup returns the first matching candidate, opened. */
  lemma LookupOpensMatch(c: Cipher, env: Option<string>, candidates: seq<Project>, apiKey: string, i: nat)
    requires Truthy(env) && FirstMatch(c, env, candidates, apiKey, i)
    ensures FindIn(c, env, candidates, apiKey).Success? && FindIn(c, env, candidates, apiKey).value.Some?
    ensures OpenFields(c, env, SENSITIVE_FIELDS, AsRecord(candidates[i])) == Success(FindIn(c, env, candidates, apiKey).value.value)
  {
    FindInFirstMatch(c, env, candidates, apiKey);
    FindInNone(c, env, candidates, apiKey);
    var rec := FindIn(c, env, candidates, apiKey).value.value;
    var k :| 0 <= k < |candidates| && KeyMatches(c, env, candidates[k], apiKey)
      && (forall j :: 0 <= j < k ==> !KeyMatches(c, env, candidates[j], apiKey))
      && OpenFields(c, env, SENSITIVE_FIELDS, AsRecord(candidates[k])) == Success(rec);
    assert k == i;
  }

  /** The columns of a row opened with a key: secrets decrypted, the rest as stored. */
  lemma OpenedColumns(c: Cipher, env: Option<string>, q: Project)
    requires Truthy(env)
    ensures OpenFields(c, env, SENSITIVE_FIELDS, AsRecord(q)).Success?
    ensures var rec := OpenFields(c, env, SENSITIVE_FIELDS, AsRecord(q)).value;
      && TextOf(rec, "id") == Filled(Some(q.id))
      && TextOf(rec, "llmType") == Filled(q.llmType)
      && TextOf(rec, "llmApiKey") == Filled(DecryptIfPresent(c, env, q.llmApiKey).value)
      && TextOf(rec, "llmApiModel") == Filled(q.llmApiModel)
      && TextOf(rec, "smtpUser") == Filled(q.smtpUser)
      && TextOf(rec, "smtpPass") == Filled(DecryptIfPresent(c, env, q.smtpPass).value)
      && TextOf(rec, "emailTo") == Filled(q.emailTo)
  {
    OpenedLlmColumns(c, env, q);
    OpenedMailColumns(c, env, q);
  }

  lemma OpenedLlmColumns(c: Cipher, env: Option<string>, q: Project)
    requires Truthy(env)
    ensures OpenFields(c, env, SENSITIVE_FIELDS, AsRecord(q)).Success?
    ensures var rec := OpenFields(c, env, SENSITIVE_FIELDS, AsRecord(q)).value;
      && TextOf(rec, "id") == Filled(Some(q.id))
      && TextOf(rec, "llmType") == Filled(q.llmType)
      && TextOf(rec, "llmApiKey") == Filled(DecryptIfPresent(c, env, q.llmApiKey).value)
      && TextOf(rec, "llmApiModel") == Filled(q.llmApiModel)
  {
    var data := AsRecord(q);
    OpenFieldsFails(c, env, SENSITIVE_FIELDS, data);
    assert Distinct(SENSITIVE_FIELDS);
    OpenFieldsShape(c, env, SENSITIVE_FIELDS, data);
    var rec := OpenFields(c, env, SENSITIVE_FIELDS, data).value;
    OpenedSecret(c, env, data, rec, "llmApiKey", q.llmApiKey);
    OpenedPlain(data, rec, "id", Some(q.id));
    OpenedPlain(data, rec, "llmType", q.llmType);
    OpenedPlain(data, rec, "llmApiModel", q.llmApiModel);
  }

  lemma OpenedMailColumns(c: Cipher, env: Option<string>, q: Project)
    requires Truthy(env)
    ensures OpenFields(c, env, SENSITIVE_FIELDS, AsRecord(q)).Success?
    ensures var rec := OpenFields(c, env, SENSITIVE_FIELDS, AsRecord(q)).value;
      && TextOf(rec, "smtpUser") == Filled(q.smtpUser)
      && TextOf(rec, "smtpPass") == Filled(DecryptIfPresent(c, env, q.smtpPass).value)
      && TextOf(rec, "emailTo") == Filled(q.emailTo)
  {
    var data := AsRecord(q);
    OpenFieldsFails(c, env, SENSITIVE_FIELDS, data);
    assert Distinct(SENSITIVE_FIELDS);
    OpenFieldsShape(c, env, SENSITIVE_FIELDS, data);
    var rec := OpenFields(c, env, SENSITIVE_FIELDS, data).value;
    OpenedSecret(c, env, data, rec, "smtpPass", q.smtpPass);
    OpenedPlain(data, rec, "smtpUser", q.smtpUser);
    OpenedPlain(data, rec, "emailTo", q.emailTo);
  }

  /** A secret column read back after opening: the decrypted stored value. */
  lemma OpenedSecret(c: Cipher, env: Option<string>, data: Record, rec: Record, k: string, stored: Option<string>)
    requires Truthy(env) && k in data && k in rec && data[k] == Nullable(stored)
    requires if NonEmptyStr(data, k) then rec[k].Str? && Decrypt(c, env, data[k].s) == Success(rec[k].s) else rec[k] == data[k]
    ensures TextOf(rec, k) == Filled(DecryptIfPresent(c, env, stored).value)
  {
  }

  /** A column opening leaves alone reads back as stored. */
  lemma OpenedPlain(data: Record, rec: Record, k: string, stored: Option<string>)
    requires k in data && k in rec && rec[k] == data[k]
    requires data[k] == Nullable(stored) || (stored.Some? && data[k] == Str(stored.value))
    ensures TextOf(rec, k) == Filled(stored)
  {
  }

  /** With both credentials, the configuration is the first matching
      project's: its provider and model as stored, its AI key decrypted and
      its id; a project missing any of the three is refused with 400. */
  lemma StoredLlmConfig(projects: seq<Project>, c: Cipher, env: Option<string>, body: TrialBody, i: nat)
    requires Truthy(env) && HasCredentials(body)
    requires FirstMatch(c, env, WithKeyId(projects, body.apiKeyId.value), body.apiKey.value, i)
    ensures var q := WithKeyId(projects, body.apiKeyId.value)[i];
      var key := DecryptIfPresent(c, env, q.llmApiKey).value;
      ResolveLlmConfig(projects, c, env, body) ==
        if StoredLlmComplete(c, env, q)
        then Success(Use(LlmConfig(q.llmType.value, key.value, q.llmApiModel.value, Filled(Some(q.id)))))
        else Success(Reject(400, MISSING_LLM))
  {
    MatchedRecord(c, env, WithKeyId(projects, body.apiKeyId.value), body.apiKey.value, i);
  }

  // ---------------------------------------------------------------------
  // Properties of processTrialMail

  /** Without complete inline settings and with both credentials, the
      settings are the first matching project's: its SMTP user and
      recipient as stored and its password decrypted; a project missing any
      of the three is refused with 400. */
  lemma StoredMailConfig(projects: seq<Project>, c: Cipher, env: Option<string>, body: TrialBody, i: nat)
    requires Truthy(env) && HasCredentials(body)
    requires !(Truthy(body.smtpUser) && Truthy(body.smtpPass) && Truthy(body.emailTo))
    requires FirstMatch(c, env, WithKeyId(projects, body.apiKeyId.value), body.apiKey.value, i)
    ensures var q := WithKeyId(projects, body.apiKeyId.value)[i];
      var pass := DecryptIfPresent(c, env, q.smtpPass).value;
      ResolveMailConfig(projects, c, env, body) ==
        if StoredMailComplete(c, env, q)
        then Success(Use(MailConfig(q.smtpUser.value, pass.value, q.emailTo.value)))
        else Success(Reject(400, MISSING_SMTP))
  {
    MatchedRecord(c, env, WithKeyId(projects, body.apiKeyId.value), body.apiKey.value, i);
  }

  /** Complete inline SMTP settings win: the stored projects, the Notaify
      credentials and the encryption key play no part, and nothing throws. */
  lemma InlineSmtpTakesPrecedence(projects: seq<Project>, c: Cipher, env: Option<string>, a: TrialBody, b: TrialBody,
                                  projects2: seq<Project>, env2: Option<string>, outcome: SmtpOutcome)
    requires Truthy(a.smtpUser) && Truthy(a.smtpPass) && Truthy(a.emailTo)
    requires a.smtpUser == b.smtpUser && a.smtpPass == b.smtpPass && a.emailTo == b.emailTo
    ensures TrialMailEffect(projects, c, env, a, outcome).Success?
    ensures TrialMailEffect(projects, c, env, a, outcome) == TrialMailEffect(projects2, c, env2, b, outcome)
  {
  }

  /** The refusals: neither complete settings nor credentials 400, whatever
      the key; with `ENCRYPTION_KEY` set, unknown credentials 404 and a
      stored project without full SMTP settings 400. Only the lookup throws,
      and only without the key. No refusal hands over mail. */
  lemma TrialMailRefusals(projects: seq<Project>, c: Cipher, env: Option<string>, body: TrialBody, outcome: SmtpOutcome)
    ensures var e := TrialMailEffect(projects, c, env, body, outcome);
      var inline := Truthy(body.smtpUser) && Truthy(body.smtpPass) && Truthy(body.emailTo);
      var candidates := if HasCredentials(body) then WithKeyId(projects, body.apiKeyId.value) else [];
      && (e.Failure? ==> !inline && HasCredentials(body) && !Truthy(env) && e.error == Error(MISSING_KEY))
      && (!inline && !HasCredentials(body) ==> e == Success(Effect(Err(400, MISSING_MAIL_CREDENTIALS), [], [])))
      && (Truthy(env) && !inline && HasCredentials(body)
          && (forall i :: 0 <= i < |candidates| ==> !KeyMatches(c, env, candidates[i], body.apiKey.value))
          ==> e == Success(Effect(Err(404, NOT_FOUND), [], [])))
      && (Truthy(env) && !inline && HasCredentials(body)
          && (exists i :: FirstMatch(c, env, candidates, body.apiKey.value, i) && !StoredMailComplete(c, env, candidates[i]))
          ==> e == Success(Effect(Err(400, MISSING_SMTP), [], [])))
      && (e.Success? && e.value.response.Err? && e.value.response.status != 500 ==> e.value.mails == [])
  {
    ResolveMailRefusals(projects, c, env, body);
  }

  lemma ResolveMailRefusals(projects: seq<Project>, c: Cipher, env: Option<string>, body: TrialBody)
    ensures var r := ResolveMailConfig(projects, c, env, body);
      var inline := Truthy(body.smtpUser) && Truthy(body.smtpPass) && Truthy(body.emailTo);
      var candidates := if HasCredentials(body) then WithKeyId(projects, body.apiKeyId.value) else [];
      && (r.Failure? ==> !inline && HasCredentials(body) && !Truthy(env) && r.error == Error(MISSING_KEY))
      && (!inline && !HasCredentials(body) ==> r == Success(Reject(400, MISSING_MAIL_CREDENTIALS)))
      && (Truthy(env) && !inline && HasCredentials(body)
          && (forall i :: 0 <= i < |candidates| ==> !KeyMatches(c, env, candidates[i], body.apiKey.value))
          ==> r == Success(Reject(404, NOT_FOUND)))
      && (Truthy(env) && !inline && HasCredentials(body)
          && (exists i :: FirstMatch(c, env, candidates, body.apiKey.value, i) && !StoredMailComplete(c, env, candidates[i]))
          ==> r == Success(Reject(400, MISSING_SMTP)))
  {
    var inline := Truthy(body.smtpUser) && Truthy(body.smtpPass) && Truthy(body.emailTo);
    if !inline && HasCredentials(body) {
      var candidates := WithKeyId(projects, body.apiKeyId.value);
      if Truthy(env) {
        FindInFirstMatch(c, env, candidates, body.apiKey.value);
        FindInNone(c, env, candidates, body.apiKey.value);
        if exists i :: FirstMatch(c, env, candidates, body.apiKey.value, i) && !StoredMailComplete(c, env, candidates[i]) {
          var i :| FirstMatch(c, env, candidates, body.apiKey.value, i) && !StoredMailComplete(c, env, candidates[i]);
          StoredMailConfig(projects, c, env, body, i);
        }
      } else {
        FindInWithoutKey(c, env, candidates, body.apiKey.value);
      }
    }
  }

  /** Once settings are found: a failed `verify()` answers 500 without any
      send; a failed send answers 500 after handing the message over; a
      success answers 200 naming the recipient. Every failure message is the
      classifier's. */
  lemma VerifyThenSend(projects: seq<Project>, c: Cipher, env: Option<string>, body: TrialBody, outcome: SmtpOutcome, cfg: MailConfig)
    requires ResolveMailConfig(projects, c, env, body) == Success(Use(cfg))
    ensures var e := TrialMailEffect(projects, c, env, body, outcome).value;
      && (outcome.VerifyFailed? ==> e == Effect(Err(500, ClassifyMailError(outcome.thrown)), [], []))
      && (outcome.SendFailed? ==> e == Effect(Err(500, ClassifyMailError(outcome.thrown)), [], [TestMail(cfg)]))
      && (outcome.Delivered? ==> e == Effect(Ok(200, SENT_TO + cfg.to), [], [TestMail(cfg)]))
      && (e.mails != [] ==> e.mails[0].to == cfg.to && e.mails[0].user == cfg.user && e.mails[0].pass == cfg.pass)
  {
  }

  /** The classifier against `includes` itself: an authentication marker
      wins over every other marker, a connection marker over the certificate
      one, and an Error is shown either one of the three fixed texts or its
      own message. */
  lemma ClassifierPrecedence(message: string)
    ensures Includes(message, "auth") || Includes(message, "Invalid login") ==> ClassifyMailError(Error(message)) == AUTH_FAILED
    ensures !Includes(message, "auth") && !Includes(message, "Invalid login")
      && (Includes(message, "ECONNREFUSED") || Includes(message, "ETIMEDOUT"))
      ==> ClassifyMailError(Error(message)) == CONNECT_FAILED
    ensures !Includes(message, "auth") && !Includes(message, "Invalid login")
      && !Includes(message, "ECONNREFUSED") && !Includes(message, "ETIMEDOUT") && Includes(message, "self signed certificate")
      ==> ClassifyMailError(Error(message)) == CERTIFICATE_FAILED
    ensures ClassifyMailError(Error(message)) in [AUTH_FAILED, CONNECT_FAILED, CERTIFICATE_FAILED, message]
  {
    IncludesOccurrence(message, "Invalid login");
    IncludesOccurrence(message, "auth");
    IncludesOccurrence(message, "ECONNREFUSED");
    IncludesOccurrence(message, "ETIMEDOUT");
    IncludesOccurrence(message, "self signed certificate");
  }
}
