# Notaify backend core in Dafny

Notaify is an error-reporting service. A client application reports an
error with a pair of Notaify credentials (a public key id and a secret
key). The service then:

- analyses the error with the project's own AI provider (OpenAI, Anthropic or Google);
- stores the error and its analysis in an error-log table;
- mails an alert when the project has SMTP settings.

A dashboard lets users manage projects, issue keys, read their logs and
try out AI and SMTP settings. The secrets kept for each project are
encrypted at rest:

- `llmApiKey`, the AI provider key;
- `smtpPass`, the SMTP password;
- `notaifyApiKey`, the Notaify secret.

This project models that core and proves what it promises.

| module | file | models |
|---|---|---|
| `Wrappers`, `Js` | `wrappers.dfy`, `js.dfy` | `Option`/`Result`; the JavaScript built-ins the code relies on, written out: truthiness and `\|\|`, `split`, `includes`, `substring`, `slice(-n)`, hex and decimal rendering, the ASCII `replace`/`toLowerCase`, thrown values, JSON values |
| `Schema`, `Http` | `schema.dfy`, `http.dfy` | the project and error-log rows, mail handed to SMTP, the database as one mutable object, responses and effects |
| `Encryption` | `encryption.dfy` | the `iv:authTag:ciphertext` codec, the lenient decryption, per-record sealing of the three secret columns, and lookup of a project by its credentials |
| `LlmGenerator` | `llm_generator.dfy` | the analysis prompt, the provider switch and the parse |
| `Ingest` | `ingest.dfy` | the ingest route |
| `TrialHelper`, `TrialLlmRoute` | `trial_helper.dfy`, `trial_llm_route.dfy` | the AI and SMTP trial helpers, and the route that maps the AI trial's result to a response |
| `ApiKeys`, `GenerateApiKeyRoute` | `api_keys.dfy`, `generate_api_key_route.dfy` | key and key-id builders, the key mask, and the key-pair route |
| `ProjectRoute`, `ProjectLogs`, `Ordering` | `project_route.dfy`, `project_logs.dfy`, `ordering.dfy` | project CRUD, the log query and the `orderBy … desc` of both |
| `Migration` | `migration.dfy` | the one-off script that encrypts existing plaintext secrets |

External parts are oracles: values passed in that the model never looks inside.

- **The cipher** (AES-256-GCM, section 7 of NIST SP 800-38D) is a `Cipher` value with two functions, `seal` and `open`. No axiom is assumed. The round trip is the predicate `Sound(c)`, and only lemmas that need it take it as a hypothesis.
- **The AI SDKs and `JSON.parse`** are function-valued fields that return a value or a throw.
- **Environment values** are parameters: the `ENCRYPTION_KEY` setting, `Math.random()` (a real in [0, 1)), `Date.now()`, `crypto.randomBytes`, the id and timestamp the database gives a new row (or the insert's throw), the signed-in user, and the outcome of the SMTP transport.

Route handlers that change the database follow one pattern:

- A specification function gives the handler's whole effect as a value: the response, the error-log rows appended and the mail handed over.
- A method with `modifies db` performs that effect step by step.
- The method's `ensures` ties the new state to the function.
- The lemmas state the source's promises about the function.

The code and its design notes disagree in places; the model follows the code.

- **`decrypt` is lenient.** If a value does not split into three parts, or the cipher cannot open or authenticate it, `decrypt` returns the value unchanged rather than failing (`Encryption.Decrypt`).
- **Ingest compares the stored secret in the clear.** It looks for a row whose stored `notaifyApiKey` equals the request's key and never decrypts. Once the secrets are encrypted, a client sending its plain key always gets 404 (`Ingest.EncryptedKeysNeverMatch`).
- **The analysis text is parsed as received.** `JSON.parse` gets the raw reply, with no removal of code fences and no extraction of the JSON object (`LlmGenerator.ParsesRawReply`).
- **The dispatcher rejects `"google"`**, the provider name used elsewhere in the project (`LlmGenerator.GoogleIsRejected`).

## Model

| member | source | states |
|---|---|---|
| Encryption.GetKey | lib/utils/encryption.ts:11-18 | the key is the `ENCRYPTION_KEY` setting; an unset or empty setting throws the missing-key Error, and only then |
| Encryption.Encrypt | lib/utils/encryption.ts:24-36 | throws the missing-key Error without a key; succeeds exactly when a key is set and the cipher seals; the result starts with the 32 hex digits of the IV |
| Encryption.Decrypt | lib/utils/encryption.ts:42-67 | throws without a key, even for legacy plaintext, and never otherwise; a value that is not a triple, or a triple the cipher cannot open, comes back unchanged; a triple the cipher opens gives exactly the opened plaintext |
| Encryption.EncryptIfPresent | lib/utils/encryption.ts:72-75 | null, undefined and "" give null without encrypting; anything else is `encrypt`'s result or throw |
| Encryption.DecryptIfPresent | lib/utils/encryption.ts:80-83 | null, undefined and "" give null even without a key; anything else is `decrypt`'s result, throwing exactly when the key is missing |
| Encryption.EncryptedShape | lib/utils/encryption.ts:24-36 | an encrypted value splits on `:` into exactly the IV's hex (32 digits), the tag's hex (32 digits) and the ciphertext's hex; it has exactly two `:` and every other character is a hex digit |
| Encryption.RoundTrip | lib/utils/encryption.ts:24-61 | under a sound cipher and the same key, decrypting an encryption gives the plaintext back |
| Encryption.IfPresentRoundTrip | lib/utils/encryption.ts:72-83 | the `…IfPresent` pair round-trips, with "" normalised to null |
| Encryption.EncryptProjectSecrets | lib/utils/encryption.ts:91-99 | the field loop computes the sealing of the three sensitive fields, stopping at the first throw |
| Encryption.DecryptProjectSecrets | lib/utils/encryption.ts:104-112 | the field loop computes the opening of the three sensitive fields |
| Encryption.SealFieldsShape | lib/utils/encryption.ts:86-99 | sealing keeps the key set; each listed field holding a non-empty string becomes its encryption; every other property is copied |
| Encryption.SealFieldsFails | lib/utils/encryption.ts:91-99 | sealing throws exactly when some listed non-empty string cannot be encrypted |
| Encryption.OpenFieldsShape | lib/utils/encryption.ts:104-112 | opening keeps the key set; each listed non-empty string becomes its decryption; every other property is copied |
| Encryption.OpenFieldsFails | lib/utils/encryption.ts:104-112 | opening throws exactly when the key is missing and some listed field holds a non-empty string, and then with the missing-key Error |
| Encryption.SecretsRoundTrip | lib/utils/encryption.ts:86-112 | under a sound cipher, decrypting the secrets of a record whose secrets were just encrypted gives the record back |
| Encryption.WithKeyId | lib/utils/encryption.ts:128-130 | the candidates are exactly the rows whose `notaifyApiKeyId` is the requested id |
| Encryption.FindProjectByApiCredentials | lib/utils/encryption.ts:120-141 | the scan with early return computes the first-match search over the candidates |
| Encryption.FindInFirstMatch | lib/utils/encryption.ts:132-140 | with a key the search never throws; a hit is the first candidate whose decrypted secret equals the key, returned with all three secrets decrypted |
| Encryption.FindInNone | lib/utils/encryption.ts:132-141 | with a key the search gives null exactly when no candidate's decrypted secret matches; an unknown id, a wrong secret and a null or empty stored secret all give the same null |
| Encryption.FindInWithoutKey | lib/utils/encryption.ts:132-141 | without a key the search throws the missing-key Error as soon as a candidate has a stored secret, and otherwise gives null |
| LlmGenerator.PromptShape | lib/controllerHelper/LLMgenerator.ts:17-19 | the prompt is the fixed head, `Error: ` and the error text verbatim, then the fixed tail, whatever the provider |
| LlmGenerator.PromptInjective | lib/controllerHelper/LLMgenerator.ts:17-19 | different error texts never give the same prompt |
| LlmGenerator.Complete | lib/controllerHelper/LLMgenerator.ts:21-48 | a provider other than openai, claude or gemini throws `Unsupported provider: <p>`; null OpenAI content and a non-text first Anthropic block give "" |
| LlmGenerator.GenerateErrorAnalysis | lib/controllerHelper/LLMgenerator.ts:11-51 | an unsupported provider throws before any call; a failing provider call's throw is the analysis's throw |
| LlmGenerator.ParsesRawReply | lib/controllerHelper/LLMgenerator.ts:50 | the analysis is `JSON.parse` of the raw reply, with no repair |
| LlmGenerator.GoogleIsRejected | lib/controllerHelper/LLMgenerator.ts:41-47 | the provider name "google" throws `Unsupported provider: google` |
| LlmGenerator.EmptyReplyThrows | lib/controllerHelper/LLMgenerator.ts:23-50 | an empty OpenAI reply or a non-text first Anthropic block makes the analysis throw, given that `JSON.parse("")` throws |
| LlmGenerator.OneCallDecides | lib/controllerHelper/LLMgenerator.ts:23-50 | only the selected provider's single call matters: two SDKs that answer it alike give the same analysis |
| Ingest.FirstWithPlainCredentials | app/api/package/nodexp/ingest/route.ts:35-40 | the first row whose stored key id and stored secret equal the request values exactly, or none when no row does |
| Ingest.Fallback | app/api/package/nodexp/ingest/route.ts:74-80 | the fallback analysis has exactly five members: location or "Unknown", the reason `LLM Analysis failed or timed out: ` followed by the Error's message or `Unknown error`, the solution `Please review the raw error log.`, errorType `LLM_FAILURE`, statusCode `N/A` |
| Ingest.Post | app/api/package/nodexp/ingest/route.ts:13-209 | the handler's response, appended log rows and mail are those of the route's decision, in which the alert is handed over only for a project with SMTP settings and an analysis the template can be built from (`AlertRenders`: not JSON `null`, and none of `errorType`, `statusCode`, `location`, `reason`, `solution` has a throwing string conversion; either throw is caught like a failed send); the project table is unchanged |
| Ingest.GuardOrder | app/api/package/nodexp/ingest/route.ts:20-32 | missing credentials give 401 before the error text is checked; a missing error text gives 400; neither has any effect |
| Ingest.NotFoundIffNoPlainMatch | app/api/package/nodexp/ingest/route.ts:35-47 | the answer is 404 with no effect exactly when no row stores both credentials as given |
| Ingest.EncryptedKeysNeverMatch | app/api/package/nodexp/ingest/route.ts:35-47 | when every stored secret is an encrypted triple and the request key has no `:`, the answer is 404 |
| Ingest.MissingLlmConfig | app/api/package/nodexp/ingest/route.ts:50-55 | a matched project without all three AI settings gives 400, with no row and no mail |
| Ingest.EffectsOnlyOnSuccess | app/api/package/nodexp/ingest/route.ts:84-200 | exactly one row is appended when the answer succeeds, with status 201; no row and no mail on any error; at most one mail |
| Ingest.SuccessfulIngest | app/api/package/nodexp/ingest/route.ts:84-200 | the row holds the project id, the error context cut at 1000 characters, the project's provider and model, `isTrial` false and the returned analysis; the response carries the row id; mail goes out exactly when SMTP user, password and recipient are set and the template can be built from the analysis (never for `null`), to the project's recipient from its SMTP user |
| Js.LastMember | app/api/package/nodexp/ingest/route.ts:144-164 | the property the template reads from a parsed analysis is the last member with that name, and it is absent exactly when no member has the name |
| Ingest.FlatAnalysisRenders | app/api/package/nodexp/ingest/route.ts:144-164 | an analysis object whose members are all `null`, booleans, numbers or strings can always be interpolated into the alert |
| Ingest.FallbackRenders | app/api/package/nodexp/ingest/route.ts:74-80 | the fallback analysis can always be interpolated into the alert |
| Ingest.OwnedToStringBlocksAlert | app/api/package/nodexp/ingest/route.ts:144 | an `errorType` object owning a `toString` member, alone or inside an array, makes the template throw, so no alert is handed over |
| Ingest.AnalysisFailureFallsBack | app/api/package/nodexp/ingest/route.ts:67-81 | an analysis throw still answers 201, storing and returning the fallback; the alert then goes out exactly when SMTP is configured |
| Ingest.InsertFailureIs500 | app/api/package/nodexp/ingest/route.ts:202-208 | a failed insert answers 500 with the thrown message, or `Internal Server Error` |
| Ingest.StoredErrorStartsWithReport | app/api/package/nodexp/ingest/route.ts:62-87 | the stored error text begins with the reported error, cut at 1000 characters |
| TrialHelper.SelectedError | lib/controllerHelper/trialHelper.ts:32-39 | the analysed text is always one of the five canned errors |
| TrialHelper.ClassifyMailError | lib/controllerHelper/trialHelper.ts:187-203 | the failure message: `Invalid login` or `auth` gives the auth text, else `ECONNREFUSED` or `ETIMEDOUT` the connection text, else `self signed certificate` the certificate text, else the Error's own message; a non-Error gives the generic text |
| TrialHelper.ProcessTrialLlm | lib/controllerHelper/trialHelper.ts:5-77 | the helper's result and appended rows are those of the trial's decision; projects and outbox are unchanged |
| TrialHelper.ProcessTrialMail | lib/controllerHelper/trialHelper.ts:79-204 | the helper's result and the mail handed over are those of the test's decision; the tables are unchanged |
| TrialHelper.ResolveTrialLlm | lib/controllerHelper/trialHelper.ts:6-29 | the credential block computes the configuration `ResolveLlmConfig` defines, whose branches `StoredLlmConfig` and `TrialLlmRefusals` state: the first matching project's settings, the inline settings without credentials, or the 404/400 refusal |
| TrialHelper.ResolveTrialMail | lib/controllerHelper/trialHelper.ts:85-105 | the settings block computes the settings `ResolveMailConfig` defines, whose branches `InlineSmtpTakesPrecedence`, `StoredMailConfig` and `TrialMailRefusals` state |
| TrialHelper.StoredLlmConfig | lib/controllerHelper/trialHelper.ts:12-26 | with both credentials, the first candidate whose decrypted secret matches decides: a project with provider, decrypted AI key and model gives that provider, key, model and its id; a project missing any of them gives 400 `Project is missing LLM configuration.` |
| TrialHelper.StoredMailConfig | lib/controllerHelper/trialHelper.ts:85-102 | without complete inline settings and with both credentials, the first matching project decides: its SMTP user, decrypted password and recipient, or 400 `Project is missing SMTP configuration…` when any is missing |
| TrialHelper.MatchedRecord | lib/utils/encryption.ts:104-140 | the lookup returns the first candidate whose decrypted secret matches, with its AI key and SMTP password decrypted and its other columns as stored |
| TrialHelper.RejectedTrialLlm | lib/controllerHelper/trialHelper.ts:14-29 | a refused configuration is answered with its own status and message, with no row written and nothing sent |
| TrialHelper.StoredLlmConfigOverridesInline | lib/controllerHelper/trialHelper.ts:12-26 | with both Notaify credentials, the inline provider, key and model make no difference |
| TrialHelper.TrialLlmRefusals | lib/controllerHelper/trialHelper.ts:12-29 | without credentials the answer never throws, and an incomplete inline configuration gives 400 whatever `ENCRYPTION_KEY` is; with the key set, the answer never throws, unknown credentials give 404 and a matched project missing provider, decrypted key or model gives 400 `MISSING_LLM`; no refusal writes a row |
| TrialHelper.TrialLlmThrowsOnlyWithoutKey | lib/controllerHelper/trialHelper.ts:12-31 | the helper throws only from the credential lookup, only when `ENCRYPTION_KEY` is unset, with the missing-key Error |
| TrialHelper.TrialAnalysisFailureIs500 | lib/controllerHelper/trialHelper.ts:69-76 | an analysis failure answers 500 with the Error's message or the generic text, with no fallback and no row |
| TrialHelper.TrialRowOnlyForProjects | lib/controllerHelper/trialHelper.ts:45-68 | at most one row; it is written only for a stored project's configuration, is a trial row with a canned error, and its id is the returned `logId`; without credentials `logId` is null |
| TrialHelper.InlineSmtpTakesPrecedence | lib/controllerHelper/trialHelper.ts:85-105 | complete inline SMTP settings are used whatever the table, the credentials and the key, and nothing throws |
| TrialHelper.TrialMailRefusals | lib/controllerHelper/trialHelper.ts:85-105 | the answer throws only for a body without complete settings, with credentials, when `ENCRYPTION_KEY` is unset; neither complete settings nor credentials give 400 whatever the key; with the key set, unknown credentials give 404 and a matched project missing user, decrypted password or recipient gives 400 `MISSING_SMTP`; no refusal hands over mail |
| TrialHelper.VerifyThenSend | lib/controllerHelper/trialHelper.ts:107-186 | a failed verify answers 500 without sending; a failed send answers 500 after handing the message over; success answers 200 naming the recipient; the message goes to the configured recipient from the configured account |
| TrialHelper.ClassifierPrecedence | lib/controllerHelper/trialHelper.ts:189-200 | by `includes` itself: an auth marker wins over all others; `ECONNREFUSED` or `ETIMEDOUT` wins over the certificate marker; the certificate marker alone gives the certificate text; an Error is shown one of the three texts or its own message |
| TrialLlmRoute.StatusOr200 | app/api/package/nodexp/trialLlm/route.ts:25 | `status \|\| 200` is never 0 and keeps a non-zero status |
| TrialLlmRoute.TrialLlmReply | app/api/package/nodexp/trialLlm/route.ts:9-34 | a throw answers 500 with its message or `Internal Server Error`; a helper error with a non-empty message answers with the helper's status and message |
| TrialLlmRoute.LogIdNotForwarded | app/api/package/nodexp/trialLlm/route.ts:21-25 | a success answers with the data and analysis; the helper's `logId` never reaches the response |
| TrialLlmRoute.EmptyErrorReadsAsSuccess | app/api/package/nodexp/trialLlm/route.ts:14-25 | an AI provider throwing an Error with an empty message makes the route answer success with status 500 and neither data nor analysis |
| TrialLlmRoute.IntendedReplyKeepsVerdict | app/api/package/nodexp/trialLlm/route.ts:14-33 | the corrected mapping keeps every helper error an error; it differs from the route as written only on empty error messages |
| ApiKeys.GenerateApiKey | lib/utils/apiKeyGenerator.ts:13-29 | `nfy_` and 10 hex digits, 14 characters, whatever the project; a random-source failure throws `Failed to generate API key` |
| ApiKeys.GeneratedKeyDecodes | lib/utils/apiKeyGenerator.ts:17-18 | the key's hex part decodes back to the five random bytes |
| ApiKeys.MaskApiKey | lib/utils/apiKeyGenerator.ts:51-56 | a key of at most 10 characters gives ten bullets; a longer one gives its first 4 characters, six bullets and its last 4 characters |
| ApiKeys.MaskExposesAtMostEight | lib/utils/apiKeyGenerator.ts:51-56 | a mask shows at most eight non-bullet characters, and only the key's own first four and last four |
| ApiKeys.TimestampSuffix | lib/utils/apiKeyGenerator.ts:64 | the clock's last 1 to 6 decimal digits; exactly 6 once the clock has six digits |
| ApiKeys.TimestampSuffixValue | lib/utils/apiKeyGenerator.ts:64 | the suffix read as a decimal number is the clock modulo one million |
| ApiKeys.NamePart | lib/utils/apiKeyGenerator.ts:65-66 | the first eight (or fewer) ASCII letters and digits of the name, in order, each lower-cased, with the filter characterised by `Js.KeepAsciiAlnumAppend` |
| Js.KeepAsciiAlnumAppend | lib/utils/apiKeyGenerator.ts:65 | the `/[^a-z0-9]/gi` filter works character by character: filtering a concatenation concatenates the filtered parts |
| ApiKeys.NamePartSkipsOthers | lib/utils/apiKeyGenerator.ts:65-66 | a character that is not an ASCII letter or digit, anywhere in the name, changes nothing |
| ApiKeys.NamePartSnoc | lib/utils/apiKeyGenerator.ts:65-66 | while fewer than eight are kept, a further letter or digit is appended lower-cased, so order is kept |
| ApiKeys.NamePartFirstEight | lib/utils/apiKeyGenerator.ts:65-66 | once eight letters and digits are kept, the rest of the name is ignored |
| ApiKeys.GenerateApiKeyId | lib/utils/apiKeyGenerator.ts:63-67 | starts with `nfy_` and has 6 to 19 characters |
| ApiKeys.ApiKeyIdPieces | lib/utils/apiKeyGenerator.ts:63-67 | the identifier splits on `_` into exactly `nfy`, the name part and the clock suffix |
| ApiKeys.ApiKeyIdWithoutAlnum | lib/utils/apiKeyGenerator.ts:65-66 | a name without ASCII letters or digits gives `nfy__` and the clock suffix |
| ApiKeys.ApiKeyIdKeepsShortName | lib/utils/apiKeyGenerator.ts:65-66 | a name of at most eight ASCII letters and digits is kept whole, lower-cased |
| GenerateApiKeyRoute.Post | app/api/generateApiKey/route.ts:4-29 | a failure of either random draw answers 500 with `Failed to generate API key: ` and the message |
| GenerateApiKeyRoute.IssuedPairShape | app/api/generateApiKey/route.ts:9-19 | the secret is `nty_` and 14 hex digits (18 characters) that decode to the random bytes and contain no `:`; the id splits on `_` into `nty`, 6 hex digits and the clock suffix, 17 characters once the clock has six digits |
| Ordering.SortDescCorrect | app/api/project/logs/route.ts:31-34 | `orderBy … desc` yields the same rows, each as often, sorted by descending key |
| ProjectRoute.OwnedBy | app/api/project/route.ts:17-20 | exactly the rows of the user, each exactly as often as in the table |
| ProjectRoute.GetProjects | app/api/project/route.ts:5-31 | no `userId` gives 400; otherwise 200 |
| ProjectRoute.GetProjectsExact | app/api/project/route.ts:17-22 | the list holds exactly the user's projects, each exactly as often as stored, newest `createdAt` first |
| ProjectRoute.NewProjectNormalises | app/api/project/route.ts:60-76 | description "" exactly when none is given, else the given one; each optional column is null exactly when the value is falsy and otherwise the value given; credentials are stored as received, unencrypted |
| ProjectRoute.Post | app/api/project/route.ts:34-87 | missing user, name or project name give 400 with no insert; a failed create gives 500 `Failed to create project: …`; otherwise 201 with the row appended; ids stay unique |
| ProjectRoute.UpdatedKeepsIdentity | app/api/project/route.ts:116-132 | an update keeps id, owner and creation time, leaves an omitted name alone, and sets an omitted secret column to null |
| ProjectRoute.Put | app/api/project/route.ts:90-143 | no id gives 400; an unknown id gives 500 `Failed to update project: …`; otherwise 200 and that row replaced by its update; ids stay unique |
| ProjectRoute.WithoutRemovesOnlyTheRow | app/api/project/route.ts:158-160 | deleting removes exactly the row's id and keeps every other row, with ids unique |
| ProjectRoute.Delete | app/api/project/route.ts:146-171 | no id gives 400; an unknown id gives 500 `Failed to delete project: …`; otherwise 200 `Project deleted successfully` and the id is gone |
| ProjectLogs.FindOwned | app/api/project/logs/route.ts:20-25 | the first row with that id and that owner, or none when the user owns no such project |
| ProjectLogs.LogsOf | app/api/project/logs/route.ts:31-34 | exactly the log rows of the project, each exactly as often as stored |
| ProjectLogs.GetLogs | app/api/project/logs/route.ts:5-45 | no signed-in user gives 401 before anything else; no project id gives 400; a success returns a project the user owns |
| ProjectLogs.NotFoundIffNotOwned | app/api/project/logs/route.ts:20-29 | the answer is the one 404 exactly when the user owns no project with that id, whether it does not exist or belongs to someone else |
| ProjectLogs.LogsExactAndNewestFirst | app/api/project/logs/route.ts:31-36 | the logs are exactly the project's, each exactly as often as stored, newest first |
| Migration.FieldPlan | scripts/encrypt-existing-credentials.ts:35-55 | an empty value is skipped; with a key a triple is skipped as already encrypted; every other value is encrypted, or its throw aborts |
| Migration.PlanRow | scripts/encrypt-existing-credentials.ts:32-55 | the column loop builds the row's update set; `needsUpdate` holds exactly when the set is non-empty |
| Migration.MigrateCredentials | scripts/encrypt-existing-credentials.ts:12-77 | the run leaves the table and counters of the row-by-row migration, or its throw with the rows written before it |
| Migration.RowsInPlace | scripts/encrypt-existing-credentials.ts:57-61 | rows are rewritten in place by id; rows not yet reached are untouched |
| Migration.FailureIsFinal | scripts/encrypt-existing-credentials.ts:74-77 | a throw ends the run: later rows are neither read nor written |
| Migration.CountsAddUp | scripts/encrypt-existing-credentials.ts:57-67 | `updated + skipped` is the number of rows processed |
| Migration.PlanWithKey | scripts/encrypt-existing-credentials.ts:35-55 | with a key, the update set holds exactly the non-empty values that are not triples, each encrypted with its IV; a plaintext of triple shape stays in the clear |
| Migration.PlanWithoutKey | scripts/encrypt-existing-credentials.ts:36-53 | without a key, a row with any non-empty secret aborts with the missing-key Error |
| Migration.MigratedRow | scripts/encrypt-existing-credentials.ts:51-61 | under a sound cipher, a migrated row has every secret encrypted and reads back through `decryptIfPresent` as before; other columns are unchanged |
| Migration.MigrationInvisibleToReaders | scripts/encrypt-existing-credentials.ts:25-68 | under a sound cipher, every row reads the same after the run as before, even after an abort; a complete run leaves every secret encrypted |
| Migration.MigrationKeepsReads | scripts/encrypt-existing-credentials.ts:25-68 | under a sound cipher, each row read through `decryptIfPresent` after any prefix of the run, aborted or not, equals the row before it |
| Migration.MigrationSeals | scripts/encrypt-existing-credentials.ts:25-68 | when no row has thrown, every row the run has reached holds only empty or encrypted secrets |
| Migration.SecondRunUpdatesNothing | scripts/encrypt-existing-credentials.ts:39-49 | a second run after a complete first run writes nothing and skips every row, whatever IVs it draws |
| Migration.WithoutKeyWritesNothing | scripts/encrypt-existing-credentials.ts:39-53 | without a key nothing is written; the run aborts with the missing-key Error exactly when some row has a non-empty secret |

## Findings

| source | as written | input that shows it | evidently intended | confidence | as-written member | corrected member |
|---|---|---|---|---|---|---|
| app/api/package/nodexp/trialLlm/route.ts:14-25 | `if (result.error)` tests the message's truthiness, so a helper error with an empty message takes the success branch | a configured AI provider throws `new Error("")`; the helper returns status 500 with error ""; the route answers `message: 'success'` with status 500 and no data | every helper error is answered as an error with its status | low: not executed | TrialLlmRoute.TrialLlmReply | TrialLlmRoute.IntendedTrialLlmReply |

`TrialLlmRoute.EmptyErrorReadsAsSuccess` shows the discrepancy on the route as written. `TrialLlmRoute.IntendedReplyKeepsVerdict` proves that the corrected mapping keeps the helper's verdict.

## Left out

- AES-256-GCM itself, `createCipheriv`/`createDecipheriv` and `Buffer` hex decoding: the cipher is an oracle. A key of the wrong length shows up only as a `seal` that fails.
- The AI provider SDKs and their network calls, retries and timeouts: the SDKs are oracles.
- The JSON grammar, `JSON.parse` and `JSON.stringify`: parsing is an oracle, and a log row stores the analysis value itself instead of its serialised text.
- Non-JSON request bodies, whose `request.json()` throw the catch blocks answer: bodies are modelled as already-parsed optional strings. JSON values other than strings in body fields, and a JSON `null` sent to `PUT`, are not modelled.
- The HTML bodies of the alert and test mails, and the transport options (host, port, timeouts): mail is modelled as the account, sender, recipient and subject handed to the transport.
- The outcome of the ingest alert send: its failure is caught and ignored, so the model records only the hand-over. The alert's HTML is not built, but its ways to throw are modelled (`Ingest.AlertRenders`): reading properties of a `null` analysis, and converting an interpolated property that is an object owning a `toString` member, or an array holding one. No mail is handed over then.
- Row order of `findMany` and `findFirst` without `orderBy`: the database promises none. `Encryption.FindIn`, `Ingest.FirstWithPlainCredentials`, `ProjectLogs.FindOwned` and `Migration.MigrateCredentials` read rows in table order, so "first" means first in the table, a model choice.
- Database read failures (`findMany`, `findFirst` throwing): the `GET` catch blocks that answer `Failed to fetch …` are not modelled. Only inserts and the update or delete of a missing row carry failures.
- Database write failures in the migration script: `project.update` is assumed to succeed.
- The `updatedAt` column, the database's cascade rules on delete, and Prisma's validation of the `llmType` enum: the insert's outcome is an input, so an enum rejection appears as a failed insert.
- ProjectRoute.Post: requires that the database's generated id is new to the table, since a key generator guarantees this.
- String lengths and positions count code points, not UTF-16 code units, so `substring(0, 1000)`, the `length <= 10` test of the mask and `slice(-6)` differ for characters outside the Basic Multilingual Plane.
- The alert subject's emoji, mis-encoded in the source, is kept as the four characters the source text holds.
- `verifyApiKey`: a `jsonwebtoken` wrapper.
- The trial-mail routes, `mailerSM`, the send-email route and the Prisma client set-up: I/O with no decisions.
- Authentication by the identity provider: the signed-in user is an input.
- The dashboard UI, console logging and `process.exit`.
