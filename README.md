# Analysis-request lifecycle, modelled in Dafny

This project models the core of an HTTP API. A client submits a short
profile (name, age, description). The API stores an *analysis record* as
`pending` in a key-value store with a time-to-live, and asks a delayed
message queue to call its webhook later. When the webhook is called, it
runs a generative-AI analysis and writes the record as `completed` or
`failed`. The client polls the status endpoint with the request id.

The modules follow the source files:

| module | file | models |
|---|---|---|
| `Values` | values.dfy | JavaScript values the code inspects: `undefined` (Option), parsed JSON, thrown values, `Number(...)` |
| `Schemas` | schemas.dfy | `packages/shared/schemas.ts`: input bounds, the status enum, the result shape; also the order of statuses in the lifecycle |
| `Http` | http.dfy | `apps/api/src/lib/http.ts` |
| `ErrorHandler` | error_handler.dfy | `apps/api/src/middleware/error-handler.ts` |
| `Logger` | logger.dfy | `apps/api/src/lib/logger.ts` |
| `Redis` | redis.dfy | `apps/api/src/services/redis.ts`: the record, the key, the TTL, the merge patch, and the class `RecordStore` |
| `Effects` | effects.dfy | the ordered calls a handler makes to the store, the generator and the queue |
| `WebhookController` | webhook_controller.dfy | `apps/api/src/controllers/webhook.controller.ts` |
| `AnalyzeController` | analyze_controller.dfy | `apps/api/src/controllers/analyze.controller.ts` |
| `Lifecycle` | lifecycle.dfy | properties that span both controllers |

How the model is built:

- **The store.** `RecordStore` is a class with three fields: a
  `map<string, AnalysisRecord>` keyed by `analysis:<id>`, a TTL per key, and
  the configured TTL. `Get` only reads the records map. `Save` and `Update`
  change both maps in place. Each method is proved equal to a pure function
  on the map: `Lookup`, `Put` and `Updated`.
- **The two writing handlers.** `HandleWebhook` and `CreateAnalysis` are
  methods that modify the store step by step, as the source does. Each returns
  its HTTP response and a *trace*, the ordered list of calls it made to outside
  services. A `StoreWrite` in the trace is a write that landed; a save the
  store refused is a `RefusedWrite`. Each handler is proved equal to a pure
  run function (`WebhookRun`, `CreateRun`). The steps from the claim on, and
  from the save on, are methods of their own (`ProcessPending`,
  `SubmitRecord`), proved equal to `Process` and `Submit`. Each handler's new TTL map is
  `TtlAfter` of its trace: every landed write resets its key to the full
  window, and nothing else changes a TTL. The properties are then proved as
  lemmas about those functions.
- **External effects.** Every external effect is an input. The signature
  check is a boolean function of (signature, body, URL). `JSON.parse` is a
  function that returns `None` where it would throw. The generator's outcome,
  every store or queue failure, the clock and the fresh id are fields of an
  *oracle* value passed to each handler.
- **Uncaught exceptions.** An exception the handler does not catch is
  answered by `GlobalErrorHandler`, as the application's `onError` hook does.

Behaviour the model makes explicit:

- **Null webhook body.** A body that parses to JSON `null` makes the handler
  read `requestId` of `null`. That throws a `TypeError`, which becomes a 500
  from the global handler rather than a 400.
- **Lost failed-write.** If the write that marks a record `failed` itself
  fails, the record stays `processing` (`FailedMarkLostLeavesProcessing`).
  Every later delivery then answers "Already processing", so that record never
  becomes terminal. A delivery attempt therefore does not guarantee that the
  record ends `completed` or `failed`.
- **Failed completed-write.** A store failure on the `completed` write is
  caught by the same `catch` as a generator failure. The record is then marked
  `failed` with the store's error message, even though the generator succeeded
  (`CompletionWriteFailureMarksFailed`).
- **Unknown record.** A delivery for an unknown record is answered 404, and
  the store is left unchanged.
- **Failed enqueue.** If the enqueue fails and the recovery patch also fails,
  the record stays `pending` and the answer is still the original 500
  (`RecoveryFailureSwallowed`).

## Model

| member | source | states |
|---|---|---|
| `Schemas.ParseStatus` | packages/shared/schemas.ts:9-14 | a string parses to a status iff it is one of the four names `pending`, `processing`, `completed`, `failed`, and the parsed status has that name |
| `Schemas.StatusNameRoundTrip` | packages/shared/schemas.ts:9-14 | every status's name parses back to that status |
| `Schemas.ForwardIsOrder` | apps/api/src/controllers/webhook.controller.ts:83-121 | the lifecycle order is reflexive, transitive and antisymmetric; a terminal status moves to no other; nothing moves back to pending |
| `Schemas.NoIssuesIffConforms` | packages/shared/schemas.ts:3-7 | the per-field issue list is empty exactly when the body meets every bound of the input schema |
| `Schemas.InputIssues` | packages/shared/schemas.ts:3-7 | a body that is not an object has the one issue "expected object" at the root; for an object, every issue names exactly one of `name`, `age` and `description` |
| `Schemas.ValidateInput` | packages/shared/schemas.ts:3-7 | input is accepted iff it is an object with 1 ≤ \|name\| ≤ 100, an integer age in [0, 120] and 1 ≤ \|description\| ≤ 500; accepted data carries exactly those three values; a rejection carries at least one issue |
| `Schemas.AgeBoundaries` | packages/shared/schemas.ts:5 | ages 0 and 120 are accepted; -1, 121 and 27.5 are rejected |
| `Schemas.LengthBoundaries` | packages/shared/schemas.ts:4-6 | a 500-character description is accepted, a 501-character one is rejected, and an empty name or an empty description is rejected |
| `Schemas.PathJson` | apps/api/src/controllers/analyze.controller.ts:22 | an issue path becomes a JSON array of the same length holding each key as a string |
| `Schemas.IssuesJson` | apps/api/src/controllers/analyze.controller.ts:22 | the issues become a JSON array of the same length, one issue object per issue, in order |
| `Schemas.Coalesce` | apps/api/src/controllers/analyze.controller.ts:79-80 | `v ?? null` is never absent and keeps any present value |
| `Schemas.NullableField` | packages/shared/schemas.ts:19-20 | a `result` or `error` key passes iff it is missing, null or a string |
| `Schemas.ValidateResult` | packages/shared/schemas.ts:16-21 | a result passes iff `requestId` is a string, `status` is one of the four names, and `result` and `error` are each a string, null or absent; the parsed value keeps the id, the status name, and the `result` and `error` values as read |
| `Http.GetErrorMessage` | apps/api/src/lib/http.ts:4-5 | an `Error`'s message, "Unknown error" for any other thrown value |
| `Http.JsonError` | apps/api/src/lib/http.ts:7-18 | the response has exactly the given status; the payload always has `message`, has `details` iff details are defined, and has no other key |
| `Http.ParseJsonBody` | apps/api/src/lib/http.ts:20-27 | a body that parses yields its data; otherwise the result is a 400 "Invalid JSON body" response |
| `ErrorHandler.IsValidStatusCode` | apps/api/src/middleware/error-handler.ts:10-12 | a status code is valid iff 100 ≤ code < 600 (a definition, used by every `GetStatusCode` clause) |
| `ErrorHandler.GetStatusCode` | apps/api/src/middleware/error-handler.ts:10-29 | the code is always in [100, 600); it is the error's own status when that is valid (for an `HTTPException`, or for an `Error` with a defined `status`), and 500 in every other case |
| `ErrorHandler.HandlerMessage` | apps/api/src/middleware/error-handler.ts:39 | an `Error`'s message, "Internal server error" for any other thrown value |
| `ErrorHandler.GlobalErrorHandler` | apps/api/src/middleware/error-handler.ts:31-42 | the answer's status is the selected code, always valid, and its payload is exactly `{message}` |
| `ErrorHandler.HandlerMessageAgreesForErrors` | apps/api/src/middleware/error-handler.ts:39 | the handler's message equals `getErrorMessage` exactly for `Error` values |
| `Logger.IndexOf` | apps/api/src/lib/logger.ts:14 | `indexOf` gives -1 iff the element is absent, and otherwise the first position holding it |
| `Logger.IndexOfLevel` | apps/api/src/lib/logger.ts:13-14 | a level's position in `levels` is its severity: debug 0, info 1, warn 2, error 3 |
| `Logger.ToLower` | apps/api/src/lib/logger.ts:4 | lower-casing keeps the length and maps each ASCII capital letter to its lower-case letter |
| `Logger.ToUpper` | apps/api/src/lib/logger.ts:23 | upper-casing keeps the length and maps each ASCII small letter to its capital |
| `Logger.LowerOfUpper` | apps/api/src/lib/logger.ts:4 | lower-casing undoes upper-casing on a lower-case word |
| `Logger.LevelNamed` | apps/api/src/lib/logger.ts:6 | a level name selects the level of that name |
| `Logger.GetLogLevel` | apps/api/src/lib/logger.ts:3-9 | when `LOG_LEVEL` lower-cases to a level name, that level is used; otherwise the level is info under `NODE_ENV=production` and debug otherwise |
| `Logger.LevelNameAnyCase` | apps/api/src/lib/logger.ts:4-6 | any spelling of a level name that lower-cases to it selects that level |
| `Logger.UpperCaseLevelSelects` | apps/api/src/lib/logger.ts:4-6 | the upper-case spelling of a level name selects that level |
| `Logger.ShouldLog` | apps/api/src/lib/logger.ts:11-15 | a message is emitted iff its severity is at least the configured level's |
| `Logger.ErrorAlwaysEmitted` | apps/api/src/lib/logger.ts:11-15 | error-level messages are emitted under every configuration |
| `Logger.ShouldLogMonotone` | apps/api/src/lib/logger.ts:11-15 | if a level is emitted, then every more severe level is emitted too |
| `Logger.FormatMessage` | apps/api/src/lib/logger.ts:21-29 | the line starts with `[timestamp] [LEVEL]` and then has the message; the serialised meta is appended iff meta is defined |
| `Logger.LevelTags` | apps/api/src/lib/logger.ts:23 | the level tags are DEBUG, INFO, WARN and ERROR |
| `Logger.Log` | apps/api/src/lib/logger.ts:32-48 | debug, info and warn emit the formatted line iff the level passes the filter |
| `Logger.SpreadObject` | apps/api/src/lib/logger.ts:52 | `{...meta}` for an object meta gives its keys and values; an undefined meta gives no keys (a definition) |
| `Logger.ErrorMeta` | apps/api/src/lib/logger.ts:52-62 | `errorMeta` copies every key of the meta object; `error` is set to `{name, message, stack}` for an `Error` (overriding any copied `error`), to the raw value for any other defined value, and left as copied for `undefined` |
| `Logger.LogError` | apps/api/src/lib/logger.ts:50-66 | `logger.error` always emits, and always with the `errorMeta` object appended |
| `Redis.AnalysisKey` | apps/api/src/services/redis.ts:16 | the key is `analysis:` followed by the id |
| `Redis.AnalysisKeyInjective` | apps/api/src/services/redis.ts:16 | two ids share a key iff they are equal |
| `Redis.GetTtlSeconds` | apps/api/src/services/redis.ts:18-21 | the TTL is always positive; it is the configured number when that is finite and > 0, and 3600 otherwise, including when the variable is unset |
| `Redis.Lookup` | apps/api/src/services/redis.ts:28-29 | a record is found iff its key `analysis:<id>` is stored, and it is the record stored there |
| `Redis.Put` | apps/api/src/services/redis.ts:23-26 | after a save, the record is found under its own id, the key set gains only that key, and every other key is unchanged |
| `Redis.Merge` | apps/api/src/services/redis.ts:38-43 | the merged record always has the argument id as `requestId` and `now` as `updatedAt` |
| `Redis.MergeFields` | apps/api/src/services/redis.ts:38-43 | each field the patch names is applied, and each field it leaves out (such as `input` and `createdAt`) is kept |
| `Redis.MergeIgnoresPinnedKeys` | apps/api/src/services/redis.ts:38-43 | a `requestId` or `updatedAt` value carried in the patch has no effect |
| `Redis.Updated` | apps/api/src/services/redis.ts:31-47 | a store failure throws and writes nothing; a missing id returns null and leaves the store unchanged; otherwise the returned record is the merge, and reading the id back gives it; no key is ever added or removed, and no other key changes |
| `Redis.UpdatedKeepsKeysMatch` | apps/api/src/services/redis.ts:45 | the patched record is saved back under the key it was read from |
| `Redis.RecordStore.constructor` | apps/api/src/services/redis.ts:14-21 | an empty store with the configured TTL |
| `Redis.RecordStore.Get` | apps/api/src/services/redis.ts:28-29 | a failing read throws; otherwise the result is the record under `analysis:<id>`, if any |
| `Redis.RecordStore.Save` | apps/api/src/services/redis.ts:23-26 | the record overwrites its key and the key's TTL is reset to the full window; a failing write changes nothing |
| `Redis.RecordStore.Update` | apps/api/src/services/redis.ts:31-47 | the new contents and the returned record are those of `Updated`; the TTL is refreshed exactly when a record was written |
| `Effects.TtlAfterUpdate` | apps/api/src/services/redis.ts:35-45 | after an `updateAnalysis`, the record's key has the full TTL exactly when the update wrote, and no other TTL changes |
| `Effects.TtlAfterSpec` | apps/api/src/services/redis.ts:23-26 | after any run of calls, each key written holds the full TTL, each key not written keeps its TTL, and the written keys are the only ones added |
| `Effects.UpdateEffects` | apps/api/src/services/redis.ts:35-45 | an update reads the record's key first; it then writes the merged record back under that key exactly when it returned a record, and makes no other call |
| `WebhookController.RequestIdOf` | apps/api/src/controllers/webhook.controller.ts:61-73 | reading `requestId` throws only for a null payload; an id is taken only from a non-empty string `requestId`, and such a `requestId` is always taken |
| `WebhookController.CheckRequest` | apps/api/src/controllers/webhook.controller.ts:17-73 | a missing signature is answered 401 before anything else; a delivery proceeds with id `x` iff it has a signature, both signing keys, a configured URL, a signature valid for the body and the configured URL, and a body that parses to an object whose `requestId` is the non-empty string `x` |
| `WebhookController.IncomingUrlIgnored` | apps/api/src/controllers/webhook.controller.ts:33-49 | the URL the delivery arrived on does not change the outcome; only the configured URL is verified |
| `WebhookController.ConfigurationGuards` | apps/api/src/controllers/webhook.controller.ts:26-37 | missing signing keys give 500 with the receiver's message; a missing webhook URL gives 500 "Server configuration error" |
| `WebhookController.InvalidSignatureRejected` | apps/api/src/controllers/webhook.controller.ts:45-57 | a signature that fails verification is answered 401 "Invalid signature", whatever the body is |
| `WebhookController.BodyGuards` | apps/api/src/controllers/webhook.controller.ts:61-73 | an unparsable body gives 400 "Invalid JSON body"; a missing or empty `requestId` gives 400 "Missing requestId"; a null payload gives 500 |
| `WebhookController.MarkFailed` | apps/api/src/controllers/webhook.controller.ts:114-122 | the `catch` branch answers 500 with the caught error's message and stores the record failed with that message and a null result; if that write fails, the global handler answers and nothing changes; only the record's key is touched, and the generator is not called |
| `WebhookController.Process` | apps/api/src/controllers/webhook.controller.ts:99-122 | processing adds or removes no key and changes only its own; every call goes to the record's key or the generator; a failed claim makes only the read; a landed claim is followed by exactly read, claim write, generator call |
| `WebhookController.ProcessPending` | apps/api/src/controllers/webhook.controller.ts:99-122 | the claim-onward steps, run on the store, give the response, records and calls of `Process`; the new TTL map is `TtlAfter` of those calls |
| `WebhookController.WebhookRun` | apps/api/src/controllers/webhook.controller.ts:17-124 | a delivery makes a call iff it passes the guards; its first call is the read of its record's key; every store call goes to that key, and it never publishes |
| `WebhookController.HandleWebhook` | apps/api/src/controllers/webhook.controller.ts:17-124 | the response, the new records and the calls made are those of `WebhookRun`; the new TTL map is `TtlAfter` of those calls; the store invariant is kept |
| `WebhookController.RejectedDeliveryTouchesNothing` | apps/api/src/controllers/webhook.controller.ts:17-73 | a delivery stopped by a guard makes no store call and no generator call |
| `WebhookController.UnknownRecordNotFound` | apps/api/src/controllers/webhook.controller.ts:77-81 | an unknown id is answered 404 "Not found" after one read, and the store is unchanged |
| `WebhookController.TerminalRecordUntouched` | apps/api/src/controllers/webhook.controller.ts:83-89 | a completed or failed record is answered 200 `{ok: true, message: "Already processed"}` after one read, with no write and no generator call |
| `WebhookController.ProcessingRecordUntouched` | apps/api/src/controllers/webhook.controller.ts:91-97 | a processing record is answered 200 `{ok: true, message: "Already processing"}` after one read, with no write and no generator call |
| `WebhookController.RunOfPending` | apps/api/src/controllers/webhook.controller.ts:77-99 | a delivery that reads its record without fault and finds it pending is that read followed by the processing steps, with their response and records |
| `WebhookController.GeneratorOnlyForPending` | apps/api/src/controllers/webhook.controller.ts:77-104 | a delivery that calls the generator passed the guards, read without a fault, and found its record pending |
| `WebhookController.GeneratorOnlyAfterClaim` | apps/api/src/controllers/webhook.controller.ts:99-104 | the generator is called at most once, only for a record found pending, and only after the write that sets the record to `processing` has landed; it is given the record's input |
| `WebhookController.ProcessGeneratesOnce` | apps/api/src/controllers/webhook.controller.ts:99-104 | within the processing of a found record, the only generator call is the third call, and only when the claim landed |
| `WebhookController.PendingRecordCompletes` | apps/api/src/controllers/webhook.controller.ts:104-113 | on success the record ends `completed` with `result` = the text, `error` = null and the other fields kept; the answer is 200 `{ok: true}`; no other record changes |
| `WebhookController.GeneratorFailureMarksFailed` | apps/api/src/controllers/webhook.controller.ts:114-122 | on generator failure the record ends `failed` with `error` = the message and `result` = null; the answer is 500 with that message; no other record changes |
| `WebhookController.CompletionWriteFailureMarksFailed` | apps/api/src/controllers/webhook.controller.ts:102-122 | a failing `completed` write is caught: the record ends `failed` with the store's message, and the answer is 500 |
| `WebhookController.FailedMarkLostLeavesProcessing` | apps/api/src/controllers/webhook.controller.ts:114-122 | when the `failed` write itself fails, the global handler answers and the record stays `processing` |
| `WebhookController.DeliveryOnlyAdvancesPending` | apps/api/src/controllers/webhook.controller.ts:77-123 | a delivery never adds or removes a record, changes only a record it found pending, and so moves every status only forward |
| `WebhookController.DeliveryTtlFrame` | apps/api/src/controllers/webhook.controller.ts:17-124 | a rejected delivery changes no TTL; no delivery changes the TTL of any key but its own record's |
| `WebhookController.ClaimRefreshesTtl` | apps/api/src/controllers/webhook.controller.ts:99 | once the claim of a pending record lands, the record's key holds the full TTL after the delivery |
| `AnalyzeController.NewRecord` | apps/api/src/controllers/analyze.controller.ts:31-39 | the new record is pending with the given id and input, null result and error, and `createdAt` = `updatedAt` |
| `AnalyzeController.CreateAnalysis` | apps/api/src/controllers/analyze.controller.ts:9-57 | the response, the new records and the calls made are those of `CreateRun`; the new TTL map is `TtlAfter` of those calls; the store invariant is kept |
| `AnalyzeController.CreateRun` | apps/api/src/controllers/analyze.controller.ts:9-57 | a creation answers 200 iff the body parses, meets the input schema, and the save and the enqueue both succeed; otherwise it answers 400 or 500; it writes no key but the fresh id's |
| `AnalyzeController.Submit` | apps/api/src/controllers/analyze.controller.ts:25-56 | once the input is valid, the answer is 200 iff the save and the enqueue both succeed, otherwise 500; only the fresh id's key is written |
| `AnalyzeController.SubmitRecord` | apps/api/src/controllers/analyze.controller.ts:25-56 | the save-and-enqueue steps, run on the store, give the response, records and calls of `Submit`; the new TTL map is `TtlAfter` of those calls |
| `AnalyzeController.UnparsableBodyStoresNothing` | apps/api/src/controllers/analyze.controller.ts:10-14 | an unparsable body is answered 400 "Invalid JSON body" with no store call and no enqueue |
| `AnalyzeController.InvalidInputStoresNothing` | apps/api/src/controllers/analyze.controller.ts:16-23 | input that fails the schema is answered 400 "Invalid input" with the issues as `details`, with no store call and no enqueue |
| `AnalyzeController.ValidInputStoredPending` | apps/api/src/controllers/analyze.controller.ts:25-56 | on success the fresh id's record is pending with the parsed input, null result and error and equal timestamps; only that key is added; the calls are the save and then the enqueue; the answer is `{requestId}` |
| `AnalyzeController.EnqueueOnlyAfterSave` | apps/api/src/controllers/analyze.controller.ts:30-43 | a request that enqueues a job had a parsable body that met the schema, and its save landed |
| `AnalyzeController.SavedBeforeEnqueue` | apps/api/src/controllers/analyze.controller.ts:31-43 | the enqueue is attempted at most once, only after a successful save of the pending record under the fresh id |
| `AnalyzeController.EnqueueFailureMarksFailed` | apps/api/src/controllers/analyze.controller.ts:46-54 | when the enqueue fails, the saved record is patched to `failed` with the error's message; the answer is 500 with that message |
| `AnalyzeController.RecoveryFailureSwallowed` | apps/api/src/controllers/analyze.controller.ts:49-53 | a failing recovery patch is swallowed: the answer is still 500 with the original message, and the record stays pending |
| `AnalyzeController.SaveFailureCreatesNothing` | apps/api/src/controllers/analyze.controller.ts:46-54 | a failed save leaves the store unchanged even after the recovery patch, nothing is enqueued, and the answer is 500 with the save's message |
| `AnalyzeController.CreateTouchesOnlyFreshKey` | apps/api/src/controllers/analyze.controller.ts:25-54 | creation removes no record and changes no key except the fresh id's |
| `AnalyzeController.CreateTtl` | apps/api/src/controllers/analyze.controller.ts:25-54 | creation changes no TTL but the fresh key's, and a save that lands gives the fresh key the full TTL |
| `AnalyzeController.StatusBody` | apps/api/src/controllers/analyze.controller.ts:76-81 | the status report has exactly the keys `requestId`, `status`, `result` and `error`, and it passes the result schema as the record's id and status with `result ?? null` and `error ?? null` |
| `AnalyzeController.GetAnalysisStatus` | apps/api/src/controllers/analyze.controller.ts:59-86 | a failing read gives 500 with the message; an unknown id gives 404 "Not found"; otherwise 200 with the record's `StatusBody`, which has exactly the keys `requestId`, `status`, `result` and `error` and passes the result schema with `result` and `error` as `?? null` |
| `Lifecycle.CreatedThenReportedPending` | apps/api/src/controllers/analyze.controller.ts:31-39 | right after a successful creation the status endpoint reports `{requestId, status: "pending", result: null, error: null}` |
| `Lifecycle.DeliveredThenReportedCompleted` | apps/api/src/controllers/webhook.controller.ts:99-113 | after a fault-free delivery to a pending record, the status endpoint reports `completed` with the generated text and a null error |
| `Lifecycle.RedeliveryAfterTerminalIsNoOp` | apps/api/src/controllers/webhook.controller.ts:83-89 | after a delivery that left the record terminal, a repeat delivery answers "Already processed" and makes no write and no generator call |
| `Lifecycle.SubmitDeliverPoll` | apps/api/src/controllers/webhook.controller.ts:99-113 | for a sample profile: after submission, polling reports it pending; after a validly signed delivery whose generator succeeds, polling reports it completed with the generated text and a null error |
| `Lifecycle.ApplyMovesForward` | apps/api/src/controllers/webhook.controller.ts:83-121 | one request with a fresh id removes no record, moves every status forward and leaves terminal records unchanged |
| `Lifecycle.ReplayMovesForward` | apps/api/src/controllers/webhook.controller.ts:83-121 | over any sequence of submissions with fresh ids and deliveries, no record disappears, statuses move only forward, and a terminal record is never changed again |

## Left out

- Concurrency is left out. Deliveries and requests are handled one at a time,
  so the race between two near-simultaneous deliveries that both read
  `pending` is not modelled.
- The Redis/Upstash client and real TTL expiry are left out. The TTL is a
  number stored per key; every save resets it, and it never counts down.
- `Receiver.verify` is a boolean function of (signature, body, URL). Its
  cryptography is not modelled. The case where the library throws instead of
  returning false is not modelled either.
- `generateAnalysis` and `enqueueAnalysis` (OpenAI and QStash adapters) are
  oracle outcomes. The adapters' own environment checks, and the generator's
  promise of non-empty trimmed text, are folded into those outcomes.
- `JSON.parse`, `c.req.json()` and `JSON.stringify` are function parameters.
  They are foreign serialisation code.
- `randomUUID` and `new Date().toISOString()` are oracle fields. That a fresh
  id is not already stored is a lemma hypothesis, not a property of the code.
- Redis.RecordStore.Update: a store failure is one fault per `updateAnalysis`
  call, and the call then writes nothing. A failure between its read and its
  write is not told apart from a failure of the read.
- WebhookController.MarkFailed: the `failed` write uses the same clock
  reading as the failed `completed` write before it. That `completed` write
  never lands, so no stored timestamp depends on this.
- WebhookController.RequestIdOf: a truthy `requestId` that is not a string
  (a number, `true`, an object) is treated as missing. The source would turn
  it into a string and look up that key.
- Schemas.ValidateInput: `z.coerce.number()` coercion of strings, booleans or
  null into numbers is not modelled. Only a JSON number is accepted as an age.
  Lengths count characters, not UTF-16 code units.
- Schemas.IssuesJson: a zod issue carries only its code and path here. Its
  message and expected/received fields are left out.
- Logger.ToLower and Logger.ToUpper apply the ASCII case mapping only.
  Characters outside ASCII cannot lower-case to one of the four level names,
  so level matching is unaffected.
- Logger.SpreadObject: spreading a string or an array `meta` gives index keys
  in the source but no keys here. No caller passes one.
- The console output of the logger is returned as the line it would print.
  The log calls inside the handlers do not change any state, so they are not
  part of the handler models.
- Numeric statuses are integers here. A fractional `status` on an error is
  not modelled.
- Not modelled, as they are not part of the lifecycle:
  - the frontend;
  - the superseded route files `apps/api/src/routes/analyze.ts` and
    `apps/api/src/routes/webhook.ts`, which are not mounted;
  - route registration, CORS, server start-up and the request-timing
    middleware;
  - `packages/shared/types.ts`.
