/**
 * The queue's callback: a chain of guards on the delivery, an idempotency
 * check on the record's status, and for a pending record the claim write,
 * one generator call and the terminal write.
 */
module WebhookController {
  import opened Values
  import opened Schemas
  import opened Http
  import opened ErrorHandler
  import opened Redis
  import opened Effects

  /** What the handler reads from the delivery. */
  datatype WebhookRequest = WebhookRequest(signature: Option<string>, body: string, url: string)

  /** The environment variables the handler reads. */
  datatype WebhookConfig = WebhookConfig(
    currentSigningKey: Option<string>,
    nextSigningKey: Option<string>,
    webhookUrl: Option<string>)

  /** The `TypeError` thrown by reading `requestId` of a `null` payload. */
  const NULL_PAYLOAD_ERROR := PlainError("TypeError", "Cannot read properties of null (reading 'requestId')", None, None)

  /** `payload.requestId`, and None where `!requestId` holds. */
  function RequestIdOf(payload: Json): (r: Result<Option<string>, Thrown>)
    ensures r.Err? <==> payload.JNull?
    ensures r.Ok? && r.value.Some? ==>
              payload.JObj? && "requestId" in payload.fields && payload.fields["requestId"] == JStr(r.value.value) &&
              r.value.value != ""
    ensures payload.JObj? && "requestId" in payload.fields && payload.fields["requestId"].JStr? &&
            payload.fields["requestId"].s != "" ==>
              r == Ok(Some(payload.fields["requestId"].s))
  {
    match payload
    case JNull => Err(NULL_PAYLOAD_ERROR)
    case JObj(f) =>
      if "requestId" in f && f["requestId"].JStr? && f["requestId"].s != "" then Ok(Some(f["requestId"].s))
      else Ok(None)
    case _ => Ok(None)
  }

  /** Where the guard chain ends: an early answer, or the id to process. */
  datatype Guard = Stop(response: Response) | Proceed(requestId: string)

  /**
   * The guards of `handleWebhook` before the store is read. `verify` plays
   * `Receiver.verify` on (signature, body, url); `parse` plays `JSON.parse`.
   */
  function CheckRequest(req: WebhookRequest, config: WebhookConfig,
                        verify: (string, string, string) -> bool, parse: string -> Option<Json>): (g: Guard)
    ensures !Truthy(req.signature) ==> g == Stop(JsonError(401, "Missing signature", None))
    ensures g.Proceed? ==>
              Truthy(req.signature) && Truthy(config.currentSigningKey) && Truthy(config.nextSigningKey) &&
              Truthy(config.webhookUrl) && verify(req.signature.value, req.body, config.webhookUrl.value) &&
              parse(req.body).Some? && RequestIdOf(parse(req.body).value) == Ok(Some(g.requestId)) &&
              g.requestId != ""
    ensures Truthy(req.signature) && Truthy(config.currentSigningKey) && Truthy(config.nextSigningKey) &&
            Truthy(config.webhookUrl) && verify(req.signature.value, req.body, config.webhookUrl.value) &&
            parse(req.body).Some? && RequestIdOf(parse(req.body).value).Ok? &&
            RequestIdOf(parse(req.body).value).value.Some? ==>
              g == Proceed(RequestIdOf(parse(req.body).value).value.value)
  {
    if !Truthy(req.signature) then Stop(JsonError(401, "Missing signature", None))
    else if !Truthy(config.currentSigningKey) || !Truthy(config.nextSigningKey) then
      Stop(JsonError(500, "QSTASH signing keys are required", None))
    else if !Truthy(config.webhookUrl) then Stop(JsonError(500, "Server configuration error", None))
    else if !verify(req.signature.value, req.body, config.webhookUrl.value) then
      Stop(JsonError(401, "Invalid signature", None))
    else match parse(req.body)
      case None => Stop(JsonError(400, "Invalid JSON body", None))
      case Some(payload) =>
        match RequestIdOf(payload)
        case Err(e) => Stop(GlobalErrorHandler(e))
        case Ok(None) => Stop(JsonError(400, "Missing requestId", None))
        case Ok(Some(requestId)) => Proceed(requestId)
  }

  /** The URL the delivery arrived on plays no part: only the configured one is verified. */
  lemma IncomingUrlIgnored(req: WebhookRequest, incoming: string, config: WebhookConfig,
                           verify: (string, string, string) -> bool, parse: string -> Option<Json>)
    ensures CheckRequest(req.(url := incoming), config, verify, parse) == CheckRequest(req, config, verify, parse)
  {
  }

  lemma ConfigurationGuards(req: WebhookRequest, config: WebhookConfig,
                            verify: (string, string, string) -> bool, parse: string -> Option<Json>)
    requires Truthy(req.signature)
    ensures !(Truthy(config.currentSigningKey) && Truthy(config.nextSigningKey)) ==>
              CheckRequest(req, config, verify, parse) == Stop(JsonError(500, "QSTASH signing keys are required", None))
    ensures Truthy(config.currentSigningKey) && Truthy(config.nextSigningKey) && !Truthy(config.webhookUrl) ==>
              CheckRequest(req, config, verify, parse) == Stop(JsonError(500, "Server configuration error", None))
  {
  }

  /** A signature that fails verification is answered 401 whatever the body would parse to. */
  lemma InvalidSignatureRejected(req: WebhookRequest, config: WebhookConfig,
                                 verify: (string, string, string) -> bool, parse: string -> Option<Json>)
    requires Truthy(req.signature) && Truthy(config.currentSigningKey) && Truthy(config.nextSigningKey)
    requires Truthy(config.webhookUrl) && !verify(req.signature.value, req.body, config.webhookUrl.value)
    ensures CheckRequest(req, config, verify, parse) == Stop(JsonError(401, "Invalid signature", None))
  {
  }

  lemma BodyGuards(req: WebhookRequest, config: WebhookConfig,
                   verify: (string, string, string) -> bool, parse: string -> Option<Json>)
    requires Truthy(req.signature) && Truthy(config.currentSigningKey) && Truthy(config.nextSigningKey)
    requires Truthy(config.webhookUrl) && verify(req.signature.value, req.body, config.webhookUrl.value)
    ensures parse(req.body).None? ==>
              CheckRequest(req, config, verify, parse) == Stop(JsonError(400, "Invalid JSON body", None))
    ensures parse(req.body).Some? && RequestIdOf(parse(req.body).value) == Ok(None) ==>
              CheckRequest(req, config, verify, parse) == Stop(JsonError(400, "Missing requestId", None))
    ensures parse(req.body) == Some(JNull) ==>
              CheckRequest(req, config, verify, parse).response.status == 500
  {
  }

  // ---------------------------------------------------------------------------
  // Processing

  /** The outcomes of the external calls one delivery makes. */
  datatype Oracle = Oracle(
    readFault: Option<Thrown>,         // getAnalysis of the record
    claimFault: Option<Thrown>,        // updateAnalysis to processing
    generated: Result<string, Thrown>, // generateAnalysis
    finishFault: Option<Thrown>,       // updateAnalysis to completed
    failFault: Option<Thrown>,         // updateAnalysis to failed
    claimedAt: string,                 // clock at the claim write
    finishedAt: string)                // clock at the terminal write

  const CLAIM_PATCH := EMPTY_PATCH.(status := Some(Processing))

  function CompletePatch(text: string): Patch {
    EMPTY_PATCH.(status := Some(Completed), result := Some(Text(text)), error := Some(Null))
  }

  function FailPatch(message: string): Patch {
    EMPTY_PATCH.(status := Some(Failed), error := Some(Text(message)), result := Some(Null))
  }

  /** `{ok: true}` or `{ok: true, message}` */
  function OkBody(message: Option<string>): Json {
    var base := map["ok" := JBool(true)];
    JObj(if message.Some? then base["message" := JStr(message.value)] else base)
  }

  /**
   * The `catch` branch: mark the record failed with the caught error's
   * message. The trace holds the calls of this branch only.
   */
  function MarkFailed(records: Records, requestId: string, error: Thrown, o: Oracle): (out: Outcome)
    ensures o.failFault.None? ==> out.response == JsonError(500, GetErrorMessage(error), None)
    ensures o.failFault.Some? ==> out.response == GlobalErrorHandler(o.failFault.value) && out.records == records
    ensures o.failFault.None? && Lookup(records, requestId).Some? ==>
              Lookup(out.records, requestId).Some? &&
              Lookup(out.records, requestId).value.status == Failed &&
              Lookup(out.records, requestId).value.result == Null &&
              Lookup(out.records, requestId).value.error == Text(GetErrorMessage(error))
    ensures out.records.Keys == records.Keys
    ensures forall k | k in records && k != AnalysisKey(requestId) :: out.records[k] == records[k]
    ensures out.trace != [] && Confined(out.trace, AnalysisKey(requestId))
    ensures forall i | 0 <= i < |out.trace| :: !out.trace[i].Generate?
  {
    var message := GetErrorMessage(error);
    var marked := Updated(records, requestId, FailPatch(message), o.finishedAt, o.failFault);
    var t := UpdateEffects(requestId, marked.result);
    UpdateEffectsConfined(requestId, marked.result);
    if marked.result.Err? then Outcome(GlobalErrorHandler(marked.result.error), marked.records, t)
    else Outcome(JsonError(500, message, None), marked.records, t)
  }

  /**
   * The claim write, the generator call and the terminal write for a pending
   * record. The trace holds the calls made from the claim on.
   */
  function Process(records: Records, requestId: string, input: AnalyzeInput, o: Oracle): (out: Outcome)
    ensures out.records.Keys == records.Keys
    ensures forall k | k in records && k != AnalysisKey(requestId) :: out.records[k] == records[k]
    ensures Confined(out.trace, AnalysisKey(requestId))
    ensures o.claimFault.Some? ==> out.trace == [StoreRead(AnalysisKey(requestId))]
    ensures o.claimFault.None? && Lookup(records, requestId).Some? ==>
              |out.trace| >= 3 &&
              out.trace[..3] ==
                [StoreRead(AnalysisKey(requestId)),
                 StoreWrite(AnalysisKey(requestId), Merge(Lookup(records, requestId).value, CLAIM_PATCH, requestId, o.claimedAt)),
                 Generate(input)]
  {
    var claim := Updated(records, requestId, CLAIM_PATCH, o.claimedAt, o.claimFault);
    var claimed := UpdateEffects(requestId, claim.result);
    UpdateEffectsConfined(requestId, claim.result);
    if claim.result.Err? then Outcome(GlobalErrorHandler(claim.result.error), claim.records, claimed)
    else
      var called := claimed + [Generate(input)];
      ConfinedConcat(claimed, [Generate(input)], AnalysisKey(requestId));
      match o.generated
      case Ok(text) =>
        var done := Updated(claim.records, requestId, CompletePatch(text), o.finishedAt, o.finishFault);
        var finished := called + UpdateEffects(requestId, done.result);
        UpdateEffectsConfined(requestId, done.result);
        ConfinedConcat(called, UpdateEffects(requestId, done.result), AnalysisKey(requestId));
        if done.result.Ok? then Outcome(JsonBody(OkBody(None)), done.records, finished)
        else
          var failed := MarkFailed(done.records, requestId, done.result.error, o);
          ConfinedConcat(finished, failed.trace, AnalysisKey(requestId));
          Outcome(failed.response, failed.records, finished + failed.trace)
      case Err(e) =>
        var failed := MarkFailed(claim.records, requestId, e, o);
        ConfinedConcat(called, failed.trace, AnalysisKey(requestId));
        Outcome(failed.response, failed.records, called + failed.trace)
  }

  /** One delivery of the webhook against the store's contents `records`. */
  function WebhookRun(records: Records, req: WebhookRequest, config: WebhookConfig,
                      verify: (string, string, string) -> bool, parse: string -> Option<Json>, o: Oracle): (out: Outcome)
    ensures out.trace == [] <==> CheckRequest(req, config, verify, parse).Stop?
    ensures out.trace != [] ==> out.trace[0] == StoreRead(AnalysisKey(CheckRequest(req, config, verify, parse).requestId))
    ensures CheckRequest(req, config, verify, parse).Proceed? ==>
              Confined(out.trace, AnalysisKey(CheckRequest(req, config, verify, parse).requestId))
  {
    match CheckRequest(req, config, verify, parse)
    case Stop(response) => Outcome(response, records, [])
    case Proceed(requestId) =>
      var read := [StoreRead(AnalysisKey(requestId))];
      if o.readFault.Some? then Outcome(GlobalErrorHandler(o.readFault.value), records, read)
      else match Lookup(records, requestId)
        case None => Outcome(JsonError(404, "Not found", None), records, read)
        case Some(record) =>
          if IsTerminal(record.status) then Outcome(JsonBody(OkBody(Some("Already processed"))), records, read)
          else if record.status != Pending then Outcome(JsonBody(OkBody(Some("Already processing"))), records, read)
          else
            var processed := Process(records, requestId, record.input, o);
            ConfinedConcat(read, processed.trace, AnalysisKey(requestId));
            Outcome(processed.response, processed.records, read + processed.trace)
  }

  /**
   * The claim-onward part of `handleWebhook` for a record found pending;
   * `calls` are the calls made from the claim on, as in `Process`.
   */
  method ProcessPending(store: RecordStore, requestId: string, input: AnalyzeInput, o: Oracle)
    returns (response: Response, calls: seq<Effect>)
    requires store.Valid()
    modifies store
    ensures store.Valid()
    ensures response == Process(old(store.records), requestId, input, o).response
    ensures store.records == Process(old(store.records), requestId, input, o).records
    ensures calls == Process(old(store.records), requestId, input, o).trace
    ensures store.ttl == TtlAfter(old(store.ttl), calls, store.ttlSeconds)
  {
    var claim := store.Update(requestId, CLAIM_PATCH, o.claimedAt, o.claimFault);
    TtlAfterUpdate(old(store.ttl), [], requestId, claim, store.ttlSeconds);
    calls := UpdateEffects(requestId, claim);
    assert [] + calls == calls;
    if claim.Err? {
      return GlobalErrorHandler(claim.error), calls;
    }
    TtlAfterSnoc(old(store.ttl), calls, Generate(input), store.ttlSeconds);
    calls := calls + [Generate(input)];
    var caught: Option<Thrown> := None;
    match o.generated {
      case Ok(text) =>
        var done := store.Update(requestId, CompletePatch(text), o.finishedAt, o.finishFault);
        TtlAfterUpdate(old(store.ttl), calls, requestId, done, store.ttlSeconds);
        calls := calls + UpdateEffects(requestId, done);
        if done.Ok? {
          response := JsonBody(OkBody(None));
        } else {
          caught := Some(done.error);
        }
      case Err(e) =>
        caught := Some(e);
    }
    if caught.Some? {
      var message := GetErrorMessage(caught.value);
      var marked := store.Update(requestId, FailPatch(message), o.finishedAt, o.failFault);
      TtlAfterUpdate(old(store.ttl), calls, requestId, marked, store.ttlSeconds);
      calls := calls + UpdateEffects(requestId, marked);
      if marked.Err? {
        response := GlobalErrorHandler(marked.error);
      } else {
        response := JsonError(500, message, None);
      }
    }
  }

  /** `handleWebhook` */
  method HandleWebhook(store: RecordStore, req: WebhookRequest, config: WebhookConfig,
                       verify: (string, string, string) -> bool, parse: string -> Option<Json>, o: Oracle)
    returns (response: Response, trace: seq<Effect>)
    requires store.Valid()
    modifies store
    ensures store.Valid()
    ensures response == WebhookRun(old(store.records), req, config, verify, parse, o).response
    ensures store.records == WebhookRun(old(store.records), req, config, verify, parse, o).records
    ensures trace == WebhookRun(old(store.records), req, config, verify, parse, o).trace
    ensures store.ttl == TtlAfter(old(store.ttl), trace, store.ttlSeconds)
  {
    var guard := CheckRequest(req, config, verify, parse);
    if guard.Stop? {
      return guard.response, [];
    }
    var requestId := guard.requestId;
    trace := [StoreRead(AnalysisKey(requestId))];
    var found := store.Get(requestId, o.readFault);
    if found.Err? {
      return GlobalErrorHandler(found.error), trace;
    }
    if found.value.None? {
      return JsonError(404, "Not found", None), trace;
    }
    var record := found.value.value;
    if record.status == Completed || record.status == Failed {
      return JsonBody(OkBody(Some("Already processed"))), trace;
    }
    if record.status != Pending {
      return JsonBody(OkBody(Some("Already processing"))), trace;
    }

    var calls;
    response, calls := ProcessPending(store, requestId, record.input, o);
    TtlAfterAppend(old(store.ttl), trace, calls, store.ttlSeconds);
    trace := trace + calls;
  }

  // ---------------------------------------------------------------------------
  // Properties of one delivery

  lemma RejectedDeliveryTouchesNothing(records: Records, req: WebhookRequest, config: WebhookConfig,
                                       verify: (string, string, string) -> bool, parse: string -> Option<Json>,
                                       o: Oracle)
    requires CheckRequest(req, config, verify, parse).Stop?
    ensures var out := WebhookRun(records, req, config, verify, parse, o);
      out.response == CheckRequest(req, config, verify, parse).response &&
      out.records == records && out.trace == []
  {
  }

  lemma UnknownRecordNotFound(records: Records, req: WebhookRequest, config: WebhookConfig,
                              verify: (string, string, string) -> bool, parse: string -> Option<Json>,
                              o: Oracle, requestId: string)
    requires CheckRequest(req, config, verify, parse) == Proceed(requestId)
    requires o.readFault.None? && Lookup(records, requestId).None?
    ensures var out := WebhookRun(records, req, config, verify, parse, o);
      out.response == JsonError(404, "Not found", None) &&
      out.records == records && out.trace == [StoreRead(AnalysisKey(requestId))]
  {
  }

  /** The idempotency guard: a completed or failed record is answered without any write or generator call. */
  lemma TerminalRecordUntouched(records: Records, req: WebhookRequest, config: WebhookConfig,
                                verify: (string, string, string) -> bool, parse: string -> Option<Json>,
                                o: Oracle, requestId: string)
    requires CheckRequest(req, config, verify, parse) == Proceed(requestId)
    requires o.readFault.None? && Lookup(records, requestId).Some?
    requires IsTerminal(Lookup(records, requestId).value.status)
    ensures var out := WebhookRun(records, req, config, verify, parse, o);
      out.response == JsonBody(OkBody(Some("Already processed"))) &&
      out.records == records && out.trace == [StoreRead(AnalysisKey(requestId))]
  {
  }

  lemma ProcessingRecordUntouched(records: Records, req: WebhookRequest, config: WebhookConfig,
                                  verify: (string, string, string) -> bool, parse: string -> Option<Json>,
                                  o: Oracle, requestId: string)
    requires CheckRequest(req, config, verify, parse) == Proceed(requestId)
    requires o.readFault.None? && Lookup(records, requestId).Some?
    requires Lookup(records, requestId).value.status == Processing
    ensures var out := WebhookRun(records, req, config, verify, parse, o);
      out.response == JsonBody(OkBody(Some("Already processing"))) &&
      out.records == records && out.trace == [StoreRead(AnalysisKey(requestId))]
  {
  }

  /** A delivery that finds its record pending is the read followed by `Process`. */
  lemma RunOfPending(records: Records, req: WebhookRequest, config: WebhookConfig,
                     verify: (string, string, string) -> bool, parse: string -> Option<Json>,
                     o: Oracle, requestId: string)
    requires CheckRequest(req, config, verify, parse) == Proceed(requestId)
    requires o.readFault.None?
    requires Lookup(records, requestId).Some? && Lookup(records, requestId).value.status == Pending
    ensures var p := Process(records, requestId, Lookup(records, requestId).value.input, o);
      WebhookRun(records, req, config, verify, parse, o) ==
        Outcome(p.response, p.records, [StoreRead(AnalysisKey(requestId))] + p.trace)
  {
  }

  /** A delivery that calls the generator passed the guards and found its record pending. */
  lemma GeneratorOnlyForPending(records: Records, req: WebhookRequest, config: WebhookConfig,
                                verify: (string, string, string) -> bool, parse: string -> Option<Json>,
                                o: Oracle, i: nat)
    requires var out := WebhookRun(records, req, config, verify, parse, o);
      i < |out.trace| && out.trace[i].Generate?
    ensures CheckRequest(req, config, verify, parse).Proceed? && o.readFault.None?
    ensures var requestId := CheckRequest(req, config, verify, parse).requestId;
      Lookup(records, requestId).Some? && Lookup(records, requestId).value.status == Pending
  {
  }

  /**
   * The generator is called at most once per delivery, only for a record
   * found pending, and only after the claim write to processing has landed.
   */
  lemma GeneratorOnlyAfterClaim(records: Records, req: WebhookRequest, config: WebhookConfig,
                                verify: (string, string, string) -> bool, parse: string -> Option<Json>,
                                o: Oracle, i: nat)
    requires var out := WebhookRun(records, req, config, verify, parse, o);
      i < |out.trace| && out.trace[i].Generate?
    ensures i == 3
    ensures CheckRequest(req, config, verify, parse).Proceed?
    ensures var requestId := CheckRequest(req, config, verify, parse).requestId;
      var key := AnalysisKey(requestId);
      var out := WebhookRun(records, req, config, verify, parse, o);
      o.readFault.None? && o.claimFault.None? &&
      Lookup(records, requestId).Some? && Lookup(records, requestId).value.status == Pending &&
      |out.trace| >= 4 &&
      out.trace[..4] == [StoreRead(key), StoreRead(key),
                         StoreWrite(key, Merge(Lookup(records, requestId).value, CLAIM_PATCH, requestId, o.claimedAt)),
                         Generate(Lookup(records, requestId).value.input)]
  {
    GeneratorOnlyForPending(records, req, config, verify, parse, o, i);
    var requestId := CheckRequest(req, config, verify, parse).requestId;
    var record := Lookup(records, requestId).value;
    var processed := Process(records, requestId, record.input, o);
    var trace := WebhookRun(records, req, config, verify, parse, o).trace;
    RunOfPending(records, req, config, verify, parse, o, requestId);
    assert trace == [StoreRead(AnalysisKey(requestId))] + processed.trace;
    assert trace[i] == processed.trace[i - 1];
    ProcessGeneratesOnce(records, requestId, record.input, o, i - 1);
    assert trace[..4] == [StoreRead(AnalysisKey(requestId))] + processed.trace[..3];
  }

  /** Within `Process` the generator call is the third call, after the claim's read and write. */
  lemma ProcessGeneratesOnce(records: Records, requestId: string, input: AnalyzeInput, o: Oracle, j: nat)
    requires Lookup(records, requestId).Some?
    requires var out := Process(records, requestId, input, o);
      j < |out.trace| && out.trace[j].Generate?
    ensures j == 2 && o.claimFault.None?
  {
    var out := Process(records, requestId, input, o);
    var claim := Updated(records, requestId, CLAIM_PATCH, o.claimedAt, o.claimFault);
    assert o.claimFault.None?;
    var called := UpdateEffects(requestId, claim.result) + [Generate(input)];
    assert |called| == 3;
    match o.generated {
      case Ok(text) =>
        var done := Updated(claim.records, requestId, CompletePatch(text), o.finishedAt, o.finishFault);
        var finished := called + UpdateEffects(requestId, done.result);
        if done.result.Ok? {
          assert out.trace == finished;
        } else {
          var failed := MarkFailed(done.records, requestId, done.result.error, o);
          assert out.trace == finished + failed.trace;
        }
      case Err(e) =>
        var failed := MarkFailed(claim.records, requestId, e, o);
        assert out.trace == called + failed.trace;
    }
  }

  /** Success: the record ends completed with the generated text and no error. */
  lemma PendingRecordCompletes(records: Records, req: WebhookRequest, config: WebhookConfig,
                               verify: (string, string, string) -> bool, parse: string -> Option<Json>,
                               o: Oracle, requestId: string, text: string)
    requires CheckRequest(req, config, verify, parse) == Proceed(requestId)
    requires o.readFault.None? && o.claimFault.None? && o.finishFault.None? && o.generated == Ok(text)
    requires Lookup(records, requestId).Some? && Lookup(records, requestId).value.status == Pending
    ensures var out := WebhookRun(records, req, config, verify, parse, o);
      var record := Lookup(records, requestId).value;
      out.response == JsonBody(OkBody(None)) &&
      Lookup(out.records, requestId) ==
        Some(record.(requestId := requestId, status := Completed, result := Text(text), error := Null,
                     updatedAt := o.finishedAt)) &&
      out.records.Keys == records.Keys &&
      (forall k | k in records && k != AnalysisKey(requestId) :: out.records[k] == records[k])
  {
  }

  /** Generator failure: the record ends failed with the error's message and no result; 500. */
  lemma GeneratorFailureMarksFailed(records: Records, req: WebhookRequest, config: WebhookConfig,
                                    verify: (string, string, string) -> bool, parse: string -> Option<Json>,
                                    o: Oracle, requestId: string, e: Thrown)
    requires CheckRequest(req, config, verify, parse) == Proceed(requestId)
    requires o.readFault.None? && o.claimFault.None? && o.failFault.None? && o.generated == Err(e)
    requires Lookup(records, requestId).Some? && Lookup(records, requestId).value.status == Pending
    ensures var out := WebhookRun(records, req, config, verify, parse, o);
      var record := Lookup(records, requestId).value;
      out.response == JsonError(500, GetErrorMessage(e), None) &&
      Lookup(out.records, requestId) ==
        Some(record.(requestId := requestId, status := Failed, result := Null, error := Text(GetErrorMessage(e)),
                     updatedAt := o.finishedAt)) &&
      out.records.Keys == records.Keys &&
      (forall k | k in records && k != AnalysisKey(requestId) :: out.records[k] == records[k])
  {
  }

  /**
   * A store failure on the completed write is caught like a generator
   * failure: the record is marked failed with the store's message.
   */
  lemma CompletionWriteFailureMarksFailed(records: Records, req: WebhookRequest, config: WebhookConfig,
                                          verify: (string, string, string) -> bool, parse: string -> Option<Json>,
                                          o: Oracle, requestId: string, text: string, fault: Thrown)
    requires CheckRequest(req, config, verify, parse) == Proceed(requestId)
    requires o.readFault.None? && o.claimFault.None? && o.generated == Ok(text)
    requires o.finishFault == Some(fault) && o.failFault.None?
    requires Lookup(records, requestId).Some? && Lookup(records, requestId).value.status == Pending
    ensures var out := WebhookRun(records, req, config, verify, parse, o);
      out.response == JsonError(500, GetErrorMessage(fault), None) &&
      Lookup(out.records, requestId).Some? &&
      Lookup(out.records, requestId).value.status == Failed &&
      Lookup(out.records, requestId).value.result == Null &&
      Lookup(out.records, requestId).value.error == Text(GetErrorMessage(fault))
  {
  }

  /**
   * When the failed write itself fails, the record stays processing, so every
   * later delivery answers "Already processing" and it never reaches a
   * terminal status.
   */
  lemma FailedMarkLostLeavesProcessing(records: Records, req: WebhookRequest, config: WebhookConfig,
                                       verify: (string, string, string) -> bool, parse: string -> Option<Json>,
                                       o: Oracle, requestId: string, fault: Thrown)
    requires CheckRequest(req, config, verify, parse) == Proceed(requestId)
    requires o.readFault.None? && o.claimFault.None? && (o.generated.Err? || o.finishFault.Some?)
    requires o.failFault == Some(fault)
    requires Lookup(records, requestId).Some? && Lookup(records, requestId).value.status == Pending
    ensures var out := WebhookRun(records, req, config, verify, parse, o);
      out.response == GlobalErrorHandler(fault) &&
      Lookup(out.records, requestId).Some? &&
      Lookup(out.records, requestId).value.status == Processing
  {
  }

  /**
   * A delivery never creates or removes a record, changes only a record it
   * found pending, and so moves every status only forward.
   */
  lemma DeliveryOnlyAdvancesPending(records: Records, req: WebhookRequest, config: WebhookConfig,
                                    verify: (string, string, string) -> bool, parse: string -> Option<Json>,
                                    o: Oracle)
    ensures var out := WebhookRun(records, req, config, verify, parse, o);
      out.records.Keys == records.Keys &&
      (forall k | k in records && out.records[k] != records[k] :: records[k].status == Pending) &&
      (forall k | k in records :: Forward(records[k].status, out.records[k].status))
  {
    var out := WebhookRun(records, req, config, verify, parse, o);
    match CheckRequest(req, config, verify, parse)
    case Stop(_) =>
    case Proceed(requestId) =>
      if o.readFault.None? && Lookup(records, requestId).Some? {
        var record := Lookup(records, requestId).value;
        if record.status == Pending {
          RunOfPending(records, req, config, verify, parse, o, requestId);
        }
      }
  }

  // ---------------------------------------------------------------------------
  // Time-to-live

  /**
   * A rejected delivery changes no TTL, and no delivery changes the TTL of a
   * key other than its own record's.
   */
  lemma DeliveryTtlFrame(records: Records, ttl: map<string, real>, window: real, req: WebhookRequest,
                         config: WebhookConfig, verify: (string, string, string) -> bool,
                         parse: string -> Option<Json>, o: Oracle)
    ensures var after := TtlAfter(ttl, WebhookRun(records, req, config, verify, parse, o).trace, window);
      (CheckRequest(req, config, verify, parse).Stop? ==> after == ttl) &&
      (CheckRequest(req, config, verify, parse).Proceed? ==>
         forall k | k in ttl && k != AnalysisKey(CheckRequest(req, config, verify, parse).requestId) ::
           k in after && after[k] == ttl[k])
  {
    var trace := WebhookRun(records, req, config, verify, parse, o).trace;
    TtlAfterSpec(ttl, trace, window);
    if CheckRequest(req, config, verify, parse).Proceed? {
      ConfinedWrites(trace, AnalysisKey(CheckRequest(req, config, verify, parse).requestId));
    }
  }

  /** Once the claim lands, the record's key gets a fresh full TTL. */
  lemma ClaimRefreshesTtl(records: Records, ttl: map<string, real>, window: real, req: WebhookRequest,
                          config: WebhookConfig, verify: (string, string, string) -> bool,
                          parse: string -> Option<Json>, o: Oracle, requestId: string)
    requires CheckRequest(req, config, verify, parse) == Proceed(requestId)
    requires o.readFault.None? && o.claimFault.None?
    requires Lookup(records, requestId).Some? && Lookup(records, requestId).value.status == Pending
    ensures var after := TtlAfter(ttl, WebhookRun(records, req, config, verify, parse, o).trace, window);
      AnalysisKey(requestId) in after && after[AnalysisKey(requestId)] == window
  {
    var trace := WebhookRun(records, req, config, verify, parse, o).trace;
    var processed := Process(records, requestId, Lookup(records, requestId).value.input, o);
    RunOfPending(records, req, config, verify, parse, o, requestId);
    assert trace[2] == processed.trace[1];
    assert AnalysisKey(requestId) in WrittenKeys(trace);
    TtlAfterSpec(ttl, trace, window);
  }
}
