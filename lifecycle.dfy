/**
 * The request lifecycle across both controllers: creation followed by
 * polling and deliveries, and the forward-only movement of every record's
 * status over any sequence of submissions and deliveries.
 */
module Lifecycle {
  import opened Values
  import opened Schemas
  import opened Http
  import opened Redis
  import opened AnalyzeController
  import opened WebhookController

  function PendingReport(requestId: string): Json {
    JObj(map["requestId" := JStr(requestId), "status" := JStr("pending"), "result" := JNull, "error" := JNull])
  }

  /** Right after a successful creation the status endpoint reports pending, null, null. */
  lemma CreatedThenReportedPending(records: Records, body: string, parse: string -> Option<Json>, o: CreateOracle)
    requires parse(body).Some? && ConformsToInput(parse(body).value)
    requires o.saveFault.None? && o.enqueueFault.None?
    ensures var out := CreateRun(records, body, parse, o);
      GetAnalysisStatus(out.records, o.freshId, None) == JsonBody(PendingReport(o.freshId))
  {
    ValidInputStoredPending(records, body, parse, o);
  }

  /** Once a delivery has left the record terminal, a repeated delivery changes nothing. */
  lemma RedeliveryAfterTerminalIsNoOp(records: Records, req: WebhookRequest, config: WebhookConfig,
                                      verify: (string, string, string) -> bool, parse: string -> Option<Json>,
                                      first: Oracle, second: Oracle, requestId: string)
    requires CheckRequest(req, config, verify, parse) == Proceed(requestId)
    requires second.readFault.None?
    requires var after := WebhookRun(records, req, config, verify, parse, first).records;
      Lookup(after, requestId).Some? && IsTerminal(Lookup(after, requestId).value.status)
    ensures var after := WebhookRun(records, req, config, verify, parse, first).records;
      var again := WebhookRun(after, req, config, verify, parse, second);
      again.response == JsonBody(OkBody(Some("Already processed"))) &&
      again.records == after &&
      forall i | 0 <= i < |again.trace| :: !again.trace[i].Generate? && !again.trace[i].StoreWrite?
  {
    var after := WebhookRun(records, req, config, verify, parse, first).records;
    TerminalRecordUntouched(after, req, config, verify, parse, second, requestId);
  }

  /** A delivery that completes a pending record makes the status endpoint report completed with the text. */
  lemma DeliveredThenReportedCompleted(records: Records, hook: WebhookRequest, config: WebhookConfig,
                                       verify: (string, string, string) -> bool, parse: string -> Option<Json>,
                                       o: Oracle, requestId: string, text: string)
    requires CheckRequest(hook, config, verify, parse) == Proceed(requestId)
    requires o.readFault.None? && o.claimFault.None? && o.finishFault.None? && o.generated == Ok(text)
    requires Lookup(records, requestId).Some? && Lookup(records, requestId).value.status == Pending
    ensures var after := WebhookRun(records, hook, config, verify, parse, o).records;
      GetAnalysisStatus(after, requestId, None) ==
        JsonBody(JObj(map["requestId" := JStr(requestId), "status" := JStr("completed"),
                          "result" := JStr(text), "error" := JNull]))
  {
    PendingRecordCompletes(records, hook, config, verify, parse, o, requestId, text);
    var done := Lookup(records, requestId).value.(requestId := requestId, status := Completed, result := Text(text),
                                                   error := Null, updatedAt := o.finishedAt);
    assert StatusBody(done) ==
      JObj(map["requestId" := JStr(requestId), "status" := JStr("completed"), "result" := JStr(text), "error" := JNull]);
  }

  /**
   * Submit a profile, deliver the queued job with a valid signature, and poll:
   * the report is completed with the generated text and a null error.
   */
  lemma SubmitDeliverPoll(records: Records, createBody: string, hook: WebhookRequest, config: WebhookConfig,
                          verify: (string, string, string) -> bool, parse: string -> Option<Json>,
                          created: CreateOracle, delivered: Oracle, text: string)
    requires parse(createBody) ==
      Some(ProfileJson("Olena", 27.0, "A curious product designer who loves cycling."))
    requires created.freshId != "" && created.saveFault.None? && created.enqueueFault.None?
    requires Truthy(hook.signature) && Truthy(config.currentSigningKey) && Truthy(config.nextSigningKey)
    requires Truthy(config.webhookUrl) && verify(hook.signature.value, hook.body, config.webhookUrl.value)
    requires parse(hook.body) == Some(CreatedBody(created.freshId))
    requires delivered.readFault.None? && delivered.claimFault.None? && delivered.finishFault.None?
    requires delivered.generated == Ok(text)
    ensures var afterCreate := CreateRun(records, createBody, parse, created).records;
      var afterHook := WebhookRun(afterCreate, hook, config, verify, parse, delivered).records;
      GetAnalysisStatus(afterCreate, created.freshId, None) == JsonBody(PendingReport(created.freshId)) &&
      GetAnalysisStatus(afterHook, created.freshId, None) ==
        JsonBody(JObj(map["requestId" := JStr(created.freshId), "status" := JStr("completed"),
                          "result" := JStr(text), "error" := JNull]))
  {
    var id := created.freshId;
    CreatedThenReportedPending(records, createBody, parse, created);
    ValidInputStoredPending(records, createBody, parse, created);
    var afterCreate := CreateRun(records, createBody, parse, created).records;
    assert RequestIdOf(CreatedBody(id)) == Ok(Some(id));
    assert CheckRequest(hook, config, verify, parse) == Proceed(id);
    DeliveredThenReportedCompleted(afterCreate, hook, config, verify, parse, delivered, id, text);
  }

  // ---------------------------------------------------------------------------
  // Any sequence of requests

  datatype Event =
    | Submit(body: string, create: CreateOracle)
    | Deliver(req: WebhookRequest, delivery: Oracle)

  /** The store's contents after one request is handled. */
  function Apply(records: Records, e: Event, config: WebhookConfig,
                 verify: (string, string, string) -> bool, parse: string -> Option<Json>): Records
  {
    match e
    case Submit(body, create) => CreateRun(records, body, parse, create).records
    case Deliver(req, delivery) => WebhookRun(records, req, config, verify, parse, delivery).records
  }

  function Replay(records: Records, events: seq<Event>, config: WebhookConfig,
                  verify: (string, string, string) -> bool, parse: string -> Option<Json>): Records
    decreases |events|
  {
    if events == [] then records
    else Replay(Apply(records, events[0], config, verify, parse), events[1..], config, verify, parse)
  }

  /** Every submission's generated id is new to the store at the time it is made. */
  ghost predicate FreshIds(records: Records, events: seq<Event>, config: WebhookConfig,
                           verify: (string, string, string) -> bool, parse: string -> Option<Json>)
    decreases |events|
  {
    events != [] ==>
      (events[0].Submit? ==> AnalysisKey(events[0].create.freshId) !in records) &&
      FreshIds(Apply(records, events[0], config, verify, parse), events[1..], config, verify, parse)
  }

  /** What one request does to the records already in the store. */
  lemma ApplyMovesForward(records: Records, e: Event, config: WebhookConfig,
                          verify: (string, string, string) -> bool, parse: string -> Option<Json>)
    requires e.Submit? ==> AnalysisKey(e.create.freshId) !in records
    ensures var after := Apply(records, e, config, verify, parse);
      records.Keys <= after.Keys &&
      (forall k | k in records :: Forward(records[k].status, after[k].status)) &&
      (forall k | k in records && IsTerminal(records[k].status) :: after[k] == records[k])
  {
    match e
    case Submit(body, create) =>
      CreateTouchesOnlyFreshKey(records, body, parse, create);
    case Deliver(req, delivery) =>
      DeliveryOnlyAdvancesPending(records, req, config, verify, parse, delivery);
  }

  /**
   * Over any sequence of submissions (with fresh ids) and deliveries, no
   * record disappears, every status moves only forward, and a record that
   * was terminal is never changed again.
   */
  lemma {:induction false} ReplayMovesForward(records: Records, events: seq<Event>, config: WebhookConfig,
                                              verify: (string, string, string) -> bool,
                                              parse: string -> Option<Json>)
    requires FreshIds(records, events, config, verify, parse)
    ensures var final := Replay(records, events, config, verify, parse);
      records.Keys <= final.Keys &&
      (forall k | k in records :: Forward(records[k].status, final[k].status)) &&
      (forall k | k in records && IsTerminal(records[k].status) :: final[k] == records[k])
    decreases |events|
  {
    if events != [] {
      var next := Apply(records, events[0], config, verify, parse);
      ApplyMovesForward(records, events[0], config, verify, parse);
      ReplayMovesForward(next, events[1..], config, verify, parse);
      var final := Replay(records, events, config, verify, parse);
      assert final == Replay(next, events[1..], config, verify, parse);
      forall k | k in records
        ensures Forward(records[k].status, final[k].status)
      {
        ForwardIsOrder(records[k].status, next[k].status, final[k].status);
      }
      forall k | k in records && IsTerminal(records[k].status)
        ensures final[k] == records[k]
      {
        assert next[k] == records[k];
      }
    }
  }
}
