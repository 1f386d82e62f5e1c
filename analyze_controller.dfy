/**
 * The two client endpoints: creating an analysis request (validate, save a
 * pending record, enqueue, and on failure a best-effort failed mark) and
 * reporting a request's status.
 */
module AnalyzeController {
  import opened Values
  import opened Schemas
  import opened Http
  import opened Redis
  import opened Effects

  /** The outcomes of the external calls one creation makes. */
  datatype CreateOracle = CreateOracle(
    freshId: string,                // randomUUID()
    now: string,                    // the creation timestamp
    saveFault: Option<Thrown>,      // saveAnalysis
    enqueueFault: Option<Thrown>,   // enqueueAnalysis
    recoveryFault: Option<Thrown>,  // the failed-mark updateAnalysis
    recoveredAt: string)            // clock at the failed-mark write

  /** The record `createAnalysis` saves. */
  function NewRecord(requestId: string, input: AnalyzeInput, timestamp: string): (r: AnalysisRecord)
    ensures r.requestId == requestId && r.input == input
    ensures r.status == Pending && r.result == Null && r.error == Null
    ensures r.createdAt == timestamp && r.updatedAt == timestamp
  {
    AnalysisRecord(requestId, Pending, input, Null, Null, timestamp, timestamp)
  }

  /** `{status: "failed", error: message}`; `result` is not named. */
  function RecoveryPatch(message: string): Patch {
    EMPTY_PATCH.(status := Some(Failed), error := Some(Text(message)))
  }

  function CreatedBody(requestId: string): Json {
    JObj(map["requestId" := JStr(requestId)])
  }

  function InvalidInput(issues: seq<Issue>): Response {
    JsonError(400, "Invalid input", Some(JArr(IssuesJson(issues))))
  }

  /** One `POST /analyze` with body text `body` against the store's contents. */
  function CreateRun(records: Records, body: string, parse: string -> Option<Json>, o: CreateOracle): (out: Outcome)
    ensures out.response.status == 200 <==>
              parse(body).Some? && ConformsToInput(parse(body).value) && o.saveFault.None? && o.enqueueFault.None?
    ensures out.response.status != 200 ==> out.response.status in {400, 500}
    ensures WrittenKeys(out.trace) <= {AnalysisKey(o.freshId)}
  {
    match ParseJsonBody(body, parse)
    case Unparsable(response) => Outcome(response, records, [])
    case Parsed(data) =>
      match ValidateInput(data)
      case Err(issues) => Outcome(InvalidInput(issues), records, [])
      case Ok(input) => Submit(records, input, o)
  }

  /**
   * Save the new pending record and enqueue its job; on either failure, try
   * to mark the record failed and answer 500.
   */
  function Submit(records: Records, input: AnalyzeInput, o: CreateOracle): (out: Outcome)
    ensures out.response.status == 200 <==> o.saveFault.None? && o.enqueueFault.None?
    ensures out.response.status in {200, 500}
    ensures WrittenKeys(out.trace) <= {AnalysisKey(o.freshId)}
  {
    var requestId := o.freshId;
    var record := NewRecord(requestId, input, o.now);
    var saved := if o.saveFault.None? then Put(records, record) else records;
    var t := if o.saveFault.None? then [StoreWrite(AnalysisKey(requestId), record), Publish(requestId)]
             else [RefusedWrite(AnalysisKey(requestId), record)];
    var failure := if o.saveFault.Some? then o.saveFault else o.enqueueFault;
    assert WrittenKeys(t) <= {AnalysisKey(requestId)};
    if failure.None? then Outcome(JsonBody(CreatedBody(requestId)), saved, t)
    else
      var message := GetErrorMessage(failure.value);
      var recovery := Updated(saved, requestId, RecoveryPatch(message), o.recoveredAt, o.recoveryFault);
      var u := UpdateEffects(requestId, recovery.result);
      WrittenKeysConcat(t, u);
      Outcome(JsonError(500, message, None), recovery.records, t + u)
  }

  /** The save-and-enqueue part of `createAnalysis`, on the store. */
  method SubmitRecord(store: RecordStore, input: AnalyzeInput, o: CreateOracle)
    returns (response: Response, trace: seq<Effect>)
    requires store.Valid()
    modifies store
    ensures store.Valid()
    ensures response == Submit(old(store.records), input, o).response
    ensures store.records == Submit(old(store.records), input, o).records
    ensures trace == Submit(old(store.records), input, o).trace
    ensures store.ttl == TtlAfter(old(store.ttl), trace, store.ttlSeconds)
  {
    var requestId := o.freshId;
    var record := NewRecord(requestId, input, o.now);
    trace := if o.saveFault.None? then [StoreWrite(AnalysisKey(requestId), record)]
             else [RefusedWrite(AnalysisKey(requestId), record)];
    var failure := store.Save(record, o.saveFault);
    TtlAfterSnoc(old(store.ttl), [], trace[0], store.ttlSeconds);
    assert [] + [trace[0]] == trace;
    if failure.None? {
      TtlAfterSnoc(old(store.ttl), trace, Publish(requestId), store.ttlSeconds);
      trace := trace + [Publish(requestId)];
      assert trace == [StoreWrite(AnalysisKey(requestId), record), Publish(requestId)];
      failure := o.enqueueFault;
    }
    if failure.Some? {
      var message := GetErrorMessage(failure.value);
      // `.catch(() => null)`: whatever the recovery write returns is dropped.
      var recovery := store.Update(requestId, RecoveryPatch(message), o.recoveredAt, o.recoveryFault);
      TtlAfterUpdate(old(store.ttl), trace, requestId, recovery, store.ttlSeconds);
      trace := trace + UpdateEffects(requestId, recovery);
      return JsonError(500, message, None), trace;
    }
    response := JsonBody(CreatedBody(requestId));
  }

  /** `createAnalysis` */
  method CreateAnalysis(store: RecordStore, body: string, parse: string -> Option<Json>, o: CreateOracle)
    returns (response: Response, trace: seq<Effect>)
    requires store.Valid()
    modifies store
    ensures store.Valid()
    ensures response == CreateRun(old(store.records), body, parse, o).response
    ensures store.records == CreateRun(old(store.records), body, parse, o).records
    ensures trace == CreateRun(old(store.records), body, parse, o).trace
    ensures store.ttl == TtlAfter(old(store.ttl), trace, store.ttlSeconds)
  {
    var parsed := ParseJsonBody(body, parse);
    if parsed.Unparsable? {
      return parsed.response, [];
    }
    var validated := ValidateInput(parsed.data);
    if validated.Err? {
      return InvalidInput(validated.error), [];
    }
    response, trace := SubmitRecord(store, validated.value, o);
  }

  // ---------------------------------------------------------------------------
  // Properties of one creation

  lemma UnparsableBodyStoresNothing(records: Records, body: string, parse: string -> Option<Json>, o: CreateOracle)
    requires parse(body).None?
    ensures var out := CreateRun(records, body, parse, o);
      out.response == JsonError(400, "Invalid JSON body", None) && out.records == records && out.trace == []
  {
  }

  lemma InvalidInputStoresNothing(records: Records, body: string, parse: string -> Option<Json>, o: CreateOracle)
    requires parse(body).Some? && !ConformsToInput(parse(body).value)
    ensures var out := CreateRun(records, body, parse, o);
      out.response.status == 400 &&
      out.response.body.fields["message"] == JStr("Invalid input") &&
      out.response.body.fields["details"] == JArr(IssuesJson(InputIssues(parse(body).value))) &&
      out.records == records && out.trace == []
  {
  }

  /** A valid profile whose save and enqueue succeed is stored pending under a fresh key. */
  lemma ValidInputStoredPending(records: Records, body: string, parse: string -> Option<Json>, o: CreateOracle)
    requires parse(body).Some? && ConformsToInput(parse(body).value)
    requires o.saveFault.None? && o.enqueueFault.None?
    ensures var out := CreateRun(records, body, parse, o);
      var input := ValidateInput(parse(body).value).value;
      out.response == JsonBody(CreatedBody(o.freshId)) &&
      Lookup(out.records, o.freshId) == Some(AnalysisRecord(o.freshId, Pending, input, Null, Null, o.now, o.now)) &&
      out.records.Keys == records.Keys + {AnalysisKey(o.freshId)} &&
      out.trace == [StoreWrite(AnalysisKey(o.freshId), Lookup(out.records, o.freshId).value), Publish(o.freshId)]
  {
  }

  /** A request that enqueues a job had a valid body and its save landed. */
  lemma EnqueueOnlyAfterSave(records: Records, body: string, parse: string -> Option<Json>, o: CreateOracle, i: nat)
    requires var out := CreateRun(records, body, parse, o);
      i < |out.trace| && out.trace[i].Publish?
    ensures parse(body).Some? && ValidateInput(parse(body).value).Ok? && o.saveFault.None?
  {
  }

  /** The enqueue is attempted at most once, and only after the pending record was saved. */
  lemma SavedBeforeEnqueue(records: Records, body: string, parse: string -> Option<Json>, o: CreateOracle, i: nat)
    requires var out := CreateRun(records, body, parse, o);
      i < |out.trace| && out.trace[i].Publish?
    ensures var out := CreateRun(records, body, parse, o);
      i == 1 && o.saveFault.None? && out.trace[1] == Publish(o.freshId) &&
      out.trace[0].StoreWrite? && out.trace[0].key == AnalysisKey(o.freshId) &&
      out.trace[0].record.status == Pending && out.trace[0].record.requestId == o.freshId
  {
    var out := CreateRun(records, body, parse, o);
    EnqueueOnlyAfterSave(records, body, parse, o, i);
    var record := NewRecord(o.freshId, ValidateInput(parse(body).value).value, o.now);
    var t := [StoreWrite(AnalysisKey(o.freshId), record), Publish(o.freshId)];
    if o.enqueueFault.Some? {
      var saved := Put(records, record);
      var recovery := Updated(saved, o.freshId, RecoveryPatch(GetErrorMessage(o.enqueueFault.value)),
                              o.recoveredAt, o.recoveryFault);
      assert out.trace == t + UpdateEffects(o.freshId, recovery.result);
    }
  }

  /** A failed enqueue marks the saved record failed with the error's message. */
  lemma EnqueueFailureMarksFailed(records: Records, body: string, parse: string -> Option<Json>, o: CreateOracle,
                                  fault: Thrown)
    requires parse(body).Some? && ConformsToInput(parse(body).value)
    requires o.saveFault.None? && o.enqueueFault == Some(fault) && o.recoveryFault.None?
    ensures var out := CreateRun(records, body, parse, o);
      var input := ValidateInput(parse(body).value).value;
      out.response == JsonError(500, GetErrorMessage(fault), None) &&
      Lookup(out.records, o.freshId) ==
        Some(AnalysisRecord(o.freshId, Failed, input, Null, Text(GetErrorMessage(fault)), o.now, o.recoveredAt))
  {
  }

  /** A failure of the recovery write is swallowed: the answer is the original error. */
  lemma RecoveryFailureSwallowed(records: Records, body: string, parse: string -> Option<Json>, o: CreateOracle,
                                 fault: Thrown)
    requires parse(body).Some? && ConformsToInput(parse(body).value)
    requires o.saveFault.None? && o.enqueueFault == Some(fault) && o.recoveryFault.Some?
    ensures var out := CreateRun(records, body, parse, o);
      out.response == JsonError(500, GetErrorMessage(fault), None) &&
      Lookup(out.records, o.freshId).Some? && Lookup(out.records, o.freshId).value.status == Pending
  {
  }

  /** A failed save creates no record: the recovery patch finds nothing to patch. */
  lemma SaveFailureCreatesNothing(records: Records, body: string, parse: string -> Option<Json>, o: CreateOracle,
                                  fault: Thrown)
    requires parse(body).Some? && ConformsToInput(parse(body).value)
    requires o.saveFault == Some(fault) && AnalysisKey(o.freshId) !in records
    ensures var out := CreateRun(records, body, parse, o);
      out.response == JsonError(500, GetErrorMessage(fault), None) &&
      out.records == records &&
      forall i | 0 <= i < |out.trace| :: !out.trace[i].Publish?
  {
  }

  /** Creation changes no record but the one under its fresh id. */
  lemma CreateTouchesOnlyFreshKey(records: Records, body: string, parse: string -> Option<Json>, o: CreateOracle)
    ensures var out := CreateRun(records, body, parse, o);
      records.Keys <= out.records.Keys &&
      out.records.Keys <= records.Keys + {AnalysisKey(o.freshId)} &&
      forall k | k in records && k != AnalysisKey(o.freshId) :: out.records[k] == records[k]
  {
  }

  /**
   * Creation changes no TTL but the fresh key's, and a save that lands gives
   * the fresh key the full window.
   */
  lemma CreateTtl(records: Records, ttl: map<string, real>, window: real, body: string,
                  parse: string -> Option<Json>, o: CreateOracle)
    ensures var out := CreateRun(records, body, parse, o);
      var after := TtlAfter(ttl, out.trace, window);
      (forall k | k in ttl && k != AnalysisKey(o.freshId) :: k in after && after[k] == ttl[k]) &&
      (parse(body).Some? && ConformsToInput(parse(body).value) && o.saveFault.None? ==>
         AnalysisKey(o.freshId) in after && after[AnalysisKey(o.freshId)] == window)
  {
    var out := CreateRun(records, body, parse, o);
    TtlAfterSpec(ttl, out.trace, window);
    if parse(body).Some? && ConformsToInput(parse(body).value) && o.saveFault.None? {
      assert out.trace[0].StoreWrite? && out.trace[0].key == AnalysisKey(o.freshId);
      assert AnalysisKey(o.freshId) in WrittenKeys(out.trace);
    }
  }

  // ---------------------------------------------------------------------------
  // Status

  /** `{requestId, status, result ?? null, error ?? null}` */
  function StatusBody(record: AnalysisRecord): (body: Json)
    ensures body.JObj? && body.fields.Keys == {"requestId", "status", "result", "error"}
    ensures ValidateResult(body) ==
              Some(AnalyzeResult(record.requestId, record.status, Coalesce(record.result), Coalesce(record.error)))
  {
    JObj(map[
      "requestId" := JStr(record.requestId),
      "status" := JStr(StatusName(record.status)),
      "result" := NullableJson(Coalesce(record.result)),
      "error" := NullableJson(Coalesce(record.error))])
  }

  function NullableJson(v: Nullable): Json {
    match v
    case Text(s) => JStr(s)
    case _ => JNull
  }

  /**
   * `getAnalysisStatus` on the store's contents; `readFault` is a store
   * failure during the read.
   */
  function GetAnalysisStatus(records: Records, requestId: string, readFault: Option<Thrown>): (r: Response)
    ensures readFault.Some? ==> r == JsonError(500, GetErrorMessage(readFault.value), None)
    ensures readFault.None? && Lookup(records, requestId).None? ==> r == JsonError(404, "Not found", None)
    ensures readFault.None? && Lookup(records, requestId).Some? ==>
              var record := Lookup(records, requestId).value;
              r.status == 200 && r.body == StatusBody(record) &&
              r.body.JObj? && r.body.fields.Keys == {"requestId", "status", "result", "error"} &&
              ValidateResult(r.body) ==
                Some(AnalyzeResult(record.requestId, record.status, Coalesce(record.result), Coalesce(record.error)))
  {
    if readFault.Some? then JsonError(500, GetErrorMessage(readFault.value), None)
    else match Lookup(records, requestId)
      case None => JsonError(404, "Not found", None)
      case Some(record) => JsonBody(StatusBody(record))
  }
}
