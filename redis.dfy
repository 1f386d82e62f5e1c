/**
 * The record store adapter: analysis records kept under `analysis:<id>`,
 * each write resetting the key's time-to-live, and a read-merge-write patch
 * that never creates a record.
 */
module Redis {
  import opened Values
  import opened Schemas

  /** `AnalysisRecord` */
  datatype AnalysisRecord = AnalysisRecord(
    requestId: string,
    status: Status,
    input: AnalyzeInput,
    result: Nullable,
    error: Nullable,
    createdAt: string,
    updatedAt: string)

  /**
   * `Partial<AnalysisRecord>`: None leaves a key out of the patch. A key that
   * is present overrides the record's field, even with `Absent` (`undefined`).
   */
  datatype Patch = Patch(
    requestId: Option<string>,
    status: Option<Status>,
    input: Option<AnalyzeInput>,
    result: Option<Nullable>,
    error: Option<Nullable>,
    createdAt: Option<string>,
    updatedAt: Option<string>)

  const EMPTY_PATCH := Patch(None, None, None, None, None, None, None)

  const KEY_PREFIX := "analysis:"

  /** `analysisKey` */
  function AnalysisKey(requestId: string): (key: string)
    ensures |key| == |KEY_PREFIX| + |requestId|
    ensures key[..|KEY_PREFIX|] == KEY_PREFIX && key[|KEY_PREFIX|..] == requestId
  {
    KEY_PREFIX + requestId
  }

  /** Distinct ids never share a key. */
  lemma AnalysisKeyInjective(a: string, b: string)
    ensures AnalysisKey(a) == AnalysisKey(b) <==> a == b
  {
    if AnalysisKey(a) == AnalysisKey(b) {
      calc {
        a;
        AnalysisKey(a)[|KEY_PREFIX|..];
        AnalysisKey(b)[|KEY_PREFIX|..];
        b;
      }
    }
  }

  const DEFAULT_TTL_SECONDS: real := 3600.0

  /**
   * `getTtlSeconds`: `setting` is `Number(ANALYSIS_TTL_SECONDS)`, None when
   * the variable is unset.
   */
  function GetTtlSeconds(setting: Option<JsNumber>): (ttl: real)
    ensures ttl > 0.0
    ensures setting.Some? && setting.value.Finite? && setting.value.r > 0.0 ==> ttl == setting.value.r
    ensures !(setting.Some? && setting.value.Finite? && setting.value.r > 0.0) ==> ttl == DEFAULT_TTL_SECONDS
  {
    var raw := setting.GetOr(Finite(DEFAULT_TTL_SECONDS));
    if raw.Finite? && raw.r > 0.0 then raw.r else DEFAULT_TTL_SECONDS
  }

  // ---------------------------------------------------------------------------
  // The store's contents as a value

  type Records = map<string, AnalysisRecord>

  /** `getAnalysis` on the store's contents. */
  function Lookup(records: Records, requestId: string): (r: Option<AnalysisRecord>)
    ensures r.Some? <==> AnalysisKey(requestId) in records
    ensures r.Some? ==> r.value == records[AnalysisKey(requestId)]
  {
    var key := AnalysisKey(requestId);
    if key in records then Some(records[key]) else None
  }

  /** `saveAnalysis` on the store's contents: overwrite under the record's own key. */
  function Put(records: Records, record: AnalysisRecord): (r: Records)
    ensures Lookup(r, record.requestId) == Some(record)
    ensures r.Keys == records.Keys + {AnalysisKey(record.requestId)}
    ensures forall k | k in records && k != AnalysisKey(record.requestId) :: r[k] == records[k]
  {
    records[AnalysisKey(record.requestId) := record]
  }

  /** `{...existing, ...updates, requestId, updatedAt: now}` */
  function Merge(existing: AnalysisRecord, updates: Patch, requestId: string, now: string): (r: AnalysisRecord)
    ensures r.requestId == requestId && r.updatedAt == now
  {
    AnalysisRecord(
      requestId,
      updates.status.GetOr(existing.status),
      updates.input.GetOr(existing.input),
      updates.result.GetOr(existing.result),
      updates.error.GetOr(existing.error),
      updates.createdAt.GetOr(existing.createdAt),
      now)
  }

  /** Each field a patch names is applied; each one it leaves out is kept. */
  lemma MergeFields(existing: AnalysisRecord, updates: Patch, requestId: string, now: string)
    ensures var r := Merge(existing, updates, requestId, now);
      (updates.status.None? ==> r.status == existing.status) &&
      (updates.status.Some? ==> r.status == updates.status.value) &&
      (updates.input.None? ==> r.input == existing.input) &&
      (updates.input.Some? ==> r.input == updates.input.value) &&
      (updates.result.None? ==> r.result == existing.result) &&
      (updates.result.Some? ==> r.result == updates.result.value) &&
      (updates.error.None? ==> r.error == existing.error) &&
      (updates.error.Some? ==> r.error == updates.error.value) &&
      (updates.createdAt.None? ==> r.createdAt == existing.createdAt) &&
      (updates.createdAt.Some? ==> r.createdAt == updates.createdAt.value)
  {
  }

  /** A `requestId` or `updatedAt` carried by the patch has no effect. */
  lemma MergeIgnoresPinnedKeys(existing: AnalysisRecord, updates: Patch, requestId: string, now: string,
                               otherId: Option<string>, otherTime: Option<string>)
    ensures Merge(existing, updates.(requestId := otherId, updatedAt := otherTime), requestId, now)
         == Merge(existing, updates, requestId, now)
  {
  }

  /** What one `updateAnalysis` call leaves in the store, and what it returns. */
  datatype UpdateOutcome = UpdateOutcome(records: Records, result: Result<Option<AnalysisRecord>, Thrown>)

  /**
   * `updateAnalysis` on the store's contents; `fault` is a store failure
   * during the call, which then writes nothing and throws.
   */
  function Updated(records: Records, requestId: string, updates: Patch, now: string,
                   fault: Option<Thrown>): (u: UpdateOutcome)
    ensures fault.Some? ==> u == UpdateOutcome(records, Err(fault.value))
    ensures fault.None? ==> u.result.Ok?
    ensures u.result.Ok? && u.result.value.None? <==> fault.None? && Lookup(records, requestId).None?
    ensures u.result.Ok? && u.result.value.None? ==> u.records == records
    ensures u.result.Ok? && u.result.value.Some? ==>
              u.result.value.value == Merge(Lookup(records, requestId).value, updates, requestId, now) &&
              Lookup(u.records, requestId) == u.result.value
    ensures u.records.Keys == records.Keys
    ensures forall k | k in records && k != AnalysisKey(requestId) :: u.records[k] == records[k]
  {
    if fault.Some? then UpdateOutcome(records, Err(fault.value))
    else match Lookup(records, requestId)
      case None => UpdateOutcome(records, Ok(None))
      case Some(existing) =>
        var updated := Merge(existing, updates, requestId, now);
        UpdateOutcome(Put(records, updated), Ok(Some(updated)))
  }

  /** Every record sits under the key of its own `requestId`. */
  ghost predicate KeysMatch(records: Records) {
    forall k | k in records :: AnalysisKey(records[k].requestId) == k
  }

  lemma UpdatedKeepsKeysMatch(records: Records, requestId: string, updates: Patch, now: string,
                              fault: Option<Thrown>)
    requires KeysMatch(records)
    ensures KeysMatch(Updated(records, requestId, updates, now, fault).records)
  {
  }

  // ---------------------------------------------------------------------------
  // The store

  /** The Redis database as the API sees it: records and their time-to-live. */
  class RecordStore {
    var records: Records
    var ttl: map<string, real>
    const ttlSeconds: real

    ghost predicate Valid()
      reads this
    {
      ttlSeconds > 0.0 &&
      ttl.Keys == records.Keys &&
      KeysMatch(records)
    }

    constructor (ttlSetting: Option<JsNumber>)
      ensures Valid()
      ensures records == map[] && ttl == map[]
      ensures ttlSeconds == GetTtlSeconds(ttlSetting)
    {
      records := map[];
      ttl := map[];
      ttlSeconds := GetTtlSeconds(ttlSetting);
    }

    /** `getAnalysis`; `fault` is a store failure during the read. */
    method Get(requestId: string, fault: Option<Thrown>) returns (r: Result<Option<AnalysisRecord>, Thrown>)
      ensures fault.Some? ==> r == Err(fault.value)
      ensures fault.None? ==> r.Ok? && r.value == Lookup(records, requestId)
    {
      if fault.Some? {
        return Err(fault.value);
      }
      var key := AnalysisKey(requestId);
      if key in records {
        r := Ok(Some(records[key]));
      } else {
        r := Ok(None);
      }
    }

    /** `saveAnalysis`: overwrite the record and reset its key's TTL to the full window. */
    method Save(record: AnalysisRecord, fault: Option<Thrown>) returns (failure: Option<Thrown>)
      requires Valid()
      modifies this
      ensures Valid()
      ensures failure == fault
      ensures records == if fault.None? then Put(old(records), record) else old(records)
      ensures ttl == if fault.None? then old(ttl)[AnalysisKey(record.requestId) := ttlSeconds] else old(ttl)
    {
      failure := fault;
      if fault.None? {
        var key := AnalysisKey(record.requestId);
        records := records[key := record];
        ttl := ttl[key := ttlSeconds];
      }
    }

    /** `updateAnalysis`: read, merge, and save back under the same key. */
    method Update(requestId: string, updates: Patch, now: string, fault: Option<Thrown>)
      returns (r: Result<Option<AnalysisRecord>, Thrown>)
      requires Valid()
      modifies this
      ensures Valid()
      ensures records == Updated(old(records), requestId, updates, now, fault).records
      ensures r == Updated(old(records), requestId, updates, now, fault).result
      ensures ttl == if r.Ok? && r.value.Some? then old(ttl)[AnalysisKey(requestId) := ttlSeconds] else old(ttl)
    {
      var existing := Get(requestId, fault);
      if existing.Err? {
        return Err(existing.error);
      }
      if existing.value.None? {
        return Ok(None);
      }
      var updated := Merge(existing.value.value, updates, requestId, now);
      var failure := Save(updated, None);
      r := Ok(Some(updated));
    }
  }
}
