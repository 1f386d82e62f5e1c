/**
 * The calls the handlers make to their collaborators, in the order they
 * make them: store reads and writes, the generator, the queue. A write that
 * lands is a `StoreWrite`; a save the store refuses is a `RefusedWrite`.
 */
module Effects {
  import opened Values
  import opened Schemas
  import opened Http
  import opened Redis

  datatype Effect =
    | StoreRead(key: string)
    | StoreWrite(key: string, record: AnalysisRecord)
    | RefusedWrite(key: string, record: AnalysisRecord)
    | Generate(input: AnalyzeInput)
    | Publish(requestId: string)

  /** The calls one `updateAnalysis` makes, given what it returned. */
  function UpdateEffects(requestId: string, result: Result<Option<AnalysisRecord>, Thrown>): (t: seq<Effect>)
    ensures |t| == (if result.Ok? && result.value.Some? then 2 else 1)
    ensures t[0] == StoreRead(AnalysisKey(requestId))
    ensures |t| == 2 ==> t[1] == StoreWrite(AnalysisKey(requestId), result.value.value)
  {
    [StoreRead(AnalysisKey(requestId))] +
    if result.Ok? && result.value.Some? then [StoreWrite(AnalysisKey(requestId), result.value.value)] else []
  }

  /** The keys that `trace` writes. */
  function WrittenKeys(trace: seq<Effect>): set<string> {
    set i | 0 <= i < |trace| && trace[i].StoreWrite? :: trace[i].key
  }

  lemma WrittenKeysConcat(a: seq<Effect>, b: seq<Effect>)
    ensures WrittenKeys(a + b) == WrittenKeys(a) + WrittenKeys(b)
  {
    forall k | k in WrittenKeys(a + b)
      ensures k in WrittenKeys(a) + WrittenKeys(b)
    {
      var i :| 0 <= i < |a + b| && (a + b)[i].StoreWrite? && (a + b)[i].key == k;
      if i < |a| {
        assert (a + b)[i] == a[i];
      } else {
        assert (a + b)[i] == b[i - |a|];
      }
    }
    forall k | k in WrittenKeys(a) + WrittenKeys(b)
      ensures k in WrittenKeys(a + b)
    {
      if k in WrittenKeys(a) {
        var i :| 0 <= i < |a| && a[i].StoreWrite? && a[i].key == k;
        assert (a + b)[i] == a[i];
      } else {
        var i :| 0 <= i < |b| && b[i].StoreWrite? && b[i].key == k;
        assert (a + b)[|a| + i] == b[i];
      }
    }
  }

  /**
   * The time-to-live of every key after the calls of `trace`: each write that
   * lands sets its key to the full window (`ex: getTtlSeconds()`), and no
   * other call touches a TTL.
   */
  function TtlAfter(ttl: map<string, real>, trace: seq<Effect>, window: real): map<string, real>
    decreases |trace|
  {
    if trace == [] then ttl
    else
      var before := TtlAfter(ttl, trace[..|trace| - 1], window);
      match trace[|trace| - 1]
      case StoreWrite(key, _) => before[key := window]
      case _ => before
  }

  /** One more call: a write resets its key's TTL, anything else leaves every TTL alone. */
  lemma TtlAfterSnoc(ttl: map<string, real>, trace: seq<Effect>, e: Effect, window: real)
    ensures TtlAfter(ttl, trace + [e], window) ==
              if e.StoreWrite? then TtlAfter(ttl, trace, window)[e.key := window] else TtlAfter(ttl, trace, window)
  {
    assert (trace + [e])[..|trace|] == trace;
  }

  /** The TTLs after two runs of calls, one after the other. */
  lemma {:induction false} TtlAfterAppend(ttl: map<string, real>, a: seq<Effect>, b: seq<Effect>, window: real)
    ensures TtlAfter(ttl, a + b, window) == TtlAfter(TtlAfter(ttl, a, window), b, window)
    decreases |b|
  {
    if b == [] {
      assert a + b == a;
    } else {
      var init := b[..|b| - 1];
      var last := b[|b| - 1];
      assert b == init + [last];
      assert a + b == (a + init) + [last];
      TtlAfterAppend(ttl, a, init, window);
      TtlAfterSnoc(ttl, a + init, last, window);
      TtlAfterSnoc(TtlAfter(ttl, a, window), init, last, window);
    }
  }

  /** The TTLs after one `updateAnalysis`: its key is reset exactly when the write landed. */
  lemma TtlAfterUpdate(ttl: map<string, real>, trace: seq<Effect>, requestId: string,
                       result: Result<Option<AnalysisRecord>, Thrown>, window: real)
    ensures TtlAfter(ttl, trace + UpdateEffects(requestId, result), window) ==
              if result.Ok? && result.value.Some? then TtlAfter(ttl, trace, window)[AnalysisKey(requestId) := window]
              else TtlAfter(ttl, trace, window)
  {
    var u := UpdateEffects(requestId, result);
    TtlAfterSnoc(ttl, trace, u[0], window);
    if |u| == 2 {
      assert trace + u == (trace + [u[0]]) + [u[1]];
      TtlAfterSnoc(ttl, trace + [u[0]], u[1], window);
    } else {
      assert trace + u == trace + [u[0]];
    }
  }

  /**
   * The TTLs after a trace: a written key holds the full window, an unwritten
   * key keeps its TTL, and the written keys are the only ones added.
   */
  lemma {:induction false} TtlAfterSpec(ttl: map<string, real>, trace: seq<Effect>, window: real)
    ensures TtlAfter(ttl, trace, window).Keys == ttl.Keys + WrittenKeys(trace)
    ensures forall k | k in WrittenKeys(trace) :: TtlAfter(ttl, trace, window)[k] == window
    ensures forall k | k in ttl && k !in WrittenKeys(trace) :: TtlAfter(ttl, trace, window)[k] == ttl[k]
    decreases |trace|
  {
    if trace != [] {
      var prefix := trace[..|trace| - 1];
      var last := trace[|trace| - 1];
      TtlAfterSpec(ttl, prefix, window);
      assert trace == prefix + [last];
      TtlAfterSnoc(ttl, prefix, last, window);
      WrittenKeysConcat(prefix, [last]);
      assert WrittenKeys([last]) == if last.StoreWrite? then {last.key} else {};
    }
  }

  /** Every store call of `t` goes to `key`, and `t` neither publishes nor has a refused save. */
  predicate Confined(t: seq<Effect>, key: string) {
    forall i | 0 <= i < |t| ::
      ((t[i].StoreRead? || t[i].StoreWrite?) ==> t[i].key == key) && !t[i].Publish? && !t[i].RefusedWrite?
  }

  lemma ConfinedConcat(a: seq<Effect>, b: seq<Effect>, key: string)
    requires Confined(a, key) && Confined(b, key)
    ensures Confined(a + b, key)
  {
    forall i | 0 <= i < |a + b|
      ensures var e := (a + b)[i]; ((e.StoreRead? || e.StoreWrite?) ==> e.key == key) && !e.Publish? && !e.RefusedWrite?
    {
      if i < |a| {
        assert (a + b)[i] == a[i];
      } else {
        assert (a + b)[i] == b[i - |a|];
      }
    }
  }

  /** The calls of one `updateAnalysis` all go to the record's key. */
  lemma UpdateEffectsConfined(requestId: string, result: Result<Option<AnalysisRecord>, Thrown>)
    ensures Confined(UpdateEffects(requestId, result), AnalysisKey(requestId))
  {
  }

  /** A confined trace writes at most its own key. */
  lemma ConfinedWrites(t: seq<Effect>, key: string)
    requires Confined(t, key)
    ensures WrittenKeys(t) <= {key}
  {
  }

  /** A handler's answer, the store's contents afterwards, and the calls made. */
  datatype Outcome = Outcome(response: Response, records: Records, trace: seq<Effect>)
}
