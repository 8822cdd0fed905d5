/**
 * The pure decisions of `analyze`: whether the endpoint row is worth
 * rewriting (the debounce on `lastActive`), how array-valued bodies are
 * stored, and the order in which the alerts of one trace are assembled.
 */
module Analysis {
  import opened Wrappers
  import opened Domain

  /** The debounce window on `lastActive`, in milliseconds. */
  const DebounceMillis: int := 30000

  /**
   * Whether the endpoint row should be written back after a trace: always
   * when one of the four values is missing, otherwise exactly when the risk
   * score changed or `lastActive` moved forward by more than the window.
   */
  predicate ShouldUpdateEndpoint(prevRiskScore: Option<RiskScore>, prevLastActive: Option<int>, e: Endpoint): (r: bool)
    ensures prevRiskScore != e.riskScore ==> r
    ensures prevLastActive.Some? && e.lastActive.Some? && e.lastActive.value - prevLastActive.value > DebounceMillis ==> r
  {
    if prevRiskScore.None? || prevLastActive.None? || e.lastActive.None? || e.riskScore.None? then true
    else prevRiskScore.value != e.riskScore.value || e.lastActive.value - prevLastActive.value > DebounceMillis
  }

  /** A missing value always forces the write. */
  lemma MissingValueForcesUpdate(prevRiskScore: Option<RiskScore>, prevLastActive: Option<int>, e: Endpoint)
    requires prevRiskScore.None? || prevLastActive.None? || e.lastActive.None? || e.riskScore.None?
    ensures ShouldUpdateEndpoint(prevRiskScore, prevLastActive, e)
  {
  }

  /** With all four values present, the write happens exactly on a score change or a move of more than the window. */
  lemma DebounceExactly(prev: RiskScore, prevLastActive: int, e: Endpoint)
    requires e.riskScore.Some? && e.lastActive.Some?
    ensures ShouldUpdateEndpoint(Some(prev), Some(prevLastActive), e) <==>
      prev != e.riskScore.value || e.lastActive.value > prevLastActive + 30000
  {
  }

  /** A move of exactly the window with an unchanged score writes nothing. */
  lemma DebounceBoundary(prev: RiskScore, prevLastActive: int, e: Endpoint)
    requires e.riskScore == Some(prev) && e.lastActive == Some(prevLastActive + DebounceMillis)
    ensures !ShouldUpdateEndpoint(Some(prev), Some(prevLastActive), e)
  {
  }

  /** Skipping the write means the row already holds every value and the same score. */
  lemma SkippedWriteIsCurrent(prevRiskScore: Option<RiskScore>, prevLastActive: Option<int>, e: Endpoint)
    requires !ShouldUpdateEndpoint(prevRiskScore, prevLastActive, e)
    ensures prevRiskScore.Some? && prevLastActive.Some? && e.riskScore == prevRiskScore && e.lastActive.Some?
    ensures e.lastActive.value <= prevLastActive.value + DebounceMillis
  {
  }

  /** A later `lastActive` never turns a write into a skipped one. */
  lemma UpdateMonotoneInLastActive(prevRiskScore: Option<RiskScore>, prevLastActive: Option<int>, e: Endpoint, later: int)
    requires e.lastActive.Some? && later >= e.lastActive.value
    requires ShouldUpdateEndpoint(prevRiskScore, prevLastActive, e)
    ensures ShouldUpdateEndpoint(prevRiskScore, prevLastActive, e.(lastActive := Some(later)))
  {
  }

  /** The elements of a list separated by `sep`. */
  function Join(elements: seq<string>, sep: string): (r: string)
    ensures |elements| == 0 ==> r == ""
    ensures |elements| == 1 ==> r == elements[0]
    ensures |elements| >= 1 ==> |r| == SumLengths(elements) + (|elements| - 1) * |sep|
  {
    if |elements| == 0 then ""
    else if |elements| == 1 then elements[0]
    else
      var r := Join(elements[..|elements| - 1], sep) + sep + elements[|elements| - 1];
      SumLengthsSnoc(elements);
      r
  }

  function SumLengths(elements: seq<string>): nat {
    if elements == [] then 0 else SumLengths(elements[..|elements| - 1]) + |elements[|elements| - 1]|
  }

  lemma SumLengthsSnoc(elements: seq<string>)
    requires elements != []
    ensures SumLengths(elements) == SumLengths(elements[..|elements| - 1]) + |elements[|elements| - 1]|
  {
  }

  /** `JSON.stringify` of an array whose elements are given as their JSON texts. */
  function Stringify(elements: seq<string>): (r: string)
    ensures |r| >= 2 && r[0] == '[' && r[|r| - 1] == ']'
    ensures r[1..|r| - 1] == Join(elements, ",")
  {
    "[" + Join(elements, ",") + "]"
  }

  /** A body as stored: an array is replaced by its serialization, anything else is kept. */
  function NormalizeBody(b: Body): (r: Body)
    ensures !r.JsonArray?
    ensures !b.JsonArray? ==> r == b
    ensures b.JsonArray? ==> r == Text(Stringify(b.elements))
  {
    match b
    case JsonArray(elements) => Text(Stringify(elements))
    case _ => b
  }

  /** The trace as stored: both bodies normalized, every other field unchanged. */
  function NormalizeTrace(t: Trace): (r: Trace)
    ensures !r.requestBody.JsonArray? && !r.responseBody.JsonArray?
    ensures r.requestBody == NormalizeBody(t.requestBody) && r.responseBody == NormalizeBody(t.responseBody)
    ensures r.(requestBody := t.requestBody, responseBody := t.responseBody) == t
  {
    t.(requestBody := NormalizeBody(t.requestBody), responseBody := NormalizeBody(t.responseBody))
  }

  /** Normalizing a stored trace again changes nothing. */
  lemma NormalizeIdempotent(t: Trace)
    ensures NormalizeTrace(NormalizeTrace(t)) == NormalizeTrace(t)
  {
    var n := NormalizeTrace(t);
    assert NormalizeBody(n.requestBody) == n.requestBody;
    assert NormalizeBody(n.responseBody) == n.responseBody;
  }

  /** The NEW_ENDPOINT alert, back-dated to the trace that revealed the endpoint. */
  function NewEndpointAlert(env: Env, trace: Trace, e: Endpoint): (a: Alert)
    ensures a.createdAt == trace.createdAt && a.updatedAt == trace.createdAt
    ensures a.(createdAt := env.createAlert(NewEndpoint, e).createdAt, updatedAt := env.createAlert(NewEndpoint, e).updatedAt)
            == env.createAlert(NewEndpoint, e)
  {
    env.createAlert(NewEndpoint, e).(createdAt := trace.createdAt, updatedAt := trace.createdAt)
  }

  /**
   * The alerts of one trace: the spec-diff alerts, then the sensitive-data
   * alerts for the new and the updated fields, then, for a just-created
   * endpoint, one NEW_ENDPOINT alert.
   */
  function AssembleAlerts(env: Env, trace: Trace, e: Endpoint, diff: FieldDiff, isNew: bool): (r: seq<Alert>)
    ensures var spec := env.findOpenApiSpecDiff(trace, e);
      var sensitive := env.createDataFieldAlerts(diff.newFields + diff.updatedFields, e.uuid, e.path, trace);
      && |r| == |spec| + |sensitive| + (if isNew then 1 else 0)
      && r[..|spec|] == spec
      && r[|spec|..|spec| + |sensitive|] == sensitive
      && (isNew ==> r[|r| - 1] == NewEndpointAlert(env, trace, e))
  {
    var spec := env.findOpenApiSpecDiff(trace, e);
    var sensitive := env.createDataFieldAlerts(diff.newFields + diff.updatedFields, e.uuid, e.path, trace);
    var alerts := spec + sensitive;
    assert alerts[..|spec|] == spec && alerts[|spec|..] == sensitive;
    if isNew then alerts + [NewEndpointAlert(env, trace, e)] else alerts
  }

  /** An existing endpoint gets no NEW_ENDPOINT alert: its alerts are the spec-diff and sensitive-data ones only. */
  lemma ExistingEndpointNoNewAlert(env: Env, trace: Trace, e: Endpoint, diff: FieldDiff)
    ensures AssembleAlerts(env, trace, e, diff, false) ==
      env.findOpenApiSpecDiff(trace, e) + env.createDataFieldAlerts(diff.newFields + diff.updatedFields, e.uuid, e.path, trace)
  {
    var spec := env.findOpenApiSpecDiff(trace, e);
    var r := AssembleAlerts(env, trace, e, diff, false);
    assert r == r[..|spec|] + r[|spec|..];
  }

  /** A new endpoint's alerts are an existing endpoint's alerts plus exactly the NEW_ENDPOINT one at the end. */
  lemma NewEndpointAddsOneAlert(env: Env, trace: Trace, e: Endpoint, diff: FieldDiff)
    ensures AssembleAlerts(env, trace, e, diff, true) == AssembleAlerts(env, trace, e, diff, false) + [NewEndpointAlert(env, trace, e)]
  {
  }
}
