/**
 * The entities the trace analysis engine reads and writes, and the
 * collaborators it calls but whose code is not part of this model.
 * Timestamps are integer milliseconds since the epoch.
 */
module Domain {
  import opened Wrappers

  type Uuid = string

  /** Risk levels of an endpoint or alert, ordered None < Low < Medium < High < Critical. */
  datatype RiskScore = RiskNone | Low | Medium | High | Critical

  /** A header or query parameter. */
  datatype Pair = Pair(name: string, value: string)

  /**
   * A request or response body as it arrives in a queued trace: plain text,
   * a JSON array (each element already in its JSON text form) or any other
   * JSON value, kept as its text.
   */
  datatype Body = Text(text: string) | JsonArray(elements: seq<string>) | JsonObject(json: string)

  /** One observed request/response pair. */
  datatype Trace = Trace(
    path: string,
    createdAt: int,
    host: string,
    httpMethod: string,
    requestParameters: seq<Pair>,
    requestHeaders: seq<Pair>,
    requestBody: Body,
    responseStatus: int,
    responseHeaders: seq<Pair>,
    responseBody: Body)

  /** A trace as stored: the trace and the endpoint it was filed under. */
  datatype TraceRow = TraceRow(trace: Trace, endpointUuid: Uuid)

  /** One structurally addressable field observed on an endpoint. */
  datatype DataField = DataField(
    uuid: Uuid,
    endpointUuid: Uuid,
    dataPath: string,
    dataSection: string,
    dataClasses: seq<string>,
    dataType: string,
    isNullable: bool)

  /** What the field-diffing collaborator reports for one trace. */
  datatype FieldDiff = FieldDiff(newFields: seq<DataField>, updatedFields: seq<DataField>)

  /**
   * An endpoint. `path` is the parameterised template, `pathRegex` the
   * anchored pattern text. `openapiSpec` is the joined `isAutoGenerated`
   * flag of the endpoint's spec, when it has one; `dataFields` is the
   * relation loaded on demand.
   */
  datatype Endpoint = Endpoint(
    uuid: Uuid,
    path: string,
    pathRegex: string,
    host: string,
    httpMethod: string,
    numberParams: nat,
    isGraphQl: bool,
    riskScore: Option<RiskScore>,
    firstDetected: Option<int>,
    lastActive: Option<int>,
    openapiSpecName: Option<string>,
    openapiSpec: Option<bool>,
    dataFields: set<DataField>)

  /** The three endpoint fields that `endpointUpdateDates` recomputes from a trace. */
  datatype EndpointDates = EndpointDates(
    firstDetected: Option<int>,
    lastActive: Option<int>,
    riskScore: Option<RiskScore>)

  /** An endpoint with its dates and risk score replaced. */
  function WithDates(e: Endpoint, d: EndpointDates): (r: Endpoint)
    ensures r.firstDetected == d.firstDetected && r.lastActive == d.lastActive && r.riskScore == d.riskScore
    ensures r.(firstDetected := e.firstDetected, lastActive := e.lastActive, riskScore := e.riskScore) == e
  {
    e.(firstDetected := d.firstDetected, lastActive := d.lastActive, riskScore := d.riskScore)
  }

  datatype AlertType = NewEndpoint | OtherAlert(name: string)

  datatype Alert = Alert(
    uuid: Uuid,
    alertType: AlertType,
    riskScore: RiskScore,
    endpointUuid: Uuid,
    description: string,
    createdAt: int,
    updatedAt: int)

  /** A failed storage statement, identified by its SQLSTATE code. */
  datatype DbError = DbError(code: string)

  /** The SQLSTATE code of a unique-constraint violation. */
  const UniqueViolation: string := "23505"

  /**
   * The collaborators the engine calls. Their code is not part of this
   * model, so each is an arbitrary total function of what it is given.
   */
  datatype Env = Env(
    isGraphQlEndpoint: string -> bool,
    getPathTokens: string -> seq<string>,
    isSuspectedParamater: string -> bool,
    endpointAddNumberParams: Endpoint -> nat,
    skipAutoGeneratedMatch: (Endpoint, string) -> bool,
    endpointUpdateDates: (int, Endpoint) -> EndpointDates,
    findAllDataFields: (Trace, Endpoint) -> FieldDiff,
    findOpenApiSpecDiff: (Trace, Endpoint) -> seq<Alert>,
    createDataFieldAlerts: (seq<DataField>, Uuid, string, Trace) -> seq<Alert>,
    createAlert: (AlertType, Endpoint) -> Alert)
}
