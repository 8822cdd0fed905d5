/**
 * The in-memory store standing in for the database: an endpoint table
 * keyed by id and unique on (host, method, templated path), an append-only
 * trace table, a
 * data-field table unique on (endpoint, data path, data section), an alert
 * table keyed by alert id, and the log of IP bookkeeping calls. A statement
 * either fails with the error its fault oracle names (the outcome of the
 * bounded retry wrapper around it) or takes effect in full.
 */
module Storage {
  import opened Wrappers
  import opened Domain

  datatype EndpointKey = EndpointKey(host: string, httpMethod: string, path: string)

  function KeyOf(e: Endpoint): EndpointKey {
    EndpointKey(e.host, e.httpMethod, e.path)
  }

  datatype FieldKey = FieldKey(endpointUuid: Uuid, dataPath: string, dataSection: string)

  function FieldKeyOf(f: DataField): FieldKey {
    FieldKey(f.endpointUuid, f.dataPath, f.dataSection)
  }

  function AlertKeyOf(a: Alert): Uuid {
    a.uuid
  }

  /** The tables the engine reads and writes. `specs` maps a spec name to its `isAutoGenerated` flag. */
  datatype Tables = Tables(
    endpoints: seq<Endpoint>,
    specs: map<string, bool>,
    traces: seq<TraceRow>,
    fields: map<FieldKey, DataField>,
    alerts: map<Uuid, Alert>,
    ipLog: seq<TraceRow>)

  /** The statements `analyze` issues inside its transaction. */
  datatype Write =
    | InsertTrace(row: TraceRow)
    | InsertFields(fields: seq<DataField>)
    | SaveFields(fields: seq<DataField>)
    | InsertAlerts(alerts: seq<Alert>)
    | UpdateEndpoint(uuid: Uuid, dates: EndpointDates)
    | UpdateIps(row: TraceRow)

  /** The statements a fault oracle can make fail. */
  datatype Stage = TraceStage | NewFieldsStage | UpdatedFieldsStage | AlertsStage | EndpointStage | IpStage

  function StageOf(w: Write): Stage {
    match w
    case InsertTrace(_) => TraceStage
    case InsertFields(_) => NewFieldsStage
    case SaveFields(_) => UpdatedFieldsStage
    case InsertAlerts(_) => AlertsStage
    case UpdateEndpoint(_, _) => EndpointStage
    case UpdateIps(_) => IpStage
  }

  /** What the store has been asked to do, in order. */
  datatype Event =
    | Began
    | Wrote(w: Write)
    | InsertedEndpoint(endpoint: Endpoint)
    | Committed
    | RolledBack
    | WebhooksSent(alerts: seq<Alert>, endpointUuid: Uuid)

  /** Every entry of the map sits under its own key. */
  ghost predicate Keyed<K(!new), V>(m: map<K, V>, key: V -> K) {
    forall k :: k in m ==> key(m[k]) == k
  }

  predicate FirstWithKey<K(==), V>(vs: seq<V>, key: V -> K, i: nat)
    requires i < |vs|
  {
    forall j :: 0 <= j < i ==> key(vs[j]) != key(vs[i])
  }

  predicate LastWithKey<K(==), V>(vs: seq<V>, key: V -> K, i: nat)
    requires i < |vs|
  {
    forall j :: i < j < |vs| ==> key(vs[j]) != key(vs[i])
  }

  /**
   * A bulk insert that skips rows whose key is already taken: no existing
   * entry is overwritten, every key offered ends up present, and a new key
   * holds the first row offered for it.
   */
  function InsertOrIgnore<K(==,!new), V>(m: map<K, V>, vs: seq<V>, key: V -> K): (r: map<K, V>)
    ensures forall k :: k in m ==> k in r && r[k] == m[k]
    ensures forall k :: k in r ==> k in m || exists i :: 0 <= i < |vs| && key(vs[i]) == k
    ensures forall i :: 0 <= i < |vs| ==> key(vs[i]) in r
    ensures forall i :: 0 <= i < |vs| && key(vs[i]) !in m && FirstWithKey(vs, key, i) ==> r[key(vs[i])] == vs[i]
    ensures Keyed(m, key) ==> Keyed(r, key)
    decreases |vs|
  {
    if vs == [] then m
    else
      var m' := if key(vs[0]) in m then m else m[key(vs[0]) := vs[0]];
      var r := InsertOrIgnore(m', vs[1..], key);
      assert forall i :: 1 <= i < |vs| ==> vs[i] == vs[1..][i - 1];
      assert forall i :: 1 <= i < |vs| && FirstWithKey(vs, key, i) ==> FirstWithKey(vs[1..], key, i - 1);
      r
  }

  /**
   * A bulk save that writes every row under its key: keys not offered keep
   * their entry, and an offered key holds the last row offered for it.
   */
  function Upsert<K(==,!new), V>(m: map<K, V>, vs: seq<V>, key: V -> K): (r: map<K, V>)
    ensures forall k :: k in r <==> k in m || exists i :: 0 <= i < |vs| && key(vs[i]) == k
    ensures forall k :: k in m && (forall i :: 0 <= i < |vs| ==> key(vs[i]) != k) ==> r[k] == m[k]
    ensures forall i :: 0 <= i < |vs| && LastWithKey(vs, key, i) ==> r[key(vs[i])] == vs[i]
    ensures Keyed(m, key) ==> Keyed(r, key)
    decreases |vs|
  {
    if vs == [] then m
    else
      var r := Upsert(m[key(vs[0]) := vs[0]], vs[1..], key);
      assert forall i :: 1 <= i < |vs| ==> vs[i] == vs[1..][i - 1];
      assert forall i :: 1 <= i < |vs| && LastWithKey(vs, key, i) ==> LastWithKey(vs[1..], key, i - 1);
      r
  }

  /**
   * The endpoint update: rows with the given id get the new dates and risk
   * score and keep every other field; all other rows are untouched.
   */
  function SetDates(rows: seq<Endpoint>, uuid: Uuid, d: EndpointDates): (r: seq<Endpoint>)
    ensures |r| == |rows|
    ensures forall i :: 0 <= i < |rows| && rows[i].uuid != uuid ==> r[i] == rows[i]
    ensures forall i :: 0 <= i < |rows| && rows[i].uuid == uuid ==>
      && r[i].firstDetected == d.firstDetected && r[i].lastActive == d.lastActive && r[i].riskScore == d.riskScore
      && r[i].(firstDetected := rows[i].firstDetected, lastActive := rows[i].lastActive, riskScore := rows[i].riskScore) == rows[i]
    decreases |rows|
  {
    if rows == [] then []
    else
      var init := rows[..|rows| - 1];
      var last := rows[|rows| - 1];
      var r := SetDates(init, uuid, d) + [if last.uuid == uuid then WithDates(last, d) else last];
      assert forall i :: 0 <= i < |init| ==> init[i] == rows[i];
      r
  }

  /**
   * One statement taking effect. The trace insert and the IP bookkeeping
   * append their row, the field and alert statements touch only their own
   * table, the endpoint update only the endpoint rows; the spec table is
   * never written.
   */
  function Apply(t: Tables, w: Write): (r: Tables)
    ensures r.specs == t.specs
    ensures r.traces == t.traces + (if w.InsertTrace? then [w.row] else [])
    ensures r.ipLog == t.ipLog + (if w.UpdateIps? then [w.row] else [])
    ensures !w.UpdateEndpoint? ==> r.endpoints == t.endpoints
    ensures !(w.InsertFields? || w.SaveFields?) ==> r.fields == t.fields
    ensures !w.InsertAlerts? ==> r.alerts == t.alerts
  {
    match w
    case InsertTrace(row) => t.(traces := t.traces + [row])
    case InsertFields(fs) => t.(fields := InsertOrIgnore(t.fields, fs, FieldKeyOf))
    case SaveFields(fs) => t.(fields := Upsert(t.fields, fs, FieldKeyOf))
    case InsertAlerts(alerts) => t.(alerts := InsertOrIgnore(t.alerts, alerts, AlertKeyOf))
    case UpdateEndpoint(uuid, d) => t.(endpoints := SetDates(t.endpoints, uuid, d))
    case UpdateIps(row) => t.(ipLog := t.ipLog + [row])
  }

  /** Statements taking effect one after the other. */
  function ApplyAll(t: Tables, ws: seq<Write>): Tables {
    if ws == [] then t else Apply(ApplyAll(t, ws[..|ws| - 1]), ws[|ws| - 1])
  }

  predicate UniqueKeys(rows: seq<Endpoint>) {
    forall i, j :: 0 <= i < j < |rows| ==> KeyOf(rows[i]) != KeyOf(rows[j])
  }

  predicate KeyTaken(rows: seq<Endpoint>, e: Endpoint) {
    exists i :: 0 <= i < |rows| && KeyOf(rows[i]) == KeyOf(e)
  }

  /** The endpoint table's primary key: no two rows share an id. */
  predicate UniqueIds(rows: seq<Endpoint>) {
    forall i, j :: 0 <= i < j < |rows| ==> rows[i].uuid != rows[j].uuid
  }

  predicate IdTaken(rows: seq<Endpoint>, e: Endpoint) {
    exists i :: 0 <= i < |rows| && rows[i].uuid == e.uuid
  }

  /** The storage constraints: one endpoint per id and per key, every field and alert under its own key. */
  ghost predicate ValidTables(t: Tables) {
    UniqueIds(t.endpoints) && UniqueKeys(t.endpoints) && Keyed(t.fields, FieldKeyOf) && Keyed(t.alerts, AlertKeyOf)
  }

  /** The data fields of one endpoint, as the relation is loaded. */
  function LoadFields(t: Tables, uuid: Uuid): (r: set<DataField>)
    ensures forall f :: f in r <==> f in t.fields.Values && f.endpointUuid == uuid
  {
    set k | k in t.fields && t.fields[k].endpointUuid == uuid :: t.fields[k]
  }

  /**
   * The outcome of inserting an endpoint: the oracle's error, else a unique
   * violation if the id or the key is taken.
   */
  function InsertOutcome(rows: seq<Endpoint>, e: Endpoint, fault: Option<DbError>): (o: Outcome<DbError>)
    ensures o.Pass? <==> fault.None? && !IdTaken(rows, e) && !KeyTaken(rows, e)
    ensures fault.None? && (IdTaken(rows, e) || KeyTaken(rows, e)) ==> o == Fail(DbError(UniqueViolation))
    ensures fault.Some? ==> o == Fail(fault.value)
  {
    if fault.Some? then Fail(fault.value)
    else if IdTaken(rows, e) || KeyTaken(rows, e) then Fail(DbError(UniqueViolation))
    else Pass
  }

  lemma InsertKeepsUnique(rows: seq<Endpoint>, e: Endpoint)
    requires UniqueIds(rows) && UniqueKeys(rows) && !IdTaken(rows, e) && !KeyTaken(rows, e)
    ensures UniqueIds(rows + [e]) && UniqueKeys(rows + [e])
  {
    var rows' := rows + [e];
    forall i, j | 0 <= i < j < |rows'| ensures rows'[i].uuid != rows'[j].uuid && KeyOf(rows'[i]) != KeyOf(rows'[j]) {
      if j < |rows| {
        assert rows'[i] == rows[i] && rows'[j] == rows[j];
      } else {
        assert rows'[i] == rows[i];
      }
    }
  }

  /** Every statement keeps the storage constraints. */
  lemma ApplyKeepsValid(t: Tables, w: Write)
    requires ValidTables(t)
    ensures ValidTables(Apply(t, w))
  {
    if w.UpdateEndpoint? {
      var r := SetDates(t.endpoints, w.uuid, w.dates);
      forall i, j | 0 <= i < j < |r| ensures r[i].uuid != r[j].uuid && KeyOf(r[i]) != KeyOf(r[j]) {
        assert r[i].uuid == t.endpoints[i].uuid && KeyOf(r[i]) == KeyOf(t.endpoints[i]);
        assert r[j].uuid == t.endpoints[j].uuid && KeyOf(r[j]) == KeyOf(t.endpoints[j]);
      }
    }
  }

  /** No statement overwrites or removes a stored alert. */
  lemma ApplyKeepsAlerts(t: Tables, w: Write)
    ensures forall k :: k in t.alerts ==> k in Apply(t, w).alerts && Apply(t, w).alerts[k] == t.alerts[k]
  {
  }

  /** The index of the first statement whose oracle reports an error, or the length when none does. */
  function FirstFault(ws: seq<Write>, fault: Stage -> Option<DbError>): (k: nat)
    ensures k <= |ws|
    ensures forall i :: 0 <= i < k ==> fault(StageOf(ws[i])).None?
    ensures k < |ws| ==> fault(StageOf(ws[k])).Some?
    decreases |ws|
  {
    if ws == [] then 0
    else if fault(StageOf(ws[0])).Some? then 0
    else
      var k := 1 + FirstFault(ws[1..], fault);
      assert forall i :: 1 <= i < |ws| ==> ws[i] == ws[1..][i - 1];
      k
  }

  /** The statements that took effect, the tables after them, and the error that stopped the run, if any. */
  datatype RunResult = RunResult(tables: Tables, done: seq<Write>, error: Option<DbError>)

  /** Statements issued in order until the first one fails. */
  function Run(t: Tables, ws: seq<Write>, fault: Stage -> Option<DbError>): (r: RunResult)
    ensures r.done <= ws && r.tables == ApplyAll(t, r.done)
    ensures r.error.None? <==> r.done == ws
    ensures r.error.Some? ==> r.error == fault(StageOf(ws[|r.done|]))
  {
    var k := FirstFault(ws, fault);
    assert ws[..|ws|] == ws;
    RunResult(ApplyAll(t, ws[..k]), ws[..k], if k < |ws| then fault(StageOf(ws[k])) else None)
  }

  /** No statement of the list fails. */
  predicate NoFault(ws: seq<Write>, fault: Stage -> Option<DbError>) {
    forall i :: 0 <= i < |ws| ==> fault(StageOf(ws[i])).None?
  }

  /** A run whose first `k` statements succeed and whose next one fails stops right there. */
  lemma RunStopsAt(t: Tables, ws: seq<Write>, fault: Stage -> Option<DbError>, k: nat)
    requires k < |ws|
    requires NoFault(ws[..k], fault)
    requires fault(StageOf(ws[k])).Some?
    ensures Run(t, ws, fault) == RunResult(ApplyAll(t, ws[..k]), ws[..k], fault(StageOf(ws[k])))
  {
    var j := FirstFault(ws, fault);
    assert forall i :: 0 <= i < k ==> ws[..k][i] == ws[i];
  }

  /** A run in which no statement fails applies them all. */
  lemma RunCompletes(t: Tables, ws: seq<Write>, fault: Stage -> Option<DbError>)
    requires NoFault(ws, fault)
    ensures Run(t, ws, fault) == RunResult(ApplyAll(t, ws), ws, None)
  {
    var j := FirstFault(ws, fault);
    assert ws[..|ws|] == ws;
  }

  /** One more statement after a prefix. */
  lemma ApplyAllStep(t: Tables, ws: seq<Write>, k: nat)
    requires k < |ws|
    ensures ApplyAll(t, ws[..k + 1]) == Apply(ApplyAll(t, ws[..k]), ws[k])
  {
    assert ws[..k + 1][..k] == ws[..k];
  }

  /** The first four statements, one after the other. */
  lemma ApplyAllFirstFour(t: Tables, ws: seq<Write>)
    requires |ws| >= 4
    ensures ApplyAll(t, ws[..4]) == Apply(Apply(Apply(Apply(t, ws[0]), ws[1]), ws[2]), ws[3])
  {
    var w2, w4 := ws[..2], ws[..4];
    ApplyAllLastTwo(t, w4);
    assert w4[..2] == w2 && w4[2] == ws[2] && w4[3] == ws[3];
    ApplyAllLastTwo(t, w2);
    assert w2[..0] == [] && w2[0] == ws[0] && w2[1] == ws[1];
  }

  /** The last statement after all the others. */
  lemma ApplyAllLast(t: Tables, ws: seq<Write>)
    requires ws != []
    ensures ApplyAll(t, ws) == Apply(ApplyAll(t, ws[..|ws| - 1]), ws[|ws| - 1])
  {
  }

  /** The last two statements after all the others. */
  lemma ApplyAllLastTwo(t: Tables, ws: seq<Write>)
    requires |ws| >= 2
    ensures ApplyAll(t, ws) == Apply(Apply(ApplyAll(t, ws[..|ws| - 2]), ws[|ws| - 2]), ws[|ws| - 1])
  {
    assert ws[..|ws| - 1][..|ws| - 2] == ws[..|ws| - 2];
  }

  /** The journal entries of one more statement after a prefix. */
  lemma WrotesStep(ws: seq<Write>, k: nat)
    requires k < |ws|
    ensures Wrotes(ws[..k + 1]) == Wrotes(ws[..k]) + [Wrote(ws[k])]
  {
    assert ws[..k + 1][..k] == ws[..k];
  }

  /** A fault-free prefix followed by a statement that does not fail. */
  lemma NoFaultStep(ws: seq<Write>, fault: Stage -> Option<DbError>, k: nat)
    requires k < |ws| && NoFault(ws[..k], fault) && fault(StageOf(ws[k])).None?
    ensures NoFault(ws[..k + 1], fault)
  {
    assert forall i :: 0 <= i < k ==> ws[..k + 1][i] == ws[..k][i];
  }

  lemma {:induction false} ApplyAllKeepsValid(t: Tables, ws: seq<Write>)
    requires ValidTables(t)
    ensures ValidTables(ApplyAll(t, ws))
    decreases |ws|
  {
    if ws != [] {
      ApplyAllKeepsValid(t, ws[..|ws| - 1]);
      ApplyKeepsValid(ApplyAll(t, ws[..|ws| - 1]), ws[|ws| - 1]);
    }
  }

  lemma {:induction false} ApplyAllKeepsAlerts(t: Tables, ws: seq<Write>)
    ensures forall k :: k in t.alerts ==> k in ApplyAll(t, ws).alerts && ApplyAll(t, ws).alerts[k] == t.alerts[k]
    decreases |ws|
  {
    if ws != [] {
      ApplyAllKeepsAlerts(t, ws[..|ws| - 1]);
      ApplyKeepsAlerts(ApplyAll(t, ws[..|ws| - 1]), ws[|ws| - 1]);
    }
  }

  /** The events recording that statements were written. */
  function Wrotes(ws: seq<Write>): (r: seq<Event>)
    ensures |r| == |ws| && forall i :: 0 <= i < |ws| ==> r[i] == Wrote(ws[i])
  {
    if ws == [] then [] else Wrotes(ws[..|ws| - 1]) + [Wrote(ws[|ws| - 1])]
  }

  /**
   * The database connection: its tables, whether a transaction is open, the
   * tables as they were when it opened, and the journal of what was asked.
   */
  class Store {
    var endpoints: seq<Endpoint>
    var specs: map<string, bool>
    var traces: seq<TraceRow>
    var fields: map<FieldKey, DataField>
    var alerts: map<Uuid, Alert>
    var ipLog: seq<TraceRow>
    var txActive: bool
    var snapshot: Tables
    var journal: seq<Event>

    function State(): Tables
      reads this
    {
      Tables(endpoints, specs, traces, fields, alerts, ipLog)
    }

    ghost predicate Valid()
      reads this
    {
      ValidTables(State()) && (txActive ==> ValidTables(snapshot))
    }

    constructor (initial: Tables)
      requires ValidTables(initial)
      ensures Valid() && State() == initial && !txActive && journal == []
    {
      endpoints := initial.endpoints;
      specs := initial.specs;
      traces := initial.traces;
      fields := initial.fields;
      alerts := initial.alerts;
      ipLog := initial.ipLog;
      txActive := false;
      snapshot := initial;
      journal := [];
    }

    method StartTransaction()
      requires Valid() && !txActive
      modifies this
      ensures Valid() && txActive && State() == old(State()) && snapshot == old(State())
      ensures journal == old(journal) + [Began]
    {
      txActive := true;
      snapshot := State();
      journal := journal + [Began];
    }

    method Commit()
      requires Valid() && txActive
      modifies this
      ensures Valid() && !txActive && State() == old(State()) && snapshot == old(snapshot)
      ensures journal == old(journal) + [Committed]
    {
      txActive := false;
      journal := journal + [Committed];
    }

    method Rollback()
      requires Valid() && txActive
      modifies this
      ensures Valid() && !txActive && State() == old(snapshot) && snapshot == old(snapshot)
      ensures journal == old(journal) + [RolledBack]
    {
      endpoints := snapshot.endpoints;
      specs := snapshot.specs;
      traces := snapshot.traces;
      fields := snapshot.fields;
      alerts := snapshot.alerts;
      ipLog := snapshot.ipLog;
      txActive := false;
      journal := journal + [RolledBack];
    }

    /** One statement of `analyze`, as it comes out of the retry wrapper. */
    method Execute(w: Write, fault: Option<DbError>) returns (o: Outcome<DbError>)
      requires Valid() && txActive
      modifies this
      ensures Valid() && txActive && snapshot == old(snapshot)
      ensures fault.Some? ==> o == Fail(fault.value) && State() == old(State()) && journal == old(journal)
      ensures fault.None? ==> o == Pass && State() == Apply(old(State()), w) && journal == old(journal) + [Wrote(w)]
    {
      if fault.Some? {
        return Fail(fault.value);
      }
      ApplyKeepsValid(State(), w);
      match w {
        case InsertTrace(row) => traces := traces + [row];
        case InsertFields(fs) => fields := InsertOrIgnore(fields, fs, FieldKeyOf);
        case SaveFields(fs) => fields := Upsert(fields, fs, FieldKeyOf);
        case InsertAlerts(newAlerts) => alerts := InsertOrIgnore(alerts, newAlerts, AlertKeyOf);
        case UpdateEndpoint(uuid, d) => endpoints := SetDates(endpoints, uuid, d);
        case UpdateIps(row) => ipLog := ipLog + [row];
      }
      journal := journal + [Wrote(w)];
      o := Pass;
    }

    /** The endpoint insert of `generateEndpoint`, checked against the endpoint table's primary and unique keys. */
    method InsertEndpoint(e: Endpoint, fault: Option<DbError>) returns (o: Outcome<DbError>)
      requires Valid() && txActive
      modifies this
      ensures Valid() && txActive && snapshot == old(snapshot)
      ensures o == InsertOutcome(old(endpoints), e, fault)
      ensures o.Pass? ==> State() == old(State()).(endpoints := old(endpoints) + [e]) && journal == old(journal) + [InsertedEndpoint(e)]
      ensures o.Fail? ==> State() == old(State()) && journal == old(journal)
    {
      if fault.Some? {
        return Fail(fault.value);
      }
      if IdTaken(endpoints, e) || KeyTaken(endpoints, e) {
        return Fail(DbError(UniqueViolation));
      }
      InsertKeepsUnique(endpoints, e);
      endpoints := endpoints + [e];
      journal := journal + [InsertedEndpoint(e)];
      o := Pass;
    }

    /** Webhook delivery, which happens outside any transaction. */
    method SendWebhooks(sent: seq<Alert>, endpointUuid: Uuid)
      requires Valid() && !txActive
      modifies this
      ensures Valid() && !txActive && State() == old(State()) && snapshot == old(snapshot)
      ensures journal == old(journal) + [WebhooksSent(sent, endpointUuid)]
    {
      journal := journal + [WebhooksSent(sent, endpointUuid)];
    }
  }
}
