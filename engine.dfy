/**
 * The orchestration of one queued trace: `analyze` (compute, then write in a
 * fixed order inside one transaction, then notify), `generateEndpoint`
 * (create the endpoint, recover from a unique-key conflict by refetching)
 * and the body of the consumer loop. Each imperative routine is proved equal
 * to a pure effect function over the tables, the events it adds to the
 * store's journal, its outcome and the transaction it leaves open.
 */
module Engine {
  import opened Wrappers
  import opened Domain
  import opened Templater
  import opened Resolver
  import opened Analysis
  import opened Storage

  /** What `analyze` decides before it writes anything. */
  datatype Plan = Plan(updated: Endpoint, diff: FieldDiff, alerts: seq<Alert>, row: TraceRow, update: bool)

  /**
   * The endpoint gets the recomputed dates and nothing else; the field diff
   * and the alerts are computed from the trace as it arrived, before its
   * bodies are normalized; the stored row is the normalized trace filed
   * under the endpoint's id; the write-back is due by the debounce on the
   * values the endpoint held before.
   */
  function MakePlan(env: Env, trace: Trace, e: Endpoint, isNew: bool): (r: Plan)
    ensures r.updated.(firstDetected := e.firstDetected, lastActive := e.lastActive, riskScore := e.riskScore) == e
    ensures DatesOf(r.updated) == env.endpointUpdateDates(trace.createdAt, e)
    ensures r.diff == env.findAllDataFields(trace, r.updated)
    ensures r.alerts == AssembleAlerts(env, trace, r.updated, r.diff, isNew)
    ensures r.row == TraceRow(NormalizeTrace(trace), e.uuid)
    ensures r.update <==> ShouldUpdateEndpoint(e.riskScore, e.lastActive, r.updated)
  {
    var updated := WithDates(e, env.endpointUpdateDates(trace.createdAt, e));
    var diff := env.findAllDataFields(trace, updated);
    Plan(updated, diff, AssembleAlerts(env, trace, updated, diff, isNew),
         TraceRow(NormalizeTrace(trace), updated.uuid),
         ShouldUpdateEndpoint(e.riskScore, e.lastActive, updated))
  }

  function DatesOf(e: Endpoint): EndpointDates {
    EndpointDates(e.firstDetected, e.lastActive, e.riskScore)
  }

  /**
   * The statements of `analyze`, in the order it issues them: the trace row
   * first, the IP bookkeeping last, and the endpoint update just before it
   * exactly when it is due.
   */
  function Writes(p: Plan): (r: seq<Write>)
    ensures |r| == if p.update then 6 else 5
    ensures r[0] == InsertTrace(p.row) && r[|r| - 1] == UpdateIps(p.row)
    ensures r[|r| - 2].UpdateEndpoint? <==> p.update
    ensures p.update ==> r[|r| - 2] == UpdateEndpoint(p.updated.uuid, DatesOf(p.updated))
  {
    if p.update then
      [InsertTrace(p.row), InsertFields(p.diff.newFields), SaveFields(p.diff.updatedFields), InsertAlerts(p.alerts),
       UpdateEndpoint(p.updated.uuid, DatesOf(p.updated)), UpdateIps(p.row)]
    else
      [InsertTrace(p.row), InsertFields(p.diff.newFields), SaveFields(p.diff.updatedFields), InsertAlerts(p.alerts),
       UpdateIps(p.row)]
  }

  /**
   * What a routine did: the tables after it, the events it added to the
   * journal, its outcome, and whether it left a transaction open (and then
   * the tables that transaction started from).
   */
  datatype Effect = Effect(tables: Tables, events: seq<Event>, outcome: Outcome<DbError>, open: bool, snapshot: Tables)

  function Unchanged(t: Tables): Effect {
    Effect(t, [], Pass, false, t)
  }

  /**
   * `analyze`: the statements up to the first failure; on success, commit
   * and then the webhooks. It fails exactly when it leaves its transaction
   * open, over the tables it started from.
   */
  function AnalyzeEffect(t: Tables, env: Env, trace: Trace, e: Endpoint, isNew: bool, fault: Stage -> Option<DbError>): (r: Effect)
    ensures r.outcome.Pass? <==> !r.open
    ensures r.open ==> r.snapshot == t
  {
    RunPlan(t, MakePlan(env, trace, e, isNew), fault)
  }

  /**
   * The transactional half of `analyze`: it opens with `Began`; it succeeds
   * exactly when it closes its transaction, and then every statement took
   * effect and the webhooks are the last event; otherwise the transaction is
   * left open over the tables it started from.
   */
  function RunPlan(t: Tables, p: Plan, fault: Stage -> Option<DbError>): (r: Effect)
    ensures |r.events| > 0 && r.events[0] == Began
    ensures r.outcome.Pass? <==> !r.open
    ensures r.open ==> r.snapshot == t
    ensures r.outcome.Pass? ==> r.tables == ApplyAll(t, Writes(p)) && r.events[|r.events| - 1] == WebhooksSent(p.alerts, p.updated.uuid)
  {
    var ws := Writes(p);
    var r := Run(t, ws, fault);
    if r.error.None? then
      Effect(r.tables, [Began] + Wrotes(ws) + [Committed, WebhooksSent(p.alerts, p.updated.uuid)], Pass, false, r.tables)
    else
      Effect(r.tables, [Began] + Wrotes(r.done), Fail(r.error.value), true, t)
  }

  /** The error outcomes of one delivery: the endpoint insert, the first `analyze`, the one after a refetch. */
  datatype Faults = Faults(insert: Option<DbError>, first: Stage -> Option<DbError>, retry: Stage -> Option<DbError>)

  /**
   * The catch block of `generateEndpoint`, entered with the tables after the
   * rollback: on a unique violation, refetch by the trace's own path, host
   * and method and analyze what is found as an existing endpoint; any other
   * error is logged and the trace abandoned.
   */
  function RecoverEffect(t: Tables, err: DbError, env: Env, trace: Trace, retry: Stage -> Option<DbError>): (r: Effect)
    ensures err.code != UniqueViolation ==> r == Unchanged(t)
    ensures FindByPath(t.endpoints, trace.path, trace.host, trace.httpMethod).None? ==> r == Unchanged(t)
    ensures r.outcome.Pass? <==> !r.open
    ensures r.open ==> r.snapshot == t
  {
    if err.code == UniqueViolation then
      match FindByPath(t.endpoints, trace.path, trace.host, trace.httpMethod)
      case None => Unchanged(t)
      case Some(x) => AnalyzeEffect(t, env, trace, x.(dataFields := LoadFields(t, x.uuid)), false, retry)
    else Unchanged(t)
  }

  /** An effect preceded by the events of what ran before it. */
  function After(events: seq<Event>, eff: Effect): Effect {
    eff.(events := events + eff.events)
  }

  /**
   * The loop's catch block: a failure that left a transaction open rolls it
   * back to the tables it started from; anything else is left as it is.
   */
  function Settle(eff: Effect): (r: Effect)
    ensures r.outcome == eff.outcome
    ensures !eff.open ==> r == eff
    ensures eff.open && eff.outcome.Fail? ==> r.tables == eff.snapshot && r.events == eff.events + [RolledBack] && !r.open
  {
    if eff.outcome.Fail? && eff.open then Effect(eff.snapshot, eff.events + [RolledBack], eff.outcome, false, eff.snapshot)
    else eff
  }

  /**
   * The try block of `generateEndpoint`: insert and commit the endpoint, then
   * analyze the trace as a new endpoint. A rejected insert leaves its
   * transaction open over the unchanged tables; once the insert passed, the
   * row is committed before `analyze` opens its own transaction, so a
   * failure of `analyze` leaves one open over the tables holding the row.
   */
  function TryEffect(t: Tables, env: Env, trace: Trace, e: Endpoint, faults: Faults): (r: Effect)
    ensures r.outcome.Pass? <==> !r.open
    ensures InsertOutcome(t.endpoints, e, faults.insert).Fail? ==>
      r.outcome == InsertOutcome(t.endpoints, e, faults.insert) && r.tables == t && r.snapshot == t && r.events == [Began]
    ensures InsertOutcome(t.endpoints, e, faults.insert).Pass? ==>
      && |r.events| > 3 && r.events[..3] == [Began, InsertedEndpoint(e), Committed]
      && (r.open ==> r.snapshot == t.(endpoints := t.endpoints + [e]))
  {
    var ins := InsertOutcome(t.endpoints, e, faults.insert);
    if ins.Fail? then Effect(t, [Began], ins, true, t)
    else After([Began, InsertedEndpoint(e), Committed], AnalyzeEffect(t.(endpoints := t.endpoints + [e]), env, trace, e, true, faults.first))
  }

  /**
   * `generateEndpoint`: the try block, and on failure the rollback and the
   * catch block. `analyze` normalizes the bodies of the caller's trace in
   * place before its first statement, so once the insert went through the
   * catch block works on the normalized trace. Nothing happens without a
   * pattern body, and a failure can only come from the `analyze` after a
   * refetch, which leaves its transaction open.
   */
  function GenerateEffect(t: Tables, env: Env, trace: Trace, uuid: Uuid, faults: Faults): (r: Effect)
    ensures CandidateEndpoint(env, trace, uuid).None? ==> r == Unchanged(t)
    ensures r.outcome.Pass? <==> !r.open
  {
    match CandidateEndpoint(env, trace, uuid)
    case None => Unchanged(t)
    case Some(e) =>
      var a := TryEffect(t, env, trace, e, faults);
      if a.outcome.Pass? then a
      else
        var s := Settle(a);
        var seen := if InsertOutcome(t.endpoints, e, faults.insert).Pass? then NormalizeTrace(trace) else trace;
        After(s.events, RecoverEffect(s.tables, a.outcome.error, env, seen, faults.retry))
  }

  /** One queued trace, with the id the new endpoint would get and the error outcomes of its statements. */
  datatype Delivery = Delivery(trace: Trace, newUuid: Uuid, faults: Faults)

  /** One iteration of the consumer loop for a delivered trace: it never leaves a transaction open, and a failure ends with the rollback. */
  function ProcessEffect(t: Tables, env: Env, d: Delivery): (r: Effect)
    ensures !r.open
    ensures r.outcome.Fail? ==> |r.events| > 0 && r.events[|r.events| - 1] == RolledBack
  {
    match Dispatch(Resolve(t.endpoints, t.specs, d.trace), d.trace, env.skipAutoGeneratedMatch)
    case AnalyzeExisting(x) =>
      Settle(AnalyzeEffect(t, env, d.trace, x.(dataFields := LoadFields(t, x.uuid)), false, d.faults.first))
    case Drop => Unchanged(t)
    case Generate => Settle(GenerateEffect(t, env, d.trace, d.newUuid, d.faults))
  }

  datatype QueueResult = QueueResult(tables: Tables, events: seq<Event>)

  /** The loop over a finite run of polls; an empty poll (or an unreadable item) does nothing. */
  function ProcessQueue(t: Tables, env: Env, queue: seq<Option<Delivery>>): (r: QueueResult)
    ensures (forall i :: 0 <= i < |queue| ==> queue[i].None?) ==> r == QueueResult(t, [])
  {
    if queue == [] then QueueResult(t, [])
    else
      var before := ProcessQueue(t, env, queue[..|queue| - 1]);
      match queue[|queue| - 1]
      case None => before
      case Some(d) =>
        var eff := ProcessEffect(before.tables, env, d);
        QueueResult(eff.tables, before.events + eff.events)
  }

  /** One more poll of the loop. */
  lemma ProcessQueueStep(t: Tables, env: Env, queue: seq<Option<Delivery>>, i: nat)
    requires i < |queue|
    ensures var before := ProcessQueue(t, env, queue[..i]);
      ProcessQueue(t, env, queue[..i + 1]) ==
        if queue[i].None? then before
        else QueueResult(ProcessEffect(before.tables, env, queue[i].value).tables,
                         before.events + ProcessEffect(before.tables, env, queue[i].value).events)
  {
    assert queue[..i + 1][..i] == queue[..i];
  }

  /** One more successful statement of the plan. */
  lemma Advance(t: Tables, ws: seq<Write>, fault: Stage -> Option<DbError>, k: nat)
    requires k < |ws| && NoFault(ws[..k], fault) && fault(StageOf(ws[k])).None?
    ensures ApplyAll(t, ws[..k + 1]) == Apply(ApplyAll(t, ws[..k]), ws[k])
    ensures Wrotes(ws[..k + 1]) == Wrotes(ws[..k]) + [Wrote(ws[k])]
    ensures NoFault(ws[..k + 1], fault)
  {
    ApplyAllStep(t, ws, k);
    WrotesStep(ws, k);
    NoFaultStep(ws, fault, k);
  }

  /** A plan stopped by the failure of its `k`-th statement. */
  lemma PlanStopsAt(t: Tables, p: Plan, fault: Stage -> Option<DbError>, k: nat)
    requires k < |Writes(p)|
    requires NoFault(Writes(p)[..k], fault)
    requires fault(StageOf(Writes(p)[k])).Some?
    ensures RunPlan(t, p, fault) ==
      Effect(ApplyAll(t, Writes(p)[..k]), [Began] + Wrotes(Writes(p)[..k]), Fail(fault(StageOf(Writes(p)[k])).value), true, t)
  {
    RunStopsAt(t, Writes(p), fault, k);
  }

  /** A plan in which every statement succeeds. */
  lemma PlanCompletes(t: Tables, p: Plan, fault: Stage -> Option<DbError>)
    requires NoFault(Writes(p), fault)
    ensures RunPlan(t, p, fault) ==
      Effect(ApplyAll(t, Writes(p)), [Began] + Wrotes(Writes(p)) + [Committed, WebhooksSent(p.alerts, p.updated.uuid)], Pass, false, ApplyAll(t, Writes(p)))
  {
    RunCompletes(t, Writes(p), fault);
  }

  /** What a routine can observe of the store. */
  datatype View = View(tables: Tables, journal: seq<Event>, txActive: bool, snapshot: Tables)

  function Observe(store: Store): View
    reads store
  {
    View(store.State(), store.journal, store.txActive, store.snapshot)
  }

  /**
   * The store as a routine leaves it: the effect's tables, the journal grown
   * by the effect's events, the effect's outcome, and a transaction open
   * exactly when the routine failed, from the effect's snapshot.
   */
  ghost predicate Leaves(store: Store, t0: Tables, j0: seq<Event>, eff: Effect, o: Outcome<DbError>)
    reads store
  {
    && store.Valid() && (store.txActive <==> o.Fail?)
    && store.State() == eff.tables && store.journal == j0 + eff.events && o == eff.outcome
    && store.txActive == eff.open && (eff.open ==> store.snapshot == eff.snapshot)
  }

  /** The store part-way through a plan: the first `k` statements took effect inside the open transaction. */
  function Midway(t0: Tables, j0: seq<Event>, ws: seq<Write>, k: nat): View
    requires k <= |ws|
  {
    View(ApplyAll(t0, ws[..k]), j0 + [Began] + Wrotes(ws[..k]), true, t0)
  }

  ghost predicate AtStep(store: Store, t0: Tables, j0: seq<Event>, ws: seq<Write>, fault: Stage -> Option<DbError>, k: nat)
    reads store
  {
    ValidTables(t0) && k <= |ws| && NoFault(ws[..k], fault) && Observe(store) == Midway(t0, j0, ws, k)
  }

  /** A plan stopped by its `k`-th statement, as the method leaves it. */
  lemma StoppedAt(store: Store, t0: Tables, j0: seq<Event>, p: Plan, fault: Stage -> Option<DbError>, k: nat, o: Outcome<DbError>)
    requires AtStep(store, t0, j0, Writes(p), fault, k) && k < |Writes(p)|
    requires o.Fail? && fault(StageOf(Writes(p)[k])) == Some(o.error)
    ensures Leaves(store, t0, j0, RunPlan(t0, p, fault), o)
  {
    ApplyAllKeepsValid(t0, Writes(p)[..k]);
    PlanStopsAt(t0, p, fault, k);
  }

  /** Issue the plan's `k`-th statement. A failure leaves the store as the whole plan does. */
  method Step(store: Store, p: Plan, w: Write, fault: Stage -> Option<DbError>, ghost t0: Tables, ghost j0: seq<Event>, ghost k: nat)
    returns (o: Outcome<DbError>)
    requires AtStep(store, t0, j0, Writes(p), fault, k) && k < |Writes(p)| && Writes(p)[k] == w
    modifies store
    ensures o.Pass? ==> AtStep(store, t0, j0, Writes(p), fault, k + 1)
    ensures o.Fail? ==> Leaves(store, t0, j0, RunPlan(t0, p, fault), o)
  {
    ApplyAllKeepsValid(t0, Writes(p)[..k]);
    o := store.Execute(w, fault(StageOf(w)));
    if o.Pass? {
      Advance(t0, Writes(p), fault, k);
    } else {
      StoppedAt(store, t0, j0, p, fault, k, o);
    }
  }

  /** A plan whose every statement took effect, as the method leaves it before committing. */
  lemma Finished(store: Store, t0: Tables, j0: seq<Event>, p: Plan, fault: Stage -> Option<DbError>)
    requires AtStep(store, t0, j0, Writes(p), fault, |Writes(p)|)
    ensures var eff := RunPlan(t0, p, fault);
      && eff.outcome == Pass && !eff.open && eff.tables == store.State()
      && j0 + eff.events == store.journal + [Committed, WebhooksSent(p.alerts, p.updated.uuid)]
  {
    var ws := Writes(p);
    assert ws[..|ws|] == ws;
    PlanCompletes(t0, p, fault);
  }

  /**
   * The transactional half of `analyze`: open the transaction, issue the
   * plan's statements in order, commit, send the webhooks. A failing
   * statement returns with the transaction still open; rolling it back is
   * the caller's catch block.
   */
  method Persist(store: Store, p: Plan, fault: Stage -> Option<DbError>) returns (o: Outcome<DbError>)
    requires store.Valid() && !store.txActive
    modifies store
    ensures Leaves(store, old(store.State()), old(store.journal), RunPlan(old(store.State()), p, fault), o)
  {
    ghost var t0, j0 := store.State(), store.journal;
    store.StartTransaction();
    assert Writes(p)[..0] == [];
    o := Step(store, p, InsertTrace(p.row), fault, t0, j0, 0);
    if o.Fail? { return; }
    o := Step(store, p, InsertFields(p.diff.newFields), fault, t0, j0, 1);
    if o.Fail? { return; }
    o := Record(store, p, fault, t0, j0);
  }

  /** The writes of the updated fields and of the alerts, then the rest of the plan. */
  method Record(store: Store, p: Plan, fault: Stage -> Option<DbError>, ghost t0: Tables, ghost j0: seq<Event>)
    returns (o: Outcome<DbError>)
    requires AtStep(store, t0, j0, Writes(p), fault, 2)
    modifies store
    ensures Leaves(store, t0, j0, RunPlan(t0, p, fault), o)
  {
    o := Step(store, p, SaveFields(p.diff.updatedFields), fault, t0, j0, 2);
    if o.Fail? { return; }
    o := Step(store, p, InsertAlerts(p.alerts), fault, t0, j0, 3);
    if o.Fail? { return; }
    o := Conclude(store, p, fault, t0, j0);
  }

  /** The rest of the plan: the endpoint update when it is due, the IP bookkeeping, the commit and the webhooks. */
  method Conclude(store: Store, p: Plan, fault: Stage -> Option<DbError>, ghost t0: Tables, ghost j0: seq<Event>)
    returns (o: Outcome<DbError>)
    requires AtStep(store, t0, j0, Writes(p), fault, 4)
    modifies store
    ensures Leaves(store, t0, j0, RunPlan(t0, p, fault), o)
  {
    if p.update {
      o := Step(store, p, UpdateEndpoint(p.updated.uuid, DatesOf(p.updated)), fault, t0, j0, 4);
      if o.Fail? { return; }
      o := Close(store, p, fault, t0, j0, 5);
    } else {
      o := Close(store, p, fault, t0, j0, 4);
    }
  }

  /** The IP bookkeeping, the last statement of the plan, then the commit and the webhooks. */
  method Close(store: Store, p: Plan, fault: Stage -> Option<DbError>, ghost t0: Tables, ghost j0: seq<Event>, ghost k: nat)
    returns (o: Outcome<DbError>)
    requires k == |Writes(p)| - 1 && AtStep(store, t0, j0, Writes(p), fault, k)
    modifies store
    ensures Leaves(store, t0, j0, RunPlan(t0, p, fault), o)
  {
    o := Step(store, p, UpdateIps(p.row), fault, t0, j0, k);
    if o.Fail? { return; }
    Finished(store, t0, j0, p, fault);
    ApplyAllKeepsValid(t0, Writes(p));
    store.Commit();
    store.SendWebhooks(p.alerts, p.updated.uuid);
  }

  /**
   * `analyze` for an endpoint the caller already holds: snapshot the score
   * and `lastActive`, update the dates, diff the fields, assemble the
   * alerts, normalize the bodies, then persist. The caller's trace is
   * updated in place by the normalization; `current` is that trace as the
   * caller holds it afterwards.
   */
  method Analyze(store: Store, env: Env, trace: Trace, apiEndpoint: Endpoint, newEndpoint: bool, fault: Stage -> Option<DbError>)
    returns (o: Outcome<DbError>, current: Trace)
    requires store.Valid() && !store.txActive
    modifies store
    ensures Leaves(store, old(store.State()), old(store.journal), AnalyzeEffect(old(store.State()), env, trace, apiEndpoint, newEndpoint, fault), o)
    ensures current == NormalizeTrace(trace)
  {
    var prevRiskScore := apiEndpoint.riskScore;
    var prevLastActive := apiEndpoint.lastActive;
    var endpoint := WithDates(apiEndpoint, env.endpointUpdateDates(trace.createdAt, apiEndpoint));
    var dataFields := env.findAllDataFields(trace, endpoint);
    var alerts := AssembleAlerts(env, trace, endpoint, dataFields, newEndpoint);
    current := NormalizeTrace(trace);
    var row := TraceRow(current, endpoint.uuid);
    var update := ShouldUpdateEndpoint(prevRiskScore, prevLastActive, endpoint);
    o := Persist(store, Plan(endpoint, dataFields, alerts, row, update), fault);
  }

  /**
   * `generateEndpoint`: build the endpoint, insert and commit it, analyze the
   * trace as a new endpoint; on any failure roll back an open transaction,
   * then recover from a unique violation by refetching.
   */
  method GenerateEndpoint(store: Store, env: Env, trace: Trace, uuid: Uuid, faults: Faults) returns (o: Outcome<DbError>)
    requires store.Valid() && !store.txActive
    modifies store
    ensures Leaves(store, old(store.State()), old(store.journal), GenerateEffect(old(store.State()), env, trace, uuid, faults), o)
  {
    var candidate := BuildEndpoint(env, trace, uuid);
    if candidate.None? {
      return Pass;
    }
    ghost var t0, j0 := store.State(), store.journal;
    var current;
    o, current := InsertAndAnalyze(store, env, trace, candidate.value, faults);
    if o.Pass? {
      return;
    }
    ghost var s := Settle(TryEffect(t0, env, trace, candidate.value, faults));
    var err := o.error;
    if store.txActive {
      store.Rollback();
    }
    assert store.journal == j0 + s.events;
    o := Recover(store, env, current, err, faults.retry);
    Regroup(j0, s.events, RecoverEffect(s.tables, err, env, current, faults.retry).events);
  }

  /**
   * The try block of `generateEndpoint`. A failure leaves the transaction
   * open; `current` is the caller's trace afterwards, normalized once
   * `analyze` ran.
   */
  method InsertAndAnalyze(store: Store, env: Env, trace: Trace, apiEndpoint: Endpoint, faults: Faults)
    returns (o: Outcome<DbError>, current: Trace)
    requires store.Valid() && !store.txActive
    modifies store
    ensures Leaves(store, old(store.State()), old(store.journal), TryEffect(old(store.State()), env, trace, apiEndpoint, faults), o)
    ensures current == if InsertOutcome(old(store.endpoints), apiEndpoint, faults.insert).Pass? then NormalizeTrace(trace) else trace
  {
    ghost var j0 := store.journal;
    current := trace;
    store.StartTransaction();
    o := store.InsertEndpoint(apiEndpoint, faults.insert);
    if o.Fail? {
      return;
    }
    store.Commit();
    ghost var t1 := store.State();
    assert store.journal == j0 + [Began, InsertedEndpoint(apiEndpoint), Committed];
    o, current := Analyze(store, env, trace, apiEndpoint, true, faults.first);
    Regroup(j0, [Began, InsertedEndpoint(apiEndpoint), Committed], AnalyzeEffect(t1, env, trace, apiEndpoint, true, faults.first).events);
  }

  /** The catch block of `generateEndpoint`, after the rollback. */
  method Recover(store: Store, env: Env, trace: Trace, err: DbError, retry: Stage -> Option<DbError>) returns (o: Outcome<DbError>)
    requires store.Valid() && !store.txActive
    modifies store
    ensures Leaves(store, old(store.State()), old(store.journal), RecoverEffect(old(store.State()), err, env, trace, retry), o)
  {
    if err.code == UniqueViolation {
      var existingEndpoint := FindByPath(store.endpoints, trace.path, trace.host, trace.httpMethod);
      if existingEndpoint.Some? {
        var withFields := existingEndpoint.value.(dataFields := LoadFields(store.State(), existingEndpoint.value.uuid));
        var analyzed;
        o, analyzed := Analyze(store, env, trace, withFields, false, retry);
        return;
      }
    }
    o := Pass;
  }

  /** The body of the consumer loop for one delivered trace, with its catch block. */
  method ProcessTrace(store: Store, env: Env, d: Delivery)
    requires store.Valid() && !store.txActive
    modifies store
    ensures store.Valid() && !store.txActive
    ensures store.State() == ProcessEffect(old(store.State()), env, d).tables
    ensures store.journal == old(store.journal) + ProcessEffect(old(store.State()), env, d).events
  {
    ghost var t0, j0 := store.State(), store.journal;
    var trace := d.trace;
    var apiEndpoint := Resolve(store.endpoints, store.specs, trace);
    var o: Outcome<DbError> := Pass;
    ghost var eff := Unchanged(t0);
    if apiEndpoint.Some? && !env.skipAutoGeneratedMatch(apiEndpoint.value, trace.path) {
      var withFields := apiEndpoint.value.(dataFields := LoadFields(store.State(), apiEndpoint.value.uuid));
      var analyzed;
      o, analyzed := Analyze(store, env, trace, withFields, false, d.faults.first);
      eff := AnalyzeEffect(t0, env, trace, withFields, false, d.faults.first);
    } else if trace.responseStatus != 404 && trace.responseStatus != 405 {
      o := GenerateEndpoint(store, env, trace, d.newUuid, d.faults);
      eff := GenerateEffect(t0, env, trace, d.newUuid, d.faults);
    }
    assert ProcessEffect(t0, env, d) == Settle(eff);
    if o.Fail? {
      if store.txActive {
        store.Rollback();
        Regroup(j0, eff.events, [RolledBack]);
      }
    }
  }

  /** The consumer loop over a finite run of polls. */
  method AnalyzeTraces(store: Store, env: Env, queue: seq<Option<Delivery>>)
    requires store.Valid() && !store.txActive
    modifies store
    ensures store.Valid() && !store.txActive
    ensures store.State() == ProcessQueue(old(store.State()), env, queue).tables
    ensures store.journal == old(store.journal) + ProcessQueue(old(store.State()), env, queue).events
  {
    ghost var t0, j0 := store.State(), store.journal;
    for i := 0 to |queue|
      invariant store.Valid() && !store.txActive
      invariant store.State() == ProcessQueue(t0, env, queue[..i]).tables
      invariant store.journal == j0 + ProcessQueue(t0, env, queue[..i]).events
    {
      ProcessQueueStep(t0, env, queue, i);
      var queued := queue[i];
      if queued.Some? {
        ghost var before := ProcessQueue(t0, env, queue[..i]);
        ProcessTrace(store, env, queued.value);
        Regroup(j0, before.events, ProcessEffect(before.tables, env, queued.value).events);
      }
    }
    assert queue[..|queue|] == queue;
  }
}
