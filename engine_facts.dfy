/**
 * What the orchestration promises, stated over the effect functions that
 * the imperative routines in `Engine` are proved to follow: the tables a
 * completed `analyze` leaves, the place of the webhooks after the commit,
 * the fate of a trace on each branch of `generateEndpoint`, and the
 * invariants of the consumer loop (stored alerts are never overwritten, the
 * trace table only grows, by at most one row per trace, and the storage
 * constraints hold throughout).
 */
module EngineFacts {
  import opened Wrappers
  import opened Domain
  import opened Pattern
  import opened Templater
  import opened Resolver
  import opened Analysis
  import opened Storage
  import opened Engine

  /** `u` extends `t`: every stored alert is still there, unchanged, and the trace table only grew. */
  predicate Extends(t: Tables, u: Tables) {
    && (forall k :: k in t.alerts ==> k in u.alerts && u.alerts[k] == t.alerts[k])
    && t.traces <= u.traces
  }

  lemma ExtendsTrans(a: Tables, b: Tables, c: Tables)
    requires Extends(a, b) && Extends(b, c)
    ensures Extends(a, c)
  {
    assert a.traces == b.traces[..|a.traces|] && b.traces == c.traces[..|b.traces|];
    assert c.traces[..|b.traces|][..|a.traces|] == c.traces[..|a.traces|];
  }

  /** The tables after the trace, field and alert statements of a plan. */
  function Recorded(t: Tables, p: Plan): Tables {
    t.(traces := t.traces + [p.row],
       fields := Upsert(InsertOrIgnore(t.fields, p.diff.newFields, FieldKeyOf), p.diff.updatedFields, FieldKeyOf),
       alerts := InsertOrIgnore(t.alerts, p.alerts, AlertKeyOf))
  }

  lemma PlanRecords(t: Tables, p: Plan)
    ensures ApplyAll(t, Writes(p)[..4]) == Recorded(t, p)
  {
    var ws := Writes(p);
    ApplyAllFirstFour(t, ws);
    var t1 := t.(traces := t.traces + [p.row]);
    var t2 := t1.(fields := InsertOrIgnore(t.fields, p.diff.newFields, FieldKeyOf));
    var t3 := t2.(fields := Upsert(t2.fields, p.diff.updatedFields, FieldKeyOf));
    assert Apply(t, ws[0]) == t1;
    assert Apply(t1, ws[1]) == t2;
    assert Apply(t2, ws[2]) == t3;
  }

  /** The tables after every statement of a plan took effect. */
  lemma PlanTables(t: Tables, p: Plan)
    ensures ApplyAll(t, Writes(p)) == Recorded(t, p).(
      endpoints := if p.update then SetDates(t.endpoints, p.updated.uuid, DatesOf(p.updated)) else t.endpoints,
      ipLog := t.ipLog + [p.row])
  {
    PlanRecords(t, p);
    if p.update {
      UpdatingPlanTail(t, p);
    } else {
      PlainPlanTail(t, p);
    }
  }

  /** The last two statements of a plan with the endpoint update. */
  lemma UpdatingPlanTail(t: Tables, p: Plan)
    requires p.update
    ensures ApplyAll(t, Writes(p)) ==
      Apply(Apply(ApplyAll(t, Writes(p)[..4]), UpdateEndpoint(p.updated.uuid, DatesOf(p.updated))), UpdateIps(p.row))
  {
    ApplyAllLastTwo(t, Writes(p));
  }

  /** The last statement of a plan without the endpoint update. */
  lemma PlainPlanTail(t: Tables, p: Plan)
    requires !p.update
    ensures ApplyAll(t, Writes(p)) == Apply(ApplyAll(t, Writes(p)[..4]), UpdateIps(p.row))
  {
    ApplyAllLast(t, Writes(p));
  }

  /**
   * A plan succeeds exactly when no statement fails; a failed plan leaves
   * its transaction open on the tables it started from, and has overwritten
   * no stored alert.
   */
  lemma PlanOutcome(t: Tables, p: Plan, fault: Stage -> Option<DbError>)
    ensures RunPlan(t, p, fault).outcome.Pass? <==> NoFault(Writes(p), fault)
    ensures RunPlan(t, p, fault).outcome.Pass? ==> RunPlan(t, p, fault).tables == ApplyAll(t, Writes(p)) && !RunPlan(t, p, fault).open
    ensures RunPlan(t, p, fault).outcome.Fail? ==>
      RunPlan(t, p, fault).open && RunPlan(t, p, fault).snapshot == t && Extends(t, RunPlan(t, p, fault).tables)
  {
    var ws := Writes(p);
    if NoFault(ws, fault) {
      PlanCompletes(t, p, fault);
    } else {
      var k := FirstFault(ws, fault);
      assert forall i :: 0 <= i < k ==> ws[..k][i] == ws[i];
      PlanStopsAt(t, p, fault, k);
      ApplyAllKeepsAlerts(t, ws[..k]);
      ApplyAllTracesGrow(t, ws[..k]);
    }
  }

  lemma {:induction false} ApplyAllTracesGrow(t: Tables, ws: seq<Write>)
    ensures t.traces <= ApplyAll(t, ws).traces
    decreases |ws|
  {
    if ws != [] {
      var init := ApplyAll(t, ws[..|ws| - 1]);
      ApplyAllTracesGrow(t, ws[..|ws| - 1]);
      assert init.traces <= Apply(init, ws[|ws| - 1]).traces;
      assert ApplyAll(t, ws).traces[..|init.traces|][..|t.traces|] == ApplyAll(t, ws).traces[..|t.traces|];
    }
  }

  /**
   * A completed `analyze`: exactly one trace row, the normalized trace filed
   * under the endpoint, is appended; the endpoint rows are rewritten with the
   * recomputed dates exactly when the debounce allows it; new fields are
   * inserted without overwriting and updated fields saved after them; the
   * alerts are inserted without overwriting; the IP bookkeeping sees the same
   * row; and the journal shows the statements, the commit and the webhooks.
   */
  lemma AnalyzeCompleted(t: Tables, env: Env, trace: Trace, e: Endpoint, isNew: bool, fault: Stage -> Option<DbError>)
    requires AnalyzeEffect(t, env, trace, e, isNew, fault).outcome.Pass?
    ensures var p := MakePlan(env, trace, e, isNew);
      var eff := AnalyzeEffect(t, env, trace, e, isNew, fault);
      var row := TraceRow(NormalizeTrace(trace), e.uuid);
      && eff.tables.traces == t.traces + [row]
      && eff.tables.endpoints ==
           (if ShouldUpdateEndpoint(e.riskScore, e.lastActive, p.updated)
            then SetDates(t.endpoints, e.uuid, env.endpointUpdateDates(trace.createdAt, e))
            else t.endpoints)
      && eff.tables.fields == Upsert(InsertOrIgnore(t.fields, p.diff.newFields, FieldKeyOf), p.diff.updatedFields, FieldKeyOf)
      && eff.tables.alerts == InsertOrIgnore(t.alerts, p.alerts, AlertKeyOf)
      && eff.tables.ipLog == t.ipLog + [row]
      && eff.tables.specs == t.specs
      && eff.events == [Began] + Wrotes(Writes(p)) + [Committed, WebhooksSent(p.alerts, e.uuid)]
      && !eff.open
  {
    var p := MakePlan(env, trace, e, isNew);
    PlanOutcome(t, p, fault);
    PlanTables(t, p);
    PlanCompletes(t, p, fault);
    assert p.updated.uuid == e.uuid;
    assert DatesOf(p.updated) == env.endpointUpdateDates(trace.createdAt, e);
  }

  /** A completed `analyze` changes endpoint rows only in `firstDetected`, `lastActive` and `riskScore`, and only when the debounce allows it. */
  lemma AnalyzeTouchesOnlyDates(t: Tables, env: Env, trace: Trace, e: Endpoint, isNew: bool, fault: Stage -> Option<DbError>)
    requires AnalyzeEffect(t, env, trace, e, isNew, fault).outcome.Pass?
    ensures var after := AnalyzeEffect(t, env, trace, e, isNew, fault).tables.endpoints;
      && |after| == |t.endpoints|
      && (forall i :: 0 <= i < |after| ==>
            after[i].(firstDetected := t.endpoints[i].firstDetected, lastActive := t.endpoints[i].lastActive,
                      riskScore := t.endpoints[i].riskScore) == t.endpoints[i])
      && (!ShouldUpdateEndpoint(e.riskScore, e.lastActive, MakePlan(env, trace, e, isNew).updated) ==> after == t.endpoints)
  {
    AnalyzeCompleted(t, env, trace, e, isNew, fault);
  }

  /**
   * A failed `analyze` returns with its transaction still open over the
   * tables it started from (so the caller's rollback restores them), sends
   * no webhook and commits nothing.
   */
  lemma AnalyzeFailed(t: Tables, env: Env, trace: Trace, e: Endpoint, isNew: bool, fault: Stage -> Option<DbError>)
    requires AnalyzeEffect(t, env, trace, e, isNew, fault).outcome.Fail?
    ensures var eff := AnalyzeEffect(t, env, trace, e, isNew, fault);
      && eff.open && eff.snapshot == t && Extends(t, eff.tables)
      && Committed !in eff.events
      && forall i :: 0 <= i < |eff.events| ==> !eff.events[i].WebhooksSent?
  {
    var p := MakePlan(env, trace, e, isNew);
    PlanOutcome(t, p, fault);
    WebhooksAfterCommit(t, p, fault);
  }

  /**
   * In the journal of `analyze` the webhooks are sent at most once, as the
   * very last event, right after the commit, and only when the statements
   * all succeeded; the commit itself happens exactly on success.
   */
  lemma WebhooksAfterCommit(t: Tables, p: Plan, fault: Stage -> Option<DbError>)
    ensures var eff := RunPlan(t, p, fault);
      && |eff.events| > 0 && eff.events[0] == Began
      && (Committed in eff.events <==> eff.outcome.Pass?)
      && (forall i :: 0 <= i < |eff.events| && eff.events[i].WebhooksSent? ==>
            && eff.outcome.Pass? && i == |eff.events| - 1 && 0 < i && eff.events[i - 1] == Committed)
      && (eff.outcome.Pass? ==> eff.events[|eff.events| - 1] == WebhooksSent(p.alerts, p.updated.uuid))
  {
    var r := Run(t, Writes(p), fault);
    if r.error.None? {
      SuccessJournal(r.done, p.alerts, p.updated.uuid);
    } else {
      FailureJournal(r.done);
    }
  }

  /** The journal of a completed plan: the commit, then the webhooks as the very last event. */
  lemma SuccessJournal(ws: seq<Write>, alerts: seq<Alert>, uuid: Uuid)
    ensures var ev := [Began] + Wrotes(ws) + [Committed, WebhooksSent(alerts, uuid)];
      && Committed in ev
      && forall i :: 0 <= i < |ev| && ev[i].WebhooksSent? ==> i == |ev| - 1 && 0 < i && ev[i - 1] == Committed
  {
    var w := Wrotes(ws);
    var ev := [Began] + w + [Committed, WebhooksSent(alerts, uuid)];
    assert forall i :: 0 < i <= |w| ==> ev[i] == w[i - 1];
    assert ev[|w| + 1] == Committed;
  }

  /** The journal of a stopped plan holds no commit and no webhook. */
  lemma FailureJournal(ws: seq<Write>)
    ensures var ev := [Began] + Wrotes(ws);
      Committed !in ev && forall i :: 0 <= i < |ev| ==> !ev[i].WebhooksSent?
  {
    var w := Wrotes(ws);
    var ev := [Began] + w;
    assert forall i :: 0 < i < |ev| ==> ev[i] == w[i - 1];
  }

  /**
   * A completed `analyze` of a newly created endpoint stores a NEW_ENDPOINT
   * alert dated with the trace's `createdAt`; when no stored alert and no
   * earlier alert of the same trace has its id, the stored alert is exactly
   * that one.
   */
  lemma NewEndpointAlertPersisted(t: Tables, env: Env, trace: Trace, e: Endpoint, fault: Stage -> Option<DbError>)
    requires AnalyzeEffect(t, env, trace, e, true, fault).outcome.Pass?
    ensures var p := MakePlan(env, trace, e, true);
      var a := NewEndpointAlert(env, trace, p.updated);
      var stored := AnalyzeEffect(t, env, trace, e, true, fault).tables.alerts;
      && a.createdAt == trace.createdAt && a.updatedAt == trace.createdAt
      && a.uuid in stored
      && (a.uuid !in t.alerts && (forall j :: 0 <= j < |p.alerts| - 1 ==> p.alerts[j].uuid != a.uuid) ==> stored[a.uuid] == a)
  {
    var p := MakePlan(env, trace, e, true);
    var a := NewEndpointAlert(env, trace, p.updated);
    AnalyzeCompleted(t, env, trace, e, true, fault);
    var n := |p.alerts| - 1;
    assert p.alerts[n] == a;
    if a.uuid !in t.alerts && (forall j :: 0 <= j < |p.alerts| - 1 ==> p.alerts[j].uuid != a.uuid) {
      assert FirstWithKey(p.alerts, AlertKeyOf, n);
    }
  }

  /** A refetched endpoint is analyzed without a NEW_ENDPOINT alert: only the spec-diff and sensitive-data ones. */
  lemma ExistingPlanAlerts(env: Env, trace: Trace, e: Endpoint)
    ensures var p := MakePlan(env, trace, e, false);
      p.alerts == env.findOpenApiSpecDiff(trace, p.updated) +
        env.createDataFieldAlerts(p.diff.newFields + p.diff.updatedFields, p.updated.uuid, p.updated.path, trace)
  {
    var p := MakePlan(env, trace, e, false);
    ExistingEndpointNoNewAlert(env, trace, p.updated, p.diff);
  }

  /** An empty pattern body builds no endpoint: `generateEndpoint` changes nothing. */
  lemma EmptyTemplateChangesNothing(t: Tables, env: Env, trace: Trace, uuid: Uuid, faults: Faults)
    requires |Template(env, trace.path).1| == 0
    ensures GenerateEffect(t, env, trace, uuid, faults) == Unchanged(t)
  {
  }

  /** A rejected endpoint insert is rolled back before the catch block runs on the tables as they were. */
  lemma InsertRejected(t: Tables, env: Env, trace: Trace, uuid: Uuid, faults: Faults)
    requires CandidateEndpoint(env, trace, uuid).Some?
    requires InsertOutcome(t.endpoints, CandidateEndpoint(env, trace, uuid).value, faults.insert).Fail?
    ensures GenerateEffect(t, env, trace, uuid, faults) ==
      After([Began, RolledBack],
            RecoverEffect(t, InsertOutcome(t.endpoints, CandidateEndpoint(env, trace, uuid).value, faults.insert).error, env, trace, faults.retry))
  {
    var e := CandidateEndpoint(env, trace, uuid).value;
    var ins := InsertOutcome(t.endpoints, e, faults.insert);
    var a := TryEffect(t, env, trace, e, faults);
    assert a == Effect(t, [Began], ins, true, t);
    assert Settle(a) == Effect(t, [Began, RolledBack], ins, false, t);
  }

  /**
   * An insert error other than a unique violation is logged and the trace
   * abandoned: the transaction is rolled back, the tables are as before and
   * the routine returns normally.
   */
  lemma OtherInsertErrorGivesUp(t: Tables, env: Env, trace: Trace, uuid: Uuid, faults: Faults)
    requires CandidateEndpoint(env, trace, uuid).Some?
    requires faults.insert.Some? && faults.insert.value.code != UniqueViolation
    ensures GenerateEffect(t, env, trace, uuid, faults) == Effect(t, [Began, RolledBack], Pass, false, t)
  {
    InsertRejected(t, env, trace, uuid, faults);
  }

  /**
   * A unique violation on the insert (the id or the key is already taken) is rolled
   * back, then the endpoint is refetched by the trace's own path, host and
   * method: when nothing is found the trace is dropped with the tables as
   * before; otherwise the found endpoint, with its fields loaded, is
   * analyzed as an existing one.
   */
  lemma ConflictRefetches(t: Tables, env: Env, trace: Trace, uuid: Uuid, faults: Faults)
    requires CandidateEndpoint(env, trace, uuid).Some?
    requires faults.insert.None?
    requires IdTaken(t.endpoints, CandidateEndpoint(env, trace, uuid).value) || KeyTaken(t.endpoints, CandidateEndpoint(env, trace, uuid).value)
    ensures var found := FindByPath(t.endpoints, trace.path, trace.host, trace.httpMethod);
      var eff := GenerateEffect(t, env, trace, uuid, faults);
      && (found.None? ==> eff == Effect(t, [Began, RolledBack], Pass, false, t))
      && (found.Some? ==>
            eff == After([Began, RolledBack],
                         AnalyzeEffect(t, env, trace, found.value.(dataFields := LoadFields(t, found.value.uuid)), false, faults.retry)))
  {
    InsertRejected(t, env, trace, uuid, faults);
  }

  /**
   * A successful insert is committed before `analyze` runs, so a failing
   * `analyze` rolls back to the tables with the new endpoint row: the row
   * stays, and the catch block then handles the analysis error, on the
   * trace whose bodies `analyze` already normalized.
   */
  lemma FailedAnalyzeKeepsEndpoint(t: Tables, env: Env, trace: Trace, uuid: Uuid, faults: Faults)
    requires CandidateEndpoint(env, trace, uuid).Some?
    requires InsertOutcome(t.endpoints, CandidateEndpoint(env, trace, uuid).value, faults.insert).Pass?
    requires TryEffect(t, env, trace, CandidateEndpoint(env, trace, uuid).value, faults).outcome.Fail?
    ensures var e := CandidateEndpoint(env, trace, uuid).value;
      var t1 := t.(endpoints := t.endpoints + [e]);
      var first := AnalyzeEffect(t1, env, trace, e, true, faults.first);
      var s := Settle(TryEffect(t, env, trace, e, faults));
      && s.tables == t1
      && s.events == [Began, InsertedEndpoint(e), Committed] + first.events + [RolledBack]
      && GenerateEffect(t, env, trace, uuid, faults) ==
           After(s.events, RecoverEffect(t1, first.outcome.error, env, NormalizeTrace(trace), faults.retry))
  {
    var e := CandidateEndpoint(env, trace, uuid).value;
    var t1 := t.(endpoints := t.endpoints + [e]);
    AnalyzeFailed(t1, env, trace, e, true, faults.first);
  }

  /** Appending a row whose id no other row has, then updating that id, rewrites only the appended row. */
  lemma SetDatesOnAppended(rows: seq<Endpoint>, e: Endpoint, d: EndpointDates)
    requires !IdTaken(rows, e)
    ensures SetDates(rows + [e], e.uuid, d) == rows + [WithDates(e, d)]
  {
    var r := SetDates(rows + [e], e.uuid, d);
    forall i | 0 <= i < |rows| ensures r[i] == rows[i] {
      assert (rows + [e])[i] == rows[i];
    }
    assert (rows + [e])[|rows|] == e;
  }

  /**
   * The success branch of `generateEndpoint`: when the insert passes and the
   * first `analyze` completes, the new endpoint row is appended with the
   * dates recomputed from the trace (its missing risk score forces the
   * write-back), exactly one trace row is filed under its id, the
   * NEW_ENDPOINT alert dated with the trace's `createdAt` is stored, and the
   * journal shows the insert and its commit before the analysis.
   */
  lemma CreatedEndpointAnalyzed(t: Tables, env: Env, trace: Trace, uuid: Uuid, faults: Faults)
    requires CandidateEndpoint(env, trace, uuid).Some?
    requires InsertOutcome(t.endpoints, CandidateEndpoint(env, trace, uuid).value, faults.insert).Pass?
    requires AnalyzeEffect(t.(endpoints := t.endpoints + [CandidateEndpoint(env, trace, uuid).value]), env, trace,
                           CandidateEndpoint(env, trace, uuid).value, true, faults.first).outcome.Pass?
    ensures var e := CandidateEndpoint(env, trace, uuid).value;
      var eff := GenerateEffect(t, env, trace, uuid, faults);
      var a := NewEndpointAlert(env, trace, MakePlan(env, trace, e, true).updated);
      && eff.outcome.Pass? && !eff.open
      && eff.tables.endpoints == t.endpoints + [WithDates(e, env.endpointUpdateDates(trace.createdAt, e))]
      && eff.tables.traces == t.traces + [TraceRow(NormalizeTrace(trace), uuid)]
      && a.uuid in eff.tables.alerts && a.createdAt == trace.createdAt && a.updatedAt == trace.createdAt
      && |eff.events| > 3 && eff.events[..3] == [Began, InsertedEndpoint(e), Committed]
  {
    var e := CandidateEndpoint(env, trace, uuid).value;
    var t1 := t.(endpoints := t.endpoints + [e]);
    var p := MakePlan(env, trace, e, true);
    InsertAccepted(t, env, trace, uuid, faults);
    AnalyzeCompleted(t1, env, trace, e, true, faults.first);
    NewEndpointAlertPersisted(t1, env, trace, e, faults.first);
    MissingValueForcesUpdate(e.riskScore, e.lastActive, p.updated);
    SetDatesOnAppended(t.endpoints, e, env.endpointUpdateDates(trace.createdAt, e));
  }

  /** An accepted insert followed by a completed `analyze` is the whole of `generateEndpoint`. */
  lemma InsertAccepted(t: Tables, env: Env, trace: Trace, uuid: Uuid, faults: Faults)
    requires CandidateEndpoint(env, trace, uuid).Some?
    requires InsertOutcome(t.endpoints, CandidateEndpoint(env, trace, uuid).value, faults.insert).Pass?
    requires AnalyzeEffect(t.(endpoints := t.endpoints + [CandidateEndpoint(env, trace, uuid).value]), env, trace,
                           CandidateEndpoint(env, trace, uuid).value, true, faults.first).outcome.Pass?
    ensures var e := CandidateEndpoint(env, trace, uuid).value;
      GenerateEffect(t, env, trace, uuid, faults) ==
        After([Began, InsertedEndpoint(e), Committed], AnalyzeEffect(t.(endpoints := t.endpoints + [e]), env, trace, e, true, faults.first))
  {
  }

  /**
   * Once the endpoint built for a trace is stored, the lookup finds an
   * endpoint for that trace again (one with no more parameters than it),
   * provided the tokens spell the path back and are well formed.
   */
  lemma CreatedEndpointIsFound(rows: seq<Endpoint>, env: Env, trace: Trace, uuid: Uuid, slashes: string)
    requires !env.isGraphQlEndpoint(trace.path)
    requires WellFormed(Classify(env.getPathTokens(trace.path), env.isSuspectedParamater))
    requires trace.path == ConcretePath(Classify(env.getPathTokens(trace.path), env.isSuspectedParamater)) + slashes
    requires AllSlashes(slashes)
    requires CandidateEndpoint(env, trace, uuid).Some?
    ensures var found := SelectEndpoint(rows + [CandidateEndpoint(env, trace, uuid).value], trace);
      found.Some? && found.value.numberParams <= CandidateEndpoint(env, trace, uuid).value.numberParams
  {
    var e := CandidateEndpoint(env, trace, uuid).value;
    EndpointMatchesOwnPath(env, trace, uuid, slashes);
    assert Matches(e, trace);
    assert (rows + [e])[|rows|] == e;
  }

  /** A dropped trace (no usable match, status 404 or 405) inserts no endpoint, no trace and no alert. */
  lemma DropChangesNothing(t: Tables, env: Env, d: Delivery)
    requires Dispatch(Resolve(t.endpoints, t.specs, d.trace), d.trace, env.skipAutoGeneratedMatch).Drop?
    ensures ProcessEffect(t, env, d) == Unchanged(t)
  {
  }

  /** `analyze` followed by the catch block's rollback keeps the storage constraints and extends the tables by at most one trace. */
  lemma SettledAnalyze(t: Tables, env: Env, trace: Trace, e: Endpoint, isNew: bool, fault: Stage -> Option<DbError>)
    requires ValidTables(t)
    ensures var s := Settle(AnalyzeEffect(t, env, trace, e, isNew, fault));
      ValidTables(s.tables) && Extends(t, s.tables) && |s.tables.traces| <= |t.traces| + 1 && !s.open
  {
    var p := MakePlan(env, trace, e, isNew);
    PlanOutcome(t, p, fault);
    if NoFault(Writes(p), fault) {
      PlanTables(t, p);
      ApplyAllKeepsValid(t, Writes(p));
      assert (t.traces + [p.row])[..|t.traces|] == t.traces;
    }
  }

  /** The endpoint insert keeps the constraints and extends the tables. */
  lemma InsertExtends(t: Tables, e: Endpoint)
    requires ValidTables(t) && !IdTaken(t.endpoints, e) && !KeyTaken(t.endpoints, e)
    ensures ValidTables(t.(endpoints := t.endpoints + [e])) && Extends(t, t.(endpoints := t.endpoints + [e]))
  {
    InsertKeepsUnique(t.endpoints, e);
  }

  /** The catch block of `generateEndpoint`, with the loop's rollback after it. */
  lemma SettledRecover(t: Tables, err: DbError, env: Env, trace: Trace, retry: Stage -> Option<DbError>)
    requires ValidTables(t)
    ensures var s := Settle(RecoverEffect(t, err, env, trace, retry));
      ValidTables(s.tables) && Extends(t, s.tables) && |s.tables.traces| <= |t.traces| + 1 && !s.open
  {
    if err.code == UniqueViolation {
      var found := FindByPath(t.endpoints, trace.path, trace.host, trace.httpMethod);
      if found.Some? {
        SettledAnalyze(t, env, trace, found.value.(dataFields := LoadFields(t, found.value.uuid)), false, retry);
      }
    }
  }

  /** `generateEndpoint` with the loop's rollback after it. */
  lemma SettledGenerate(t: Tables, env: Env, trace: Trace, uuid: Uuid, faults: Faults)
    requires ValidTables(t)
    ensures var s := Settle(GenerateEffect(t, env, trace, uuid, faults));
      ValidTables(s.tables) && Extends(t, s.tables) && |s.tables.traces| <= |t.traces| + 1 && !s.open
  {
    var candidate := CandidateEndpoint(env, trace, uuid);
    if candidate.Some? {
      var e := candidate.value;
      var a := TryEffect(t, env, trace, e, faults);
      SettledTry(t, env, trace, e, faults);
      if a.outcome.Fail? {
        var s := Settle(a);
        var seen := if InsertOutcome(t.endpoints, e, faults.insert).Pass? then NormalizeTrace(trace) else trace;
        SettledRecover(s.tables, a.outcome.error, env, seen, faults.retry);
        ExtendsTrans(t, s.tables, Settle(RecoverEffect(s.tables, a.outcome.error, env, seen, faults.retry)).tables);
      }
    }
  }

  /**
   * The try block of `generateEndpoint` with the rollback after it keeps the
   * constraints and adds at most one trace; when it failed, the tables are
   * the starting ones, or those with the committed endpoint row.
   */
  lemma SettledTry(t: Tables, env: Env, trace: Trace, e: Endpoint, faults: Faults)
    requires ValidTables(t)
    ensures var a := TryEffect(t, env, trace, e, faults);
      var s := Settle(a);
      && ValidTables(s.tables) && Extends(t, s.tables) && |s.tables.traces| <= |t.traces| + 1 && !s.open
      && (a.outcome.Fail? ==> s.tables.traces == t.traces && (s.tables == t || s.tables == t.(endpoints := t.endpoints + [e])))
  {
    var t1 := t.(endpoints := t.endpoints + [e]);
    if InsertOutcome(t.endpoints, e, faults.insert).Pass? {
      InsertExtends(t, e);
      SettledAnalyze(t1, env, trace, e, true, faults.first);
      ExtendsTrans(t, t1, Settle(AnalyzeEffect(t1, env, trace, e, true, faults.first)).tables);
    }
  }

  /**
   * One iteration of the consumer loop keeps the storage constraints, never
   * overwrites a stored alert, only appends to the trace table, at most one
   * row, and leaves no transaction open.
   */
  lemma ProcessExtends(t: Tables, env: Env, d: Delivery)
    requires ValidTables(t)
    ensures var eff := ProcessEffect(t, env, d);
      ValidTables(eff.tables) && Extends(t, eff.tables) && |eff.tables.traces| <= |t.traces| + 1 && !eff.open
  {
    match Dispatch(Resolve(t.endpoints, t.specs, d.trace), d.trace, env.skipAutoGeneratedMatch)
    case AnalyzeExisting(x) =>
      SettledAnalyze(t, env, d.trace, x.(dataFields := LoadFields(t, x.uuid)), false, d.faults.first);
    case Drop =>
    case Generate =>
      SettledGenerate(t, env, d.trace, d.newUuid, d.faults);
  }

  /**
   * The consumer loop over any run of polls keeps the storage constraints,
   * never overwrites a stored alert, and only appends to the trace table, at
   * most one row per poll.
   */
  lemma {:induction false} QueueExtends(t: Tables, env: Env, queue: seq<Option<Delivery>>)
    requires ValidTables(t)
    ensures var r := ProcessQueue(t, env, queue);
      ValidTables(r.tables) && Extends(t, r.tables) && |r.tables.traces| <= |t.traces| + |queue|
    decreases |queue|
  {
    if queue != [] {
      var init := queue[..|queue| - 1];
      var before := ProcessQueue(t, env, init);
      QueueExtends(t, env, init);
      if queue[|queue| - 1].Some? {
        ProcessExtends(before.tables, env, queue[|queue| - 1].value);
        ExtendsTrans(t, before.tables, ProcessEffect(before.tables, env, queue[|queue| - 1].value).tables);
      }
    }
  }
}
