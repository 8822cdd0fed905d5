# Trace analysis engine — a Dafny model

This project models the trace analysis engine of the metlo backend
(`backend/src/analyze-traces.ts`). The engine is a consumer loop. For each
queued request/response trace it does the following:

- It looks up the endpoint the trace belongs to. The lookup keeps the rows
  of the trace's host and method whose anchored pattern matches the path,
  and takes the one with the fewest parameters.
- It dispatches the trace. A usable match is analyzed as an existing
  endpoint. Otherwise a 404 or 405 trace is dropped. Anything else leads to
  a new endpoint.
- To create an endpoint, it builds a parameterised template (`/users/{param1}`)
  and a pattern (`^/users/[^/]+(/)*$`) from the path's tokens. It inserts and
  commits the endpoint, then analyzes the trace as new. On a unique-key
  conflict (SQLSTATE `23505`) it rolls back, refetches and analyzes what it
  finds as existing.
- `analyze` is the last step:
  - it recomputes the endpoint's dates and risk score;
  - it diffs the data fields and assembles the alerts: spec diff first, then
    sensitive data, then a NEW_ENDPOINT alert back-dated to the trace;
  - it serializes array bodies;
  - inside one transaction it writes the trace, the new fields
    (insert-or-ignore), the updated fields, the alerts (insert-or-ignore),
    the endpoint dates (only when the 30 000 ms debounce allows it) and the
    IP bookkeeping;
  - it commits, and only then sends the webhooks.

The model has three layers.

1. **Pure decisions** are functions with lemmas:
   - the debounce `ShouldUpdateEndpoint`, body normalization and alert
     assembly (module `Analysis`);
   - the lookup, the refetch and the dispatch (module `Resolver`);
   - the regex fragment the templater emits, with a small matcher
     (module `Pattern`).
2. **The loops and the transactional code** are imperative:
   - the templating loop is a method with loop invariants (module `Templater`);
   - the database connection is a class `Storage.Store` whose fields are
     the tables, the transaction flag, the rollback snapshot and a journal
     of what was asked of it;
   - `analyze`, `generateEndpoint` and the loop body are methods on it
     (module `Engine`).
   Each method is proved to leave the store exactly as a pure effect
   function says. The effect function gives the tables, the journal events,
   the outcome, and the transaction left open.
3. **Properties** are lemmas over those effect functions (module
   `EngineFacts`):
   - what a completed `analyze` writes;
   - that webhooks follow the commit;
   - the fate of a trace on each branch of `generateEndpoint`;
   - the invariants of the loop: stored alerts are never overwritten, the
     trace table only grows, by at most one row per trace, and the storage
     constraints hold.

Collaborators whose code is not part of this model are arbitrary total
functions, held in one `Domain.Env` value:

- `isSuspectedParamater`, `getPathTokens`, `isGraphQlEndpoint`;
- `skipAutoGeneratedMatch`, `endpointAddNumberParams`, `endpointUpdateDates`;
- `findAllDataFields`, `findOpenApiSpecDiff`, `createDataFieldAlerts`, `createAlert`.

Three inputs are parameters:

- **Fault oracles.** A failing statement is a per-statement fault oracle:
  what the bounded retry wrapper finally throws. There is one oracle for
  the endpoint insert, one for the first `analyze`, and one for the
  `analyze` after a refetch.
- **Endpoint ids.** The id of a new endpoint comes with the queued item.
  Nothing makes it fresh. The endpoint table has a primary key on the id
  (`Storage.UniqueIds`, part of `Storage.ValidTables`), so an insert whose
  id is already taken fails with `23505`, as a taken natural key does
  (`Storage.InsertOutcome`).
- **The queue.** It is a finite sequence of polls, and an empty poll does
  nothing.

The model follows the code in these places, where its behaviour is easy to
misread:

- The pattern tail is `(/)*$`, so any number of trailing slashes is
  accepted, not only one (line 238).
- The refetch after a conflict looks up `trace.path`, the concrete path,
  and not the parameterised template the conflicting row holds (line 275).
  For a path with parameters it usually finds nothing, and the trace is
  dropped. This quirk is kept, and `EngineFacts.ConflictRefetches` states
  both of its outcomes.
- The endpoint insert is committed before `analyze` starts (line 263). A
  failure inside `analyze` therefore rolls back only the analysis, and the
  new endpoint row stays (`EngineFacts.FailedAnalyzeKeepsEndpoint`).
- The same catch block handles any `23505`, including one thrown by a
  statement of that first `analyze`. Such an error also leads to the refetch.
- Literal tokens are copied into the pattern without escaping (line 232).
  The round-trip lemmas therefore assume that literal words hold no regex
  metacharacter. A word that holds one gives a pattern outside the fragment,
  and in the model that pattern matches nothing.
- The dates, the field diff and the alerts are computed before the
  transaction starts (lines 117-145), on the trace as it arrived.
- The bodies are normalized after the transaction starts (lines 147-154).
  The normalization overwrites the caller's trace object, so when the first
  `analyze` fails with `23505`, the `analyze` after the refetch (line 282)
  receives the normalized trace. `Engine.Analyze` returns the trace as its
  caller holds it afterwards, and `Engine.GenerateEffect` passes that trace
  to the catch block once the insert went through
  (`EngineFacts.FailedAnalyzeKeepsEndpoint`).

## Model

| member | source | states |
|---|---|---|
| Analysis.ShouldUpdateEndpoint | backend/src/analyze-traces.ts:91-108 | a change of the risk score, including one that appears or disappears, or a move of `lastActive` by more than 30 000 ms always makes the write due |
| Analysis.MissingValueForcesUpdate | backend/src/analyze-traces.ts:96-103 | a missing previous score, previous `lastActive`, new `lastActive` or new score always forces the endpoint write |
| Analysis.DebounceExactly | backend/src/analyze-traces.ts:104-107 | with all four values present, the write happens exactly when the score changed or `lastActive` moved forward by more than 30 000 ms |
| Analysis.DebounceBoundary | backend/src/analyze-traces.ts:106 | an unchanged score and a move of exactly 30 000 ms write nothing |
| Analysis.SkippedWriteIsCurrent | backend/src/analyze-traces.ts:96-107 | a skipped write means every value is present, the score is unchanged and `lastActive` moved by at most the window |
| Analysis.UpdateMonotoneInLastActive | backend/src/analyze-traces.ts:104-107 | a later `lastActive` never turns a write into a skipped one |
| Analysis.Stringify | backend/src/analyze-traces.ts:150 | the serialization of an array is bracketed and holds the element texts joined by commas |
| Analysis.NormalizeBody | backend/src/analyze-traces.ts:149-154 | an array body is replaced by its serialization, any other body is kept, and the result is never an array |
| Analysis.NormalizeTrace | backend/src/analyze-traces.ts:149-154 | each body becomes its normalized form, neither is an array afterwards, and no other field changes |
| Analysis.NormalizeIdempotent | backend/src/analyze-traces.ts:149-154 | normalizing a normalized trace changes nothing |
| Analysis.NewEndpointAlert | backend/src/analyze-traces.ts:137-143 | the NEW_ENDPOINT alert is the collaborator's alert with `createdAt` and `updatedAt` both set to the trace's `createdAt` |
| Analysis.AssembleAlerts | backend/src/analyze-traces.ts:121-145 | the alerts are the spec-diff alerts, then the sensitive-data alerts of new and updated fields, then one NEW_ENDPOINT alert exactly for a new endpoint |
| Analysis.ExistingEndpointNoNewAlert | backend/src/analyze-traces.ts:135-145 | an existing endpoint gets only the spec-diff and sensitive-data alerts |
| Analysis.NewEndpointAddsOneAlert | backend/src/analyze-traces.ts:136-145 | a new endpoint gets the same alerts plus exactly one NEW_ENDPOINT alert at the end |
| Pattern.Anchor | backend/src/analyze-traces.ts:238 | the pattern is `^`, then the body, then `(/)*$` |
| Pattern.ParseBody | backend/src/analyze-traces.ts:226-233 | a body text read back as atoms has no literal metacharacter, and its atoms print back as exactly that text |
| Pattern.ParsePattern | backend/src/analyze-traces.ts:238 | a pattern text read back as atoms is the anchored text of a plain body made of those atoms |
| Pattern.MatchAtoms | backend/src/analyze-traces.ts:41 | a path matched by the atoms followed by `(/)*$` has at least one character per atom |
| Pattern.RegexMatches | backend/src/analyze-traces.ts:41 | `$1 ~ "pathRegex"`: a pattern text outside the generated fragment matches nothing, and a matching path is at least as long as the pattern's atoms |
| Pattern.ParseAnchored | backend/src/analyze-traces.ts:238 | an anchored body without metacharacters reads back as exactly its atoms |
| Pattern.MatchLiteral | backend/src/analyze-traces.ts:232 | a literal run of the pattern matches the same characters in the path, whatever follows |
| Pattern.MatchSegment | backend/src/analyze-traces.ts:228 | `[^/]+` matches any non-empty run of non-slash characters, whatever follows |
| Templater.ClassifyToken | backend/src/analyze-traces.ts:222-234 | a "/" token is a separator, an empty token contributes nothing, and any other token becomes one piece holding it, a parameter exactly when the collaborator suspects one |
| Templater.Classify | backend/src/analyze-traces.ts:220-235 | the token list becomes its pieces in order, at most one piece per token |
| Templater.ClassifyPieces | backend/src/analyze-traces.ts:220-235 | every word or parameter piece of the classified token list holds one of the tokens, never "/" and never empty |
| Templater.BodyEmpty | backend/src/analyze-traces.ts:237 | the pattern body is empty exactly when no token contributed a piece |
| Templater.Template | backend/src/analyze-traces.ts:211-235 | a GraphQL path is copied verbatim into template and pattern body; otherwise the body is empty exactly when the classified token list is empty |
| Templater.TemplateTokens | backend/src/analyze-traces.ts:219-235 | the loop's template, pattern body and counter equal the template, the pattern and one plus the number of parameters of the classified tokens |
| Templater.AddToken | backend/src/analyze-traces.ts:221-234 | one pass of the loop: the template, the pattern body and the counter built from some pieces become those of the pieces followed by the token's piece |
| Templater.SlashStep | backend/src/analyze-traces.ts:222-224 | a "/" token adds one "/" to both strings and no parameter |
| Templater.ParamStep | backend/src/analyze-traces.ts:226-229 | a suspected parameter adds `/{paramN}`, with N one more than the parameters before it, and `/[^/]+`, and counts one parameter |
| Templater.WordStep | backend/src/analyze-traces.ts:230-233 | any other non-empty token adds itself after a "/" to both strings and no parameter |
| Templater.CandidateEndpoint | backend/src/analyze-traces.ts:237-249 | no endpoint exactly when the pattern body is empty; otherwise the endpoint has the template, the anchored pattern, the trace's host and method, and the GraphQL flag. Its parameter count is computed from the endpoint before the GraphQL flag is set, as at lines 245-249. It has no dates, score, spec or fields |
| Templater.BuildEndpoint | backend/src/analyze-traces.ts:211-249 | the imperative construction gives exactly the candidate endpoint |
| Templater.PatternMatchesOwnPath | backend/src/analyze-traces.ts:220-238 | the pattern built from well-formed tokens matches the path they spell, followed by any number of slashes |
| Templater.EndpointMatchesOwnPath | backend/src/analyze-traces.ts:211-249 | the pattern of the endpoint built for a trace matches that trace's own path, when the tokens spell it back |
| Templater.GraphQlMatchesOwnPath | backend/src/analyze-traces.ts:215-238 | a GraphQL path becomes template and pattern body verbatim, and its pattern matches the path |
| Templater.SameRouteSameTemplate | backend/src/analyze-traces.ts:220-235 | two paths of the same route shape, such as `/users/1` and `/users/42`, get the same template and pattern |
| Templater.SameRouteMatches | backend/src/analyze-traces.ts:220-238 | an endpoint's pattern matches every path of the same route shape |
| Templater.ParamNamesDistinct | backend/src/analyze-traces.ts:227 | distinct parameter numbers give distinct placeholder names |
| Resolver.Matches | backend/src/analyze-traces.ts:40-43 | a row passes the WHERE clause only when its pattern is in the generated fragment and its method and host are the trace's |
| Resolver.SelectEndpoint | backend/src/analyze-traces.ts:40-50 | the result is absent exactly when no row matches; otherwise it is a matching row with no more parameters than any matching row |
| Resolver.SpecFlag | backend/src/analyze-traces.ts:34-39 | the joined `isAutoGenerated` flag is present exactly when the endpoint names an existing spec |
| Resolver.Resolve | backend/src/analyze-traces.ts:31-51 | the lookup is the selection, with the spec flag joined in |
| Resolver.SelectPrefersFewerParams | backend/src/analyze-traces.ts:47-50 | a matching row with fewer parameters than every other match is the one returned |
| Resolver.FindByPath | backend/src/analyze-traces.ts:270-280 | the refetch finds a row exactly when one has the given path, host and method, and returns such a row |
| Resolver.Dispatch | backend/src/analyze-traces.ts:314-325 | analyze exactly when a match is not skipped; otherwise drop exactly on 404 or 405, else generate |
| Storage.InsertOrIgnore | backend/src/analyze-traces.ts:166-172 | no stored entry is overwritten, every offered key ends up present, and a new key holds the first row offered for it |
| Storage.Upsert | backend/src/analyze-traces.ts:173-179 | keys not offered keep their entry, and an offered key holds the last row offered for it |
| Storage.SetDates | backend/src/analyze-traces.ts:186-198 | rows with the id get the three new values and keep every other field; other rows are untouched |
| Storage.LoadFields | backend/src/analyze-traces.ts:315-319 | the loaded relation is exactly the stored fields of that endpoint |
| Storage.InsertOutcome | backend/src/analyze-traces.ts:253-262 | the insert passes exactly when the oracle reports no error and both the id and the key are free; a taken id or key gives `23505` |
| Storage.InsertKeepsUnique | backend/src/analyze-traces.ts:253-262 | inserting under a free id and a free key keeps both unique |
| Storage.Apply | backend/src/analyze-traces.ts:156-200 | the trace insert and the IP bookkeeping append their row, the field and alert statements touch only their own table, the endpoint update only the endpoint rows, and nothing writes the spec table |
| Storage.ApplyKeepsValid | backend/src/analyze-traces.ts:156-200 | every statement of `analyze` keeps the storage constraints |
| Storage.ApplyKeepsAlerts | backend/src/analyze-traces.ts:180-184 | no statement overwrites or removes a stored alert |
| Storage.Run | backend/src/analyze-traces.ts:156-200 | the statements take effect in order up to the first failing one, whose error is reported |
| Storage.Store.StartTransaction | backend/src/analyze-traces.ts:147 | opens a transaction with the current tables as its snapshot |
| Storage.Store.Commit | backend/src/analyze-traces.ts:201 | closes the transaction keeping the tables |
| Storage.Store.Rollback | backend/src/analyze-traces.ts:266-268 | restores the snapshot and closes the transaction |
| Storage.Store.Execute | backend/src/analyze-traces.ts:156-200 | a statement fails with the oracle's error and changes nothing, or takes effect in full |
| Storage.Store.InsertEndpoint | backend/src/analyze-traces.ts:253-262 | the endpoint insert appends the row exactly when it passes |
| Storage.Store.SendWebhooks | backend/src/analyze-traces.ts:203 | webhooks are sent outside any transaction and change no table |
| Engine.MakePlan | backend/src/analyze-traces.ts:117-163 | the endpoint gets the recomputed dates and nothing else; the field diff and the alerts come from the trace as it arrived; the stored row is the normalized trace under the endpoint's id; the write-back is due by the debounce on the values held before |
| Engine.Writes | backend/src/analyze-traces.ts:156-200 | the trace row is written first and the IP bookkeeping last, with the endpoint update just before it exactly when it is due |
| Engine.RunPlan | backend/src/analyze-traces.ts:147-203 | the journal opens with `Began`; the plan succeeds exactly when it closes its transaction, and then every statement took effect and the webhooks are the last event; otherwise the transaction stays open over the starting tables |
| Engine.AnalyzeEffect | backend/src/analyze-traces.ts:110-204 | `analyze` fails exactly when it leaves its transaction open, and then over the tables it started from |
| Engine.TryEffect | backend/src/analyze-traces.ts:251-264 | a rejected insert leaves its transaction open over the unchanged tables; an accepted one is journalled and committed before `analyze`, whose failure leaves a transaction open over the tables holding the new row |
| Engine.RecoverEffect | backend/src/analyze-traces.ts:265-287 | an error other than `23505`, or a refetch that finds nothing, changes nothing; a failure of the analysis after the refetch leaves its transaction open over the tables it started from |
| Engine.GenerateEffect | backend/src/analyze-traces.ts:206-289 | no pattern body changes nothing; `generateEndpoint` fails exactly when it leaves a transaction open |
| Engine.Settle | backend/src/analyze-traces.ts:329-333 | the loop's catch block rolls an open failed transaction back to its snapshot and journals the rollback; anything else is left as it is |
| Engine.ProcessEffect | backend/src/analyze-traces.ts:302-333 | an iteration never leaves a transaction open, and a failure ends with the rollback |
| Engine.ProcessQueue | backend/src/analyze-traces.ts:301-340 | a run of empty polls changes nothing |
| Engine.Analyze | backend/src/analyze-traces.ts:110-204 | leaves the store as `AnalyzeEffect` says: the plan's statements up to the first failure; on success the commit and then the webhooks; on failure the transaction open; and hands back the caller's trace with its bodies normalized |
| Engine.Step | backend/src/analyze-traces.ts:156-200 | issuing the plan's next statement: on success one more statement has taken effect inside the open transaction; on failure the store is left as the whole plan's effect says, with that error and the transaction open |
| Engine.Record | backend/src/analyze-traces.ts:173-184 | the save of the updated fields and the insert of the alerts, then the rest of the plan, leave the store as `RunPlan` says |
| Engine.Persist | backend/src/analyze-traces.ts:147-203 | the transactional half of `analyze` follows `RunPlan` |
| Engine.Conclude | backend/src/analyze-traces.ts:185-203 | the endpoint update is issued only when the plan says so, followed by the rest of the plan |
| Engine.Close | backend/src/analyze-traces.ts:200-203 | the IP bookkeeping, then the commit, then the webhooks |
| Engine.GenerateEndpoint | backend/src/analyze-traces.ts:206-289 | leaves the store as `GenerateEffect` says, with the catch block working on the trace as `analyze` left it |
| Engine.InsertAndAnalyze | backend/src/analyze-traces.ts:251-264 | the try block: insert, commit, analyze as new; a failure leaves the transaction open; the trace comes back normalized exactly when the insert passed |
| Engine.Recover | backend/src/analyze-traces.ts:265-287 | on `23505`, the refetch by the trace's path, host and method, then analyze as existing; otherwise nothing |
| Engine.ProcessTrace | backend/src/analyze-traces.ts:302-333 | one loop iteration leaves the store as `ProcessEffect` says, with no transaction open |
| Engine.AnalyzeTraces | backend/src/analyze-traces.ts:301-340 | the loop over a run of polls leaves the store as `ProcessQueue` says |
| EngineFacts.PlanTables | backend/src/analyze-traces.ts:156-200 | the tables after all statements: one trace row, fields inserted-or-ignored then saved, alerts inserted-or-ignored, dates set only when due, one IP row |
| EngineFacts.PlanOutcome | backend/src/analyze-traces.ts:147-201 | the plan passes exactly when no statement fails; a failure leaves the transaction open over the starting tables, with no alert overwritten |
| EngineFacts.AnalyzeCompleted | backend/src/analyze-traces.ts:147-203 | a completed `analyze` appends exactly the normalized trace under the endpoint's id, rewrites the endpoint rows' dates exactly when the debounce allows it, and journals the statements, the commit and the webhooks |
| EngineFacts.AnalyzeTouchesOnlyDates | backend/src/analyze-traces.ts:185-199 | endpoint rows change only in `firstDetected`, `lastActive` and `riskScore`, and not at all when the debounce skips the write |
| EngineFacts.AnalyzeFailed | backend/src/analyze-traces.ts:147-203 | a failed `analyze` commits nothing, sends no webhook and leaves the rollback snapshot equal to the starting tables |
| EngineFacts.WebhooksAfterCommit | backend/src/analyze-traces.ts:201-203 | the webhooks are the last event, right after the commit, and only on success; the commit happens exactly on success |
| EngineFacts.NewEndpointAlertPersisted | backend/src/analyze-traces.ts:136-184 | a completed `analyze` of a new endpoint stores a NEW_ENDPOINT alert dated with the trace, stored as is when its id is fresh |
| EngineFacts.ExistingPlanAlerts | backend/src/analyze-traces.ts:282 | the analysis after a refetch raises no NEW_ENDPOINT alert |
| EngineFacts.EmptyTemplateChangesNothing | backend/src/analyze-traces.ts:237 | an empty pattern body inserts nothing and changes nothing |
| EngineFacts.InsertRejected | backend/src/analyze-traces.ts:251-268 | a rejected insert is rolled back before the catch block runs on the unchanged tables |
| EngineFacts.OtherInsertErrorGivesUp | backend/src/analyze-traces.ts:284-286 | an insert error other than `23505` rolls back and abandons the trace with the tables unchanged |
| EngineFacts.ConflictRefetches | backend/src/analyze-traces.ts:269-283 | on a conflict, nothing changes if the refetch by the trace's own path finds nothing; otherwise the found endpoint is analyzed as existing |
| EngineFacts.FailedAnalyzeKeepsEndpoint | backend/src/analyze-traces.ts:263-283 | a failing first `analyze` rolls back to the tables that already hold the new endpoint row, and the catch block then runs on the trace with its bodies normalized |
| EngineFacts.InsertAccepted | backend/src/analyze-traces.ts:251-264 | an accepted insert followed by a completed `analyze` is the whole of `generateEndpoint`: the insert and its commit, then the analysis |
| EngineFacts.SetDatesOnAppended | backend/src/analyze-traces.ts:185-198 | updating the id of an appended row whose id no other row has rewrites only that row |
| EngineFacts.CreatedEndpointAnalyzed | backend/src/analyze-traces.ts:237-264 | on the success branch the new row is appended with the dates recomputed from the trace (its missing score forces the write-back), one trace row is filed under its id, the NEW_ENDPOINT alert dated with the trace's `createdAt` is stored, and the journal shows the insert and commit first |
| EngineFacts.CreatedEndpointIsFound | backend/src/analyze-traces.ts:41-48 | once the endpoint built for a trace is stored, the lookup finds an endpoint for that trace with no more parameters |
| EngineFacts.DropChangesNothing | backend/src/analyze-traces.ts:321-325 | a dropped trace inserts no endpoint, no trace and no alert |
| EngineFacts.SettledAnalyze | backend/src/analyze-traces.ts:314-333 | `analyze` with the loop's rollback keeps the constraints, overwrites no alert and adds at most one trace |
| EngineFacts.SettledRecover | backend/src/analyze-traces.ts:265-287 | the catch block of `generateEndpoint`, with the loop's rollback, keeps the constraints, overwrites no alert and adds at most one trace |
| EngineFacts.SettledTry | backend/src/analyze-traces.ts:251-268 | the try block with the rollback keeps the constraints and adds at most one trace; on failure the tables are the starting ones or those with the committed row |
| EngineFacts.SettledGenerate | backend/src/analyze-traces.ts:322-333 | `generateEndpoint` with the loop's rollback keeps the constraints, overwrites no alert and adds at most one trace |
| EngineFacts.ProcessExtends | backend/src/analyze-traces.ts:302-333 | one iteration keeps the constraints, overwrites no alert, only appends at most one trace and leaves no transaction open |
| EngineFacts.QueueExtends | backend/src/analyze-traces.ts:301-340 | over any run of polls the constraints hold, no alert is overwritten and the trace table grows by at most one row per poll |

## Left out

- Redis `lpop` and `JSON.parse` of the queued item (lines 78-89) are I/O.
  A poll is an `Option`, and a missing or unreadable item is `None`.
- `sleep(50)` is left out. So are the datasource initialization and the
  recreation of a released query runner (lines 292-300, 334-338), which are
  connection lifecycle.
- The loop is unbounded in the source. The model runs it over any finite
  sequence of polls.
- Postgres regex semantics are modelled only on the fragment the templater
  emits. A pattern outside it, such as one with an unescaped metacharacter
  in a word, does not parse, and the model says it matches nothing.
  Postgres instead raises "invalid regular expression" for a stored
  pattern that is not a valid regex, for instance one built from the path
  `/a(b`. The lookup query of line 308 then fails, and the loop's catch
  (lines 329-333) drops the trace. The model does not represent that
  failure: the row is skipped, and the lookup goes on with the other rows.
- Three reads are assumed to succeed. They are the lookup query (line
  308), the `find` of the endpoint's fields (lines 315-318) and the
  `findOne` refetch (lines 270-280). In the source each can throw, and the
  loop's catch then drops the trace. A failed refetch happens after the
  rollback of the catch block, so the trace is abandoned with nothing
  written. Under the model's assumption, `EngineFacts.ConflictRefetches`
  states that a found row is always analyzed. The source gives that only
  when the refetch succeeds.
- `retryTypeormTransaction` and `isQueryFailedError` are not part of this
  model. Each statement's final outcome is an oracle, and the bound of 5
  attempts is not represented.
- A failure of `startTransaction` or `commitTransaction` is not modelled,
  and neither is a failure of `sendWebhookRequests`. A failure of
  `updateIPs` is modelled through its oracle. Its effect is an append to
  an IP log.
- The collaborators are not modelled, and cannot fail in the model. That
  covers `DataFieldService`, `SpecService`, `AlertService`,
  `endpointUpdateDates`, `endpointAddNumberParams`, `isSuspectedParamater`,
  `skipAutoGeneratedMatch`, `isGraphQlEndpoint` and `getPathTokens`. Risk
  score computation is part of `endpointUpdateDates`.
- UUID generation is an input of each delivery. `Date` coercion is
  integer milliseconds. Logging is left out, and so is the request context
  (tenant tables).
- Analysis.AssembleAlerts: the source allows the spec-diff result to be
  `null` (`alerts?.concat`, lines 135 and 144), which leaves no alert list
  for the insert at line 182. The model's `findOpenApiSpecDiff` returns a
  sequence (`Domain.Env`), so that case is not modelled, and the alerts
  always hold the sensitive-data alerts and, for a new endpoint, the
  NEW_ENDPOINT alert.
- Storage.Upsert: `saveList` is modelled as a save keyed by the field's
  natural key (endpoint, data path, section) rather than by its id, since
  the ORM's id handling is not part of this model.
- The trace's `meta` field (common/src/types.ts line 155) is not part of
  `Domain.Trace`. The source stores it with the trace row (line 160) and
  passes it to `updateIPs`; the model's trace row and IP log hold the
  other fields only.
- The loaded `dataFields` relation is a set (`Storage.LoadFields`), so the
  order of the rows the `find` returns (lines 315-318) is not represented.
- A refetched row (`Resolver.FindByPath`) keeps the `openapiSpec` value it
  holds in the model's table, while the `findOne` of lines 270-280 loads
  only the `dataFields` relation. The refetched endpoint is handed only to
  collaborators, which are arbitrary functions here.
- Ties between matches with the same number of parameters are broken by
  table order (`Resolver.SelectEndpoint`). `ORDER BY ... LIMIT 1`
  (source lines 40-50) leaves ties unspecified, so the model picks one
  particular answer among those the database may give.
- The consequence of a literal word with a regex metacharacter (such as
  `report.pdf` in `/files/{param1}/report.pdf`) is stronger in the model
  than in the source. After the first trace of such a route creates its
  endpoint, the model matches no later trace of the route. Each later
  trace then goes to generation, hits `23505` on the taken key, and is
  dropped, because the refetch by the concrete path finds nothing (for
  a route with parameters). The source matches such traces by regex and
  stores them.
- Concurrency between workers is left out. It is modelled only as "the
  key is already taken" when the insert runs, which selects the `23505`
  branch.
- The risk and spec internals of `OpenApiSpec` rows are left out. A spec
  is its name and its `isAutoGenerated` flag.
