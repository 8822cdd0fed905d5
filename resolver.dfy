/**
 * The endpoint lookup of the consumer loop and the dispatch rule that
 * follows it. The lookup keeps the endpoints of the trace's method and host
 * whose pattern matches the trace's path and returns one with the fewest
 * parameters; rows are scanned in table order, so among equally specific
 * candidates the earliest row is the one returned.
 */
module Resolver {
  import opened Wrappers
  import opened Domain
  import opened Pattern

  /** The filter of the lookup: the path matches the pattern, and method and host agree. */
  predicate Matches(e: Endpoint, t: Trace): (r: bool)
    ensures r ==> ParsePattern(e.pathRegex).Some? && e.httpMethod == t.httpMethod && e.host == t.host
  {
    RegexMatches(e.pathRegex, t.path) && e.httpMethod == t.httpMethod && e.host == t.host
  }

  /** The least-parameter match among the rows, or `None` when no row matches. */
  function SelectEndpoint(rows: seq<Endpoint>, t: Trace): (r: Option<Endpoint>)
    ensures r.None? <==> forall i :: 0 <= i < |rows| ==> !Matches(rows[i], t)
    ensures r.Some? ==> r.value in rows && Matches(r.value, t)
    ensures r.Some? ==> forall i :: 0 <= i < |rows| && Matches(rows[i], t) ==> r.value.numberParams <= rows[i].numberParams
  {
    if rows == [] then None
    else
      var rest := SelectEndpoint(rows[1..], t);
      assert forall i :: 1 <= i < |rows| ==> rows[i] == rows[1..][i - 1];
      if !Matches(rows[0], t) then rest
      else if rest.Some? && rest.value.numberParams < rows[0].numberParams then rest
      else Some(rows[0])
  }

  /** The joined `isAutoGenerated` flag of the endpoint's spec, when the endpoint names one that exists. */
  function SpecFlag(e: Endpoint, specs: map<string, bool>): (r: Option<bool>)
    ensures r.Some? <==> e.openapiSpecName.Some? && e.openapiSpecName.value in specs
    ensures r.Some? ==> r.value == specs[e.openapiSpecName.value]
  {
    if e.openapiSpecName.Some? && e.openapiSpecName.value in specs then Some(specs[e.openapiSpecName.value]) else None
  }

  /** The lookup with its left join on the spec table. */
  function Resolve(rows: seq<Endpoint>, specs: map<string, bool>, t: Trace): (r: Option<Endpoint>)
    ensures r.Some? <==> SelectEndpoint(rows, t).Some?
    ensures r.Some? ==> r.value == SelectEndpoint(rows, t).value.(openapiSpec := SpecFlag(SelectEndpoint(rows, t).value, specs))
  {
    match SelectEndpoint(rows, t)
    case None => None
    case Some(e) => Some(e.(openapiSpec := SpecFlag(e, specs)))
  }

  /** The refetch after a conflict: the first row whose path, host and method equal the given ones. */
  function FindByPath(rows: seq<Endpoint>, path: string, host: string, httpMethod: string): (r: Option<Endpoint>)
    ensures r.None? <==> forall i :: 0 <= i < |rows| ==> !(rows[i].path == path && rows[i].host == host && rows[i].httpMethod == httpMethod)
    ensures r.Some? ==> r.value in rows && r.value.path == path && r.value.host == host && r.value.httpMethod == httpMethod
  {
    if rows == [] then None
    else if rows[0].path == path && rows[0].host == host && rows[0].httpMethod == httpMethod then Some(rows[0])
    else
      var rest := FindByPath(rows[1..], path, host, httpMethod);
      assert forall i :: 1 <= i < |rows| ==> rows[i] == rows[1..][i - 1];
      rest
  }

  /** What the consumer loop does with a trace once the lookup has run. */
  datatype Decision = AnalyzeExisting(endpoint: Endpoint) | Drop | Generate

  function Dispatch(found: Option<Endpoint>, t: Trace, skip: (Endpoint, string) -> bool): (d: Decision)
    ensures d.AnalyzeExisting? <==> found.Some? && !skip(found.value, t.path)
    ensures d.AnalyzeExisting? ==> d.endpoint == found.value
    ensures d.Drop? <==> !d.AnalyzeExisting? && (t.responseStatus == 404 || t.responseStatus == 405)
    ensures d.Generate? <==> !d.AnalyzeExisting? && t.responseStatus != 404 && t.responseStatus != 405
  {
    if found.Some? && !skip(found.value, t.path) then AnalyzeExisting(found.value)
    else if t.responseStatus != 404 && t.responseStatus != 405 then Generate
    else Drop
  }

  /** Adding a row that matches with fewer parameters than every other match makes it the one returned. */
  lemma {:induction false} SelectPrefersFewerParams(rows: seq<Endpoint>, e: Endpoint, t: Trace)
    requires Matches(e, t)
    requires forall i :: 0 <= i < |rows| && Matches(rows[i], t) ==> e.numberParams < rows[i].numberParams
    ensures SelectEndpoint(rows + [e], t) == Some(e)
    decreases |rows|
  {
    if rows == [] {
      assert [e][1..] == [];
    } else {
      var rows' := rows + [e];
      assert rows'[1..] == rows[1..] + [e];
      assert forall i :: 0 <= i < |rows[1..]| ==> rows[1..][i] == rows[i + 1];
      SelectPrefersFewerParams(rows[1..], e, t);
    }
  }
}
