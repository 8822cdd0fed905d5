/**
 * The path templater of `generateEndpoint`: a concrete request path becomes a
 * parameterised template (`/users/{param1}`) and an anchored pattern text
 * (`^/users/[^/]+(/)*$`). Tokenising the path and deciding which tokens look
 * like parameters are collaborators; what is modelled is the loop that
 * assembles the two strings and the numbering of parameters.
 */
module Templater {
  import opened Wrappers
  import opened Domain
  import opened Pattern

  /** How the loop treats one token: a separator, a suspected parameter, or a literal word. */
  datatype Piece = Slash | Param(token: string) | Word(token: string)

  /**
   * The pieces one token contributes: a "/" token is a separator, an empty
   * token contributes nothing, any other token becomes one piece holding it,
   * a parameter exactly when the collaborator suspects one.
   */
  function ClassifyToken(token: string, isParam: string -> bool): (r: seq<Piece>)
    ensures |r| <= 1
    ensures |r| == 0 <==> |token| == 0
    ensures |r| == 1 ==> (r[0].Slash? <==> token == "/")
    ensures |r| == 1 && !r[0].Slash? ==> r[0].token == token && (r[0].Param? <==> isParam(token))
  {
    if token == "/" then [Slash]
    else if |token| == 0 then []
    else if isParam(token) then [Param(token)]
    else [Word(token)]
  }

  /** The pieces of a token list, in order: at most one per token. */
  function Classify(tokens: seq<string>, isParam: string -> bool): (r: seq<Piece>)
    ensures |r| <= |tokens|
  {
    if tokens == [] then []
    else Classify(tokens[..|tokens| - 1], isParam) + ClassifyToken(tokens[|tokens| - 1], isParam)
  }

  /** Every word or parameter piece holds one of the tokens, never a separator or an empty one. */
  predicate PiecesFrom(ps: seq<Piece>, tokens: seq<string>) {
    forall i :: 0 <= i < |ps| && !ps[i].Slash? ==> ps[i].token in tokens && ps[i].token != "/" && |ps[i].token| > 0
  }

  /** Classification only ever wraps tokens it was given. */
  lemma {:induction false} ClassifyPieces(tokens: seq<string>, isParam: string -> bool)
    ensures PiecesFrom(Classify(tokens, isParam), tokens)
    decreases |tokens|
  {
    if tokens != [] {
      var init := tokens[..|tokens| - 1];
      var before, last := Classify(init, isParam), ClassifyToken(tokens[|tokens| - 1], isParam);
      ClassifyPieces(init, isParam);
      var r := before + last;
      forall i | 0 <= i < |r| && !r[i].Slash?
        ensures r[i].token in tokens && r[i].token != "/" && |r[i].token| > 0
      {
        if i < |before| {
          assert r[i] == before[i];
          assert before[i].token in init;
        } else {
          assert r[i] == last[0];
        }
      }
    }
  }

  function DigitChar(d: nat): char
    requires d < 10
  {
    "0123456789"[d]
  }

  /** The decimal text of a number, as a template literal prints it. */
  function Digits(n: nat): (s: string)
    ensures |s| > 0
    decreases n
  {
    if n < 10 then [DigitChar(n)] else Digits(n / 10) + [DigitChar(n % 10)]
  }

  function ParamName(n: nat): string {
    "{param" + Digits(n) + "}"
  }

  /** The template text of one piece, when it would be the n-th parameter. */
  function PieceTemplate(p: Piece, n: nat): string {
    match p
    case Slash => "/"
    case Param(_) => "/" + ParamName(n)
    case Word(t) => "/" + t
  }

  /** A parameterised path and the number of parameters in it. */
  datatype Templated = Templated(path: string, params: nat)

  /** The parameterised path of the pieces; parameters are numbered 1, 2, 3, ... from the left. */
  function TemplateOf(ps: seq<Piece>): Templated {
    if ps == [] then Templated("", 0)
    else
      var before, last := TemplateOf(ps[..|ps| - 1]), ps[|ps| - 1];
      Templated(before.path + PieceTemplate(last, before.params + 1), before.params + if last.Param? then 1 else 0)
  }

  function PathOf(ps: seq<Piece>): string {
    TemplateOf(ps).path
  }

  function ParamCount(ps: seq<Piece>): nat {
    TemplateOf(ps).params
  }

  function PieceAtoms(p: Piece): seq<Atom> {
    match p
    case Slash => [Lit('/')]
    case Param(_) => [Lit('/'), Segment]
    case Word(t) => [Lit('/')] + LiteralAtoms(t)
  }

  /** The pattern body of the pieces. */
  function AtomsOf(ps: seq<Piece>): seq<Atom> {
    if ps == [] then [] else AtomsOf(ps[..|ps| - 1]) + PieceAtoms(ps[|ps| - 1])
  }

  function PieceText(p: Piece): string {
    match p
    case Slash => "/"
    case Param(t) => "/" + t
    case Word(t) => "/" + t
  }

  /** The concrete path the pieces spell out. */
  function ConcretePath(ps: seq<Piece>): string {
    if ps == [] then "" else ConcretePath(ps[..|ps| - 1]) + PieceText(ps[|ps| - 1])
  }

  function Erase(p: Piece): Piece {
    if p.Param? then Param("") else p
  }

  /** The pieces with every parameter's own value erased: the route shape. */
  function Shape(ps: seq<Piece>): seq<Piece> {
    if ps == [] then [] else Shape(ps[..|ps| - 1]) + [Erase(ps[|ps| - 1])]
  }

  /**
   * The pieces the templater can reproduce from their own pattern: literal
   * words hold no regex metacharacter (the templater copies them unescaped)
   * and parameter values lie within one path segment.
   */
  predicate WellFormed(ps: seq<Piece>) {
    forall i :: 0 <= i < |ps| ==>
      (ps[i].Word? ==> forall k :: 0 <= k < |ps[i].token| ==> !IsMeta(ps[i].token[k])) &&
      (ps[i].Param? ==> |ps[i].token| > 0 && NoSlash(ps[i].token))
  }

  /** Classifying one more token appends that token's pieces. */
  lemma ClassifyStep(tokens: seq<string>, j: nat, isParam: string -> bool)
    requires j < |tokens|
    ensures Classify(tokens[..j + 1], isParam) == Classify(tokens[..j], isParam) + ClassifyToken(tokens[j], isParam)
  {
    assert tokens[..j + 1][..j] == tokens[..j];
  }

  lemma Regroup<T>(a: seq<T>, b: seq<T>, c: seq<T>)
    ensures (a + b) + c == a + (b + c)
  {
  }

  /** Appending one piece, in terms of the pieces before it: the template, the pattern, the concrete text, the count. */
  lemma SnocPath(ps: seq<Piece>, x: Piece)
    ensures PathOf(ps + [x]) == PathOf(ps) + PieceTemplate(x, ParamCount(ps) + 1)
  {
    assert (ps + [x])[..|ps|] == ps;
  }

  lemma SnocAtoms(ps: seq<Piece>, x: Piece)
    ensures AtomsOf(ps + [x]) == AtomsOf(ps) + PieceAtoms(x)
  {
    assert (ps + [x])[..|ps|] == ps;
  }

  lemma SnocCount(ps: seq<Piece>, x: Piece)
    ensures ParamCount(ps + [x]) == ParamCount(ps) + (if x.Param? then 1 else 0)
  {
    assert (ps + [x])[..|ps|] == ps;
  }

  /** The pattern text one piece adds. */
  lemma PieceBody(x: Piece)
    ensures x.Slash? ==> BodyText(PieceAtoms(x)) == "/"
    ensures x.Param? ==> BodyText(PieceAtoms(x)) == "/" + Wildcard
    ensures x.Word? ==> BodyText(PieceAtoms(x)) == "/" + x.token
  {
    match x
    case Slash =>
    case Param(_) =>
      assert BodyText([Lit('/'), Segment]) == "/" + Wildcard;
    case Word(t) =>
      BodyTextAppend([Lit('/')], LiteralAtoms(t));
      LiteralText(t);
  }

  /** What a "/" token adds to the path, to the pattern text and to the parameter count. */
  lemma SlashStep(ps: seq<Piece>)
    ensures PathOf(ps + [Slash]) == PathOf(ps) + "/"
    ensures BodyText(AtomsOf(ps + [Slash])) == BodyText(AtomsOf(ps)) + "/"
    ensures ParamCount(ps + [Slash]) == ParamCount(ps)
  {
    SnocPath(ps, Slash);
    SnocCount(ps, Slash);
    SlashBody(ps);
  }

  lemma SlashBody(ps: seq<Piece>)
    ensures BodyText(AtomsOf(ps + [Slash])) == BodyText(AtomsOf(ps)) + "/"
  {
    SnocAtoms(ps, Slash);
    BodyTextAppend(AtomsOf(ps), PieceAtoms(Slash));
    PieceBody(Slash);
  }

  /** What a parameter adds: the next placeholder name and one wildcard. */
  lemma ParamStep(ps: seq<Piece>, t: string)
    ensures PathOf(ps + [Param(t)]) == PathOf(ps) + "/" + ParamName(ParamCount(ps) + 1)
    ensures BodyText(AtomsOf(ps + [Param(t)])) == BodyText(AtomsOf(ps)) + "/" + Wildcard
    ensures ParamCount(ps + [Param(t)]) == ParamCount(ps) + 1
  {
    ParamPath(ps, t);
    ParamBody(ps, t);
    SnocCount(ps, Param(t));
  }

  lemma ParamPath(ps: seq<Piece>, t: string)
    ensures PathOf(ps + [Param(t)]) == PathOf(ps) + "/" + ParamName(ParamCount(ps) + 1)
  {
    SnocPath(ps, Param(t));
    Regroup(PathOf(ps), "/", ParamName(ParamCount(ps) + 1));
  }

  lemma ParamBody(ps: seq<Piece>, t: string)
    ensures BodyText(AtomsOf(ps + [Param(t)])) == BodyText(AtomsOf(ps)) + "/" + Wildcard
  {
    SnocAtoms(ps, Param(t));
    BodyTextAppend(AtomsOf(ps), PieceAtoms(Param(t)));
    PieceBody(Param(t));
    Regroup(BodyText(AtomsOf(ps)), "/", Wildcard);
  }

  /** What a literal word adds: the word itself, after a slash, to both texts. */
  lemma WordStep(ps: seq<Piece>, t: string)
    ensures PathOf(ps + [Word(t)]) == PathOf(ps) + "/" + t
    ensures BodyText(AtomsOf(ps + [Word(t)])) == BodyText(AtomsOf(ps)) + "/" + t
    ensures ParamCount(ps + [Word(t)]) == ParamCount(ps)
  {
    WordPath(ps, t);
    WordBody(ps, t);
    SnocCount(ps, Word(t));
  }

  lemma WordPath(ps: seq<Piece>, t: string)
    ensures PathOf(ps + [Word(t)]) == PathOf(ps) + "/" + t
  {
    SnocPath(ps, Word(t));
    Regroup(PathOf(ps), "/", t);
  }

  lemma WordBody(ps: seq<Piece>, t: string)
    ensures BodyText(AtomsOf(ps + [Word(t)])) == BodyText(AtomsOf(ps)) + "/" + t
  {
    SnocAtoms(ps, Word(t));
    BodyTextAppend(AtomsOf(ps), PieceAtoms(Word(t)));
    PieceBody(Word(t));
    Regroup(BodyText(AtomsOf(ps)), "/", t);
  }

  /**
   * The templating loop. For every token: a "/" token adds "/" to both
   * strings, an empty token adds nothing, a suspected parameter adds
   * "/{paramN}" and "/[^/]+" with N counting 1, 2, 3, ..., and any other
   * token is copied after a "/" into both.
   */
  method TemplateTokens(tokens: seq<string>, isParam: string -> bool)
    returns (parameterizedPath: string, pathRegex: string, paramNum: nat)
    ensures parameterizedPath == PathOf(Classify(tokens, isParam))
    ensures pathRegex == BodyText(AtomsOf(Classify(tokens, isParam)))
    ensures paramNum == 1 + ParamCount(Classify(tokens, isParam))
  {
    paramNum := 1;
    parameterizedPath := "";
    pathRegex := "";
    for j := 0 to |tokens|
      invariant parameterizedPath == PathOf(Classify(tokens[..j], isParam))
      invariant pathRegex == BodyText(AtomsOf(Classify(tokens[..j], isParam)))
      invariant paramNum == 1 + ParamCount(Classify(tokens[..j], isParam))
    {
      ClassifyStep(tokens, j, isParam);
      parameterizedPath, pathRegex, paramNum :=
        AddToken(tokens[j], isParam, parameterizedPath, pathRegex, paramNum, Classify(tokens[..j], isParam));
    }
    assert tokens[..|tokens|] == tokens;
  }

  /**
   * One pass of the templating loop: the two texts and the parameter
   * counter, built so far from the pieces `ps`, grow by the token's piece.
   */
  method AddToken(tokenString: string, isParam: string -> bool, parameterizedPath: string, pathRegex: string, paramNum: nat,
                  ghost ps: seq<Piece>)
    returns (path: string, regex: string, num: nat)
    requires parameterizedPath == PathOf(ps) && pathRegex == BodyText(AtomsOf(ps)) && paramNum == 1 + ParamCount(ps)
    ensures path == PathOf(ps + ClassifyToken(tokenString, isParam))
    ensures regex == BodyText(AtomsOf(ps + ClassifyToken(tokenString, isParam)))
    ensures num == 1 + ParamCount(ps + ClassifyToken(tokenString, isParam))
  {
    path, regex, num := parameterizedPath, pathRegex, paramNum;
    if tokenString == "/" {
      SlashStep(ps);
      path := path + "/";
      regex := regex + "/";
    } else if |tokenString| > 0 {
      if isParam(tokenString) {
        ParamStep(ps, tokenString);
        path := path + "/" + ParamName(num);
        regex := regex + "/" + Wildcard;
        num := num + 1;
      } else {
        WordStep(ps, tokenString);
        path := path + "/" + tokenString;
        regex := regex + "/" + tokenString;
      }
    } else {
      assert ps + [] == ps;
    }
  }

  /** The pattern body is empty exactly when there are no pieces. */
  lemma BodyEmpty(ps: seq<Piece>)
    ensures |BodyText(AtomsOf(ps))| == 0 <==> ps == []
  {
    if ps != [] {
      BodyTextAppend(AtomsOf(ps[..|ps| - 1]), PieceAtoms(ps[|ps| - 1]));
      PieceBody(ps[|ps| - 1]);
    }
  }

  /**
   * The template and the pattern body a path gives: a GraphQL path is copied
   * verbatim into both; otherwise the body is empty exactly when no token
   * contributed a piece.
   */
  function Template(env: Env, path: string): (r: (string, string))
    ensures env.isGraphQlEndpoint(path) ==> r == (path, path)
    ensures !env.isGraphQlEndpoint(path) ==>
      (|r.1| == 0 <==> Classify(env.getPathTokens(path), env.isSuspectedParamater) == [])
  {
    if env.isGraphQlEndpoint(path) then (path, path)
    else
      var ps := Classify(env.getPathTokens(path), env.isSuspectedParamater);
      BodyEmpty(ps);
      (PathOf(ps), BodyText(AtomsOf(ps)))
  }

  /**
   * The endpoint `generateEndpoint` would insert for a trace, or `None` when
   * the pattern body is empty and nothing is built.
   */
  function CandidateEndpoint(env: Env, trace: Trace, uuid: Uuid): (r: Option<Endpoint>)
    ensures r.None? <==> |Template(env, trace.path).1| == 0
    ensures r.Some? ==>
      && r.value.uuid == uuid
      && r.value.path == Template(env, trace.path).0
      && r.value.pathRegex == Anchor(Template(env, trace.path).1)
      && r.value.host == trace.host && r.value.httpMethod == trace.httpMethod
      && r.value.isGraphQl == env.isGraphQlEndpoint(trace.path)
      && r.value.numberParams == env.endpointAddNumberParams(r.value.(numberParams := 0, isGraphQl := false))
      && r.value.riskScore.None? && r.value.firstDetected.None? && r.value.lastActive.None?
      && r.value.openapiSpecName.None? && r.value.dataFields == {}
  {
    var (parameterizedPath, body) := Template(env, trace.path);
    if |body| == 0 then None
    else
      // The parameter count is taken while the GraphQL flag is still unset.
      var e := Endpoint(uuid, parameterizedPath, Anchor(body), trace.host, trace.httpMethod, 0,
                        false, None, None, None, None, None, {});
      Some(e.(numberParams := env.endpointAddNumberParams(e), isGraphQl := env.isGraphQlEndpoint(trace.path)))
  }

  /** Lines 211-249 of `generateEndpoint`: build the endpoint to insert. */
  method BuildEndpoint(env: Env, trace: Trace, uuid: Uuid) returns (r: Option<Endpoint>)
    ensures r == CandidateEndpoint(env, trace, uuid)
  {
    var isGraphQl := env.isGraphQlEndpoint(trace.path);
    var parameterizedPath := "";
    var pathRegex := "";
    if isGraphQl {
      parameterizedPath := trace.path;
      pathRegex := trace.path;
    } else {
      var paramNum;
      parameterizedPath, pathRegex, paramNum := TemplateTokens(env.getPathTokens(trace.path), env.isSuspectedParamater);
    }
    if |pathRegex| > 0 {
      pathRegex := Anchor(pathRegex);
      var e := Endpoint(uuid, parameterizedPath, pathRegex, trace.host, trace.httpMethod, 0,
                        false, None, None, None, None, None, {});
      e := e.(numberParams := env.endpointAddNumberParams(e));
      if isGraphQl {
        e := e.(isGraphQl := true);
      }
      r := Some(e);
    } else {
      r := None;
    }
  }

  lemma WellFormedInit(ps: seq<Piece>)
    requires WellFormed(ps) && ps != []
    ensures WellFormed(ps[..|ps| - 1])
    ensures ps[|ps| - 1].Param? ==> |ps[|ps| - 1].token| > 0 && NoSlash(ps[|ps| - 1].token)
  {
    var init := ps[..|ps| - 1];
    forall i | 0 <= i < |init| ensures init[i] == ps[i] { }
  }

  lemma {:induction false} PlainAppend(p: seq<Atom>, q: seq<Atom>)
    requires Plain(p) && Plain(q)
    ensures Plain(p + q)
  {
    forall i | 0 <= i < |p + q| && (p + q)[i].Lit? ensures !IsMeta((p + q)[i].c) {
      if i < |p| { assert (p + q)[i] == p[i]; } else { assert (p + q)[i] == q[i - |p|]; }
    }
  }

  lemma PiecePlain(p: Piece)
    requires p.Word? ==> forall k :: 0 <= k < |p.token| ==> !IsMeta(p.token[k])
    ensures Plain(PieceAtoms(p))
  {
    var head := PieceAtoms(p);
    if p.Word? {
      forall i | 0 <= i < |head| && head[i].Lit? ensures !IsMeta(head[i].c) {
        if i > 0 { assert head[i] == Lit(p.token[i - 1]); }
      }
    }
  }

  /** Well-formed pieces print a pattern without regex metacharacters in its literals. */
  lemma {:induction false} WellFormedPlain(ps: seq<Piece>)
    requires WellFormed(ps)
    ensures Plain(AtomsOf(ps))
    decreases |ps|
  {
    if ps != [] {
      var last := ps[|ps| - 1];
      WellFormedInit(ps);
      WellFormedPlain(ps[..|ps| - 1]);
      assert last.Word? ==> forall k :: 0 <= k < |last.token| ==> !IsMeta(last.token[k]);
      PiecePlain(last);
      PlainAppend(AtomsOf(ps[..|ps| - 1]), PieceAtoms(last));
    }
  }

  lemma MatchLitStep(c: char, rest: seq<Atom>, tail: string)
    requires MatchAtoms(rest, tail)
    ensures MatchAtoms([Lit(c)] + rest, [c] + tail)
  {
    assert ([Lit(c)] + rest)[1..] == rest;
    assert ([c] + tail)[1..] == tail;
  }

  lemma MatchParamPiece(t: string, rest: seq<Atom>, tail: string)
    requires |t| > 0 && NoSlash(t)
    requires MatchAtoms(rest, tail)
    ensures MatchAtoms([Lit('/'), Segment] + rest, "/" + t + tail)
  {
    MatchSegment(t, rest, tail);
    MatchLitStep('/', [Segment] + rest, t + tail);
    assert [Lit('/')] + ([Segment] + rest) == [Lit('/'), Segment] + rest;
    assert ['/'] + (t + tail) == "/" + t + tail;
  }

  lemma MatchWordPiece(t: string, rest: seq<Atom>, tail: string)
    requires MatchAtoms(rest, tail)
    ensures MatchAtoms([Lit('/')] + LiteralAtoms(t) + rest, "/" + t + tail)
  {
    MatchLiteral(t, rest, tail);
    MatchLitStep('/', LiteralAtoms(t) + rest, t + tail);
    assert [Lit('/')] + (LiteralAtoms(t) + rest) == [Lit('/')] + LiteralAtoms(t) + rest;
    assert ['/'] + (t + tail) == "/" + t + tail;
  }

  /** One piece's pattern matches the piece's own text, whatever follows. */
  lemma MatchPiece(p: Piece, rest: seq<Atom>, tail: string)
    requires p.Param? ==> |p.token| > 0 && NoSlash(p.token)
    requires MatchAtoms(rest, tail)
    ensures MatchAtoms(PieceAtoms(p) + rest, PieceText(p) + tail)
  {
    match p
    case Slash =>
      MatchLitStep('/', rest, tail);
    case Param(t) =>
      MatchParamPiece(t, rest, tail);
    case Word(t) =>
      MatchWordPiece(t, rest, tail);
  }

  lemma {:induction false} MatchPieces(ps: seq<Piece>, rest: seq<Atom>, tail: string)
    requires WellFormed(ps)
    requires MatchAtoms(rest, tail)
    ensures MatchAtoms(AtomsOf(ps) + rest, ConcretePath(ps) + tail)
    decreases |ps|
  {
    if ps == [] {
      assert AtomsOf(ps) + rest == rest && ConcretePath(ps) + tail == tail;
    } else {
      var init, last := ps[..|ps| - 1], ps[|ps| - 1];
      WellFormedInit(ps);
      MatchPiece(last, rest, tail);
      MatchPieces(init, PieceAtoms(last) + rest, PieceText(last) + tail);
      Regroup(AtomsOf(init), PieceAtoms(last), rest);
      Regroup(ConcretePath(init), PieceText(last), tail);
    }
  }

  /**
   * The pattern built from well-formed pieces matches the concrete path they
   * spell, followed by any number of slashes.
   */
  lemma PatternMatchesOwnPath(ps: seq<Piece>, slashes: string)
    requires WellFormed(ps) && AllSlashes(slashes)
    ensures RegexMatches(Anchor(BodyText(AtomsOf(ps))), ConcretePath(ps) + slashes)
  {
    WellFormedPlain(ps);
    ParseAnchored(AtomsOf(ps));
    MatchPieces(ps, [], slashes);
    assert AtomsOf(ps) + [] == AtomsOf(ps);
  }

  /**
   * Round trip of `generateEndpoint` for a non-GraphQL path: when the tokens
   * spell the path back (up to trailing slashes) and are well formed, the
   * endpoint built for a trace matches that trace's own path.
   */
  lemma EndpointMatchesOwnPath(env: Env, trace: Trace, uuid: Uuid, slashes: string)
    requires !env.isGraphQlEndpoint(trace.path)
    requires WellFormed(Classify(env.getPathTokens(trace.path), env.isSuspectedParamater))
    requires trace.path == ConcretePath(Classify(env.getPathTokens(trace.path), env.isSuspectedParamater)) + slashes
    requires AllSlashes(slashes)
    requires CandidateEndpoint(env, trace, uuid).Some?
    ensures RegexMatches(CandidateEndpoint(env, trace, uuid).value.pathRegex, trace.path)
  {
    PatternMatchesOwnPath(Classify(env.getPathTokens(trace.path), env.isSuspectedParamater), slashes);
  }

  /** Round trip for a GraphQL path without regex metacharacters: its pattern matches it. */
  lemma GraphQlMatchesOwnPath(env: Env, trace: Trace, uuid: Uuid)
    requires env.isGraphQlEndpoint(trace.path) && |trace.path| > 0
    requires forall k :: 0 <= k < |trace.path| ==> !IsMeta(trace.path[k])
    ensures CandidateEndpoint(env, trace, uuid).Some?
    ensures CandidateEndpoint(env, trace, uuid).value.path == trace.path
    ensures RegexMatches(CandidateEndpoint(env, trace, uuid).value.pathRegex, trace.path)
  {
    var p := LiteralAtoms(trace.path);
    LiteralText(trace.path);
    ParseAnchored(p);
    MatchLiteral(trace.path, [], "");
    assert p + [] == p && trace.path + "" == trace.path;
  }

  lemma ShapeSnoc(ps: seq<Piece>)
    requires ps != []
    ensures Shape(ps) == Shape(ps[..|ps| - 1]) + [Erase(ps[|ps| - 1])]
    ensures |Shape(ps)| == |ps| && Shape(ps)[|ps| - 1] == Erase(ps[|ps| - 1])
    ensures Shape(ps)[..|ps| - 1] == Shape(ps[..|ps| - 1])
  {
    ShapeLength(ps[..|ps| - 1]);
  }

  lemma {:induction false} ShapeLength(ps: seq<Piece>)
    ensures |Shape(ps)| == |ps|
    decreases |ps|
  {
    if ps != [] {
      ShapeLength(ps[..|ps| - 1]);
    }
  }

  lemma {:induction false} ShapeKeepsTemplate(ps: seq<Piece>)
    ensures TemplateOf(Shape(ps)) == TemplateOf(ps)
    decreases |ps|
  {
    if ps != [] {
      var init := ps[..|ps| - 1];
      ShapeKeepsTemplate(init);
      ShapeSnoc(ps);
    }
  }

  lemma {:induction false} ShapeKeepsAtoms(ps: seq<Piece>)
    ensures AtomsOf(Shape(ps)) == AtomsOf(ps)
    decreases |ps|
  {
    if ps != [] {
      var init := ps[..|ps| - 1];
      ShapeKeepsAtoms(init);
      ShapeSnoc(ps);
    }
  }

  /**
   * Two paths of the same route shape (the same words in the same places,
   * parameters in the same places), such as `/users/1` and `/users/42`, get
   * the same template and the same pattern.
   */
  lemma SameRouteSameTemplate(ps: seq<Piece>, qs: seq<Piece>)
    requires Shape(ps) == Shape(qs)
    ensures PathOf(ps) == PathOf(qs)
    ensures AtomsOf(ps) == AtomsOf(qs)
  {
    ShapeKeepsTemplate(ps);
    ShapeKeepsTemplate(qs);
    ShapeKeepsAtoms(ps);
    ShapeKeepsAtoms(qs);
  }

  /** A path of the same shape as the one an endpoint was built from matches that endpoint. */
  lemma SameRouteMatches(ps: seq<Piece>, qs: seq<Piece>, slashes: string)
    requires Shape(ps) == Shape(qs) && WellFormed(qs) && AllSlashes(slashes)
    ensures RegexMatches(Anchor(BodyText(AtomsOf(ps))), ConcretePath(qs) + slashes)
  {
    SameRouteSameTemplate(ps, qs);
    PatternMatchesOwnPath(qs, slashes);
  }

  lemma DigitCharInjective(a: nat, b: nat)
    requires a < 10 && b < 10 && DigitChar(a) == DigitChar(b)
    ensures a == b
  {
  }

  lemma {:induction false} DigitsInjective(a: nat, b: nat)
    requires Digits(a) == Digits(b)
    ensures a == b
    decreases a
  {
    var s := Digits(a);
    if a < 10 && b < 10 {
      assert s[0] == DigitChar(a) && s[0] == DigitChar(b);
      DigitCharInjective(a, b);
    } else if a >= 10 && b >= 10 {
      var ha, la, hb, lb := a / 10, a % 10, b / 10, b % 10;
      assert s == Digits(ha) + [DigitChar(la)];
      assert s == Digits(hb) + [DigitChar(lb)];
      assert s[..|s| - 1] == Digits(ha) && s[..|s| - 1] == Digits(hb);
      DigitCharInjective(la, lb);
      DigitsInjective(ha, hb);
      assert a == 10 * ha + la && b == 10 * hb + lb;
    } else {
      assert false;
    }
  }

  /** Distinct parameter numbers give distinct placeholder names. */
  lemma ParamNamesDistinct(a: nat, b: nat)
    requires a != b
    ensures ParamName(a) != ParamName(b)
  {
    if ParamName(a) == ParamName(b) {
      var x := ParamName(a);
      assert x[6..|x| - 1] == Digits(a);
      assert x[6..|x| - 1] == Digits(b);
      DigitsInjective(a, b);
    }
  }
}
