/**
 * The fragment of POSIX regular expressions that the templater generates:
 * `^` BODY `(/)*$`, where BODY is a run of ordinary characters and one-segment
 * wildcards `[^/]+`. A pattern text is parsed back into atoms and matched by
 * a small backtracking matcher; a text outside the fragment (for instance one
 * whose literal part holds a regex metacharacter) does not parse, and the model
 * says it matches nothing.
 */
module Pattern {
  import opened Wrappers

  /** A literal character, or the wildcard `[^/]+` (one or more non-slash characters). */
  datatype Atom = Lit(c: char) | Segment

  const Wildcard: string := "[^/]+"

  /** The anchored tail: any number of trailing slashes, then the end of the input. */
  const Tail: string := "(/)*$"

  /** The characters that are not ordinary in an advanced regular expression. */
  predicate IsMeta(c: char) {
    c in "^$.[]()*+?{}|\\"
  }

  /** Every literal atom is an ordinary character. */
  predicate Plain(p: seq<Atom>) {
    forall i :: 0 <= i < |p| ==> p[i].Lit? ==> !IsMeta(p[i].c)
  }

  predicate NoSlash(s: string) {
    forall i :: 0 <= i < |s| ==> s[i] != '/'
  }

  predicate AllSlashes(s: string) {
    forall i :: 0 <= i < |s| ==> s[i] == '/'
  }

  function AtomText(a: Atom): string {
    match a
    case Lit(c) => [c]
    case Segment => Wildcard
  }

  /** The regex text of a body. */
  function BodyText(p: seq<Atom>): string {
    if p == [] then "" else AtomText(p[0]) + BodyText(p[1..])
  }

  /** The atoms that match `s` character for character. */
  function LiteralAtoms(s: string): (p: seq<Atom>)
    ensures |p| == |s|
    ensures forall i :: 0 <= i < |s| ==> p[i] == Lit(s[i])
  {
    if s == [] then [] else [Lit(s[0])] + LiteralAtoms(s[1..])
  }

  /** Anchors a body at both ends, tolerating trailing slashes. */
  function Anchor(body: string): (r: string)
    ensures |r| == |body| + 6
    ensures r[0] == '^' && r[1..|r| - 5] == body && r[|r| - 5..] == Tail
  {
    "^" + body + Tail
  }

  /** Reads a body text back into atoms; `None` when the text leaves the fragment. What it reads prints back as the text. */
  function ParseBody(s: string): (r: Option<seq<Atom>>)
    ensures r.Some? ==> Plain(r.value) && BodyText(r.value) == s
    decreases |s|
  {
    if s == [] then Some([])
    else if |s| >= 5 && s[..5] == Wildcard then
      match ParseBody(s[5..])
      case Some(p) => Some([Segment] + p)
      case None => None
    else if IsMeta(s[0]) then None
    else
      match ParseBody(s[1..])
      case Some(p) => Some([Lit(s[0])] + p)
      case None => None
  }

  /** Reads a whole pattern text `^ BODY (/)*$`: what it reads is a plain body whose anchored text is the pattern. */
  function ParsePattern(regex: string): (r: Option<seq<Atom>>)
    ensures r.Some? ==> Plain(r.value) && Anchor(BodyText(r.value)) == regex
  {
    if |regex| >= 6 && regex[0] == '^' && regex[|regex| - 5..] == Tail
    then ParseBody(regex[1..|regex| - 5])
    else None
  }

  /** Whether `s` as a whole matches the atoms followed by `(/)*$`; every atom takes at least one character. */
  predicate MatchAtoms(p: seq<Atom>, s: string): (r: bool)
    ensures r ==> |s| >= |p|
    decreases |s|
  {
    if p == [] then AllSlashes(s)
    else match p[0]
      case Lit(c) => |s| > 0 && s[0] == c && MatchAtoms(p[1..], s[1..])
      case Segment =>
        |s| > 0 && s[0] != '/' && (MatchAtoms(p[1..], s[1..]) || MatchAtoms(p, s[1..]))
  }

  /** `s ~ regex` for a pattern text of the generated fragment; a text outside it matches nothing. */
  predicate RegexMatches(regex: string, s: string): (r: bool)
    ensures r ==> ParsePattern(regex).Some? && |s| >= |ParsePattern(regex).value|
  {
    match ParsePattern(regex)
    case Some(p) => MatchAtoms(p, s)
    case None => false
  }

  lemma {:induction false} BodyTextAppend(p: seq<Atom>, q: seq<Atom>)
    ensures BodyText(p + q) == BodyText(p) + BodyText(q)
    decreases |p|
  {
    if p == [] {
      assert p + q == q;
    } else {
      assert (p + q)[1..] == p[1..] + q;
      BodyTextAppend(p[1..], q);
    }
  }

  lemma {:induction false} LiteralText(s: string)
    ensures BodyText(LiteralAtoms(s)) == s
    decreases |s|
  {
    if s != [] {
      var p := LiteralAtoms(s);
      assert p[1..] == LiteralAtoms(s[1..]);
      LiteralText(s[1..]);
      assert s == [s[0]] + s[1..];
    }
  }

  /** Printing a plain body and parsing it back gives the same atoms. */
  lemma {:induction false} ParseBodyText(p: seq<Atom>)
    requires Plain(p)
    ensures ParseBody(BodyText(p)) == Some(p)
    decreases |p|
  {
    if p != [] {
      var s := BodyText(p);
      var rest := BodyText(p[1..]);
      assert s == AtomText(p[0]) + rest;
      assert Plain(p[1..]) by {
        forall i | 0 <= i < |p[1..]| && p[1..][i].Lit? ensures !IsMeta(p[1..][i].c) {
          assert p[1..][i] == p[i + 1];
        }
      }
      ParseBodyText(p[1..]);
      match p[0]
      case Segment =>
        assert s[..5] == Wildcard && s[5..] == rest;
        assert [Segment] + p[1..] == p;
      case Lit(c) =>
        assert !IsMeta(c) by { assert p[0].Lit?; }
        assert s[0] == c && s[1..] == rest;
        assert |s| >= 5 ==> s[..5][0] == c;
        assert [Lit(c)] + p[1..] == p;
    }
  }

  /** The round trip through the full anchored text. */
  lemma ParseAnchored(p: seq<Atom>)
    requires Plain(p)
    ensures ParsePattern(Anchor(BodyText(p))) == Some(p)
  {
    ParseBodyText(p);
  }

  /** A literal run matches itself, whatever follows. */
  lemma {:induction false} MatchLiteral(s: string, rest: seq<Atom>, tail: string)
    requires MatchAtoms(rest, tail)
    ensures MatchAtoms(LiteralAtoms(s) + rest, s + tail)
    decreases |s|
  {
    if s == [] {
      assert LiteralAtoms(s) + rest == rest;
      assert s + tail == tail;
    } else {
      MatchLiteral(s[1..], rest, tail);
      var p := LiteralAtoms(s) + rest;
      assert p[0] == Lit(s[0]);
      assert p[1..] == LiteralAtoms(s[1..]) + rest;
      assert (s + tail)[1..] == s[1..] + tail;
    }
  }

  /** The wildcard matches any non-empty run without a slash, whatever follows. */
  lemma {:induction false} MatchSegment(s: string, rest: seq<Atom>, tail: string)
    requires |s| > 0 && NoSlash(s)
    requires MatchAtoms(rest, tail)
    ensures MatchAtoms([Segment] + rest, s + tail)
    decreases |s|
  {
    var p := [Segment] + rest;
    assert p[1..] == rest;
    assert (s + tail)[0] == s[0];
    if |s| == 1 {
      assert (s + tail)[1..] == tail;
    } else {
      MatchSegment(s[1..], rest, tail);
      assert (s + tail)[1..] == s[1..] + tail;
    }
  }
}
