/** `android.content.UriMatcher`: a table of (authority, path pattern, code)
    rules. A pattern token is a literal segment, `*` (any one segment) or `#`
    (one segment of decimal digits). */
module UriMatcher {
  import opened Wrappers
  import opened Uris

  /** `UriMatcher.NO_MATCH`. */
  const NO_MATCH: int := -1

  datatype Token =
    | Exact(text: string)  // a literal segment
    | Number               // `#`
    | Text                 // `*`

  datatype Rule = Rule(authority: string, tokens: seq<Token>, code: int)

  /** `rootCode` is the code passed to `new UriMatcher(code)`. */
  datatype Matcher = Matcher(rootCode: int, rules: seq<Rule>)

  /** `new UriMatcher(code)`: no rules yet. */
  function NewMatcher(code: int): (m: Matcher)
    ensures m.rules == [] && m.rootCode == code
  {
    Matcher(code, [])
  }

  /** `path.split("/")`, keeping every piece. */
  function Split(path: string): (parts: seq<string>)
    ensures |parts| >= 1
    decreases |path|
  {
    if path == [] then [""]
    else
      var rest := Split(path[1..]);
      if path[0] == '/' then [""] + rest else [[path[0]] + rest[0]] + rest[1..]
  }

  /** A path without a separator is one piece. */
  lemma {:induction false} SplitSingle(a: string)
    requires '/' !in a
    ensures Split(a) == [a]
    decreases |a|
  {
    if a != [] {
      assert a[1..] + [] == a[1..];
      SplitSingle(a[1..]);
      assert [a[0]] + a[1..] == a;
    }
  }

  /** A separator after a piece without one splits off that piece. */
  lemma {:induction false} SplitFirst(a: string, b: string)
    requires '/' !in a
    ensures Split(a + "/" + b) == [a] + Split(b)
    decreases |a|
  {
    if a == [] {
      assert a + "/" + b == "/" + b;
      assert ("/" + b)[1..] == b;
    } else {
      assert (a + "/" + b)[1..] == a[1..] + "/" + b;
      SplitFirst(a[1..], b);
      assert [a[0]] + a[1..] == a;
    }
  }

  function ToToken(s: string): Token
  {
    if s == "#" then Number else if s == "*" then Text else Exact(s)
  }

  function ToTokens(parts: seq<string>): (ts: seq<Token>)
    ensures |ts| == |parts|
  {
    if parts == [] then [] else [ToToken(parts[0])] + ToTokens(parts[1..])
  }

  /** The pattern of an `addURI` path: one token per `/`-separated piece. */
  function Tokenize(path: string): seq<Token>
  {
    ToTokens(Split(path))
  }

  /** `addURI(authority, path, code)`: one more rule, after the existing ones. */
  function AddUri(m: Matcher, authority: string, path: string, code: nat): (m': Matcher)
    ensures m'.rootCode == m.rootCode && |m'.rules| == |m.rules| + 1
    ensures forall i :: 0 <= i < |m.rules| ==> m'.rules[i] == m.rules[i]
    ensures m'.rules[|m.rules|] == Rule(authority, Tokenize(path), code)
  {
    m.(rules := m.rules + [Rule(authority, Tokenize(path), code)])
  }

  predicate TokenMatches(t: Token, segment: string)
  {
    match t
    case Exact(text) => segment == text
    case Number => segment != [] && AllDigits(segment)
    case Text => true
  }

  predicate RuleMatches(r: Rule, u: Uri)
  {
    && u.authority == Some(r.authority)
    && |u.path| == |r.tokens|
    && forall i :: 0 <= i < |r.tokens| ==> TokenMatches(r.tokens[i], u.path[i])
  }

  /** The code of the first rule that matches, or NO_MATCH when none does. */
  function FirstMatch(rules: seq<Rule>, u: Uri): (code: int)
    ensures (forall i :: 0 <= i < |rules| ==> !RuleMatches(rules[i], u)) ==> code == NO_MATCH
    ensures forall i :: (0 <= i < |rules| && RuleMatches(rules[i], u)
                         && forall j :: 0 <= j < i ==> !RuleMatches(rules[j], u)) ==> code == rules[i].code
    ensures code == NO_MATCH || exists i :: 0 <= i < |rules| && RuleMatches(rules[i], u) && rules[i].code == code
  {
    if rules == [] then NO_MATCH
    else if RuleMatches(rules[0], u) then rules[0].code
    else
      var code := FirstMatch(rules[1..], u);
      assert forall i :: 1 <= i < |rules| ==> rules[i] == rules[1..][i - 1];
      code
  }

  /** `match(uri)`: the root code for a URI with neither authority nor path,
      otherwise the code of the first matching rule, and NO_MATCH when none does. */
  function Match(m: Matcher, u: Uri): (code: int)
    ensures u.authority.None? && u.path == [] ==> code == m.rootCode
    ensures (!(u.authority.None? && u.path == []) && forall i :: 0 <= i < |m.rules| ==> !RuleMatches(m.rules[i], u))
            ==> code == NO_MATCH
    ensures !(u.authority.None? && u.path == []) ==>
              forall i :: (0 <= i < |m.rules| && RuleMatches(m.rules[i], u)
                           && forall j :: 0 <= j < i ==> !RuleMatches(m.rules[j], u)) ==> code == m.rules[i].code
  {
    if u.authority.None? && u.path == [] then m.rootCode else FirstMatch(m.rules, u)
  }
}
