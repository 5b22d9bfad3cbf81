/** What both generators derive from an endpoint path of the documentation
    menu: the parameter names, the method name, the URL template and
    whether the response is a list. */
module Paths {
  import opened Strings
  import opened Naming

  // ---- re.findall(r':(\w+)', path) ------------------------------------------

  /** A match of `:(\w+)` starts at the head of `s`. */
  predicate ParamStarts(s: string) { |s| >= 2 && s[0] == ':' && IsWordChar(s[1]) }

  /** Characters consumed at the head of `s`: a whole match (the `\w+` run is
      greedy), or one character when no match starts here. */
  function ParamLen(s: string): (k: nat)
    requires s != []
    ensures 1 <= k <= |s|
  {
    if ParamStarts(s) then 1 + RunLength(s[1..], IsWordChar) else 1
  }

  /** The group captured at the head of `s`, if a match starts there. */
  function ParamHead(s: string): seq<string>
    requires s != []
  {
    if ParamStarts(s) then [s[1..ParamLen(s)]] else []
  }

  /** `re.findall(r':(\w+)', s)`: the captured names, left to right, without overlap. */
  function FindParams(s: string): seq<string>
    decreases |s|
  {
    if s == [] then [] else ParamHead(s) + FindParams(s[ParamLen(s)..])
  }

  /** `[to_snake_case(p) for p in ...]`. */
  function SnakeAll(ps: seq<string>): (r: seq<string>)
    ensures |r| == |ps| && forall k :: 0 <= k < |ps| ==> r[k] == Snake(ps[k])
  {
    seq(|ps|, k requires 0 <= k < |ps| => Snake(ps[k]))
  }

  /** The method parameters of an endpoint. */
  function Params(path: string): seq<string>
  {
    SnakeAll(FindParams(path))
  }

  lemma FindParamsUnfold(s: string)
    requires s != []
    ensures FindParams(s) == ParamHead(s) + FindParams(s[ParamLen(s)..])
  {
  }

  /** Every name of `names` is a non-empty run of word characters that
      follows a ':' in `s`. */
  predicate Captured(s: string, names: seq<string>)
  {
    forall k :: 0 <= k < |names| ==> names[k] != [] && AllWordChars(names[k]) && Contains(s, ":" + names[k])
  }

  lemma CapturedAppend(s: string, a: seq<string>, b: seq<string>)
    requires Captured(s, a) && Captured(s, b)
    ensures Captured(s, a + b)
  {
    forall k | 0 <= k < |a + b|
      ensures (a + b)[k] != [] && AllWordChars((a + b)[k]) && Contains(s, ":" + (a + b)[k])
    {
      if k < |a| {
        assert (a + b)[k] == a[k];
      } else {
        assert (a + b)[k] == b[k - |a|];
      }
    }
  }

  /** Every captured name is a non-empty run of word characters that follows
      a ':' in the path. */
  lemma {:induction false} FindParamsWords(s: string)
    ensures Captured(s, FindParams(s))
    decreases |s|
  {
    if s != [] {
      var k := ParamLen(s);
      var head := ParamHead(s);
      var rest := FindParams(s[k..]);
      FindParamsUnfold(s);
      assert Captured(s, rest) by {
        FindParamsWords(s[k..]);
        forall j | 0 <= j < |rest| ensures Contains(s, ":" + rest[j]) {
          ContainsSuffix(s, k, ":" + rest[j]);
        }
      }
      assert Captured(s, head) by {
        if ParamStarts(s) {
          ParamHeadWord(s);
        }
      }
      CapturedAppend(s, head, rest);
    }
  }

  /** The name captured at the head of `s`. */
  lemma ParamHeadWord(s: string)
    requires ParamStarts(s)
    ensures var p := s[1..ParamLen(s)]; p != [] && AllWordChars(p) && Contains(s, ":" + p)
  {
    var p := s[1..ParamLen(s)];
    assert AllWordChars(p) by {
      forall i | 0 <= i < |p| ensures IsWordChar(p[i]) { assert p[i] == s[1..][i]; }
    }
    assert s[..|":" + p|] == ":" + p;
  }

  lemma {:induction false} ContainsSuffix(s: string, k: nat, w: string)
    requires k <= |s| && Contains(s[k..], w)
    ensures Contains(s, w)
    decreases k
  {
    if k > 0 {
      assert s[1..][k - 1..] == s[k..];
      ContainsSuffix(s[1..], k - 1, w);
    }
  }

  /** A path without ':' has no parameters. */
  lemma {:induction false} FindParamsNoColon(s: string)
    requires ':' !in s
    ensures FindParams(s) == []
    decreases |s|
  {
    if s != [] {
      assert ':' !in s[1..];
      FindParamsNoColon(s[1..]);
    }
  }

  // ---- the method name ---------------------------------------------------------

  /** `path.replace("/", " ").replace(":", " by ")`. */
  function SpacedPath(path: string): string
  {
    ReplaceAll(ReplaceAll(path, "/", " "), ":", " by ")
  }

  /** gen.py: the whitespace runs become '_' and then '_' is stripped from both ends. */
  function CleanPathGen(path: string): string
  {
    StripChar(SubSpaceRuns(SpacedPath(path), '_'), '_')
  }

  /** codegen: whitespace is stripped first and then the runs become '_'. */
  function CleanPathCodegen(path: string): string
  {
    SubSpaceRuns(Strip(SpacedPath(path)), '_')
  }

  function FunctionNameGen(path: string): (r: string)
    ensures NoUpper(r)
  {
    Snake("get_" + CleanPathGen(path))
  }

  function FunctionNameCodegen(path: string): (r: string)
    ensures NoUpper(r)
  {
    Snake("get_" + CleanPathCodegen(path))
  }

  // ---- the URL template ----------------------------------------------------------

  /** `"{" + to_snake_case(p) + "}"`, the placeholder written for `:p`. */
  function Placeholder(p: string): string
  {
    "{" + Snake(p) + "}"
  }

  /** The loop over the captured names: each `:p` is replaced, everywhere, by
      its placeholder, one name after the other. */
  function Substitute(t: string, ps: seq<string>): string
    decreases |ps|
  {
    if ps == [] then t else Substitute(ReplaceAll(t, ":" + ps[0], Placeholder(ps[0])), ps[1..])
  }

  /** The template the loop computes: `path.strip('/')` with the names substituted. */
  function EndpointTemplate(path: string): string
  {
    Substitute(StripChar(path, '/'), FindParams(path))
  }

  /** The loop that rewrites `endpoint_fstring` for each captured name. */
  method EndpointFstring(path: string) returns (f: string)
    ensures f == EndpointTemplate(path)
  {
    var ps := FindParams(path);
    f := StripChar(path, '/');
    var i := 0;
    while i < |ps|
      invariant 0 <= i <= |ps|
      invariant Substitute(f, ps[i..]) == EndpointTemplate(path)
    {
      assert ps[i..][1..] == ps[i + 1..];
      f := ReplaceAll(f, ":" + ps[i], Placeholder(ps[i]));
      i := i + 1;
    }
  }

  // ---- list or single response ----------------------------------------------------

  /** gen.py's cardinality test: no ':' in the path, one of four words in it,
      or the path is exactly "/maps". */
  predicate IsListPathGen(path: string)
  {
    !Contains(path, ":") || Contains(path, "leaderboard") || Contains(path, "filter")
    || path == "/maps" || Contains(path, "matches") || Contains(path, "homs")
  }

  /** The words that make codegen treat a response as a list. */
  const ListTriggers: seq<string> := ["leaderboard", "filter", "matches", "homs"]

  /** `any(trigger in path for trigger in triggers)`. */
  predicate AnyTrigger(path: string, triggers: seq<string>)
    decreases |triggers|
  {
    triggers != [] && (Contains(path, triggers[0]) || AnyTrigger(path, triggers[1..]))
  }

  /** codegen's cardinality test: the "/maps" clause is a suffix test. */
  predicate IsListPathCodegen(path: string)
  {
    !Contains(path, ":") || AnyTrigger(path, ListTriggers) || EndsWith(path, "/maps")
  }

  lemma AnyListTriggers(path: string)
    ensures AnyTrigger(path, ListTriggers) <==>
      Contains(path, "leaderboard") || Contains(path, "filter") || Contains(path, "matches") || Contains(path, "homs")
  {
    assert ListTriggers[1..][1..][1..][1..] == [];
  }

  lemma MapsHasNoColon(path: string)
    requires path == "/maps"
    ensures !Contains(path, ":")
  {
    NotContainsChar(path, ":", 0);
  }

  /** gen.py's exact "/maps" clause is dead: "/maps" has no ':' and is
      already a list by the first clause. */
  lemma GenMapsClauseRedundant(path: string)
    ensures IsListPathGen(path) <==>
      !Contains(path, ":") || Contains(path, "leaderboard") || Contains(path, "filter")
      || Contains(path, "matches") || Contains(path, "homs")
  {
    if path == "/maps" { MapsHasNoColon(path); }
  }

  /** Every path gen.py treats as a list, codegen treats as a list, and
      beyond that codegen adds exactly the paths that end in "/maps". */
  lemma CardinalityRulesCompared(path: string)
    ensures IsListPathGen(path) ==> IsListPathCodegen(path)
    ensures IsListPathCodegen(path) <==> IsListPathGen(path) || EndsWith(path, "/maps")
  {
    AnyListTriggers(path);
    GenMapsClauseRedundant(path);
  }
}
