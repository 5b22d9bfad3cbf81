/** One entry of the documentation's left menu, as each generator turns it
    into a client method: its name, URL template, parameters, response model
    and whether the response is a list. gen.py also decides how the method
    parses the response body. */
module Endpoints {
  import opened Strings
  import opened Naming
  import opened Paths
  import opened Segments
  import opened Docs
  import opened Wrappers

  /** What both generators record for an endpoint (codegen's `methods_data` entry). */
  datatype Endpoint = Endpoint(
    name: string,
    description: string,
    url: string,
    params: seq<string>,
    template: string,
    returnType: string,
    modelName: string,
    isList: bool)

  /** How gen.py's method treats the response body: hand it back unparsed,
      validate each item of a list, or validate one object. */
  datatype Parsing = ReturnBody | ValidateList(model: string) | ValidateObject(model: string)

  /** A method of gen.py's `NinjaKiwiAPI` class. */
  datatype ClientMethod = ClientMethod(endpoint: Endpoint, parsing: Parsing)

  /** The path of a menu entry: the stripped text of its title div. */
  function PathOf(e: MenuEntry): string
  {
    Strip(e.title)
  }

  /** The response model's class name, or "Any" when the entry has none. */
  function ModelNameOf(e: MenuEntry): string
  {
    if e.modelRaw.Some? then Pascal(e.modelRaw.value) else "Any"
  }

  /** The return annotation: "Any | None" without a response model. */
  function ReturnType(typed: bool, model: string, isList: bool): string
  {
    if !typed then "Any | None"
    else if isList then "list[" + model + "] | None"
    else model + " | None"
  }

  /** The record a generator writes for a menu entry, given its rule for
      the method name and its rule for list responses. */
  function EndpointWith(e: MenuEntry, name: string, isListPath: bool): (r: Endpoint)
  {
    var path := PathOf(e);
    var typed := e.modelRaw.Some?;
    var isList := typed && isListPath;
    Endpoint(name, Strip(e.body), path, Params(path), EndpointTemplate(path),
             ReturnType(typed, ModelNameOf(e), isList), ModelNameOf(e), isList)
  }

  /** gen.py's record for a menu entry. */
  function EndpointGen(e: MenuEntry): Endpoint
  {
    EndpointWith(e, FunctionNameGen(PathOf(e)), IsListPathGen(PathOf(e)))
  }

  /** codegen's record for a menu entry. */
  function EndpointCodegen(e: MenuEntry): Endpoint
  {
    EndpointWith(e, FunctionNameCodegen(PathOf(e)), IsListPathCodegen(PathOf(e)))
  }

  /** gen.py's parsing branch: it tests the class name, not whether the
      entry had a response model. */
  function ParsingOf(model: string, isList: bool): Parsing
  {
    if model == "Any" then ReturnBody
    else if isList then ValidateList(model)
    else ValidateObject(model)
  }

  /** gen.py's method for a menu entry. */
  function MethodGen(e: MenuEntry): ClientMethod
  {
    var ep := EndpointGen(e);
    ClientMethod(ep, ParsingOf(ep.modelName, ep.isList))
  }

  // ---- what a record says ---------------------------------------------------------

  /** An entry without a response model gives an untyped method that returns
      the body as it is, in both generators. */
  lemma UntypedEndpoint(e: MenuEntry)
    requires e.modelRaw.None?
    ensures var g := EndpointGen(e);
            g.modelName == "Any" && g.returnType == "Any | None" && !g.isList
    ensures var c := EndpointCodegen(e);
            c.modelName == "Any" && c.returnType == "Any | None" && !c.isList
    ensures MethodGen(e).parsing == ReturnBody
  {
  }

  /** An entry with a response model named `raw` returns the Pascal-case
      class `Pascal(raw)`, as a list exactly when the generator's list rule
      holds for its path. */
  lemma TypedEndpoint(e: MenuEntry)
    requires e.modelRaw.Some?
    ensures var g := EndpointGen(e);
            g.modelName == Pascal(e.modelRaw.value)
            && (g.isList <==> IsListPathGen(PathOf(e)))
            && g.returnType == (if g.isList then "list[" + g.modelName + "] | None" else g.modelName + " | None")
    ensures var c := EndpointCodegen(e);
            c.modelName == Pascal(e.modelRaw.value)
            && (c.isList <==> IsListPathCodegen(PathOf(e)))
            && c.returnType == (if c.isList then "list[" + c.modelName + "] | None" else c.modelName + " | None")
  {
  }

  /** The method's URL is the path; its parameters are the snake_case names
      captured after each ':' and carry no capitals; its name carries no
      capitals either. */
  lemma EndpointShape(e: MenuEntry)
    ensures var g := EndpointGen(e);
            g.url == PathOf(e) && g.params == SnakeAll(FindParams(PathOf(e)))
            && |g.params| == |FindParams(PathOf(e))|
            && (forall k :: 0 <= k < |g.params| ==> NoUpper(g.params[k]))
            && NoUpper(g.name)
  {
    var ps := FindParams(PathOf(e));
    forall k | 0 <= k < |ps| ensures NoUpper(SnakeAll(ps)[k]) {
      assert SnakeAll(ps)[k] == Snake(ps[k]);
    }
  }

  /** gen.py parses the body as a list exactly for a list response whose
      class name is not "Any", as one object for the other responses with
      such a class, and hands it back unparsed otherwise. */
  lemma ParsingCases(e: MenuEntry)
    ensures var m := MethodGen(e);
            (m.parsing == ReturnBody <==> m.endpoint.modelName == "Any")
            && (m.parsing.ValidateList? <==> m.endpoint.modelName != "Any" && m.endpoint.isList)
            && (m.parsing.ValidateObject? <==> m.endpoint.modelName != "Any" && !m.endpoint.isList)
            && (!m.parsing.ReturnBody? ==> m.parsing.model == m.endpoint.modelName && e.modelRaw.Some?)
  {
  }

  lemma CapitalizeAny(p: string)
    requires p == "any"
    ensures Capitalize(p) == "Any"
  {
    assert p[1..] == "ny";
    LowerOfNoUpper("ny");
  }

  lemma PascalAny(s: string)
    requires s == "any"
    ensures Pascal(s) == "Any"
  {
    PascalIgnoresReplacements(s);
    assert TrimStart(s, '_') == s;
    SplitNoSeparator(s, IsPascalSep);
    CapitalizeAny(s);
    var caps := CapitalizeAll([s]);
    assert caps == [Capitalize(s)];
    assert Concat(caps) == caps[0] + Concat(caps[1..]);
    assert caps[1..] == [];
  }

  /** A response model whose raw name is "any", in any case and after any
      leading underscores, becomes the class "Any": the method is typed, as
      a list for a list path, yet returns the body unparsed, because the
      parsing branch tests the class name. */
  lemma AnyModelIsNotParsed(raw: string, isList: bool)
    requires Lower(TrimStart(raw, '_')) == "any"
    ensures Pascal(raw) == "Any"
    ensures ParsingOf(Pascal(raw), isList) == ReturnBody
    ensures ReturnType(true, Pascal(raw), isList) == (if isList then "list[Any] | None" else "Any | None")
  {
    PascalAnyBlind(raw);
    ReturnTypeAny(isList);
  }

  lemma ReturnTypeAny(isList: bool)
    ensures ReturnType(true, "Any", isList) == (if isList then "list[Any] | None" else "Any | None")
  {
    if isList {
      assert "list[" + "Any" + "] | None" == "list[Any] | None";
    } else {
      assert "Any" + " | None" == "Any | None";
    }
  }

  /** Case and leading underscores do not change the class name "Any". */
  lemma PascalAnyBlind(raw: string)
    requires Lower(TrimStart(raw, '_')) == "any"
    ensures Pascal(raw) == "Any"
  {
    var t := TrimStart(raw, '_');
    assert Pascal(raw) == Pascal(t) by {
      PascalIgnoresReplacements(raw);
      PascalIgnoresReplacements(t);
      assert TrimStart(t, '_') == t;
    }
    assert Pascal(t) == Pascal("any") by {
      LowerOfNoUpper("any");
      PascalCaseBlind(t, "any");
    }
    PascalAny("any");
  }

  // ---- gen.py and codegen compared ---------------------------------------------------

  /** The two generators agree on everything except the method name and the
      list rule; codegen's list rule is the wider one, and they differ on it
      exactly for typed entries whose path ends in "/maps" and fails gen.py's
      rule. */
  lemma GeneratorsCompared(e: MenuEntry)
    ensures var g, c := EndpointGen(e), EndpointCodegen(e);
            g.description == c.description && g.url == c.url && g.params == c.params
            && g.template == c.template && g.modelName == c.modelName
            && (g.isList ==> c.isList)
            && (c.isList && !g.isList <==>
                  e.modelRaw.Some? && EndsWith(PathOf(e), "/maps") && !IsListPathGen(PathOf(e)))
    ensures EndpointCodegen(e).isList && !EndpointGen(e).isList <==>
              e.modelRaw.Some? && EndsWith(PathOf(e), "/maps") && Contains(PathOf(e), ":")
              && !Contains(PathOf(e), "leaderboard") && !Contains(PathOf(e), "filter")
              && !Contains(PathOf(e), "matches") && !Contains(PathOf(e), "homs")
  {
    CardinalityRulesCompared(PathOf(e));
    if PathOf(e) == "/maps" {
      MapsHasNoColon(PathOf(e));
    }
  }

  /** On a path made of well-formed segments the two naming rules agree. */
  lemma NamesAgree(e: MenuEntry, segs: seq<Segment>)
    requires WellFormed(segs) && PathOf(e) == Render(segs)
    ensures EndpointGen(e).name == EndpointCodegen(e).name == MethodName(segs)
  {
    FunctionNameRender(segs);
  }

  // ---- a path the naming rules disagree on ---------------------------------------

  lemma SpacedUnderscorePath(path: string)
    requires path == "/_a"
    ensures SpacedPath(path) == " _a"
  {
    assert path == "/" + "_a";
    assert ReplaceAll(path, "/", " ") == " " + ReplaceAll("_a", "/", " ");
    ReplaceAllAbsent("_a", "/", " ");
    ReplaceAllAbsent(" _a", ":", " by ");
  }

  lemma CleanUnderscorePath(path: string)
    requires path == "/_a"
    ensures CleanPathGen(path) == "a"
    ensures CleanPathCodegen(path) == "_a"
  {
    SpacedUnderscorePath(path);
    var sp := " _a";
    assert SubSpaceRuns(sp, '_') == "__a" by {
      assert sp == " " + "_a";
      SubSpaceRunsRun(" ", "_a", '_');
      assert SubSpaceRuns("_a", '_') == "_" + SubSpaceRuns("a", '_') by { assert "_a"[1..] == "a"; }
      assert SubSpaceRuns("a", '_') == "a" + SubSpaceRuns([], '_') by { assert "a"[1..] == []; }
    }
    assert TrimStart("__a", '_') == "a" by { assert "__a"[1..] == "_a"; assert "_a"[1..] == "a"; }
    assert TrimEnd("a", '_') == "a";
    assert Strip(sp) == "_a" by {
      assert TrimStartSpace(sp) == "_a" by { assert sp[1..] == "_a"; }
      assert TrimEndSpace("_a") == "_a";
    }
    assert SubSpaceRuns("_a", '_') == "_a" by {
      assert "_a"[1..] == "a";
      assert SubSpaceRuns("a", '_') == "a" + SubSpaceRuns([], '_') by { assert "a"[1..] == []; }
    }
  }

  /** A segment that starts with '_' shows the naming rules apart: gen.py
      strips the underscore runs made from the leading '/', codegen keeps
      the segment's own underscore. */
  lemma NamesDiffer(path: string)
    requires path == "/_a"
    ensures FunctionNameGen(path) == "get_a"
    ensures FunctionNameCodegen(path) == "get__a"
  {
    CleanUnderscorePath(path);
    SnakeOfLower("get_" + CleanPathGen(path), "get_a");
    SnakeOfLower("get_" + CleanPathCodegen(path), "get__a");
  }

  lemma SnakeOfLower(s: string, t: string)
    requires s == t && (t == "get_a" || t == "get__a")
    ensures Snake(s) == t
  {
    SnakeNoUpper(s);
  }

  // ---- three endpoints of the client -------------------------------------------------

  /** A path with a ':' and, for each list word, a letter of it that the
      path lacks. */
  lemma SingleShaped(path: string, colon: nat, l: nat, f: nat, m: nat, h: nat)
    requires colon < |path| && path[colon] == ':'
    requires l < 11 && "leaderboard"[l] !in path
    requires f < 6 && "filter"[f] !in path
    requires m < 7 && "matches"[m] !in path
    requires h < 4 && "homs"[h] !in path
    ensures Contains(path, ":")
    ensures !Contains(path, "leaderboard") && !Contains(path, "filter")
    ensures !Contains(path, "matches") && !Contains(path, "homs")
    ensures !AnyTrigger(path, ListTriggers)
  {
    assert path[colon..colon + 1] == [path[colon]];
    ContainsAt(path, ":", colon);
    NotContainsChar(path, "leaderboard", l);
    NotContainsChar(path, "filter", f);
    NotContainsChar(path, "matches", m);
    NotContainsChar(path, "homs", h);
    AnyListTriggers(path);
  }

  lemma OdysseyMapsLetters(path: string)
    requires path == "/btd6/odyssey/:odysseyID/:difficulty/maps"
    ensures path[14] == ':' && 'r' !in path && 'h' !in path
  {
    LacksChar(path, 'r');
    LacksChar(path, 'h');
  }

  /** A character that differs from every character of a string is not in it. */
  lemma LacksChar(s: string, c: char)
    requires forall i :: 0 <= i < |s| ==> s[i] != c
    ensures c !in s
  {
  }

  lemma OdysseyMapsFacts(path: string)
    requires path == "/btd6/odyssey/:odysseyID/:difficulty/maps"
    ensures path[14] == ':' && 'r' !in path && 'h' !in path
    ensures EndsWith(path, "/maps") && path != "/maps"
  {
    OdysseyMapsLetters(path);
    assert path[|path| - 5..] == "/maps";
  }

  /** `/btd6/odyssey/:odysseyID/:difficulty/maps` is a single object for
      gen.py and a list for codegen. */
  lemma OdysseyMapsCardinality(path: string)
    requires path == "/btd6/odyssey/:odysseyID/:difficulty/maps"
    ensures !IsListPathGen(path) && IsListPathCodegen(path)
  {
    OdysseyMapsFacts(path);
    SingleShaped(path, 14, 5, 5, 4, 0);
  }

  lemma UserFacts(path: string)
    requires path == "/btd6/users/:userID"
    ensures path[12] == ':' && 'l' !in path && 'f' !in path && 'm' !in path && 'h' !in path
    ensures !EndsWith(path, "/maps") && path != "/maps"
  {
    assert path[|path| - 5..] != "/maps";
  }

  /** `/btd6/users/:userID` is a single object for both generators. */
  lemma UserCardinality(path: string)
    requires path == "/btd6/users/:userID"
    ensures !IsListPathGen(path) && !IsListPathCodegen(path)
  {
    UserFacts(path);
    SingleShaped(path, 12, 0, 0, 0, 0);
  }

  lemma CtLeaderboardFacts(path: string)
    requires path == "/btd6/ct/:ctID/leaderboard/player"
    ensures path[15..26] == "leaderboard"
  {
  }

  /** `/btd6/ct/:ctID/leaderboard/player` is a list for both generators. */
  lemma CtLeaderboardCardinality(path: string)
    requires path == "/btd6/ct/:ctID/leaderboard/player"
    ensures IsListPathGen(path) && IsListPathCodegen(path)
  {
    CtLeaderboardFacts(path);
    ContainsAt(path, "leaderboard", 15);
    AnyListTriggers(path);
  }
}
