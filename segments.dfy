/** Endpoint paths of the documented shape: a sequence of `/name` and
    `/:name` segments. Over such paths the string derivations of `Paths`
    have closed forms, segment by segment. */
module Segments {
  import opened Strings
  import opened Naming
  import opened Paths

  /** A literal segment `/name` or a parameter segment `/:name`. */
  datatype Segment = Lit(name: string) | Param(name: string)

  function SegText(g: Segment): string
  {
    match g
    case Lit(n) => "/" + n
    case Param(n) => "/:" + n
  }

  /** The path text of a segment sequence. */
  function Render(segs: seq<Segment>): string
    decreases |segs|
  {
    if segs == [] then [] else SegText(segs[0]) + Render(segs[1..])
  }

  /** Names as the documentation writes them: word characters, starting with a
      lowercase letter and not ending in '_'. */
  predicate GoodName(n: string) { n != [] && AllWordChars(n) && IsLower(n[0]) && n[|n| - 1] != '_' }

  predicate WellFormed(segs: seq<Segment>) { segs != [] && forall k :: 0 <= k < |segs| ==> GoodName(segs[k].name) }

  /** The names of the parameter segments, in path order. */
  function ParamNames(segs: seq<Segment>): seq<string>
    decreases |segs|
  {
    if segs == [] then []
    else (if segs[0].Param? then [segs[0].name] else []) + ParamNames(segs[1..])
  }

  lemma WellFormedTail(segs: seq<Segment>)
    requires WellFormed(segs) && |segs| >= 2
    ensures WellFormed(segs[1..])
  {
    assert forall k :: 0 <= k < |segs[1..]| ==> segs[1..][k] == segs[k + 1];
  }

  lemma WellFormedWords(segs: seq<Segment>)
    requires WellFormed(segs)
    ensures forall k :: 0 <= k < |segs| ==> segs[k].name != [] && AllWordChars(segs[k].name)
  {
  }

  lemma RenderUnfold(segs: seq<Segment>)
    requires segs != []
    ensures Render(segs) == SegText(segs[0]) + Render(segs[1..])
  {
  }

  lemma WordNoSpecial(n: string)
    requires AllWordChars(n)
    ensures '/' !in n && ':' !in n && ' ' !in n && NoSpace(n)
  {
    assert forall i :: 0 <= i < |n| ==> IsWordChar(n[i]);
  }

  // ---- character replacement ------------------------------------------------------

  /** The text after '/' became ' ': `" name"` or `" :name"`. */
  function SlashText(g: Segment): string
  {
    match g
    case Lit(n) => " " + n
    case Param(n) => " :" + n
  }

  function Slashed(segs: seq<Segment>): string
    decreases |segs|
  {
    if segs == [] then [] else SlashText(segs[0]) + Slashed(segs[1..])
  }

  /** The text after ':' became " by " as well: `" name"` or `"  by name"`. */
  function SpaceText(g: Segment): string
  {
    match g
    case Lit(n) => " " + n
    case Param(n) => "  by " + n
  }

  function Spaced(segs: seq<Segment>): string
    decreases |segs|
  {
    if segs == [] then [] else SpaceText(segs[0]) + Spaced(segs[1..])
  }

  lemma SlashSeg(g: Segment)
    requires AllWordChars(g.name)
    ensures ReplaceAll(SegText(g), "/", " ") == SlashText(g)
  {
    WordNoSpecial(g.name);
    ReplaceAllAbsent(g.name, "/", " ");
    match g
    case Lit(n) =>
      ReplaceCharAppend("/", n, '/', " ");
      assert ReplaceAll("/", "/", " ") == " ";
    case Param(n) =>
      ReplaceCharAppend("/", ":" + n, '/', " ");
      assert "/" + (":" + n) == "/:" + n;
      assert ReplaceAll("/", "/", " ") == " ";
      ReplaceCharAppend(":", n, '/', " ");
      assert ReplaceAll(":", "/", " ") == ":";
  }

  lemma {:induction false} SlashRender(segs: seq<Segment>)
    requires forall k :: 0 <= k < |segs| ==> AllWordChars(segs[k].name)
    ensures ReplaceAll(Render(segs), "/", " ") == Slashed(segs)
    decreases |segs|
  {
    if segs != [] {
      SlashRender(segs[1..]);
      SlashSeg(segs[0]);
      ReplaceCharAppend(SegText(segs[0]), Render(segs[1..]), '/', " ");
    }
  }

  lemma ColonSeg(g: Segment)
    requires AllWordChars(g.name)
    ensures ReplaceAll(SlashText(g), ":", " by ") == SpaceText(g)
  {
    WordNoSpecial(g.name);
    ReplaceAllAbsent(g.name, ":", " by ");
    match g
    case Lit(n) =>
      ReplaceCharAppend(" ", n, ':', " by ");
      assert ReplaceAll(" ", ":", " by ") == " ";
    case Param(n) =>
      ReplaceCharAppend(" ", ":" + n, ':', " by ");
      assert " " + (":" + n) == " :" + n;
      assert ReplaceAll(" ", ":", " by ") == " ";
      ReplaceCharAppend(":", n, ':', " by ");
      assert ReplaceAll(":", ":", " by ") == " by ";
      assert " " + (" by " + n) == "  by " + n;
  }

  lemma {:induction false} ColonSlashed(segs: seq<Segment>)
    requires forall k :: 0 <= k < |segs| ==> AllWordChars(segs[k].name)
    ensures ReplaceAll(Slashed(segs), ":", " by ") == Spaced(segs)
    decreases |segs|
  {
    if segs != [] {
      ColonSlashed(segs[1..]);
      ColonSeg(segs[0]);
      ReplaceCharAppend(SlashText(segs[0]), Slashed(segs[1..]), ':', " by ");
    }
  }

  lemma SpacedPathRender(segs: seq<Segment>)
    requires forall k :: 0 <= k < |segs| ==> AllWordChars(segs[k].name)
    ensures SpacedPath(Render(segs)) == Spaced(segs)
  {
    SlashRender(segs);
    ColonSlashed(segs);
  }

  // ---- whitespace runs and stripping --------------------------------------------

  /** After the whitespace runs became '_': `"_name"` or `"_by_name"`. */
  function UnderBody(g: Segment): string
  {
    match g
    case Lit(n) => n
    case Param(n) => "by_" + n
  }

  function UnderText(g: Segment): string
  {
    "_" + UnderBody(g)
  }

  function Unders(segs: seq<Segment>): string
    decreases |segs|
  {
    if segs == [] then [] else UnderText(segs[0]) + Unders(segs[1..])
  }

  /** The part of a segment's spaced text after its leading whitespace. */
  function SpaceBody(g: Segment): string
  {
    match g
    case Lit(n) => n
    case Param(n) => "by " + n
  }

  function SpaceLead(g: Segment): string
  {
    match g
    case Lit(_) => " "
    case Param(_) => "  "
  }

  lemma SpaceTextSplit(g: Segment)
    ensures SpaceText(g) == SpaceLead(g) + SpaceBody(g)
  {
    match g
    case Lit(n) =>
    case Param(n) => assert "  by " + n == "  " + ("by " + n);
  }

  lemma {:induction false} SpacedStart(segs: seq<Segment>)
    requires forall k :: 0 <= k < |segs| ==> GoodName(segs[k].name)
    ensures Spaced(segs) == [] || IsSpace(Spaced(segs)[0])
    decreases |segs|
  {
  }

  lemma ByFacts(x: string)
    ensures NoSpace("by") && AllSpace(" ")
    ensures "by " + x == "by" + (" " + x) && "by_" + x == "by" + ("_" + x)
  {
  }

  /** A word, a whitespace run, a word, then text that starts with whitespace. */
  lemma SubSpaceRunsWordRunWord(w: string, ws: string, n: string, rest: string)
    requires NoSpace(w) && ws != [] && AllSpace(ws) && n != [] && NoSpace(n)
    ensures SubSpaceRuns(w + (ws + (n + rest)), '_') == w + ("_" + (n + SubSpaceRuns(rest, '_')))
  {
    SubSpaceRunsWord(n, rest, '_');
    SubSpaceRunsRun(ws, n + rest, '_');
    SubSpaceRunsWord(w, ws + (n + rest), '_');
  }

  lemma SubSpaceRunsParam(n: string, rest: string)
    requires n != [] && NoSpace(n)
    ensures SubSpaceRuns("by " + n + rest, '_') == "by_" + n + SubSpaceRuns(rest, '_')
  {
    ByFacts(n + rest);
    ByFacts(n + SubSpaceRuns(rest, '_'));
    SubSpaceRunsWordRunWord("by", " ", n, rest);
    Assoc("by ", n, rest);
    Assoc("by_", n, SubSpaceRuns(rest, '_'));
  }

  /** The substitution of a spaced segment's body followed by text that
      starts with whitespace (or nothing). */
  lemma SubSpaceRunsSeg(g: Segment, rest: string)
    requires GoodName(g.name)
    ensures SubSpaceRuns(SpaceBody(g) + rest, '_') == UnderBody(g) + SubSpaceRuns(rest, '_')
  {
    WordNoSpecial(g.name);
    match g
    case Lit(n) =>
      SubSpaceRunsWord(n, rest, '_');
    case Param(n) =>
      SubSpaceRunsParam(n, rest);
  }

  lemma SpaceBodyStart(g: Segment)
    requires GoodName(g.name)
    ensures SpaceBody(g) != [] && !IsSpace(SpaceBody(g)[0])
  {
  }

  lemma SubSpaceRunsSpacedStep(g: Segment, rest: string, under: string)
    requires GoodName(g.name) && (rest == [] || IsSpace(rest[0])) && SubSpaceRuns(rest, '_') == under
    ensures SubSpaceRuns(SpaceText(g) + rest, '_') == UnderText(g) + under
  {
    SpaceTextSplit(g);
    Assoc(SpaceLead(g), SpaceBody(g), rest);
    SpaceBodyStart(g);
    assert AllSpace(SpaceLead(g));
    SubSpaceRunsRun(SpaceLead(g), SpaceBody(g) + rest, '_');
    SubSpaceRunsSeg(g, rest);
    Assoc("_", UnderBody(g), under);
  }

  lemma {:induction false} SubSpaceRunsSpaced(segs: seq<Segment>)
    requires forall k :: 0 <= k < |segs| ==> GoodName(segs[k].name)
    ensures SubSpaceRuns(Spaced(segs), '_') == Unders(segs)
    decreases |segs|
  {
    if segs != [] {
      assert forall k :: 0 <= k < |segs[1..]| ==> segs[1..][k] == segs[k + 1];
      SubSpaceRunsSpaced(segs[1..]);
      SpacedStart(segs[1..]);
      SubSpaceRunsSpacedStep(segs[0], Spaced(segs[1..]), Unders(segs[1..]));
    }
  }

  lemma {:induction false} UndersLast(segs: seq<Segment>)
    requires segs != [] && forall k :: 0 <= k < |segs| ==> segs[k].name != []
    ensures Unders(segs) != [] && Unders(segs)[|Unders(segs)| - 1] == segs[|segs| - 1].name[|segs[|segs| - 1].name| - 1]
    decreases |segs|
  {
    var g := segs[0];
    var t := UnderText(g);
    var rest := Unders(segs[1..]);
    assert Unders(segs) == t + rest;
    if |segs| >= 2 {
      var last := segs[|segs| - 1].name;
      assert rest != [] && rest[|rest| - 1] == last[|last| - 1] by {
        assert forall k :: 0 <= k < |segs[1..]| ==> segs[1..][k] == segs[k + 1];
        UndersLast(segs[1..]);
      }
      LastOfAppend(t, rest);
    } else {
      assert rest == [] by {
        assert segs[1..] == [];
      }
      assert t + rest == t;
      UnderTextLast(g);
    }
  }

  lemma UnderTextLast(g: Segment)
    requires g.name != []
    ensures UnderText(g) != [] && UnderText(g)[|UnderText(g)| - 1] == g.name[|g.name| - 1]
  {
    match g
    case Lit(n) =>
      LastOfAppend("_", n);
    case Param(n) =>
      LastOfAppend("by_", n);
      LastOfAppend("_", "by_" + n);
  }

  lemma UnderBodyStart(g: Segment)
    requires GoodName(g.name)
    ensures UnderBody(g) != [] && UnderBody(g)[0] != '_'
  {
  }

  lemma UndersStart(segs: seq<Segment>)
    requires WellFormed(segs)
    ensures |Unders(segs)| >= 2 && Unders(segs) == "_" + Unders(segs)[1..] && Unders(segs)[1] != '_'
  {
    var g := segs[0];
    UnderBodyStart(g);
    UndersHead(Unders(segs), UnderBody(g), Unders(segs[1..]));
  }

  lemma UndersHead(u: string, body: string, rest: string)
    requires u == ("_" + body) + rest && body != [] && body[0] != '_'
    ensures |u| >= 2 && u == "_" + u[1..] && u[1] != '_'
  {
  }

  lemma TrimStartOne(s: string, c: char)
    requires |s| >= 2 && s[0] == c && s[1] != c
    ensures TrimStart(s, c) == s[1..]
  {
  }

  /** gen.py's cleaning keeps everything after the first '_'. */
  lemma CleanGenRender(segs: seq<Segment>)
    requires WellFormed(segs)
    ensures CleanPathGen(Render(segs)) == Unders(segs)[1..]
  {
    WellFormedWords(segs);
    SpacedPathRender(segs);
    SubSpaceRunsSpaced(segs);
    StripUnders(segs);
  }

  lemma StripUnders(segs: seq<Segment>)
    requires WellFormed(segs)
    ensures StripChar(Unders(segs), '_') == Unders(segs)[1..]
  {
    var u := Unders(segs);
    UndersLast(segs);
    UndersStart(segs);
    TrimStartOne(u, '_');
  }

  lemma {:induction false} TrimStartSpaceRun(ws: string, y: string)
    requires AllSpace(ws) && y != [] && !IsSpace(y[0])
    ensures TrimStartSpace(ws + y) == y
    decreases |ws|
  {
    if ws == [] {
      assert ws + y == y;
    } else {
      assert (ws + y)[1..] == ws[1..] + y;
      TrimStartSpaceRun(ws[1..], y);
    }
  }

  lemma StripLead(ws: string, y: string)
    requires AllSpace(ws) && y != [] && !IsSpace(y[0]) && !IsSpace(y[|y| - 1])
    ensures Strip(ws + y) == y
  {
    TrimStartSpaceRun(ws, y);
  }

  lemma SpacedSplit(segs: seq<Segment>)
    requires WellFormed(segs)
    ensures Spaced(segs) == SpaceLead(segs[0]) + (SpaceBody(segs[0]) + Spaced(segs[1..]))
  {
    SpaceTextSplit(segs[0]);
    Assoc(SpaceLead(segs[0]), SpaceBody(segs[0]), Spaced(segs[1..]));
  }

  lemma StripSpacedSplit(segs: seq<Segment>)
    requires WellFormed(segs)
    ensures Strip(Spaced(segs)) == SpaceBody(segs[0]) + Spaced(segs[1..])
  {
    SpacedSplit(segs);
    SpacedBodyEnds(segs);
    StripLead(SpaceLead(segs[0]), SpaceBody(segs[0]) + Spaced(segs[1..]));
  }

  /** After the leading spaces of the first segment, the spaced text starts
      and ends with a character other than a space. */
  lemma SpacedBodyEnds(segs: seq<Segment>)
    requires WellFormed(segs)
    ensures AllSpace(SpaceLead(segs[0]))
    ensures var y := SpaceBody(segs[0]) + Spaced(segs[1..]);
            y != [] && !IsSpace(y[0]) && !IsSpace(y[|y| - 1])
  {
    var g := segs[0];
    var lead := SpaceLead(g);
    var y := SpaceBody(g) + Spaced(segs[1..]);
    assert y != [] && !IsSpace(y[0]) by {
      SpaceBodyStart(g);
      assert y[0] == SpaceBody(g)[0];
    }
    assert !IsSpace(y[|y| - 1]) by {
      SpacedSplit(segs);
      SpacedLast(segs);
      LastOfAppend(lead, y);
    }
  }

  /** codegen's cleaning gives the same text. */
  lemma CleanCodegenRender(segs: seq<Segment>)
    requires WellFormed(segs)
    ensures CleanPathCodegen(Render(segs)) == Unders(segs)[1..]
  {
    WellFormedWords(segs);
    SpacedPathRender(segs);
    CleanCodegenSpaced(segs);
  }

  lemma StripThenRuns(sp: string, lead: string, y: string, u: string)
    requires lead != [] && AllSpace(lead) && y != [] && !IsSpace(y[0]) && sp == lead + y
    requires Strip(sp) == y && SubSpaceRuns(sp, '_') == u
    ensures SubSpaceRuns(Strip(sp), '_') == u[1..]
  {
    SubSpaceRunsRun(lead, y, '_');
  }

  lemma CleanCodegenSpaced(segs: seq<Segment>)
    requires WellFormed(segs)
    ensures SubSpaceRuns(Strip(Spaced(segs)), '_') == Unders(segs)[1..]
  {
    var g := segs[0];
    SubSpaceRunsSpaced(segs);
    StripSpacedSplit(segs);
    SpacedSplit(segs);
    SpaceBodyStart(g);
    LeadSpace(g);
    StripThenRuns(Spaced(segs), SpaceLead(g), SpaceBody(g) + Spaced(segs[1..]), Unders(segs));
  }

  lemma LeadSpace(g: Segment)
    ensures SpaceLead(g) != [] && AllSpace(SpaceLead(g))
  {
  }

  lemma {:induction false} SpacedLast(segs: seq<Segment>)
    requires segs != [] && forall k :: 0 <= k < |segs| ==> GoodName(segs[k].name)
    ensures Spaced(segs) != [] && !IsSpace(Spaced(segs)[|Spaced(segs)| - 1])
    decreases |segs|
  {
    if |segs| >= 2 {
      assert forall k :: 0 <= k < |segs[1..]| ==> segs[1..][k] == segs[k + 1];
      SpacedLast(segs[1..]);
    } else {
      var n := segs[0].name;
      WordNoSpecial(n);
      assert Spaced(segs) == SpaceText(segs[0]);
      assert SpaceText(segs[0])[|SpaceText(segs[0])| - 1] == n[|n| - 1];
    }
  }

  // ---- the method name -------------------------------------------------------------

  /** The snake_case text of a segment: `"_" + snake(name)` or `"_by_" + snake(name)`. */
  function NamePiece(g: Segment): string
  {
    match g
    case Lit(n) => "_" + Snake(n)
    case Param(n) => "_by_" + Snake(n)
  }

  function NamePieces(segs: seq<Segment>): string
    decreases |segs|
  {
    if segs == [] then [] else NamePiece(segs[0]) + NamePieces(segs[1..])
  }

  /** The method name of a segment sequence: "get" and one piece per segment. */
  function MethodName(segs: seq<Segment>): string
  {
    "get" + NamePieces(segs)
  }

  lemma SnakeBy()
    ensures Snake("_by") == "_by"
  {
    SnakeNoUpper("_by");
  }

  lemma SnakeGet()
    ensures Snake("get") == "get"
  {
    SnakeNoUpper("get");
  }

  lemma SnakeSeg(g: Segment)
    requires GoodName(g.name)
    ensures Snake(UnderText(g)) == NamePiece(g)
  {
    match g
    case Lit(n) =>
      SnakeUnderscore(n);
    case Param(n) =>
      SnakeParamPiece(n);
  }

  lemma SnakeParamPiece(n: string)
    requires GoodName(n)
    ensures Snake("_" + ("by_" + n)) == "_by_" + Snake(n)
  {
    assert "_" + ("by_" + n) == "_by" + ("_" + n);
    assert Snake("_by" + ("_" + n)) == Snake("_by") + Snake("_" + n) by {
      SnakeAppend("_by", "_" + n);
    }
    SnakeBy();
    SnakeUnderscore(n);
    assert "_by" + ("_" + Snake(n)) == "_by_" + Snake(n);
  }

  lemma {:induction false} SnakeUnders(segs: seq<Segment>)
    requires forall k :: 0 <= k < |segs| ==> GoodName(segs[k].name)
    ensures Snake(Unders(segs)) == NamePieces(segs)
    decreases |segs|
  {
    if segs == [] {
      SnakeNoUpper([]);
    } else {
      assert forall k :: 0 <= k < |segs[1..]| ==> segs[1..][k] == segs[k + 1];
      SnakeUnders(segs[1..]);
      SnakeSeg(segs[0]);
      SnakeAppend(UnderText(segs[0]), Unders(segs[1..]));
    }
  }

  lemma SnakeGetUnders(segs: seq<Segment>)
    requires WellFormed(segs)
    ensures Snake("get_" + Unders(segs)[1..]) == MethodName(segs)
  {
    var u := Unders(segs);
    UndersStart(segs);
    assert "get_" + u[1..] == "get" + u;
    SnakeAppend("get", u);
    SnakeGet();
    SnakeUnders(segs);
  }

  /** Both generators name the method of a well-formed path "get" followed by
      `_name` for each literal segment and `_by_name` for each parameter, every
      name in snake_case. */
  lemma FunctionNameRender(segs: seq<Segment>)
    requires WellFormed(segs)
    ensures FunctionNameGen(Render(segs)) == MethodName(segs)
    ensures FunctionNameCodegen(Render(segs)) == MethodName(segs)
  {
    CleanGenRender(segs);
    CleanCodegenRender(segs);
    SnakeGetUnders(segs);
  }

  // ---- parameters -----------------------------------------------------------------

  lemma {:induction false} FindParamsSkip(t: string, u: string)
    requires ':' !in t
    ensures FindParams(t + u) == FindParams(u)
    decreases |t|
  {
    if t == [] {
      assert t + u == u;
    } else {
      assert (t + u)[1..] == t[1..] + u;
      assert ':' !in t[1..];
      FindParamsSkip(t[1..], u);
    }
  }

  lemma FindParamsParam(n: string, u: string)
    requires n != [] && AllWordChars(n) && (u == [] || u[0] == '/')
    ensures FindParams(":" + n + u) == [n] + FindParams(u)
  {
    var s := ":" + n + u;
    assert s[1..] == n + u;
    RunLengthAll(n, u, IsWordChar);
    assert ParamLen(s) == 1 + |n|;
    assert s[1..ParamLen(s)] == n;
    assert s[ParamLen(s)..] == u;
  }

  lemma RenderRestStart(segs: seq<Segment>)
    requires segs != []
    ensures Render(segs[1..]) == [] || Render(segs[1..])[0] == '/'
  {
    if segs[1..] != [] { RenderUnfold(segs[1..]); }
  }

  lemma FindParamsSeg(g: Segment, r: string)
    requires g.name != [] && AllWordChars(g.name) && (r == [] || r[0] == '/')
    ensures FindParams(SegText(g) + r) == (if g.Param? then [g.name] else []) + FindParams(r)
  {
    WordNoSpecial(g.name);
    match g
    case Lit(n) =>
      FindParamsSkip("/" + n, r);
    case Param(n) =>
      assert ("/:" + n) + r == "/" + (":" + n + r);
      FindParamsSkip("/", ":" + n + r);
      FindParamsParam(n, r);
  }

  /** The captured parameters of a well-formed path are the parameter
      segments' names, in path order. */
  lemma {:induction false} FindParamsRender(segs: seq<Segment>)
    requires forall k :: 0 <= k < |segs| ==> segs[k].name != [] && AllWordChars(segs[k].name)
    ensures FindParams(Render(segs)) == ParamNames(segs)
    decreases |segs|
  {
    if segs != [] {
      assert forall k :: 0 <= k < |segs[1..]| ==> segs[1..][k] == segs[k + 1];
      FindParamsRender(segs[1..]);
      RenderRestStart(segs);
      FindParamsSeg(segs[0], Render(segs[1..]));
    }
  }

  /** The method parameters of a well-formed path. */
  lemma ParamsRender(segs: seq<Segment>)
    requires WellFormed(segs)
    ensures Params(Render(segs)) == SnakeAll(ParamNames(segs))
  {
    FindParamsRender(segs);
  }

  // ---- the URL template ------------------------------------------------------------

  /** The template once the parameters in `done` have been substituted. */
  function SegTmpl(g: Segment, done: set<string>): string
  {
    match g
    case Lit(n) => "/" + n
    case Param(n) => if n in done then "/" + Placeholder(n) else "/:" + n
  }

  function Tmpl(segs: seq<Segment>, done: set<string>): string
    decreases |segs|
  {
    if segs == [] then [] else SegTmpl(segs[0], done) + Tmpl(segs[1..], done)
  }

  /** The template of a well-formed path: every parameter replaced by its placeholder. */
  function TemplateText(g: Segment): string
  {
    match g
    case Lit(n) => "/" + n
    case Param(n) => "/" + Placeholder(n)
  }

  function Template(segs: seq<Segment>): string
    decreases |segs|
  {
    if segs == [] then [] else TemplateText(segs[0]) + Template(segs[1..])
  }

  /** No parameter name is a proper prefix of another. */
  predicate PrefixFree(ps: seq<string>)
  {
    forall i, j :: 0 <= i < |ps| && 0 <= j < |ps| && ps[i] != ps[j] ==> !StartsWith(ps[j], ps[i])
  }

  lemma {:induction false} TmplEmpty(segs: seq<Segment>)
    ensures Tmpl(segs, {}) == Render(segs)
    decreases |segs|
  {
    if segs != [] { TmplEmpty(segs[1..]); }
  }

  lemma {:induction false} TmplStart(segs: seq<Segment>, done: set<string>)
    ensures Tmpl(segs, done) == [] || Tmpl(segs, done)[0] == '/'
    decreases |segs|
  {
  }

  lemma PlaceholderNoColon(n: string)
    requires AllWordChars(n)
    ensures ':' !in "/" + Placeholder(n)
  {
    SnakeWordChars(n);
    WordNoSpecial(Snake(n));
  }

  /** A pattern `:p` whose name is not `n` and not a proper prefix of `n` does not occur in `:n`. */
  lemma ReplaceOtherParam(n: string, p: string, rep: string)
    requires AllWordChars(n) && n != p && !StartsWith(n, p)
    ensures ReplaceAll(":" + n, ":" + p, rep) == ":" + n
  {
    WordNoSpecial(n);
    var s := ":" + n;
    if |s| >= |":" + p| {
      assert s[1..|":" + p|] == n[..|p|];
      assert s[1..] == n;
      ReplaceAllAbsent(n, ":" + p, rep);
    }
  }

  lemma ReplaceSameParam(n: string, rep: string)
    ensures ReplaceAll(":" + n, ":" + n, rep) == rep
  {
    var s := ":" + n;
    assert s[..|s|] == s && s[|s|..] == [];
  }

  /** One step of the substitution loop on one segment. */
  lemma SegStep(g: Segment, done: set<string>, p: string)
    requires AllWordChars(g.name) && AllWordChars(p)
    requires g.Param? ==> g.name == p || !StartsWith(g.name, p)
    ensures ReplaceAll(SegTmpl(g, done), ":" + p, Placeholder(p)) == SegTmpl(g, done + {p})
  {
    WordNoSpecial(g.name);
    match g
    case Lit(n) =>
      assert ':' !in "/" + n;
      ReplaceAllAbsent("/" + n, ":" + p, Placeholder(p));
    case Param(n) =>
      if n in done {
        PlaceholderNoColon(n);
        ReplaceAllAbsent("/" + Placeholder(n), ":" + p, Placeholder(p));
      } else {
        assert "/:" + n == "/" + (":" + n);
        ReplaceAllSkip("/", ":" + n, ":" + p, Placeholder(p));
        if n == p {
          ReplaceSameParam(n, Placeholder(p));
        } else {
          ReplaceOtherParam(n, p, Placeholder(p));
        }
      }
  }

  predicate ParamSafe(segs: seq<Segment>, p: string)
  {
    forall k :: 0 <= k < |segs| && segs[k].Param? ==> segs[k].name == p || !StartsWith(segs[k].name, p)
  }

  lemma {:induction false} TmplStep(segs: seq<Segment>, done: set<string>, p: string)
    requires forall k :: 0 <= k < |segs| ==> AllWordChars(segs[k].name)
    requires AllWordChars(p) && ParamSafe(segs, p)
    ensures ReplaceAll(Tmpl(segs, done), ":" + p, Placeholder(p)) == Tmpl(segs, done + {p})
    decreases |segs|
  {
    if segs != [] {
      assert forall k :: 0 <= k < |segs[1..]| ==> segs[1..][k] == segs[k + 1];
      TmplStep(segs[1..], done, p);
      SegStep(segs[0], done, p);
      TmplStart(segs[1..], done);
      WordNoSpecial(p);
      assert '/' !in ":" + p;
      ReplaceAllSplit(SegTmpl(segs[0], done), Tmpl(segs[1..], done), ":" + p, Placeholder(p));
    }
  }

  function Names(ps: seq<string>): set<string>
  {
    set x | x in ps
  }

  /** The substitution loop over a list of names, all safe for the path. */
  lemma {:induction false} SubstituteTmpl(segs: seq<Segment>, done: set<string>, ps: seq<string>)
    requires forall k :: 0 <= k < |segs| ==> AllWordChars(segs[k].name)
    requires forall j :: 0 <= j < |ps| ==> AllWordChars(ps[j]) && ParamSafe(segs, ps[j])
    ensures Substitute(Tmpl(segs, done), ps) == Tmpl(segs, done + Names(ps))
    decreases |ps|
  {
    if ps != [] {
      TmplStep(segs, done, ps[0]);
      SubstituteTmpl(segs, done + {ps[0]}, ps[1..]);
      assert done + {ps[0]} + Names(ps[1..]) == done + Names(ps) by {
        assert forall x :: x in ps <==> x == ps[0] || x in ps[1..];
      }
    } else {
      assert done + Names(ps) == done;
    }
  }

  lemma {:induction false} TmplFull(segs: seq<Segment>, done: set<string>)
    requires forall k :: 0 <= k < |segs| ==> segs[k].Param? ==> segs[k].name in done
    ensures Tmpl(segs, done) == Template(segs)
    decreases |segs|
  {
    if segs != [] {
      assert forall k :: 0 <= k < |segs[1..]| ==> segs[1..][k] == segs[k + 1];
      TmplFull(segs[1..], done);
    }
  }

  lemma {:induction false} ParamNamesMembers(segs: seq<Segment>, k: int)
    requires 0 <= k < |segs| && segs[k].Param?
    ensures segs[k].name in ParamNames(segs)
    decreases |segs|
  {
    if k > 0 {
      assert segs[1..][k - 1] == segs[k];
      ParamNamesMembers(segs[1..], k - 1);
    }
  }

  lemma {:induction false} ParamNamesOfParams(segs: seq<Segment>, j: int)
    requires 0 <= j < |ParamNames(segs)|
    ensures exists k :: 0 <= k < |segs| && segs[k].Param? && segs[k].name == ParamNames(segs)[j]
    decreases |segs|
  {
    var head := if segs[0].Param? then [segs[0].name] else [];
    assert ParamNames(segs) == head + ParamNames(segs[1..]);
    if j >= |head| {
      ParamNamesOfParams(segs[1..], j - |head|);
      var k :| 0 <= k < |segs[1..]| && segs[1..][k].Param? && segs[1..][k].name == ParamNames(segs[1..])[j - |head|];
      assert segs[k + 1] == segs[1..][k];
    } else {
      assert segs[0].Param? && segs[0].name == ParamNames(segs)[j];
    }
  }

  lemma {:induction false} SubstituteSlash(x: string, ps: seq<string>)
    ensures Substitute("/" + x, ps) == "/" + Substitute(x, ps)
    decreases |ps|
  {
    if ps != [] {
      ReplaceAllSkip("/", x, ":" + ps[0], Placeholder(ps[0]));
      SubstituteSlash(ReplaceAll(x, ":" + ps[0], Placeholder(ps[0])), ps[1..]);
    }
  }

  lemma StripSlashRender(segs: seq<Segment>)
    requires WellFormed(segs)
    ensures Render(segs) != [] && Render(segs)[0] == '/' && StripChar(Render(segs), '/') == Render(segs)[1..]
  {
    var r := Render(segs);
    var g := segs[0];
    RenderUnfold(segs);
    WordNoSpecial(g.name);
    assert |r| >= 2 && r[1] != '/';
    TrimStartOne(r, '/');
    RenderLast(segs);
  }

  lemma {:induction false} RenderLast(segs: seq<Segment>)
    requires segs != [] && forall k :: 0 <= k < |segs| ==> GoodName(segs[k].name)
    ensures Render(segs) != [] && Render(segs)[|Render(segs)| - 1] != '/'
    decreases |segs|
  {
    if |segs| >= 2 {
      assert forall k :: 0 <= k < |segs[1..]| ==> segs[1..][k] == segs[k + 1];
      RenderLast(segs[1..]);
    } else {
      var n := segs[0].name;
      WordNoSpecial(n);
      assert Render(segs) == SegText(segs[0]);
      assert SegText(segs[0])[|SegText(segs[0])| - 1] == n[|n| - 1];
      assert n[|n| - 1] in n;
    }
  }

  /** When no parameter name is a proper prefix of another, the loop leaves a
      template in which every parameter segment `/:name` became
      `/{snake(name)}` and nothing else changed; the outer '/' is stripped. */
  lemma EndpointTemplateRender(segs: seq<Segment>)
    requires WellFormed(segs) && PrefixFree(ParamNames(segs))
    ensures EndpointTemplate(Render(segs)) == Template(segs)[1..]
  {
    var ps := ParamNames(segs);
    WellFormedWords(segs);
    FindParamsRender(segs);
    StripSlashRender(segs);
    var r := Render(segs);
    SubstituteStripped(r, ps);
    NamesSafe(segs);
    TmplEmpty(segs);
    SubstituteTmpl(segs, {}, ps);
    AllNamesDone(segs);
    TmplFull(segs, {} + Names(ps));
  }

  lemma SubstituteStripped(r: string, ps: seq<string>)
    requires r != [] && r[0] == '/'
    ensures Substitute(r, ps) == "/" + Substitute(r[1..], ps)
  {
    assert r == "/" + r[1..];
    SubstituteSlash(r[1..], ps);
  }

  lemma NamesSafe(segs: seq<Segment>)
    requires WellFormed(segs) && PrefixFree(ParamNames(segs))
    ensures forall j :: 0 <= j < |ParamNames(segs)| ==> AllWordChars(ParamNames(segs)[j]) && ParamSafe(segs, ParamNames(segs)[j])
  {
    var ps := ParamNames(segs);
    forall j | 0 <= j < |ps| ensures AllWordChars(ps[j]) && ParamSafe(segs, ps[j]) {
      ParamNamesOfParams(segs, j);
      forall k | 0 <= k < |segs| && segs[k].Param? ensures segs[k].name == ps[j] || !StartsWith(segs[k].name, ps[j]) {
        ParamNamesMembers(segs, k);
        var i :| 0 <= i < |ps| && ps[i] == segs[k].name;
      }
    }
  }

  lemma AllNamesDone(segs: seq<Segment>)
    ensures forall k :: 0 <= k < |segs| ==> segs[k].Param? ==> segs[k].name in {} + Names(ParamNames(segs))
  {
    forall k | 0 <= k < |segs| && segs[k].Param? ensures segs[k].name in {} + Names(ParamNames(segs)) {
      ParamNamesMembers(segs, k);
    }
  }

  /** No ':' is left in the template. */
  lemma {:induction false} TemplateNoColon(segs: seq<Segment>)
    requires forall k :: 0 <= k < |segs| ==> AllWordChars(segs[k].name)
    ensures ':' !in Template(segs)
    decreases |segs|
  {
    if segs != [] {
      assert forall k :: 0 <= k < |segs[1..]| ==> segs[1..][k] == segs[k + 1];
      TemplateNoColon(segs[1..]);
      WordNoSpecial(segs[0].name);
      if segs[0].Param? { PlaceholderNoColon(segs[0].name); }
    }
  }

  // ---- substring tests -----------------------------------------------------------

  /** Some segment name contains `w`. */
  predicate AnyNameContains(segs: seq<Segment>, w: string)
    decreases |segs|
  {
    segs != [] && (Contains(segs[0].name, w) || AnyNameContains(segs[1..], w))
  }

  predicate HasParam(segs: seq<Segment>)
    decreases |segs|
  {
    segs != [] && (segs[0].Param? || HasParam(segs[1..]))
  }

  lemma SegContains(g: Segment, w: string)
    requires w != [] && w[0] != '/' && w[0] != ':'
    ensures Contains(SegText(g), w) <==> Contains(g.name, w)
  {
    match g
    case Lit(n) =>
      assert ("/" + n)[1..] == n;
    case Param(n) =>
      assert ("/:" + n)[1..] == ":" + n;
      assert (":" + n)[1..] == n;
  }

  /** A word without '/' occurs in a path exactly when it occurs in one of its names. */
  lemma {:induction false} ContainsRender(segs: seq<Segment>, w: string)
    requires w != [] && '/' !in w && w[0] != ':'
    ensures Contains(Render(segs), w) <==> AnyNameContains(segs, w)
    decreases |segs|
  {
    if segs != [] {
      ContainsRender(segs[1..], w);
      SegContains(segs[0], w);
      var r := Render(segs[1..]);
      assert r == [] || r[0] == '/' by { if segs[1..] != [] { RenderUnfold(segs[1..]); } }
      ContainsAppend(SegText(segs[0]), r, w);
    } else {
      assert !StartsWith([], w);
    }
  }

  lemma SegColon(g: Segment)
    requires AllWordChars(g.name)
    ensures Contains(SegText(g), ":") <==> g.Param?
  {
    WordNoSpecial(g.name);
    match g
    case Lit(n) =>
      NotContainsChar("/" + n, ":", 0);
    case Param(n) =>
      assert ("/:" + n)[1..] == ":" + n;
      assert StartsWith(":" + n, ":");
  }

  /** A well-formed path contains ':' exactly when it has a parameter segment. */
  lemma {:induction false} ColonRender(segs: seq<Segment>)
    requires forall k :: 0 <= k < |segs| ==> AllWordChars(segs[k].name)
    ensures Contains(Render(segs), ":") <==> HasParam(segs)
    decreases |segs|
  {
    if segs != [] {
      assert forall k :: 0 <= k < |segs[1..]| ==> segs[1..][k] == segs[k + 1];
      ColonRender(segs[1..]);
      SegColon(segs[0]);
      var r := Render(segs[1..]);
      assert r == [] || r[0] == '/' by { if segs[1..] != [] { RenderUnfold(segs[1..]); } }
      ContainsAppend(SegText(segs[0]), r, ":");
    } else {
      assert !StartsWith([], ":");
    }
  }
}
