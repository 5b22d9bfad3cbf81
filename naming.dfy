/** The three naming helpers shared by both generators: camelCase to
    snake_case, underscore names to PascalCase, and documentation type
    strings to Python type hints. */
module Naming {
  import opened Strings

  // ---- to_snake_case --------------------------------------------------------

  /** `t` is `s` with zero or more '_' characters inserted. */
  predicate Inserts(t: string, s: string)
    decreases |t|
  {
    if t == [] then s == []
    else (s != [] && t[0] == s[0] && Inserts(t[1..], s[1..])) || (t[0] == '_' && Inserts(t[1..], s))
  }

  /** A match of the first pattern `(.)([A-Z][a-z]+)` starts at the head of `s`. */
  predicate Pass1Starts(s: string) { |s| >= 3 && s[0] != '\n' && IsUpper(s[1]) && IsLower(s[2]) }

  /** Length of the leading run of lowercase letters (the greedy `[a-z]+`). */
  function LowerRun(s: string): (n: nat)
    ensures n <= |s|
    decreases |s|
  {
    if s != [] && IsLower(s[0]) then 1 + LowerRun(s[1..]) else 0
  }

  /** How much of `s` one step of the first substitution consumes: the whole
      match, or a single character when no match starts here. */
  function Pass1Len(s: string): (k: nat)
    requires s != []
    ensures 1 <= k <= |s|
  {
    if Pass1Starts(s) then 2 + LowerRun(s[2..]) else 1
  }

  /** What one step of the first substitution emits for the consumed text:
      `\1_\2` for a match, the character itself otherwise. */
  function Pass1Head(s: string): string
    requires s != []
  {
    if Pass1Starts(s) then [s[0], '_'] + s[1..Pass1Len(s)] else [s[0]]
  }

  /** The first substitution, `re.sub(r'(.)([A-Z][a-z]+)', r'\1_\2', s)`:
      scanning left to right, any character other than a newline followed by
      an uppercase letter and a (greedy, non-empty) run of lowercase letters
      gets an underscore after it; the scan resumes after the run. */
  function Pass1(s: string): string
    decreases |s|
  {
    if s == [] then [] else Pass1Head(s) + Pass1(s[Pass1Len(s)..])
  }

  predicate IsLowerOrDigit(c: char) { IsLower(c) || IsDigit(c) }

  /** A match of the second pattern `([a-z0-9])([A-Z])` starts at the head of `s`. */
  predicate Pass2Starts(s: string) { |s| >= 2 && IsLowerOrDigit(s[0]) && IsUpper(s[1]) }

  function Pass2Len(s: string): (k: nat)
    requires s != []
    ensures 1 <= k <= |s|
  {
    if Pass2Starts(s) then 2 else 1
  }

  function Pass2Head(s: string): string
    requires s != []
  {
    if Pass2Starts(s) then [s[0], '_', s[1]] else [s[0]]
  }

  /** The second substitution, `re.sub(r'([a-z0-9])([A-Z])', r'\1_\2', s)`. */
  function Pass2(s: string): string
    decreases |s|
  {
    if s == [] then [] else Pass2Head(s) + Pass2(s[Pass2Len(s)..])
  }

  /** `to_snake_case`. */
  function Snake(s: string): (r: string)
    ensures NoUpper(r)
  {
    Lower(Pass2(Pass1(s)))
  }

  lemma {:induction false} InsertsRefl(s: string)
    ensures Inserts(s, s)
    decreases |s|
  {
    if s != [] { InsertsRefl(s[1..]); }
  }

  lemma {:induction false} InsertsAppend(t1: string, s1: string, t2: string, s2: string)
    requires Inserts(t1, s1) && Inserts(t2, s2)
    ensures Inserts(t1 + t2, s1 + s2)
    decreases |t1|
  {
    if t1 == [] {
      assert t1 + t2 == t2 && s1 + s2 == s2;
    } else {
      assert (t1 + t2)[1..] == t1[1..] + t2;
      if s1 != [] && t1[0] == s1[0] && Inserts(t1[1..], s1[1..]) {
        InsertsAppend(t1[1..], s1[1..], t2, s2);
        assert (s1 + s2)[1..] == s1[1..] + s2;
      } else {
        InsertsAppend(t1[1..], s1, t2, s2);
      }
    }
  }

  lemma {:induction false} InsertsLower(t: string, s: string)
    requires Inserts(t, s)
    ensures Inserts(Lower(t), Lower(s))
    decreases |t|
  {
    if t != [] {
      assert Lower(t)[1..] == Lower(t[1..]);
      if s != [] && t[0] == s[0] && Inserts(t[1..], s[1..]) {
        InsertsLower(t[1..], s[1..]);
        assert Lower(s)[1..] == Lower(s[1..]);
      } else {
        InsertsLower(t[1..], s);
      }
    }
  }

  lemma {:induction false} InsertsTrans(t: string, u: string, s: string)
    requires Inserts(t, u) && Inserts(u, s)
    ensures Inserts(t, s)
    decreases |t|
  {
    if t != [] {
      if u != [] && t[0] == u[0] && Inserts(t[1..], u[1..]) {
        if s != [] && u[0] == s[0] && Inserts(u[1..], s[1..]) {
          InsertsTrans(t[1..], u[1..], s[1..]);
        } else {
          InsertsTrans(t[1..], u[1..], s);
        }
      } else {
        InsertsTrans(t[1..], u, s);
      }
    }
  }

  /** One step of the first pass only inserts underscores. */
  lemma Pass1HeadInserts(s: string)
    requires s != []
    ensures Inserts(Pass1Head(s), s[..Pass1Len(s)])
  {
    var k := Pass1Len(s);
    if Pass1Starts(s) {
      InsertsRefl(s[1..k]);
      var h := Pass1Head(s);
      assert h[1..] == ['_'] + s[1..k] && h[1..][1..] == s[1..k];
      assert s[..k][1..] == s[1..k];
    } else {
      InsertsRefl([]);
    }
  }

  /** The first pass only inserts underscores. */
  lemma {:induction false} Pass1Inserts(s: string)
    ensures Inserts(Pass1(s), s)
    decreases |s|
  {
    if s != [] {
      var k := Pass1Len(s);
      Pass1Inserts(s[k..]);
      Pass1HeadInserts(s);
      InsertsAppend(Pass1Head(s), s[..k], Pass1(s[k..]), s[k..]);
      assert s[..k] + s[k..] == s;
    }
  }

  lemma Pass2HeadInserts(s: string)
    requires s != []
    ensures Inserts(Pass2Head(s), s[..Pass2Len(s)])
  {
    if Pass2Starts(s) {
      var h := Pass2Head(s);
      assert Inserts([s[1]], [s[1]]) by { assert [s[1]][1..] == []; }
      assert Inserts(['_', s[1]], [s[1]]) by { assert ['_', s[1]][1..] == [s[1]]; }
      assert h[1..] == ['_', s[1]] && s[..2][1..] == [s[1]];
    }
  }

  /** The second pass only inserts underscores. */
  lemma {:induction false} Pass2Inserts(s: string)
    ensures Inserts(Pass2(s), s)
    decreases |s|
  {
    if s != [] {
      var k := Pass2Len(s);
      Pass2Inserts(s[k..]);
      Pass2HeadInserts(s);
      InsertsAppend(Pass2Head(s), s[..k], Pass2(s[k..]), s[k..]);
      assert s[..k] + s[k..] == s;
    }
  }

  /** `to_snake_case` only inserts underscores into the lowercased name:
      deleting the inserted '_' characters gives back `s.lower()`. */
  lemma SnakeInserts(s: string)
    ensures Inserts(Snake(s), Lower(s))
  {
    Pass1Inserts(s);
    Pass2Inserts(Pass1(s));
    InsertsTrans(Pass2(Pass1(s)), Pass1(s), s);
    InsertsLower(Pass2(Pass1(s)), s);
  }

  lemma {:induction false} InsertsWordChars(t: string, s: string)
    requires Inserts(t, s) && AllWordChars(s)
    ensures AllWordChars(t)
    decreases |t|
  {
    if t != [] {
      if s != [] && t[0] == s[0] && Inserts(t[1..], s[1..]) {
        InsertsWordChars(t[1..], s[1..]);
      } else {
        InsertsWordChars(t[1..], s);
      }
      assert forall i :: 1 <= i < |t| ==> t[i] == t[1..][i - 1];
    }
  }

  /** A name made of word characters gives a snake_case name made of word
      characters (so it holds no '/', ':', '{' or '}'). */
  lemma SnakeWordChars(s: string)
    requires AllWordChars(s)
    ensures AllWordChars(Snake(s))
  {
    SnakeInserts(s);
    InsertsWordChars(Snake(s), Lower(s));
  }

  /** An underscore in front of a name that does not start with a capital
      passes through both substitutions. */
  lemma SnakeUnderscore(n: string)
    requires n == [] || !IsUpper(n[0])
    ensures Snake("_" + n) == "_" + Snake(n)
  {
    Pass1Skip("_", n);
    Pass2Underscore(Pass1(n));
    LowerUnderscore(Pass2(Pass1(n)));
  }

  lemma LowerUnderscore(t: string)
    ensures Lower("_" + t) == "_" + Lower(t)
  {
    LowerAppend("_", t);
  }

  lemma Pass2Underscore(t: string)
    ensures Pass2("_" + t) == "_" + Pass2(t)
  {
    Pass2Unfold("_" + t);
    assert !Pass2Starts("_" + t);
    assert ("_" + t)[1..] == t;
  }

  /** Both passes keep the first character. */
  lemma Pass1First(s: string)
    requires s != []
    ensures Pass1(s) != [] && Pass1(s)[0] == s[0]
  {
  }

  lemma Pass2First(s: string)
    requires s != []
    ensures Pass2(s) != [] && Pass2(s)[0] == s[0]
  {
  }

  /** No lowercase letter or digit is directly followed by an uppercase letter. */
  predicate Separated(t: string)
  {
    forall i :: 0 <= i < |t| - 1 ==> !(IsLowerOrDigit(t[i]) && IsUpper(t[i + 1]))
  }

  /** After the second pass every boundary between a lowercase letter or
      digit and an uppercase letter holds an underscore. */
  lemma {:induction false} Pass2Separates(s: string)
    ensures Separated(Pass2(s))
    decreases |s|
  {
    if s != [] {
      var k := Pass2Len(s);
      Pass2Separates(s[k..]);
      var h := Pass2Head(s);
      var r := Pass2(s[k..]);
      var t := h + r;
      forall i | 0 <= i < |t| - 1 ensures !(IsLowerOrDigit(t[i]) && IsUpper(t[i + 1])) {
        if i >= |h| {
          assert t[i] == r[i - |h|] && t[i + 1] == r[i - |h| + 1];
        } else if i == |h| - 1 {
          if !Pass2Starts(s) {
            Pass2First(s[1..]);
            assert t[i + 1] == s[1];
          }
        }
      }
    }
  }

  lemma {:induction false} Pass1NoUpper(s: string)
    requires NoUpper(s)
    ensures Pass1(s) == s
    decreases |s|
  {
    if s != [] {
      assert NoUpper(s[1..]) by { forall i | 0 <= i < |s[1..]| ensures !IsUpper(s[1..][i]) { assert s[1..][i] == s[i + 1]; } }
      Pass1NoUpper(s[1..]);
      assert [s[0]] + s[1..] == s;
    }
  }

  lemma {:induction false} Pass2NoUpper(s: string)
    requires NoUpper(s)
    ensures Pass2(s) == s
    decreases |s|
  {
    if s != [] {
      assert NoUpper(s[1..]) by { forall i | 0 <= i < |s[1..]| ensures !IsUpper(s[1..][i]) { assert s[1..][i] == s[i + 1]; } }
      Pass2NoUpper(s[1..]);
      assert [s[0]] + s[1..] == s;
    }
  }

  /** A name with no uppercase letter is already in snake case. */
  lemma SnakeNoUpper(s: string)
    requires NoUpper(s)
    ensures Snake(s) == s
  {
    Pass1NoUpper(s);
    Pass2NoUpper(s);
    LowerOfNoUpper(s);
  }

  /** `to_snake_case` is idempotent. */
  lemma SnakeIdempotent(s: string)
    ensures Snake(Snake(s)) == Snake(s)
  {
    SnakeNoUpper(Snake(s));
  }

  /** Text that begins with '_' (or is empty): an underscore is neither
      uppercase, lowercase nor a digit, so no match of either pattern
      straddles a boundary in front of it. */
  predicate SafeStart(b: string) { b == [] || b[0] == '_' }

  lemma {:induction false} LowerRunAppend(a: string, b: string)
    requires SafeStart(b)
    ensures LowerRun(a + b) == LowerRun(a)
    decreases |a|
  {
    if a == [] {
      assert a + b == b;
    } else {
      assert (a + b)[1..] == a[1..] + b;
      LowerRunAppend(a[1..], b);
    }
  }

  lemma Pass1StepAppend(a: string, b: string)
    requires a != [] && SafeStart(b)
    ensures Pass1Len(a + b) == Pass1Len(a) && Pass1Head(a + b) == Pass1Head(a)
  {
    var s := a + b;
    if Pass1Starts(s) {
      assert a[0] == s[0] && a[1] == s[1] && a[2] == s[2];
      assert s[2..] == a[2..] + b;
      LowerRunAppend(a[2..], b);
      assert s[1..Pass1Len(s)] == a[1..Pass1Len(a)];
    } else {
      assert !Pass1Starts(a) by {
        if |a| >= 3 { assert a[0] == s[0] && a[1] == s[1] && a[2] == s[2]; }
      }
    }
  }

  /** The first pass works piecewise across a safe boundary. */
  lemma {:induction false} Pass1Append(a: string, b: string)
    requires SafeStart(b)
    ensures Pass1(a + b) == Pass1(a) + Pass1(b)
    decreases |a|
  {
    if a == [] {
      assert a + b == b;
    } else {
      Pass1StepAppend(a, b);
      var k := Pass1Len(a);
      assert (a + b)[k..] == a[k..] + b;
      Pass1Append(a[k..], b);
      Assoc(Pass1Head(a), Pass1(a[k..]), Pass1(b));
    }
  }

  /** With at least two characters in front, a step of the second pass does
      not look past them. */
  lemma Pass2StepAppend(a: string, b: string)
    requires |a| >= 2
    ensures Pass2Len(a + b) == Pass2Len(a) && Pass2Head(a + b) == Pass2Head(a)
  {
    var s := a + b;
    assert a[0] == s[0] && a[1] == s[1];
  }

  /** No word boundary between the last character of `a` and the first of `b`. */
  predicate NoCamelBoundary(a: string, b: string)
  {
    a == [] || b == [] || !(IsLowerOrDigit(a[|a| - 1]) && IsUpper(b[0]))
  }

  lemma Pass2AppendSingle(a: string, b: string)
    requires |a| == 1 && b != [] && NoCamelBoundary(a, b)
    ensures Pass2(a + b) == Pass2(a) + Pass2(b)
  {
    var s := a + b;
    assert s[0] == a[0] && s[1] == b[0];
    assert !Pass2Starts(s);
    assert s[1..] == b;
    assert Pass2(s) == [s[0]] + Pass2(b);
    assert a[1..] == [];
    assert Pass2(a) == [a[0]] + Pass2([]);
  }

  lemma Pass2AppendStep(a: string, b: string)
    requires |a| >= 2 && NoCamelBoundary(a, b)
    ensures var k := Pass2Len(a);
            Pass2(a + b) == Pass2Head(a) + Pass2(a[k..] + b)
            && NoCamelBoundary(a[k..], b)
  {
    Pass2StepAppend(a, b);
    var k := Pass2Len(a);
    assert (a + b)[k..] == a[k..] + b;
    assert a[k..] == [] || a[k..][|a[k..]| - 1] == a[|a| - 1];
  }

  /** The second pass works piecewise wherever no lowercase letter or digit
      meets an uppercase letter. */
  lemma {:induction false} Pass2Append(a: string, b: string)
    requires NoCamelBoundary(a, b)
    ensures Pass2(a + b) == Pass2(a) + Pass2(b)
    decreases |a|
  {
    if a == [] {
      assert a + b == b;
    } else if b == [] {
      assert a + b == a;
    } else if |a| == 1 {
      Pass2AppendSingle(a, b);
    } else {
      Pass2AppendStep(a, b);
      var k := Pass2Len(a);
      Pass2Append(a[k..], b);
      Pass2Unfold(a);
      Assoc(Pass2Head(a), Pass2(a[k..]), Pass2(b));
    }
  }

  lemma Pass1Unfold(s: string)
    requires s != []
    ensures Pass1(s) == Pass1Head(s) + Pass1(s[Pass1Len(s)..])
  {
  }

  lemma Pass2Unfold(s: string)
    requires s != []
    ensures Pass2(s) == Pass2Head(s) + Pass2(s[Pass2Len(s)..])
  {
  }

  /** Where a lowercase letter or digit meets an uppercase letter the second
      pass puts an underscore between them. */
  lemma {:induction false} Pass2Camel(a: string, b: string)
    requires a != [] && b != [] && IsLowerOrDigit(a[|a| - 1]) && IsUpper(b[0])
    ensures Pass2(a + b) == Pass2(a) + "_" + Pass2(b)
    decreases |a|, 1
  {
    if |a| == 1 {
      Pass2CamelOne(a[0], b);
      assert a == [a[0]];
    } else {
      Pass2CamelStep(a, b);
    }
  }

  lemma {:induction false} Pass2CamelStep(a: string, b: string)
    requires |a| >= 2 && b != [] && IsLowerOrDigit(a[|a| - 1]) && IsUpper(b[0])
    ensures Pass2(a + b) == Pass2(a) + "_" + Pass2(b)
    decreases |a|, 0
  {
    var t := Pass2Rest(a);
    var h := Pass2Head(a);
    Pass2PrefixStep(a, b);
    Pass2Camel(t, b);
    assert h + (Pass2(t) + "_" + Pass2(b)) == (h + Pass2(t)) + "_" + Pass2(b);
  }

  /** What the second pass has left of `a` after its first step. */
  function Pass2Rest(a: string): string
    requires a != []
  {
    a[Pass2Len(a)..]
  }

  /** The first step of the second pass over `a + b` is its first step over
      `a`, and when `a` ends with a lowercase letter or digit something of `a`
      is left after it. */
  lemma Pass2PrefixStep(a: string, b: string)
    requires |a| >= 2 && IsLowerOrDigit(a[|a| - 1])
    ensures Pass2(a + b) == Pass2Head(a) + Pass2(Pass2Rest(a) + b)
    ensures Pass2(a) == Pass2Head(a) + Pass2(Pass2Rest(a))
    ensures Pass2Rest(a) != [] && Pass2Rest(a)[|Pass2Rest(a)| - 1] == a[|a| - 1]
  {
    Pass2LenBelow(a);
    Pass2FirstStep(a, b);
    Pass2Unfold(a);
  }

  lemma Pass2LenBelow(a: string)
    requires |a| >= 2 && IsLowerOrDigit(a[|a| - 1])
    ensures Pass2Len(a) < |a|
  {
    assert !IsUpper(a[|a| - 1]);
  }

  lemma Pass2FirstStep(a: string, b: string)
    requires |a| >= 2
    ensures Pass2(a + b) == Pass2Head(a) + Pass2(a[Pass2Len(a)..] + b)
  {
    Pass2StepAppend(a, b);
    Pass2Unfold(a + b);
    assert (a + b)[Pass2Len(a)..] == a[Pass2Len(a)..] + b;
  }

  lemma Pass2CamelOne(x: char, b: string)
    requires IsLowerOrDigit(x) && b != [] && IsUpper(b[0])
    ensures Pass2([x] + b) == Pass2([x]) + "_" + Pass2(b)
  {
    Pass2JoinHead(x, b);
    Pass2UpperHead(b);
    Pass2Single(x);
    assert [x, '_', b[0]] + Pass2(b[1..]) == [x] + "_" + ([b[0]] + Pass2(b[1..]));
  }

  /** The second pass splits a lowercase letter or digit from an uppercase letter after it. */
  lemma Pass2JoinHead(x: char, b: string)
    requires IsLowerOrDigit(x) && b != [] && IsUpper(b[0])
    ensures Pass2([x] + b) == [x, '_', b[0]] + Pass2(b[1..])
  {
    var s := [x] + b;
    assert s[0] == x && s[1] == b[0];
    assert s[2..] == b[1..];
    Pass2Unfold(s);
  }

  /** An uppercase letter at the front is copied by the second pass. */
  lemma Pass2UpperHead(b: string)
    requires b != [] && IsUpper(b[0])
    ensures Pass2(b) == [b[0]] + Pass2(b[1..])
  {
    Pass2Unfold(b);
  }

  /** A single character is left alone by the second pass. */
  lemma Pass2Single(x: char)
    ensures Pass2([x]) == [x]
  {
    Pass2Unfold([x]);
  }

  /** A string with every word boundary already separated is left alone by the second pass. */
  lemma {:induction false} Pass2Separated(s: string)
    requires Separated(s)
    ensures Pass2(s) == s
    decreases |s|
  {
    if s != [] {
      assert !Pass2Starts(s);
      assert Separated(s[1..]) by {
        forall i | 0 <= i < |s[1..]| - 1 ensures !(IsLowerOrDigit(s[1..][i]) && IsUpper(s[1..][i + 1])) {
          assert s[1..][i] == s[i + 1] && s[1..][i + 1] == s[i + 2];
        }
      }
      Pass2Separated(s[1..]);
      assert [s[0]] + s[1..] == s;
    }
  }

  lemma NoUpperSeparated(s: string)
    requires NoUpper(s)
    ensures Separated(s)
  {
  }

  /** No uppercase letter after the first position is followed by a
      lowercase one: nowhere for the first pattern to match. */
  predicate HumpFree(s: string)
  {
    forall i :: 1 <= i < |s| - 1 ==> !(IsUpper(s[i]) && IsLower(s[i + 1]))
  }

  /** The first pass leaves a hump-free string alone. */
  lemma {:induction false} Pass1HumpFree(s: string)
    requires HumpFree(s)
    ensures Pass1(s) == s
    decreases |s|
  {
    if s != [] {
      assert Pass1(s) == [s[0]] + Pass1(s[1..]) by {
        assert !Pass1Starts(s) by { if |s| >= 3 { assert !(IsUpper(s[1]) && IsLower(s[2])); } }
      }
      assert HumpFree(s[1..]) by {
        forall i | 1 <= i < |s[1..]| - 1 ensures !(IsUpper(s[1..][i]) && IsLower(s[1..][i + 1])) {
          assert s[1..][i] == s[i + 1] && s[1..][i + 1] == s[i + 2];
        }
      }
      Pass1HumpFree(s[1..]);
      assert [s[0]] + s[1..] == s;
    }
  }

  /** A prefix without uppercase letters passes through the first pass, as
      long as the text after it does not start with an uppercase letter. */
  lemma {:induction false} Pass1Skip(a: string, b: string)
    requires NoUpper(a) && (b == [] || !IsUpper(b[0]))
    ensures Pass1(a + b) == a + Pass1(b)
    decreases |a|
  {
    if a == [] {
      assert a + b == b;
    } else {
      var s := a + b;
      assert Pass1(s) == [a[0]] + Pass1(s[1..]) by {
        assert !Pass1Starts(s) by {
          if |s| >= 3 { if |a| >= 2 { assert s[1] == a[1]; } else { assert s[1] == b[0]; } }
        }
      }
      assert Pass1(s[1..]) == a[1..] + Pass1(b) by {
        assert s[1..] == a[1..] + b;
        assert NoUpper(a[1..]) by { forall i | 0 <= i < |a[1..]| ensures !IsUpper(a[1..][i]) { assert a[1..][i] == a[i + 1]; } }
        Pass1Skip(a[1..], b);
      }
      Assoc([a[0]], a[1..], Pass1(b));
      assert [a[0]] + a[1..] == a;
    }
  }

  predicate AllLower(v: string) { forall i :: 0 <= i < |v| ==> IsLower(v[i]) }

  lemma {:induction false} LowerRunAll(v: string, rest: string)
    requires AllLower(v) && (rest == [] || !IsLower(rest[0]))
    ensures LowerRun(v + rest) == |v|
    decreases |v|
  {
    if v == [] {
      assert v + rest == rest;
    } else {
      assert (v + rest)[0] == v[0] && (v + rest)[1..] == v[1..] + rest;
      assert AllLower(v[1..]) by { forall i | 0 <= i < |v[1..]| ensures IsLower(v[1..][i]) { assert v[1..][i] == v[i + 1]; } }
      LowerRunAll(v[1..], rest);
    }
  }

  /** One match of the first pattern: `x`, an uppercase letter and its whole
      lowercase run; an underscore goes after `x` and the scan resumes after the run. */
  lemma Pass1Hump(x: char, c: char, v: string, rest: string)
    requires x != '\n' && IsUpper(c) && v != [] && AllLower(v) && (rest == [] || !IsLower(rest[0]))
    ensures Pass1([x, c] + v + rest) == [x, '_', c] + v + Pass1(rest)
  {
    var s := [x, c] + v + rest;
    Pass1HumpHead(x, c, v, rest);
    assert s[2 + |v|..] == rest;
    Pass1Unfold(s);
  }

  /** The match at the head of a hump: the character, the capital and its lowercase run. */
  lemma Pass1HumpHead(x: char, c: char, v: string, rest: string)
    requires x != '\n' && IsUpper(c) && v != [] && AllLower(v) && (rest == [] || !IsLower(rest[0]))
    ensures Pass1Starts([x, c] + v + rest) && Pass1Len([x, c] + v + rest) == 2 + |v|
    ensures Pass1Head([x, c] + v + rest) == [x, '_', c] + v
  {
    var s := [x, c] + v + rest;
    var k := 2 + |v|;
    assert Pass1Starts(s) && Pass1Len(s) == k by {
      assert s[0] == x && s[1] == c && s[2] == v[0];
      assert s[2..] == v + rest;
      LowerRunAll(v, rest);
    }
    assert s[0] == x && s[1..k] == [c] + v;
    assert [x, '_'] + ([c] + v) == [x, '_', c] + v;
  }

  /** `to_snake_case` works piecewise across a boundary where the second piece starts with '_'. */
  lemma SnakeAppend(a: string, b: string)
    requires SafeStart(b)
    ensures Snake(a + b) == Snake(a) + Snake(b)
  {
    Pass1Append(a, b);
    if b != [] { Pass1First(b); }
    assert NoCamelBoundary(Pass1(a), Pass1(b));
    Pass2Append(Pass1(a), Pass1(b));
    LowerAppend(Pass2(Pass1(a)), Pass2(Pass1(b)));
  }

  predicate AllUpper(u: string) { forall i :: 0 <= i < |u| ==> IsUpper(u[i]) }

  /** A lowercase name ending in an acronym (`mapURL`, `raceID`): one
      underscore before the acronym, which is lowercased. */
  lemma SnakeAcronymTail(a: string, x: char, u: string)
    requires NoUpper(a) && IsLowerOrDigit(x) && u != [] && AllUpper(u)
    ensures Snake(a + [x] + u) == a + [x, '_'] + Lower(u)
  {
    Pass1AcronymTail(a, x, u);
    Pass2AcronymTail(a, x, u);
    LowerAppend(a + [x] + "_", u);
    LowerOfNoUpper(a + [x] + "_");
    assert a + [x] + "_" == a + [x, '_'];
  }

  lemma Pass1AcronymTail(a: string, x: char, u: string)
    requires NoUpper(a) && IsLowerOrDigit(x) && u != [] && AllUpper(u)
    ensures Pass1(a + [x] + u) == a + [x] + u
  {
    var t := [x] + u;
    assert Pass1(a + t) == a + t by {
      assert HumpFree(t) by {
        forall i | 1 <= i < |t| - 1 ensures !(IsUpper(t[i]) && IsLower(t[i + 1])) {
          assert t[i + 1] == u[i];
        }
      }
      Pass1HumpFree(t);
      Pass1Skip(a, t);
    }
    assert a + [x] + u == a + t;
  }

  lemma Pass2AcronymTail(a: string, x: char, u: string)
    requires NoUpper(a) && IsLowerOrDigit(x) && u != [] && AllUpper(u)
    ensures Pass2(a + [x] + u) == a + [x] + "_" + u
  {
    var ax := a + [x];
    assert Pass2(ax) == ax by {
      assert NoUpper(ax);
      Pass2Separated(ax);
    }
    assert Pass2(u) == u by {
      assert Separated(u);
      Pass2Separated(u);
    }
    assert ax[|ax| - 1] == x;
    Pass2Camel(ax, u);
  }

  /** A lowercase name followed by one capitalised word (`totalScores`,
      `teamSize`): one underscore before the word, whose capital is lowercased. */
  lemma SnakeHumpTail(a: string, x: char, c: char, v: string)
    requires NoUpper(a) && x != '\n' && !IsUpper(x) && IsUpper(c) && v != [] && AllLower(v)
    ensures Snake(a + [x, c] + v) == a + [x, '_', LowerChar(c)] + v
  {
    var p := a + [x, '_'];
    assert Pass2(Pass1(a + [x, c] + v)) == p + ([c] + v) by {
      Pass1HumpTail(a, x, c, v);
      Pass2HumpTail(a, x, c, v);
    }
    assert Lower(p + ([c] + v)) == p + ([LowerChar(c)] + v) by {
      LowerAppend(p, [c] + v);
      LowerOfNoUpper(p);
      LowerHead(c, v);
    }
    assert p + ([LowerChar(c)] + v) == a + [x, '_', LowerChar(c)] + v;
  }

  /** Lowercasing a capitalised word recases its first letter only. */
  lemma LowerHead(c: char, v: string)
    requires AllLower(v)
    ensures Lower([c] + v) == [LowerChar(c)] + v
  {
    LowerAppend([c], v);
    LowerOfNoUpper(v);
    assert Lower([c]) == [LowerChar(c)];
  }

  lemma Pass1HumpTail(a: string, x: char, c: char, v: string)
    requires NoUpper(a) && x != '\n' && !IsUpper(x) && IsUpper(c) && v != [] && AllLower(v)
    ensures Pass1(a + [x, c] + v) == a + [x, '_'] + ([c] + v)
  {
    var t := [x, c] + v;
    Pass1Skip(a, t);
    Pass1HumpEnd(x, c, v);
    assert a + [x, c] + v == a + t;
  }

  lemma Pass1HumpEnd(x: char, c: char, v: string)
    requires x != '\n' && IsUpper(c) && v != [] && AllLower(v)
    ensures Pass1([x, c] + v) == [x, '_'] + ([c] + v)
  {
    var s := [x, c] + v;
    assert s[0] == x && s[1] == c && s[2] == v[0];
    assert s[2..] == v + [];
    LowerRunAll(v, []);
    assert Pass1Starts(s) && Pass1Len(s) == |s|;
    assert s[1..|s|] == [c] + v;
    Pass1Unfold(s);
  }

  lemma Pass2HumpTail(a: string, x: char, c: char, v: string)
    requires NoUpper(a) && !IsUpper(x) && IsUpper(c) && v != [] && AllLower(v)
    ensures Pass2(a + [x, '_'] + ([c] + v)) == a + [x, '_'] + ([c] + v)
  {
    assert NoUpper(a + [x, '_']);
    Pass2Append(a + [x, '_'], [c] + v);
    Pass2Separated(a + [x, '_']);
    assert Separated([c] + v);
    Pass2Separated([c] + v);
  }

  /** An example from the field names of the generated client. */
  lemma SnakeMapUrl(s: string)
    requires s == "mapURL"
    ensures Snake(s) == "map_url"
  {
    assert s == "ma" + ['p'] + "URL";
    SnakeAcronymTail("ma", 'p', "URL");
  }

  /** An underscore already in front of a capitalised word is doubled. */
  lemma SnakeDoublesUnderscore(s: string)
    requires s == "foo_Bar"
    ensures Snake(s) == "foo__bar"
  {
    assert s == "foo" + ['_', 'B'] + "ar";
    SnakeHumpTail("foo", '_', 'B', "ar");
  }

  /** One match of the first pattern after a prefix without capitals, with a
      tail in which the first pattern cannot match. */
  lemma Pass1OneHump(pre: string, x: char, c: char, v: string, tail: string)
    requires NoUpper(pre) && x != '\n' && !IsUpper(x) && IsUpper(c) && v != [] && AllLower(v)
    requires (tail == [] || !IsLower(tail[0])) && HumpFree(tail)
    ensures Pass1(pre + ([x, c] + v + tail)) == pre + ([x, '_', c] + v + tail)
  {
    Pass1Skip(pre, [x, c] + v + tail);
    Pass1Hump(x, c, v, tail);
    Pass1HumpFree(tail);
  }

  /** The second pass at one word boundary between two separated pieces. */
  lemma Pass2OneBoundary(front: string, tail: string)
    requires front != [] && tail != [] && IsLowerOrDigit(front[|front| - 1]) && IsUpper(tail[0])
    requires Separated(front) && Separated(tail)
    ensures Pass2(front + tail) == front + "_" + tail
  {
    Pass2Camel(front, tail);
    Pass2Separated(front);
    Pass2Separated(tail);
  }

  lemma HighestArenaIndexPieces(s: string, pre: string, v: string, tail: string)
    requires s == "_highestArenaIndex" && pre == "_highes" && v == "rena" && tail == "Index"
    ensures s == pre + (['t', 'A'] + v + tail)
    ensures NoUpper(pre) && v != [] && AllLower(v) && !IsLower(tail[0]) && HumpFree(tail)
  {
  }

  lemma HighestArenaIndexBoundary(t: string, front: string, tail: string)
    requires front == "_highest_Arena" && tail == "Index" && t == "_highes" + (['t', '_', 'A'] + "rena" + tail)
    ensures t == front + tail && front != [] && tail != []
    ensures IsLowerOrDigit(front[|front| - 1]) && IsUpper(tail[0]) && Separated(front) && Separated(tail)
  {
  }

  lemma HighestArenaIndexLower(r: string)
    requires r == "_highest_Arena" + "_" + "Index"
    ensures Lower(r) == "_highest_arena_index"
  {
  }

  /** Two capitalised words after an underscore. */
  lemma SnakeHighestArenaIndex(s: string)
    requires s == "_highestArenaIndex"
    ensures Snake(s) == "_highest_arena_index"
  {
    var pre, v, tail := "_highes", "rena", "Index";
    HighestArenaIndexPieces(s, pre, v, tail);
    Pass1OneHump(pre, 't', 'A', v, tail);
    var front := "_highest_Arena";
    HighestArenaIndexBoundary(pre + (['t', '_', 'A'] + v + tail), front, tail);
    Pass2OneBoundary(front, tail);
    HighestArenaIndexLower(front + "_" + tail);
  }

  lemma CurrentSeasonPieces(s: string, first: string, second: string, pre: string, v: string)
    requires s == "currentSeason_highestArenaIndex" && first == "currentSeason" && second == "_highestArenaIndex"
    requires pre == "curren" && v == "eason"
    ensures s == first + second && SafeStart(second) && first == pre + ['t', 'S'] + v
    ensures NoUpper(pre) && v != [] && AllLower(v)
  {
  }

  lemma CurrentSeasonJoin(r: string, pre: string, v: string, second: string)
    requires pre == "curren" && v == "eason" && second == "_highest_arena_index"
    requires r == pre + ['t', '_', LowerChar('S')] + v + second
    ensures r == "current_season_highest_arena_index"
  {
  }

  /** The name with several words that the second pass splits. */
  lemma SnakeCurrentSeason(s: string)
    requires s == "currentSeason_highestArenaIndex"
    ensures Snake(s) == "current_season_highest_arena_index"
  {
    var first, second, pre, v := "currentSeason", "_highestArenaIndex", "curren", "eason";
    CurrentSeasonPieces(s, first, second, pre, v);
    SnakeAppend(first, second);
    SnakeHumpTail(pre, 't', 'S', v);
    SnakeHighestArenaIndex(second);
    CurrentSeasonJoin(Snake(first) + Snake(second), pre, v, Snake(second));
  }

  lemma CurrentlyInHoMPieces(s: string, pre: string, v: string, tail: string)
    requires s == "currentlyInHoM" && pre == "currentl" && v == "n" && tail == "HoM"
    ensures s == pre + (['y', 'I'] + v + tail)
    ensures NoUpper(pre) && v != [] && AllLower(v) && !IsLower(tail[0]) && HumpFree(tail)
  {
  }

  lemma CurrentlyInHoMBoundaries(t: string, front: string, ho: string, m: string)
    requires front == "currently_In" && ho == "Ho" && m == "M" && t == "currentl" + (['y', '_', 'I'] + "n" + "HoM")
    ensures t == front + (ho + m) && front != [] && ho != [] && m != [] && ho + m != []
    ensures IsLowerOrDigit(front[|front| - 1]) && IsUpper(ho[0]) && IsLowerOrDigit(ho[|ho| - 1]) && IsUpper(m[0])
    ensures IsUpper((ho + m)[0]) && Separated(front) && Separated(ho) && Separated(m)
  {
  }

  lemma CurrentlyInHoMLower(r: string)
    requires r == "currently_In" + "_" + ("Ho" + "_" + "M")
    ensures Lower(r) == "currently_in_ho_m"
  {
  }

  /** A single trailing capital after a two-letter word still gets its own underscore. */
  lemma SnakeCurrentlyInHoM(s: string)
    requires s == "currentlyInHoM"
    ensures Snake(s) == "currently_in_ho_m"
  {
    var pre, v, tail := "currentl", "n", "HoM";
    CurrentlyInHoMPieces(s, pre, v, tail);
    Pass1OneHump(pre, 'y', 'I', v, tail);
    var front, ho, m := "currently_In", "Ho", "M";
    CurrentlyInHoMBoundaries(pre + (['y', '_', 'I'] + v + tail), front, ho, m);
    Pass2OneBoundary(ho, m);
    Pass2Camel(front, ho + m);
    Pass2Separated(front);
    CurrentlyInHoMLower(front + "_" + (ho + "_" + m));
  }

  // ---- to_pascal_case -------------------------------------------------------

  /** `str.capitalize()`: first character uppercased, the rest lowercased. */
  function Capitalize(p: string): (r: string)
    ensures |r| == |p|
    ensures r == [] || (!IsLower(r[0]) && NoUpper(r[1..]))
  {
    if p == [] then [] else [UpperChar(p[0])] + Lower(p[1..])
  }

  function CapitalizeAll(parts: seq<string>): (r: seq<string>)
    ensures |r| == |parts|
  {
    seq(|parts|, k requires 0 <= k < |parts| => Capitalize(parts[k]))
  }

  /** The separator class of `re.split('_|-', name)`. */
  predicate IsPascalSep(c: char) { c == '_' || c == '-' }

  /** `to_pascal_case`. */
  function Pascal(s: string): string
  {
    var t := TrimStart(s, '_');
    var u := ReplaceAll(ReplaceAll(t, "btd6", "Btd6"), "battles2", "Battles2");
    Concat(CapitalizeAll(Split(u, IsPascalSep)))
  }

  /** Lowercasing a string changes no separator and no case-independent character. */
  lemma {:induction false} LowerReplace(t: string, pat: string, rep: string)
    requires |pat| > 0 && |rep| == |pat| && Lower(rep) == Lower(pat)
    ensures Lower(ReplaceAll(t, pat, rep)) == Lower(t)
    decreases |t|
  {
    if |t| >= |pat| {
      if t[..|pat|] == pat {
        LowerReplace(t[|pat|..], pat, rep);
        LowerAppend(rep, ReplaceAll(t[|pat|..], pat, rep));
        LowerAppend(t[..|pat|], t[|pat|..]);
        assert t[..|pat|] + t[|pat|..] == t;
      } else {
        LowerReplace(t[1..], pat, rep);
        LowerAppend([t[0]], ReplaceAll(t[1..], pat, rep));
        LowerAppend([t[0]], t[1..]);
        assert [t[0]] + t[1..] == t;
      }
    }
  }

  function LowerAll(parts: seq<string>): (r: seq<string>)
    ensures |r| == |parts|
  {
    seq(|parts|, k requires 0 <= k < |parts| => Lower(parts[k]))
  }

  lemma {:induction false} SplitLower(t: string)
    ensures Split(Lower(t), IsPascalSep) == LowerAll(Split(t, IsPascalSep))
    decreases |t|
  {
    if t != [] {
      assert Split(Lower(t)[1..], IsPascalSep) == LowerAll(Split(t[1..], IsPascalSep)) by {
        SplitLower(t[1..]);
        assert Lower(t)[1..] == Lower(t[1..]);
      }
      if IsPascalSep(t[0]) {
        SplitLowerSep(t);
      } else {
        SplitLowerWord(t);
      }
    }
  }

  lemma SplitLowerSep(t: string)
    requires t != [] && IsPascalSep(t[0])
    requires Split(Lower(t)[1..], IsPascalSep) == LowerAll(Split(t[1..], IsPascalSep))
    ensures Split(Lower(t), IsPascalSep) == LowerAll(Split(t, IsPascalSep))
  {
    var l := Lower(t);
    assert l[0] == LowerChar(t[0]);
    assert IsPascalSep(l[0]);
    LowerAllCons([], Split(t[1..], IsPascalSep));
  }

  lemma SplitLowerWord(t: string)
    requires t != [] && !IsPascalSep(t[0])
    requires Split(Lower(t)[1..], IsPascalSep) == LowerAll(Split(t[1..], IsPascalSep))
    ensures Split(Lower(t), IsPascalSep) == LowerAll(Split(t, IsPascalSep))
  {
    var l := Lower(t);
    var rest := Split(t[1..], IsPascalSep);
    var lr := LowerAll(rest);
    assert !IsPascalSep(l[0]) by {
      assert l[0] == LowerChar(t[0]);
    }
    assert Split(l, IsPascalSep) == [[l[0]] + lr[0]] + lr[1..];
    var h := [t[0]] + rest[0];
    assert Split(t, IsPascalSep) == [h] + rest[1..];
    LowerFirst(t, rest[0]);
    LowerAllCons(h, rest[1..]);
    assert LowerAll(rest[1..]) == lr[1..];
  }

  lemma LowerFirst(t: string, w: string)
    requires t != []
    ensures Lower([t[0]] + w) == [Lower(t)[0]] + Lower(w)
  {
    LowerAppend([t[0]], w);
  }

  lemma LowerAllCons(h: string, parts: seq<string>)
    ensures LowerAll([h] + parts) == [Lower(h)] + LowerAll(parts)
  {
  }

  lemma CapitalizeLower(p: string)
    ensures Capitalize(Lower(p)) == Capitalize(p)
  {
    if p != [] {
      assert Lower(p)[1..] == Lower(p[1..]);
      assert Lower(Lower(p[1..])) == Lower(p[1..]);
    }
  }

  /** The `btd6`/`battles2` replacements inside `to_pascal_case` have no
      effect on its result: `capitalize` recases every letter they touch. */
  lemma PascalIgnoresReplacements(s: string)
    ensures Pascal(s) == Concat(CapitalizeAll(Split(TrimStart(s, '_'), IsPascalSep)))
  {
    var t := TrimStart(s, '_');
    var u1 := ReplaceAll(t, "btd6", "Btd6");
    var u := ReplaceAll(u1, "battles2", "Battles2");
    RecasedNames();
    LowerReplace(t, "btd6", "Btd6");
    LowerReplace(u1, "battles2", "Battles2");
    PartsCaseBlind(u, t);
  }

  lemma RecasedNames()
    ensures Lower("Btd6") == Lower("btd6") && Lower("Battles2") == Lower("battles2")
  {
    assert Lower("Btd6") == "btd6";
    assert Lower("Battles2") == "battles2";
  }

  /** The parts capitalize the same whenever the names agree up to case. */
  lemma PartsCaseBlind(u: string, t: string)
    requires Lower(u) == Lower(t)
    ensures Concat(CapitalizeAll(Split(u, IsPascalSep))) == Concat(CapitalizeAll(Split(t, IsPascalSep)))
  {
    SplitLower(u);
    SplitLower(t);
    var pu := Split(u, IsPascalSep);
    var pt := Split(t, IsPascalSep);
    assert LowerAll(pu) == LowerAll(pt);
    assert CapitalizeAll(pu) == CapitalizeAll(pt) by {
      forall k | 0 <= k < |pu| ensures Capitalize(pu[k]) == Capitalize(pt[k]) {
        CapitalizeLower(pu[k]);
        CapitalizeLower(pt[k]);
        assert LowerAll(pu)[k] == LowerAll(pt)[k];
      }
    }
  }

  /** Two names that differ only in case get the same class name, and so do
      their parts once split. */
  lemma PascalCaseBlind(u: string, t: string)
    requires Lower(u) == Lower(t)
    ensures Pascal(u) == Pascal(t)
    ensures Concat(CapitalizeAll(Split(u, IsPascalSep))) == Concat(CapitalizeAll(Split(t, IsPascalSep)))
  {
    PartsCaseBlind(u, t);
    PascalIgnoresReplacements(u);
    PascalIgnoresReplacements(t);
    TrimStartLower(u, t);
    PartsCaseBlind(TrimStart(u, '_'), TrimStart(t, '_'));
  }

  /** `lstrip('_')` strips the same number of characters from names equal up to case. */
  lemma {:induction false} TrimStartLower(u: string, t: string)
    requires Lower(u) == Lower(t)
    ensures Lower(TrimStart(u, '_')) == Lower(TrimStart(t, '_'))
    decreases |u|
  {
    if u != [] {
      assert LowerChar(u[0]) == LowerChar(t[0]) by {
        assert Lower(u)[0] == Lower(t)[0];
      }
      assert u[0] == '_' <==> t[0] == '_';
      if u[0] == '_' {
        assert Lower(u[1..]) == Lower(t[1..]) by {
          assert Lower(u[1..]) == Lower(u)[1..];
          assert Lower(t[1..]) == Lower(t)[1..];
        }
        TrimStartLower(u[1..], t[1..]);
      }
    }
  }

  predicate NoPascalSep(s: string) { forall i :: 0 <= i < |s| ==> !IsPascalSep(s[i]) }

  lemma {:induction false} ConcatNoSep(parts: seq<string>)
    requires forall k :: 0 <= k < |parts| ==> NoPascalSep(parts[k])
    ensures NoPascalSep(Concat(parts))
    decreases |parts|
  {
    if parts != [] {
      ConcatNoSep(parts[1..]);
      assert forall k :: 0 <= k < |parts[1..]| ==> parts[1..][k] == parts[k + 1];
    }
  }

  /** The PascalCase name holds no '_' and no '-'. */
  lemma PascalNoSeparators(s: string)
    ensures NoPascalSep(Pascal(s))
  {
    var t := TrimStart(s, '_');
    var u := ReplaceAll(ReplaceAll(t, "btd6", "Btd6"), "battles2", "Battles2");
    var parts := Split(u, IsPascalSep);
    SplitPartsSeparatorFree(u, IsPascalSep);
    var caps := CapitalizeAll(parts);
    forall k | 0 <= k < |caps| ensures NoPascalSep(caps[k]) {
      forall i | 0 <= i < |caps[k]| ensures !IsPascalSep(caps[k][i]) {
        assert !IsPascalSep(parts[k][i]);
        if i > 0 { assert caps[k][i] == LowerChar(parts[k][i]); }
      }
    }
    ConcatNoSep(caps);
  }

  /** Leading underscores do not matter. */
  lemma PascalStripsLeading(s: string)
    ensures Pascal(['_'] + s) == Pascal(s)
  {
    assert (['_'] + s)[1..] == s;
  }

  /** `str.capitalize` recases every letter it keeps: each part is
      uppercase-first then lowercase. */
  predicate IsCapitalized(p: string) { p == [] || (!IsLower(p[0]) && NoUpper(p[1..])) }

  /** The result is a concatenation of capitalized parts, one per separated
      part of the name once leading underscores are stripped. */
  lemma PascalShape(s: string)
    ensures var parts := Split(TrimStart(s, '_'), IsPascalSep);
            Pascal(s) == Concat(CapitalizeAll(parts))
            && (forall k :: 0 <= k < |parts| ==> IsCapitalized(CapitalizeAll(parts)[k]) && Lower(CapitalizeAll(parts)[k]) == Lower(parts[k]))
  {
    PascalIgnoresReplacements(s);
    var parts := Split(TrimStart(s, '_'), IsPascalSep);
    forall k | 0 <= k < |parts| ensures Lower(CapitalizeAll(parts)[k]) == Lower(parts[k]) {
      CapitalizeRecases(parts[k]);
    }
  }

  /** `capitalize` changes only the case of letters. */
  lemma CapitalizeRecases(p: string)
    ensures Lower(Capitalize(p)) == Lower(p)
  {
    if p != [] {
      LowerAppend([UpperChar(p[0])], Lower(p[1..]));
      LowerAppend([p[0]], p[1..]);
      assert [p[0]] + p[1..] == p;
      assert Lower(Lower(p[1..])) == Lower(p[1..]);
    }
  }

  lemma Btd6RaceTrim(s: string)
    requires s == "_btd6_race"
    ensures TrimStart(s, '_') == "btd6_race"
  {
    assert s[1..] == "btd6_race";
  }

  lemma Btd6RaceSplit(t: string)
    requires t == "btd6_race"
    ensures Split(t, IsPascalSep) == ["btd6", "race"]
  {
    var a, b := "btd6", "race";
    assert t == a + ['_'] + b;
    SplitAtSeparator(a, '_', b, IsPascalSep);
    SplitNoSeparator(b, IsPascalSep);
  }

  lemma CapitalizeBtd6(p: string)
    requires p == "btd6"
    ensures Capitalize(p) == "Btd6"
  {
    assert p[1..] == "td6";
    LowerOfNoUpper("td6");
  }

  lemma CapitalizeRace(p: string)
    requires p == "race"
    ensures Capitalize(p) == "Race"
  {
    assert p[1..] == "ace";
    LowerOfNoUpper("ace");
  }

  lemma CapitalizeBtd6race(p: string)
    requires p == "btd6race"
    ensures Capitalize(p) == "Btd6race"
  {
    assert p[1..] == "td6race";
    LowerOfNoUpper("td6race");
  }

  lemma Btd6RaceJoin(parts: seq<string>)
    requires parts == ["btd6", "race"]
    ensures Concat(CapitalizeAll(parts)) == "Btd6Race"
  {
    CapitalizeBtd6(parts[0]);
    CapitalizeRace(parts[1]);
    var caps := CapitalizeAll(parts);
    assert caps == ["Btd6", "Race"];
    assert caps[1..] == ["Race"];
    assert Concat(caps[1..]) == "Race" + Concat([]);
    assert Concat(caps) == "Btd6" + "Race";
  }

  /** Each separated part is capitalized. */
  lemma PascalBtd6Race(s: string)
    requires s == "_btd6_race"
    ensures Pascal(s) == "Btd6Race"
  {
    PascalIgnoresReplacements(s);
    Btd6RaceTrim(s);
    Btd6RaceSplit(TrimStart(s, '_'));
    Btd6RaceJoin(Split(TrimStart(s, '_'), IsPascalSep));
  }

  lemma Btd6raceTrim(s: string)
    requires s == "_btd6race"
    ensures TrimStart(s, '_') == "btd6race"
  {
    assert s[1..] == "btd6race";
  }

  lemma Btd6raceSplit(t: string)
    requires t == "btd6race"
    ensures Split(t, IsPascalSep) == [t]
  {
    SplitNoSeparator(t, IsPascalSep);
  }

  lemma Btd6raceJoin(parts: seq<string>)
    requires parts == ["btd6race"]
    ensures Concat(CapitalizeAll(parts)) == "Btd6race"
  {
    CapitalizeBtd6race(parts[0]);
    assert CapitalizeAll(parts) == ["Btd6race"];
  }

  /** Without a separator the whole name is one part, so the words after the
      prefix stay lowercase. */
  lemma PascalBtd6race(s: string)
    requires s == "_btd6race"
    ensures Pascal(s) == "Btd6race"
  {
    PascalIgnoresReplacements(s);
    Btd6raceTrim(s);
    Btd6raceSplit(TrimStart(s, '_'));
    Btd6raceJoin(Split(TrimStart(s, '_'), IsPascalSep));
  }

  // ---- map_type_hint -----------------------------------------------------------

  /** A Python type annotation produced from a documentation type string. */
  datatype TypeHint = AnyHint | Literal(options: seq<string>) | Mapped(py: string)
  {
    /** The annotation as it appears in the generated source. */
    function Text(): string
    {
      match this
      case AnyHint => "Any"
      case Literal(options) => "Literal[" + Join(Quoted(options), ", ") + "]"
      case Mapped(py) => py
    }
  }

  function Quoted(options: seq<string>): (r: seq<string>)
    ensures |r| == |options|
  {
    seq(|options|, k requires 0 <= k < |options| => "'" + options[k] + "'")
  }

  /** The lookup table of `map_type_hint`. */
  const TypeTable: map<string, string> := map[
    "string" := "str", "number" := "int | float", "boolean" := "bool",
    "array" := "list", "string[]" := "list[str]", "map" := "dict[str, Any]",
    "nestedmap" := "dict[str, Any]", "asseturl" := "str", "raw" := "dict[str, Any]"]

  predicate IsComma(c: char) { c == ',' }

  function StripAll(parts: seq<string>): (r: seq<string>)
    ensures |r| == |parts|
  {
    seq(|parts|, k requires 0 <= k < |parts| => Strip(parts[k]))
  }

  /** `map_type_hint`. */
  function MapTypeHint(typeStr: string): TypeHint
  {
    var t := Lower(Strip(typeStr));
    if t == [] then AnyHint
    else if ',' in t then Literal(StripAll(Split(t, IsComma)))
    else if t in TypeTable then Mapped(TypeTable[t])
    else AnyHint
  }

  /** A blank type string is `Any`. */
  lemma MapTypeHintBlank(typeStr: string)
    ensures MapTypeHint(typeStr) == AnyHint <==>
      (AllSpace(typeStr) || (',' !in Lower(Strip(typeStr)) && Lower(Strip(typeStr)) !in TypeTable))
  {
    StripEmpty(typeStr);
  }

  /** A type string holding a comma is an enumeration: one option per comma
      plus one, each the lowercased piece between commas with surrounding
      whitespace stripped, empty options kept, in input order. */
  lemma MapTypeHintLiteral(typeStr: string)
    requires ',' in Lower(Strip(typeStr))
    ensures var t := Lower(Strip(typeStr));
            var parts := Split(t, IsComma);
            MapTypeHint(typeStr).Literal?
            && |MapTypeHint(typeStr).options| == Count(t, IsComma) + 1
            && Join(parts, ",") == t
            && (forall k :: 0 <= k < |parts| ==> ',' !in parts[k] && MapTypeHint(typeStr).options[k] == Strip(parts[k]))
            && (forall k :: 0 <= k < |parts| ==> NoUpper(MapTypeHint(typeStr).options[k]))
  {
    var t := Lower(Strip(typeStr));
    var parts := Split(t, IsComma);
    SplitCount(t, IsComma);
    JoinSplit(t, ',', IsComma);
    SplitPartsSeparatorFree(t, IsComma);
    forall k | 0 <= k < |parts| ensures ',' !in parts[k] && NoUpper(Strip(parts[k])) {
      assert forall i :: 0 <= i < |parts[k]| ==> parts[k][i] != ',';
      SplitNoUpper(t, k);
      StripNoUpper(parts[k]);
    }
  }

  lemma {:induction false} SplitNoUpper(t: string, k: int)
    requires NoUpper(t) && 0 <= k < |Split(t, IsComma)|
    ensures NoUpper(Split(t, IsComma)[k])
    decreases |t|
  {
    if t != [] {
      assert NoUpper(t[1..]) by { forall i | 0 <= i < |t[1..]| ensures !IsUpper(t[1..][i]) { assert t[1..][i] == t[i + 1]; } }
      var rest := Split(t[1..], IsComma);
      if IsComma(t[0]) {
        if k > 0 { SplitNoUpper(t[1..], k - 1); }
      } else if k == 0 {
        SplitNoUpper(t[1..], 0);
        assert Split(t, IsComma)[0] == [t[0]] + rest[0];
      } else {
        SplitNoUpper(t[1..], k);
      }
    }
  }

  lemma StripNoUpper(s: string)
    requires NoUpper(s)
    ensures NoUpper(Strip(s))
  {
    var a := TrimStartSpace(s);
    assert NoUpper(a) by {
      TrimStartSpaceSuffix(s);
      NoUpperSuffix(s, |s| - |a|);
    }
    var b := TrimEndSpace(a);
    assert NoUpper(b) by {
      TrimEndSpacePrefix(a);
      NoUpperPrefix(a, |b|);
    }
    assert Strip(s) == b;
  }

  /** The three outcomes over every type string, with `t` its stripped,
      lowercased text: an enumeration exactly when `t` holds a comma, a
      mapped annotation exactly when `t` is a table key (then the table's
      entry), and `Any` in every other case. */
  lemma MapTypeHintLookup(typeStr: string)
    ensures var t := Lower(Strip(typeStr));
            (MapTypeHint(typeStr).Literal? <==> ',' in t)
            && (MapTypeHint(typeStr).Mapped? <==> ',' !in t && t in TypeTable)
            && (MapTypeHint(typeStr).Mapped? ==> MapTypeHint(typeStr).py == TypeTable[t])
            && (MapTypeHint(typeStr) == AnyHint <==> ',' !in t && t !in TypeTable)
  {
    var t := Lower(Strip(typeStr));
    if t in TypeTable {
      TableKeysNonEmpty(t);
    }
  }

  /** Documentation type strings as they occur, through strip and lowercase. */
  lemma MapTypeHintExamples()
    ensures MapTypeHint(" Number ") == Mapped("int | float")
    ensures MapTypeHint("AssetURL") == Mapped("str")
    ensures MapTypeHint("string[]") == Mapped("list[str]")
    ensures MapTypeHint("NestedMap") == Mapped("dict[str, Any]")
    ensures MapTypeHint("object") == AnyHint
    ensures MapTypeHint("  ") == AnyHint
  {
    MapTypeHintNumber(" Number ");
    MapTypeHintAssetUrl("AssetURL");
    MapTypeHintStringList("string[]");
    MapTypeHintNestedMap("NestedMap");
    MapTypeHintObject("object");
    StripEmpty("  ");
  }

  /** A type string without surrounding whitespace: only its case is changed. */
  lemma MapTypeHintWord(s: string, t: string)
    requires s != [] && !IsSpace(s[0]) && !IsSpace(s[|s| - 1]) && Lower(s) == t && ',' !in t
    ensures MapTypeHint(s) == if t in TypeTable then Mapped(TypeTable[t]) else AnyHint
  {
    assert TrimStartSpace(s) == s;
    assert TrimEndSpace(s) == s;
  }

  lemma MapTypeHintNumber(s: string)
    requires s == " Number "
    ensures MapTypeHint(s) == Mapped("int | float")
  {
    assert TrimStartSpace(s) == "Number " by {
      assert s[1..] == "Number ";
    }
    assert TrimEndSpace("Number ") == "Number" by {
      assert "Number "[..6] == "Number";
    }
    assert Lower("Number") == "number";
  }

  lemma MapTypeHintAssetUrl(s: string)
    requires s == "AssetURL"
    ensures MapTypeHint(s) == Mapped("str")
  {
    assert Lower(s) == "asseturl";
    MapTypeHintWord(s, "asseturl");
  }

  lemma MapTypeHintStringList(s: string)
    requires s == "string[]"
    ensures MapTypeHint(s) == Mapped("list[str]")
  {
    assert Lower(s) == "string[]";
    MapTypeHintWord(s, "string[]");
  }

  lemma MapTypeHintNestedMap(s: string)
    requires s == "NestedMap"
    ensures MapTypeHint(s) == Mapped("dict[str, Any]")
  {
    assert Lower(s) == "nestedmap";
    MapTypeHintWord(s, "nestedmap");
  }

  lemma MapTypeHintObject(s: string)
    requires s == "object"
    ensures MapTypeHint(s) == AnyHint
  {
    assert Lower(s) == "object";
    MapTypeHintWord(s, "object");
  }

  lemma TableKeysNonEmpty(t: string)
    requires t in TypeTable
    ensures t != []
  {
  }
}
