/** ASCII string primitives that mirror the Python `str` methods and the
    `re` patterns the generators and the tower store use. */
module Strings {

  predicate IsUpper(c: char) { 'A' <= c <= 'Z' }
  predicate IsLower(c: char) { 'a' <= c <= 'z' }
  predicate IsDigit(c: char) { '0' <= c <= '9' }

  /** The regex class `\w` restricted to ASCII. */
  predicate IsWordChar(c: char) { IsUpper(c) || IsLower(c) || IsDigit(c) || c == '_' }

  predicate AllWordChars(s: string) { forall i :: 0 <= i < |s| ==> IsWordChar(s[i]) }

  /** `str.isspace()` and the regex class `\s` restricted to ASCII
      (space, \t \n \v \f \r and the separators 0x1c-0x1f). */
  predicate IsSpace(c: char) { c == ' ' || 9 <= c as int <= 13 || 28 <= c as int <= 31 }

  function LowerChar(c: char): (d: char)
    ensures !IsUpper(d)
    ensures d == c || (IsUpper(c) && IsLower(d))
  {
    if IsUpper(c) then (c as int + 32) as char else c
  }

  function UpperChar(c: char): (d: char)
    ensures !IsLower(d)
    ensures d == c || (IsLower(c) && IsUpper(d))
  {
    if IsLower(c) then (c as int - 32) as char else c
  }

  predicate NoUpper(s: string) { forall i :: 0 <= i < |s| ==> !IsUpper(s[i]) }

  /** `str.lower()` on ASCII text. */
  function Lower(s: string): (r: string)
    ensures |r| == |s| && NoUpper(r)
  {
    seq(|s|, i requires 0 <= i < |s| => LowerChar(s[i]))
  }

  lemma LowerAppend(a: string, b: string)
    ensures Lower(a + b) == Lower(a) + Lower(b)
  {
  }

  lemma NoUpperSuffix(s: string, i: nat)
    requires NoUpper(s) && i <= |s|
    ensures NoUpper(s[i..])
  {
    forall j | 0 <= j < |s| - i ensures !IsUpper(s[i..][j]) {
      assert s[i..][j] == s[i + j];
    }
  }

  lemma NoUpperPrefix(s: string, i: nat)
    requires NoUpper(s) && i <= |s|
    ensures NoUpper(s[..i])
  {
    forall j | 0 <= j < i ensures !IsUpper(s[..i][j]) {
      assert s[..i][j] == s[j];
    }
  }

  lemma LowerOfNoUpper(s: string)
    requires NoUpper(s)
    ensures Lower(s) == s
  {
  }

  /** `prefix in s` as a prefix test: `s.startswith(prefix)`. */
  predicate StartsWith(s: string, prefix: string) { |prefix| <= |s| && s[..|prefix|] == prefix }

  /** `s.endswith(suffix)`. */
  predicate EndsWith(s: string, suffix: string) { |suffix| <= |s| && s[|s| - |suffix|..] == suffix }

  /** The substring test `sub in s`. */
  predicate Contains(s: string, sub: string)
    decreases |s|
  {
    StartsWith(s, sub) || (s != [] && Contains(s[1..], sub))
  }

  /** A substring test across a cut that no occurrence can straddle. */
  lemma {:induction false} ContainsAppend(a: string, b: string, w: string)
    requires w != [] && (b == [] || b[0] !in w)
    ensures Contains(a + b, w) <==> Contains(a, w) || Contains(b, w)
    decreases |a|
  {
    if a == [] {
      assert a + b == b;
    } else {
      var s := a + b;
      assert StartsWith(s, w) <==> StartsWith(a, w) by {
        if |w| <= |a| {
          assert s[..|w|] == a[..|w|];
        } else if |w| <= |s| {
          assert s[..|w|][|a|] == b[0];
        }
      }
      assert s[1..] == a[1..] + b;
      ContainsAppend(a[1..], b, w);
    }
  }

  /** A pattern with a character that `s` lacks does not occur in `s`. */
  lemma {:induction false} NotContainsChar(s: string, w: string, i: int)
    requires 0 <= i < |w| && w[i] !in s
    ensures !Contains(s, w)
    decreases |s|
  {
    if s != [] {
      assert w[i] !in s[1..] by {
        forall k | 0 <= k < |s[1..]| ensures s[1..][k] != w[i] { assert s[1..][k] == s[k + 1]; }
      }
      NotContainsChar(s[1..], w, i);
    }
  }

  /** An occurrence at a known position. */
  lemma {:induction false} ContainsAt(s: string, w: string, i: nat)
    requires i + |w| <= |s| && s[i..i + |w|] == w
    ensures Contains(s, w)
    decreases i
  {
    if i > 0 {
      assert s[1..][i - 1..i - 1 + |w|] == s[i..i + |w|];
      ContainsAt(s[1..], w, i - 1);
    }
  }

  lemma ContainsSelf(s: string)
    ensures Contains(s, s)
  {
  }

  /** `s.replace(old, new)`: every non-overlapping occurrence, scanned left to right. */
  function ReplaceAll(s: string, pat: string, rep: string): string
    requires |pat| > 0
    decreases |s|
  {
    if |s| < |pat| then s
    else if s[..|pat|] == pat then rep + ReplaceAll(s[|pat|..], pat, rep)
    else [s[0]] + ReplaceAll(s[1..], pat, rep)
  }

  /** Replacing a string that does not occur is the identity. */
  lemma {:induction false} ReplaceAllAbsent(s: string, pat: string, rep: string)
    requires |pat| > 0 && pat[0] !in s
    ensures ReplaceAll(s, pat, rep) == s
    decreases |s|
  {
    if |s| >= |pat| {
      assert s[..|pat|][0] == s[0];
      ReplaceAllAbsent(s[1..], pat, rep);
      assert [s[0]] + s[1..] == s;
    }
  }

  /** A prefix that cannot start an occurrence passes through unchanged. */
  lemma {:induction false} ReplaceAllSkip(t: string, u: string, pat: string, rep: string)
    requires |pat| > 0 && pat[0] !in t
    ensures ReplaceAll(t + u, pat, rep) == t + ReplaceAll(u, pat, rep)
    decreases |t|
  {
    if t != [] {
      var s := t + u;
      if |s| >= |pat| {
        assert s[..|pat|][0] == t[0] && s[..|pat|] != pat;
        assert s[1..] == t[1..] + u;
        assert pat[0] !in t[1..];
        ReplaceAllSkip(t[1..], u, pat, rep);
        assert ReplaceAll(s, pat, rep) == [t[0]] + (t[1..] + ReplaceAll(u, pat, rep));
        assert [t[0]] + (t[1..] + ReplaceAll(u, pat, rep)) == ([t[0]] + t[1..]) + ReplaceAll(u, pat, rep);
        assert [t[0]] + t[1..] == t;
      } else {
        assert ReplaceAll(s, pat, rep) == s;
        assert ReplaceAll(u, pat, rep) == u;
      }
    } else {
      assert t + u == u;
    }
  }

  /** Replacing one character by a string distributes over concatenation. */
  lemma {:induction false} ReplaceCharAppend(a: string, b: string, c: char, rep: string)
    ensures ReplaceAll(a + b, [c], rep) == ReplaceAll(a, [c], rep) + ReplaceAll(b, [c], rep)
    decreases |a|
  {
    if a != [] {
      var s := a + b;
      assert s[1..] == a[1..] + b;
      assert s[..1] == a[..1] == [a[0]];
      ReplaceCharAppend(a[1..], b, c, rep);
      var head := if a[0] == c then rep else [a[0]];
      assert ReplaceAll(s, [c], rep) == head + ReplaceAll(s[1..], [c], rep);
      assert ReplaceAll(a, [c], rep) == head + ReplaceAll(a[1..], [c], rep);
      assert head + (ReplaceAll(a[1..], [c], rep) + ReplaceAll(b, [c], rep))
          == (head + ReplaceAll(a[1..], [c], rep)) + ReplaceAll(b, [c], rep);
    } else {
      assert a + b == b;
    }
  }

  /** Replacement works piecewise when no occurrence can straddle the cut:
      the first character after the cut does not occur in the pattern. */
  lemma {:induction false} ReplaceAllSplit(a: string, b: string, pat: string, rep: string)
    requires |pat| > 0 && (b == [] || b[0] !in pat)
    ensures ReplaceAll(a + b, pat, rep) == ReplaceAll(a, pat, rep) + ReplaceAll(b, pat, rep)
    decreases |a|
  {
    var s := a + b;
    if a == [] {
      assert s == b;
    } else if b == [] {
      assert s == a;
    } else if |s| < |pat| {
      assert ReplaceAll(a, pat, rep) == a;
      assert ReplaceAll(b, pat, rep) == b;
    } else if |a| >= |pat| && a[..|pat|] == pat {
      assert s[..|pat|] == pat;
      assert s[|pat|..] == a[|pat|..] + b;
      ReplaceAllSplit(a[|pat|..], b, pat, rep);
      Assoc(rep, ReplaceAll(a[|pat|..], pat, rep), ReplaceAll(b, pat, rep));
    } else {
      assert s[..|pat|] != pat by {
        if |a| >= |pat| {
          assert s[..|pat|] == a[..|pat|];
        } else {
          assert s[..|pat|][|a|] == b[0];
        }
      }
      assert s[1..] == a[1..] + b;
      ReplaceAllSplit(a[1..], b, pat, rep);
      if |a| >= |pat| {
        assert ReplaceAll(a, pat, rep) == [a[0]] + ReplaceAll(a[1..], pat, rep);
      } else {
        assert ReplaceAll(a, pat, rep) == a;
        assert ReplaceAll(a[1..], pat, rep) == a[1..];
        assert [a[0]] + a[1..] == a;
      }
      Assoc([a[0]], ReplaceAll(a[1..], pat, rep), ReplaceAll(b, pat, rep));
    }
  }

  lemma Assoc<T>(x: seq<T>, y: seq<T>, z: seq<T>)
    ensures x + (y + z) == (x + y) + z
  {
  }

  /** The last element of a concatenation is the last of its non-empty right part. */
  lemma LastOfAppend<T>(a: seq<T>, b: seq<T>)
    requires b != []
    ensures |a + b| > 0 && (a + b)[|a + b| - 1] == b[|b| - 1]
  {
  }

  // ---- strip / lstrip -------------------------------------------------------

  /** `s.lstrip(c)` for a single character. */
  function TrimStart(s: string, c: char): (r: string)
    ensures |r| <= |s|
    ensures r == [] || r[0] != c
    decreases |s|
  {
    if s != [] && s[0] == c then TrimStart(s[1..], c) else s
  }

  /** `s.rstrip(c)` for a single character. */
  function TrimEnd(s: string, c: char): (r: string)
    ensures |r| <= |s|
    ensures r == [] || r[|r| - 1] != c
    decreases |s|
  {
    if s != [] && s[|s| - 1] == c then TrimEnd(s[..|s| - 1], c) else s
  }

  /** `s.strip(c)` for a single character. */
  function StripChar(s: string, c: char): string
  {
    TrimEnd(TrimStart(s, c), c)
  }

  function TrimStartSpace(s: string): (r: string)
    ensures |r| <= |s|
    ensures r == [] || !IsSpace(r[0])
    decreases |s|
  {
    if s != [] && IsSpace(s[0]) then TrimStartSpace(s[1..]) else s
  }

  function TrimEndSpace(s: string): (r: string)
    ensures |r| <= |s|
    ensures r == [] || (r[0] == s[0] && !IsSpace(r[|r| - 1]))
    decreases |s|
  {
    if s != [] && IsSpace(s[|s| - 1]) then TrimEndSpace(s[..|s| - 1]) else s
  }

  lemma {:induction false} TrimStartSpaceSuffix(s: string)
    ensures TrimStartSpace(s) == s[|s| - |TrimStartSpace(s)|..]
    decreases |s|
  {
    if s != [] && IsSpace(s[0]) {
      TrimStartSpaceSuffix(s[1..]);
      var r := TrimStartSpace(s);
      assert s[1..][|s| - 1 - |r|..] == s[|s| - |r|..];
    }
  }

  lemma {:induction false} TrimEndSpacePrefix(s: string)
    ensures TrimEndSpace(s) == s[..|TrimEndSpace(s)|]
    decreases |s|
  {
    if s != [] && IsSpace(s[|s| - 1]) {
      TrimEndSpacePrefix(s[..|s| - 1]);
      var r := TrimEndSpace(s);
      assert s[..|s| - 1][..|r|] == s[..|r|];
    }
  }

  /** `s.strip()`: leading and trailing whitespace removed. */
  function Strip(s: string): (r: string)
    ensures r == [] || (!IsSpace(r[0]) && !IsSpace(r[|r| - 1]))
  {
    var t := TrimStartSpace(s);
    var r := TrimEndSpace(t);
    assert r != [] ==> r[0] == t[0];
    r
  }

  predicate AllSpace(s: string) { forall i :: 0 <= i < |s| ==> IsSpace(s[i]) }

  lemma {:induction false} TrimStartSpaceEmpty(s: string)
    ensures TrimStartSpace(s) == [] <==> AllSpace(s)
    decreases |s|
  {
    if s != [] && IsSpace(s[0]) {
      TrimStartSpaceEmpty(s[1..]);
      assert AllSpace(s) <==> AllSpace(s[1..]) by {
        if AllSpace(s[1..]) {
          forall i | 0 <= i < |s| ensures IsSpace(s[i]) { if i > 0 { assert s[i] == s[1..][i - 1]; } }
        }
      }
    }
  }

  lemma StripEmpty(s: string)
    ensures Strip(s) == [] <==> AllSpace(s)
  {
    TrimStartSpaceEmpty(s);
    var t := TrimStartSpace(s);
    if t != [] { assert TrimEndSpace(t) != [] by { assert !IsSpace(t[0]); TrimEndKeepsNonSpace(t); } }
  }

  lemma {:induction false} TrimEndKeepsNonSpace(t: string)
    requires t != [] && !IsSpace(t[0])
    ensures TrimEndSpace(t) != []
    decreases |t|
  {
    if IsSpace(t[|t| - 1]) {
      assert |t| > 1;
      TrimEndKeepsNonSpace(t[..|t| - 1]);
    }
  }

  // ---- splitting and joining ------------------------------------------------

  /** `re.split(pattern, s)` / `s.split(sep)` where the pattern is one
      character class: every separator ends a part, so there is always one
      more part than there are separators and empty parts are kept. */
  function Split(s: string, isSep: char -> bool): (parts: seq<string>)
    ensures |parts| >= 1
    decreases |s|
  {
    if s == [] then [[]]
    else
      var rest := Split(s[1..], isSep);
      if isSep(s[0]) then [[]] + rest else [[s[0]] + rest[0]] + rest[1..]
  }

  /** `sep.join(parts)`. */
  function Join(parts: seq<string>, sep: string): string
    decreases |parts|
  {
    if parts == [] then []
    else if |parts| == 1 then parts[0]
    else parts[0] + sep + Join(parts[1..], sep)
  }

  /** The concatenation `"".join(parts)`. */
  function Concat(parts: seq<string>): string
    decreases |parts|
  {
    if parts == [] then [] else parts[0] + Concat(parts[1..])
  }

  /** Number of characters of `s` that satisfy `p`. */
  function Count(s: string, p: char -> bool): nat
    decreases |s|
  {
    if s == [] then 0 else (if p(s[0]) then 1 else 0) + Count(s[1..], p)
  }

  /** Splitting keeps one part per separator, plus one. */
  lemma {:induction false} SplitCount(s: string, isSep: char -> bool)
    ensures |Split(s, isSep)| == Count(s, isSep) + 1
    decreases |s|
  {
    if s != [] { SplitCount(s[1..], isSep); }
  }

  /** No part holds a separator. */
  lemma {:induction false} SplitPartsSeparatorFree(s: string, isSep: char -> bool)
    ensures forall k, i :: 0 <= k < |Split(s, isSep)| && 0 <= i < |Split(s, isSep)[k]| ==> !isSep(Split(s, isSep)[k][i])
    decreases |s|
  {
    if s != [] {
      SplitPartsSeparatorFree(s[1..], isSep);
      var rest := Split(s[1..], isSep);
      if !isSep(s[0]) {
        var parts := Split(s, isSep);
        forall k, i | 0 <= k < |parts| && 0 <= i < |parts[k]| ensures !isSep(parts[k][i]) {
          if k == 0 {
            if i > 0 { assert parts[0][i] == rest[0][i - 1]; }
          } else {
            assert parts[k] == rest[k];
          }
        }
      }
    }
  }

  /** A string without separators is a single part. */
  lemma {:induction false} SplitNoSeparator(s: string, isSep: char -> bool)
    requires forall i :: 0 <= i < |s| ==> !isSep(s[i])
    ensures Split(s, isSep) == [s]
    decreases |s|
  {
    if s != [] {
      SplitNoSeparator(s[1..], isSep);
      assert [s[0]] + s[1..] == s;
    }
  }

  /** Splitting at the first separator. */
  lemma {:induction false} SplitAtSeparator(a: string, c: char, b: string, isSep: char -> bool)
    requires forall i :: 0 <= i < |a| ==> !isSep(a[i])
    requires isSep(c)
    ensures Split(a + [c] + b, isSep) == [a] + Split(b, isSep)
    decreases |a|
  {
    if a == [] {
      assert a + [c] + b == [c] + b;
      assert ([c] + b)[1..] == b;
    } else {
      SplitAtSeparator(a[1..], c, b, isSep);
      assert (a + [c] + b)[1..] == a[1..] + [c] + b;
      assert [a[0]] + a[1..] == a;
    }
  }

  /** Joining the parts back with the one separator character gives the input:
      splitting on a single character loses nothing and keeps order. */
  lemma {:induction false} JoinSplit(s: string, c: char, isSep: char -> bool)
    requires forall d :: isSep(d) <==> d == c
    ensures Join(Split(s, isSep), [c]) == s
    decreases |s|
  {
    if s != [] {
      JoinSplit(s[1..], c, isSep);
      var rest := Split(s[1..], isSep);
      if isSep(s[0]) {
        assert Split(s, isSep) == [[]] + rest;
        assert ([[]] + rest)[1..] == rest;
        assert Join([[]] + rest, [c]) == [] + [c] + Join(rest, [c]);
        assert [c] + s[1..] == s;
      } else {
        var parts := [[s[0]] + rest[0]] + rest[1..];
        assert Split(s, isSep) == parts;
        if |rest| == 1 {
          assert parts == [[s[0]] + rest[0]];
          assert [s[0]] + rest[0] == [s[0]] + s[1..];
        } else {
          assert parts[1..] == rest[1..];
          assert Join(rest, [c]) == rest[0] + [c] + Join(rest[1..], [c]);
          assert Join(parts, [c]) == [s[0]] + rest[0] + [c] + Join(rest[1..], [c]);
          assert [s[0]] + s[1..] == s;
        }
      }
    }
  }

  // ---- whitespace runs -------------------------------------------------------

  /** Length of the leading run of characters that satisfy `p`. */
  function RunLength(s: string, p: char -> bool): (n: nat)
    ensures n <= |s|
    ensures forall i :: 0 <= i < n ==> p(s[i])
    ensures n == |s| || !p(s[n])
    decreases |s|
  {
    if s != [] && p(s[0]) then 1 + RunLength(s[1..], p) else 0
  }

  predicate NotSpace(c: char) { !IsSpace(c) }

  /** `re.sub(r'\s+', rep, s)`: every maximal whitespace run becomes `rep`. */
  function SubSpaceRuns(s: string, rep: char): string
    decreases |s|
  {
    if s == [] then []
    else if IsSpace(s[0]) then [rep] + SubSpaceRuns(s[RunLength(s, IsSpace)..], rep)
    else [s[0]] + SubSpaceRuns(s[1..], rep)
  }

  predicate NoSpace(s: string) { forall i :: 0 <= i < |s| ==> !IsSpace(s[i]) }

  /** Characters other than whitespace pass through the substitution. */
  lemma {:induction false} SubSpaceRunsWord(n: string, rest: string, rep: char)
    requires NoSpace(n)
    ensures SubSpaceRuns(n + rest, rep) == n + SubSpaceRuns(rest, rep)
    decreases |n|
  {
    if n == [] {
      assert n + rest == rest;
    } else {
      assert (n + rest)[1..] == n[1..] + rest;
      SubSpaceRunsWord(n[1..], rest, rep);
      Assoc([n[0]], n[1..], SubSpaceRuns(rest, rep));
      assert [n[0]] + n[1..] == n;
    }
  }

  /** The run stops exactly where the characters stop satisfying `p`. */
  lemma {:induction false} RunLengthAll(ws: string, rest: string, p: char -> bool)
    requires forall i :: 0 <= i < |ws| ==> p(ws[i])
    requires rest == [] || !p(rest[0])
    ensures RunLength(ws + rest, p) == |ws|
    decreases |ws|
  {
    if ws == [] {
      assert ws + rest == rest;
    } else {
      assert (ws + rest)[1..] == ws[1..] + rest;
      RunLengthAll(ws[1..], rest, p);
    }
  }

  /** A whole whitespace run becomes one replacement character. */
  lemma SubSpaceRunsRun(ws: string, rest: string, rep: char)
    requires ws != [] && AllSpace(ws) && (rest == [] || !IsSpace(rest[0]))
    ensures SubSpaceRuns(ws + rest, rep) == [rep] + SubSpaceRuns(rest, rep)
  {
    RunLengthAll(ws, rest, IsSpace);
    assert (ws + rest)[|ws|..] == rest;
  }

  /** `s.split()` with no argument: the maximal non-whitespace runs, in order. */
  function Words(s: string): (ws: seq<string>)
    ensures forall k :: 0 <= k < |ws| ==> ws[k] != [] && !exists i :: 0 <= i < |ws[k]| && IsSpace(ws[k][i])
    decreases |s|
  {
    if s == [] then []
    else if IsSpace(s[0]) then Words(s[1..])
    else
      var n := RunLength(s, NotSpace);
      [s[..n]] + Words(s[n..])
  }

  /** `" ".join(s.strip().split())`: whitespace collapsed to single spaces. */
  function CollapseSpace(s: string): string
  {
    Join(Words(Strip(s)), " ")
  }

  lemma {:induction false} WordsEmpty(s: string)
    ensures Words(s) == [] <==> AllSpace(s)
    decreases |s|
  {
    if s != [] && IsSpace(s[0]) {
      WordsEmpty(s[1..]);
      assert AllSpace(s) <==> AllSpace(s[1..]) by {
        if AllSpace(s[1..]) {
          forall i | 0 <= i < |s| ensures IsSpace(s[i]) { if i > 0 { assert s[i] == s[1..][i - 1]; } }
        }
      }
    }
  }

  lemma JoinEmpty(parts: seq<string>, sep: string)
    requires forall k :: 0 <= k < |parts| ==> parts[k] != []
    ensures Join(parts, sep) == [] <==> parts == []
  {
    if |parts| >= 2 { assert |Join(parts, sep)| >= |parts[0]|; }
  }

  /** A collapsed description is empty exactly when the column holds only whitespace. */
  lemma CollapseSpaceEmpty(s: string)
    ensures CollapseSpace(s) == [] <==> AllSpace(s)
  {
    StripEmpty(s);
    WordsEmpty(Strip(s));
    JoinEmpty(Words(Strip(s)), " ");
    if !AllSpace(s) {
      var t := Strip(s);
      assert t != [] && !IsSpace(t[0]);
      assert !AllSpace(t);
    }
  }

  /** Every whitespace character of `r` is a single `' '` with a non-space
      character on each side: no leading, trailing or doubled whitespace. */
  predicate SingleSpaced(r: string)
  {
    forall i :: 0 <= i < |r| && IsSpace(r[i]) ==>
      r[i] == ' ' && 0 < i < |r| - 1 && !IsSpace(r[i - 1]) && !IsSpace(r[i + 1])
  }


  /** A collapsed description is single-spaced, has the words of the
      column, and keeps every non-space character of the column, in order. */
  lemma CollapseSpaceSpec(s: string)
    ensures SingleSpaced(CollapseSpace(s))
    ensures Words(CollapseSpace(s)) == Words(s)
    ensures Filter(CollapseSpace(s), NotSpace) == Filter(s, NotSpace)
  {
    var ws := Words(Strip(s));
    JoinSingleSpaced(ws);
    JoinKeepsText(ws);
    WordsKeepText(Strip(s));
    StripKeepsText(s);
    WordsOfJoin(ws);
    WordsTrimStart(s);
    WordsTrimEnd(TrimStartSpace(s));
  }

  /** Splitting words joined by single spaces gives the words back. */
  lemma {:induction false} WordsOfJoin(ws: seq<string>)
    requires forall k :: 0 <= k < |ws| ==> ws[k] != [] && NoSpace(ws[k])
    ensures Words(Join(ws, " ")) == ws
    decreases |ws|
  {
    if |ws| == 1 {
      var w := ws[0];
      RunLengthAll(w, [], NotSpace);
      assert w + [] == w && w[|w|..] == [];
    } else if |ws| >= 2 {
      var a, b := ws[0], Join(ws[1..], " ");
      WordsOfJoin(ws[1..]);
      var r := a + (" " + b);
      assert r == Join(ws, " ");
      RunLengthAll(a, " " + b, NotSpace);
      assert r[..|a|] == a && r[|a|..] == " " + b;
      assert (" " + b)[1..] == b;
    }
  }

  lemma {:induction false} WordsTrimStart(s: string)
    ensures Words(TrimStartSpace(s)) == Words(s)
    decreases |s|
  {
    if s != [] && IsSpace(s[0]) {
      WordsTrimStart(s[1..]);
    }
  }

  lemma {:induction false} WordsTrimEnd(s: string)
    ensures Words(TrimEndSpace(s)) == Words(s)
    decreases |s|
  {
    if s != [] && IsSpace(s[|s| - 1]) {
      var init := s[..|s| - 1];
      WordsTrimEnd(init);
      assert s == init + [s[|s| - 1]];
      WordsSpaceEnd(init, s[|s| - 1]);
    }
  }

  /** A trailing whitespace character adds no word. */
  lemma {:induction false} WordsSpaceEnd(t: string, c: char)
    requires IsSpace(c)
    ensures Words(t + [c]) == Words(t)
    decreases |t|
  {
    var u := t + [c];
    if t == [] {
      assert u == [c] && u[1..] == [];
    } else if IsSpace(t[0]) {
      assert u[1..] == t[1..] + [c];
      WordsSpaceEnd(t[1..], c);
    } else {
      var n := RunLength(t, NotSpace);
      assert t == t[..n] + t[n..];
      assert u == t[..n] + (t[n..] + [c]);
      RunLengthAll(t[..n], t[n..] + [c], NotSpace);
      assert u[..n] == t[..n] && u[n..] == t[n..] + [c];
      WordsSpaceEnd(t[n..], c);
    }
  }

  lemma {:induction false} JoinSingleSpaced(ws: seq<string>)
    requires forall k :: 0 <= k < |ws| ==> ws[k] != [] && NoSpace(ws[k])
    ensures SingleSpaced(Join(ws, " "))
    decreases |ws|
  {
    if |ws| >= 2 {
      var a, b := ws[0], Join(ws[1..], " ");
      JoinSingleSpaced(ws[1..]);
      JoinEmpty(ws[1..], " ");
      var r := a + " " + b;
      assert r == Join(ws, " ");
      forall i | 0 <= i < |r| && IsSpace(r[i])
        ensures r[i] == ' ' && 0 < i < |r| - 1 && !IsSpace(r[i - 1]) && !IsSpace(r[i + 1])
      {
        if i > |a| {
          assert r[i] == b[i - |a| - 1];
          if i - 1 > |a| { assert r[i - 1] == b[i - |a| - 2]; }
          assert r[i + 1] == b[i - |a|];
        } else {
          assert i == |a| && r[i + 1] == b[0] && r[i - 1] == a[|a| - 1];
        }
      }
    } else if |ws| == 1 {
      assert NoSpace(ws[0]);
    }
  }

  /** Filtering by a test every element passes keeps the whole sequence. */
  lemma {:induction false} FilterKeep<T>(s: seq<T>, p: T -> bool)
    requires forall i :: 0 <= i < |s| ==> p(s[i])
    ensures Filter(s, p) == s
    decreases |s|
  {
    if s != [] {
      FilterKeep(s[1..], p);
      assert s == [s[0]] + s[1..];
    }
  }

  /** Filtering by a test no element passes keeps nothing. */
  lemma {:induction false} FilterNone<T>(s: seq<T>, p: T -> bool)
    requires forall i :: 0 <= i < |s| ==> !p(s[i])
    ensures Filter(s, p) == []
    decreases |s|
  {
    if s != [] {
      FilterNone(s[1..], p);
    }
  }

  lemma {:induction false} JoinKeepsText(ws: seq<string>)
    requires forall k :: 0 <= k < |ws| ==> NoSpace(ws[k])
    ensures Filter(Join(ws, " "), NotSpace) == Concat(ws)
    decreases |ws|
  {
    if |ws| == 1 {
      FilterKeep(ws[0], NotSpace);
      assert Concat(ws) == ws[0] + Concat([]);
    } else if |ws| >= 2 {
      JoinKeepsText(ws[1..]);
      FilterAppend(ws[0] + " ", Join(ws[1..], " "), NotSpace);
      FilterAppend(ws[0], " ", NotSpace);
      FilterKeep(ws[0], NotSpace);
      FilterNone(" ", NotSpace);
    }
  }

  lemma {:induction false} WordsKeepText(s: string)
    ensures Concat(Words(s)) == Filter(s, NotSpace)
    decreases |s|
  {
    if s != [] {
      if IsSpace(s[0]) {
        WordsKeepText(s[1..]);
      } else {
        var n := RunLength(s, NotSpace);
        WordsKeepText(s[n..]);
        var ws := [s[..n]] + Words(s[n..]);
        assert ws[1..] == Words(s[n..]);
        assert Concat(ws) == s[..n] + Concat(Words(s[n..]));
        assert s == s[..n] + s[n..];
        FilterAppend(s[..n], s[n..], NotSpace);
        FilterKeep(s[..n], NotSpace);
      }
    }
  }

  lemma {:induction false} TrimStartKeepsText(s: string)
    ensures Filter(TrimStartSpace(s), NotSpace) == Filter(s, NotSpace)
    decreases |s|
  {
    if s != [] && IsSpace(s[0]) {
      TrimStartKeepsText(s[1..]);
    }
  }

  lemma {:induction false} TrimEndKeepsText(s: string)
    ensures Filter(TrimEndSpace(s), NotSpace) == Filter(s, NotSpace)
    decreases |s|
  {
    if s != [] && IsSpace(s[|s| - 1]) {
      var init := s[..|s| - 1];
      TrimEndKeepsText(init);
      assert s == init + [s[|s| - 1]];
      FilterAppend(init, [s[|s| - 1]], NotSpace);
      FilterNone([s[|s| - 1]], NotSpace);
    }
  }

  lemma StripKeepsText(s: string)
    ensures Filter(Strip(s), NotSpace) == Filter(s, NotSpace)
  {
    TrimStartKeepsText(s);
    TrimEndKeepsText(TrimStartSpace(s));
  }

  // ---- subsequences and filtering ---------------------------------------------

  /** `[x for x in s if p(x)]`. */
  function Filter<T>(s: seq<T>, p: T -> bool): (r: seq<T>)
    ensures |r| <= |s|
    ensures forall i :: 0 <= i < |r| ==> p(r[i])
    decreases |s|
  {
    if s == [] then [] else (if p(s[0]) then [s[0]] else []) + Filter(s[1..], p)
  }

  /** `[f(x) for x in s]`. */
  function Map<T, U>(s: seq<T>, f: T -> U): (r: seq<U>)
    ensures |r| == |s|
    decreases |s|
  {
    if s == [] then [] else [f(s[0])] + Map(s[1..], f)
  }

  /** The `k`-th result is `f` of the `k`-th element. */
  lemma {:induction false} MapIndex<T, U>(s: seq<T>, f: T -> U)
    ensures forall k :: 0 <= k < |s| ==> Map(s, f)[k] == f(s[k])
    decreases |s|
  {
    if s != [] {
      MapIndex(s[1..], f);
    }
  }

  lemma {:induction false} MapAppend<T, U>(s: seq<T>, t: seq<T>, f: T -> U)
    ensures Map(s + t, f) == Map(s, f) + Map(t, f)
    decreases |s|
  {
    if s != [] {
      assert (s + t)[1..] == s[1..] + t;
      MapAppend(s[1..], t, f);
    } else {
      assert s + t == t;
    }
  }

  /** Mapping a rearrangement of `a` gives a rearrangement of the mapped `a`. */
  lemma {:induction false} MapMultiset<T, U>(a: seq<T>, b: seq<T>, f: T -> U)
    requires multiset(a) == multiset(b)
    ensures multiset(Map(a, f)) == multiset(Map(b, f))
    decreases |a|
  {
    if a == [] {
      assert |multiset(b)| == 0;
    } else {
      assert a[0] in multiset(b);
      var k :| 0 <= k < |b| && b[k] == a[0];
      var rest := b[..k] + b[k + 1..];
      MultisetRemove(a, b, k);
      MapMultiset(a[1..], rest, f);
      MapSplice(b, k, f);
      assert Map(a, f) == [f(a[0])] + Map(a[1..], f);
    }
  }

  /** Taking the same element out of two rearrangements of each other leaves
      two rearrangements of each other. */
  lemma MultisetRemove<T>(a: seq<T>, b: seq<T>, k: int)
    requires multiset(a) == multiset(b) && a != [] && 0 <= k < |b| && b[k] == a[0]
    ensures multiset(a[1..]) == multiset(b[..k] + b[k + 1..])
  {
    assert a == [a[0]] + a[1..];
    assert b == b[..k] + [b[k]] + b[k + 1..];
    assert multiset(a) == multiset{a[0]} + multiset(a[1..]);
    assert multiset(b) == multiset(b[..k]) + multiset{a[0]} + multiset(b[k + 1..]);
    var rest := b[..k] + b[k + 1..];
    assert multiset(rest) == multiset(b[..k]) + multiset(b[k + 1..]);
    forall y ensures multiset(a[1..])[y] == multiset(rest)[y] {
      assert multiset(a)[y] == multiset(b)[y];
    }
  }

  /** Mapping a sequence with one element taken out. */
  lemma MapSplice<T, U>(b: seq<T>, k: int, f: T -> U)
    requires 0 <= k < |b|
    ensures multiset(Map(b, f)) == multiset{f(b[k])} + multiset(Map(b[..k] + b[k + 1..], f))
  {
    MapSpliceSeq(b, k, f);
    MapAppend(b[..k], b[k + 1..], f);
    SpliceCount(Map(b[..k], f), f(b[k]), Map(b[k + 1..], f));
  }

  lemma MapSpliceSeq<T, U>(b: seq<T>, k: int, f: T -> U)
    requires 0 <= k < |b|
    ensures Map(b, f) == Map(b[..k], f) + ([f(b[k])] + Map(b[k + 1..], f))
  {
    var pre, post := b[..k], b[k..];
    assert b == pre + post;
    MapAppend(pre, post, f);
    assert post[0] == b[k] && post[1..] == b[k + 1..];
  }

  lemma SpliceCount<U>(pre: seq<U>, x: U, post: seq<U>)
    ensures multiset(pre + ([x] + post)) == multiset{x} + multiset(pre + post)
  {
    assert multiset(pre + ([x] + post)) == multiset(pre) + (multiset([x]) + multiset(post));
    assert multiset(pre + post) == multiset(pre) + multiset(post);
  }

  /** Moving the front of a split sequence into its accumulated part. */
  lemma Regroup<T>(m: seq<T>, x: seq<T>, rest: seq<T>, total: seq<T>)
    requires m + (x + rest) == total
    ensures (m + x) + rest == total
  {
  }

  /** `f` applied to the elements of `s` that satisfy `p`, in order. */
  function MapFilter<T(!new), U>(s: seq<T>, p: T -> bool, f: T --> U): (r: seq<U>)
    requires forall x :: p(x) ==> f.requires(x)
    ensures |r| <= |s|
    decreases |s|
  {
    if s == [] then [] else (if p(s[0]) then [f(s[0])] else []) + MapFilter(s[1..], p, f)
  }

  lemma MapFilterStep<T(!new), U>(s: seq<T>, p: T -> bool, f: T --> U)
    requires forall x :: p(x) ==> f.requires(x)
    requires s != []
    ensures MapFilter(s, p, f) == (if p(s[0]) then [f(s[0])] else []) + MapFilter(s[1..], p, f)
    ensures Filter(s, p) == (if p(s[0]) then [s[0]] else []) + Filter(s[1..], p)
  {
  }

  /** The `k`-th result is `f` of the `k`-th kept element. */
  lemma {:induction false} MapFilterIndex<T(!new), U>(s: seq<T>, p: T -> bool, f: T --> U)
    requires forall x :: p(x) ==> f.requires(x)
    ensures |MapFilter(s, p, f)| == |Filter(s, p)|
    ensures forall k :: 0 <= k < |Filter(s, p)| ==> MapFilter(s, p, f)[k] == f(Filter(s, p)[k])
    decreases |s|
  {
    if s != [] {
      MapFilterIndex(s[1..], p, f);
      MapFilterStep(s, p, f);
    }
  }

  /** An element is kept exactly when it is in the input and satisfies `p`. */
  lemma {:induction false} FilterMembers<T>(s: seq<T>, p: T -> bool, x: T)
    ensures x in Filter(s, p) <==> x in s && p(x)
    decreases |s|
  {
    if s != [] {
      FilterMembers(s[1..], p, x);
      assert x in s <==> x == s[0] || x in s[1..];
    }
  }

  /** Filtering distributes over concatenation. */
  lemma {:induction false} FilterAppend<T>(a: seq<T>, b: seq<T>, p: T -> bool)
    ensures Filter(a + b, p) == Filter(a, p) + Filter(b, p)
    decreases |a|
  {
    if a != [] {
      assert (a + b)[0] == a[0] && (a + b)[1..] == a[1..] + b;
      FilterAppend(a[1..], b, p);
      var head := if p(a[0]) then [a[0]] else [];
      assert Filter(a + b, p) == head + (Filter(a[1..], p) + Filter(b, p));
      assert head + (Filter(a[1..], p) + Filter(b, p)) == (head + Filter(a[1..], p)) + Filter(b, p);
    } else {
      assert a + b == b;
    }
  }

  /** `r` is obtained from `s` by deleting elements (order kept). */
  predicate IsSubsequence<T(==)>(r: seq<T>, s: seq<T>)
    decreases |s|
  {
    if r == [] then true
    else if s == [] then false
    else if r[0] == s[0] then IsSubsequence(r[1..], s[1..])
    else IsSubsequence(r, s[1..])
  }

  lemma {:induction false} FilterIsSubsequence<T>(s: seq<T>, p: T -> bool)
    ensures IsSubsequence(Filter(s, p), s)
    decreases |s|
  {
    if s != [] {
      FilterIsSubsequence(s[1..], p);
      var r := Filter(s, p);
      if p(s[0]) {
        assert r == [s[0]] + Filter(s[1..], p);
        assert r[1..] == Filter(s[1..], p);
      } else {
        assert r == Filter(s[1..], p);
        assert r != [] ==> p(r[0]) && r[0] != s[0];
      }
    }
  }

  predicate Distinct<T(==)>(s: seq<T>) { forall i, j :: 0 <= i < j < |s| ==> s[i] != s[j] }

  lemma {:induction false} FilterDistinct<T>(s: seq<T>, p: T -> bool)
    requires Distinct(s)
    ensures Distinct(Filter(s, p))
    decreases |s|
  {
    if s != [] {
      assert Distinct(s[1..]) by {
        forall i, j | 0 <= i < j < |s[1..]| ensures s[1..][i] != s[1..][j] { assert s[1..][i] == s[i + 1]; assert s[1..][j] == s[j + 1]; }
      }
      FilterDistinct(s[1..], p);
      var rest := Filter(s[1..], p);
      if p(s[0]) {
        assert s[0] !in s[1..] by {
          forall k | 0 <= k < |s[1..]| ensures s[1..][k] != s[0] { assert s[1..][k] == s[k + 1]; }
        }
        FilterMembers(s[1..], p, s[0]);
        assert s[0] !in rest;
        var r := [s[0]] + rest;
        forall i, j | 0 <= i < j < |r| ensures r[i] != r[j] {
          if i == 0 { assert r[j] == rest[j - 1]; assert rest[j - 1] in rest; } else { assert r[i] == rest[i - 1] && r[j] == rest[j - 1]; }
        }
      }
    }
  }
}
