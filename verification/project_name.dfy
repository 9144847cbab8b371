/**
 * The project-name sanitiser of BaseLogger::formatProjectName: a chain of
 * string transforms (trim, disallowed characters to spaces, lower case,
 * whitespace runs collapsed, spaces to underscores, first 20 characters).
 * Each stage is one function; `Squeeze` is an independent one-pass
 * definition of the middle four stages, and the lemmas below connect the two
 * and state what the sanitiser promises: its charset, its length bound, run
 * collapsing and idempotence.
 */
module ProjectName {
  import opened Php

  /** The longest project name `mb_substr($project, 0, 20)` keeps. */
  const MaxLength: nat := 20

  /** The characters PHP's `trim` strips by default: space, \t, \n, \r, \0 and \x0B. */
  predicate IsTrimmed(c: char) {
    c == ' ' || c == '\t' || c == '\n' || c == '\r' || c as int == 0 || c as int == 11
  }

  /** What PCRE's `\s` matches: space, \t, \n, \x0B, \x0C and \r. */
  predicate IsWhitespace(c: char) {
    c == ' ' || 9 <= c as int <= 13
  }

  /** The characters the pattern `[^a-zA-Z0-9_]` leaves alone. */
  predicate Allowed(c: char) {
    'a' <= c <= 'z' || 'A' <= c <= 'Z' || '0' <= c <= '9' || c == '_'
  }

  /** The characters a sanitised project name is made of: `[a-z0-9_]`. */
  predicate NameChar(c: char) {
    'a' <= c <= 'z' || '0' <= c <= '9' || c == '_'
  }

  predicate IsProjectName(s: string) {
    |s| <= MaxLength && forall i :: 0 <= i < |s| ==> NameChar(s[i])
  }

  // ---------------------------------------------------------------------
  // The stages, in the order formatProjectName applies them
  // ---------------------------------------------------------------------

  function TrimLeft(s: string): (r: string)
    ensures |r| <= |s|
    ensures r == [] || !IsTrimmed(r[0])
  {
    if s != [] && IsTrimmed(s[0]) then TrimLeft(s[1..]) else s
  }

  function TrimRight(s: string): (r: string)
    ensures |r| <= |s|
    ensures r == [] || !IsTrimmed(r[|r| - 1])
    ensures r != [] ==> r[0] == s[0]
  {
    if s != [] && IsTrimmed(s[|s| - 1]) then TrimRight(s[..|s| - 1]) else s
  }

  /** `trim`: trim characters stripped from both ends. */
  function Trim(s: string): (r: string)
    ensures |r| <= |s|
    ensures r == [] || (!IsTrimmed(r[0]) && !IsTrimmed(r[|r| - 1]))
    ensures (s == [] || (!IsTrimmed(s[0]) && !IsTrimmed(s[|s| - 1]))) ==> r == s
  {
    TrimRight(TrimLeft(s))
  }

  lemma {:induction false} TrimLeftIsSuffix(s: string)
    ensures var r := TrimLeft(s); r == s[|s| - |r|..]
    ensures forall i :: 0 <= i < |s| - |TrimLeft(s)| ==> IsTrimmed(s[i])
  {
    if s != [] && IsTrimmed(s[0]) {
      TrimLeftIsSuffix(s[1..]);
      assert s[1..][|s| - 1 - |TrimLeft(s)|..] == s[|s| - |TrimLeft(s)|..];
    }
  }

  lemma {:induction false} TrimRightIsPrefix(s: string)
    ensures var r := TrimRight(s); r == s[..|r|]
    ensures forall i :: |TrimRight(s)| <= i < |s| ==> IsTrimmed(s[i])
  {
    if s != [] && IsTrimmed(s[|s| - 1]) {
      TrimRightIsPrefix(s[..|s| - 1]);
    }
  }

  /**
   * What `trim` keeps is the infix of its input that starts after the leading
   * trim characters; everything outside it is a trim character.
   */
  lemma TrimIsInfix(s: string)
    ensures var start := |s| - |TrimLeft(s)|;
      start + |Trim(s)| <= |s| && Trim(s) == s[start..start + |Trim(s)|]
    ensures forall i :: 0 <= i < |s| - |TrimLeft(s)| ==> IsTrimmed(s[i])
    ensures forall i :: |s| - |TrimLeft(s)| + |Trim(s)| <= i < |s| ==> IsTrimmed(s[i])
  {
    var l := TrimLeft(s);
    var start := |s| - |l|;
    TrimLeftIsSuffix(s);
    TrimRightIsPrefix(l);
    forall i | start + |Trim(s)| <= i < |s| ensures IsTrimmed(s[i]) {
      assert s[i] == l[i - start];
    }
  }

  /** `preg_replace('/[^a-zA-Z0-9_]/u', ' ', ...)`: every disallowed character becomes a space. */
  function ReplaceDisallowed(s: string): (r: string)
    ensures |r| == |s|
    ensures forall i :: 0 <= i < |s| ==> r[i] == if Allowed(s[i]) then s[i] else ' '
  {
    if s == [] then [] else [if Allowed(s[0]) then s[0] else ' '] + ReplaceDisallowed(s[1..])
  }

  /** Leading whitespace removed. */
  function DropWhitespace(s: string): (r: string)
    ensures |r| <= |s|
    ensures r == [] || !IsWhitespace(r[0])
  {
    if s != [] && IsWhitespace(s[0]) then DropWhitespace(s[1..]) else s
  }

  /** The characters of `s` that are not whitespace, in order. */
  function NonWhitespace(s: string): string
  {
    if s == [] then [] else (if IsWhitespace(s[0]) then [] else [s[0]]) + NonWhitespace(s[1..])
  }

  /**
   * `preg_replace('/\s+/', ' ', ...)`: each maximal whitespace run becomes
   * one space; the other characters stay, in order (see also
   * CollapsesWhitespaceRun and CollapseWord).
   */
  function CollapseWhitespace(s: string): (r: string)
    ensures |r| <= |s|
    ensures NonWhitespace(r) == NonWhitespace(s)
    ensures s != [] ==> r != [] && (IsWhitespace(r[0]) <==> IsWhitespace(s[0]))
    ensures forall i :: 0 <= i < |r| && IsWhitespace(r[i]) ==> r[i] == ' '
    ensures forall i :: 0 <= i < |r| - 1 ==> !(IsWhitespace(r[i]) && IsWhitespace(r[i + 1]))
    decreases |s|
  {
    if s == [] then []
    else if IsWhitespace(s[0]) then
      var rest := CollapseWhitespace(DropWhitespace(s[1..]));
      DropWhitespaceKeepsWords(s[1..]);
      NonWhitespaceConcat(" ", rest);
      " " + rest
    else
      var rest := CollapseWhitespace(s[1..]);
      NonWhitespaceConcat([s[0]], rest);
      [s[0]] + rest
  }

  lemma {:induction false} NonWhitespaceConcat(a: string, b: string)
    ensures NonWhitespace(a + b) == NonWhitespace(a) + NonWhitespace(b)
  {
    if a == [] {
      assert a + b == b;
    } else {
      assert (a + b)[1..] == a[1..] + b;
      NonWhitespaceConcat(a[1..], b);
    }
  }

  lemma {:induction false} DropWhitespaceKeepsWords(s: string)
    ensures NonWhitespace(DropWhitespace(s)) == NonWhitespace(s)
  {
    if s != [] && IsWhitespace(s[0]) {
      DropWhitespaceKeepsWords(s[1..]);
    }
  }

  /** `str_replace(' ', '_', ...)`. */
  function SpacesToUnderscores(s: string): (r: string)
    ensures |r| == |s|
    ensures forall i :: 0 <= i < |s| ==> r[i] == if s[i] == ' ' then '_' else s[i]
  {
    if s == [] then [] else [if s[0] == ' ' then '_' else s[0]] + SpacesToUnderscores(s[1..])
  }

  /** `mb_substr(s, 0, n)`: the first `n` characters, or all of a shorter string. */
  function Truncate(s: string, n: nat): (r: string)
    ensures |r| == if |s| <= n then |s| else n
    ensures r == s[..|r|]
    ensures |s| <= n ==> r == s
  {
    if |s| <= n then s else s[..n]
  }

  /** BaseLogger::formatProjectName. */
  function FormatProjectName(project: string): (r: string)
    ensures IsProjectName(r)
  {
    var trimmed := Trim(project);
    var replaced := ReplaceDisallowed(trimmed);
    var lowered := Lower(replaced);
    var collapsed := CollapseWhitespace(lowered);
    var underscored := SpacesToUnderscores(collapsed);
    StagesCharset(trimmed);
    Truncate(underscored, MaxLength)
  }

  // ---------------------------------------------------------------------
  // An independent one-pass definition of the middle stages
  // ---------------------------------------------------------------------

  /** Leading disallowed characters removed. */
  function DropDisallowed(s: string): (r: string)
    ensures |r| <= |s|
    ensures r == [] || Allowed(r[0])
  {
    if s != [] && !Allowed(s[0]) then DropDisallowed(s[1..]) else s
  }

  /**
   * Allowed characters are kept (lower-cased); each maximal run of
   * disallowed characters becomes a single `_`.
   */
  function Squeeze(s: string): string
    decreases |s|
  {
    if s == [] then []
    else if Allowed(s[0]) then [LowerChar(s[0])] + Squeeze(s[1..])
    else "_" + Squeeze(DropDisallowed(s[1..]))
  }

  /** The four middle stages and the truncation only produce a sanitised name. */
  lemma StagesCharset(t: string)
    ensures IsProjectName(Truncate(SpacesToUnderscores(CollapseWhitespace(Lower(ReplaceDisallowed(t)))), MaxLength))
  {
    var u := SpacesToUnderscores(CollapseWhitespace(Lower(ReplaceDisallowed(t))));
    StagesAreSqueeze(t);
    SqueezeCharset(t);
    var r := Truncate(u, MaxLength);
    assert forall i :: 0 <= i < |r| ==> r[i] == u[i];
  }

  /** Squeeze only produces characters of `[a-z0-9_]`. */
  lemma {:induction false} SqueezeCharset(s: string)
    ensures forall i :: 0 <= i < |Squeeze(s)| ==> NameChar(Squeeze(s)[i])
    decreases |s|
  {
    if s != [] {
      if Allowed(s[0]) {
        SqueezeCharset(s[1..]);
      } else {
        SqueezeCharset(DropDisallowed(s[1..]));
      }
    }
  }

  /** Removing leading whitespace after the character stages removes the leading disallowed run before them. */
  lemma {:induction false} DropCommutes(s: string)
    ensures DropWhitespace(Lower(ReplaceDisallowed(s))) == Lower(ReplaceDisallowed(DropDisallowed(s)))
  {
    if s != [] {
      var x := Lower(ReplaceDisallowed(s));
      assert x[1..] == Lower(ReplaceDisallowed(s[1..]));
      if !Allowed(s[0]) {
        assert IsWhitespace(x[0]);
        DropCommutes(s[1..]);
      } else {
        assert !IsWhitespace(x[0]);
      }
    }
  }

  /** The four middle stages of formatProjectName compute Squeeze. */
  lemma {:induction false} StagesAreSqueeze(s: string)
    ensures SpacesToUnderscores(CollapseWhitespace(Lower(ReplaceDisallowed(s)))) == Squeeze(s)
    decreases |s|
  {
    if s != [] {
      var x := Lower(ReplaceDisallowed(s));
      var tail := Lower(ReplaceDisallowed(s[1..]));
      assert x == [x[0]] + tail;
      if Allowed(s[0]) {
        assert x[0] == LowerChar(s[0]) && !IsWhitespace(x[0]) && x[0] != ' ';
        assert CollapseWhitespace(x) == [x[0]] + CollapseWhitespace(tail);
        StagesAreSqueeze(s[1..]);
      } else {
        assert x[0] == ' ';
        DropCommutes(s[1..]);
        var rest := DropDisallowed(s[1..]);
        assert CollapseWhitespace(x) == " " + CollapseWhitespace(Lower(ReplaceDisallowed(rest)));
        StagesAreSqueeze(rest);
      }
    }
  }

  /** formatProjectName is Squeeze applied to the trimmed input, cut to 20 characters. */
  lemma FormatIsSqueeze(project: string)
    ensures FormatProjectName(project) == Truncate(Squeeze(Trim(project)), MaxLength)
  {
    StagesAreSqueeze(Trim(project));
  }

  // ---------------------------------------------------------------------
  // Run collapsing
  // ---------------------------------------------------------------------

  predicate AllAllowed(s: string) { forall i :: 0 <= i < |s| ==> Allowed(s[i]) }

  predicate AllDisallowed(s: string) { forall i :: 0 <= i < |s| ==> !Allowed(s[i]) }

  /** A word of allowed characters is only lower-cased. */
  lemma {:induction false} SqueezeWord(w: string)
    requires AllAllowed(w)
    ensures Squeeze(w) == Lower(w)
  {
    if w != [] {
      SqueezeWord(w[1..]);
    }
  }

  /** Squeeze works piecewise when the split point follows an allowed character. */
  lemma {:induction false} SqueezeSplit(u: string, v: string)
    requires u == [] || Allowed(u[|u| - 1])
    ensures Squeeze(u + v) == Squeeze(u) + Squeeze(v)
    decreases |u|, 1
  {
    if u == [] {
      assert u + v == v;
    } else if Allowed(u[0]) {
      SqueezeSplitAllowed(u, v);
    } else {
      SqueezeSplitRun(u, v);
    }
  }

  lemma {:induction false} SqueezeSplitAllowed(u: string, v: string)
    requires u != [] && Allowed(u[0]) && Allowed(u[|u| - 1])
    ensures Squeeze(u + v) == Squeeze(u) + Squeeze(v)
    decreases |u|, 0
  {
    assert (u + v)[1..] == u[1..] + v;
    SqueezeSplit(u[1..], v);
    var c := [LowerChar(u[0])];
    calc {
      Squeeze(u + v);
      c + Squeeze(u[1..] + v);
      c + (Squeeze(u[1..]) + Squeeze(v));
      (c + Squeeze(u[1..])) + Squeeze(v);
      Squeeze(u) + Squeeze(v);
    }
  }

  lemma {:induction false} SqueezeSplitRun(u: string, v: string)
    requires u != [] && !Allowed(u[0]) && Allowed(u[|u| - 1])
    ensures Squeeze(u + v) == Squeeze(u) + Squeeze(v)
    decreases |u|, 0
  {
    var t := u[1..];
    var d := DropDisallowed(t);
    calc {
      Squeeze(u + v);
    == { assert (u + v)[0] == u[0];
         assert (u + v)[1..] == t + v;
         DropKeepsLast(t);
         DropPrefixRun(t, v); }
      "_" + Squeeze(d + v);
    == { DropKeepsLast(t);
         SqueezeSplit(d, v); }
      "_" + (Squeeze(d) + Squeeze(v));
      ("_" + Squeeze(d)) + Squeeze(v);
    == { assert Squeeze(u) == "_" + Squeeze(d); }
      Squeeze(u) + Squeeze(v);
    }
  }

  /** A string that ends with an allowed character keeps that ending when its leading run is dropped. */
  lemma {:induction false} DropKeepsLast(s: string)
    requires s != [] && Allowed(s[|s| - 1])
    ensures var d := DropDisallowed(s); d != [] && d[|d| - 1] == s[|s| - 1]
  {
    if !Allowed(s[0]) {
      assert s[1..][|s| - 2] == s[|s| - 1];
      DropKeepsLast(s[1..]);
    }
  }

  /** Dropping the leading disallowed run of `u + v` stays inside `u` when `u` ends with an allowed character. */
  lemma {:induction false} DropPrefixRun(u: string, v: string)
    requires u != [] && Allowed(u[|u| - 1])
    ensures DropDisallowed(u + v) == DropDisallowed(u) + v
  {
    if !Allowed(u[0]) {
      assert |u| >= 2;
      assert (u + v)[1..] == u[1..] + v;
      DropPrefixRun(u[1..], v);
    }
  }

  /** A non-empty run of disallowed characters followed by an allowed one (or the end) becomes one `_`. */
  lemma SqueezeRun(r: string, v: string)
    requires r != [] && AllDisallowed(r)
    requires v == [] || Allowed(v[0])
    ensures Squeeze(r + v) == "_" + Squeeze(v)
  {
    assert (r + v)[1..] == r[1..] + v;
    DropWholeRun(r[1..], v);
  }

  lemma {:induction false} DropWholeRun(r: string, v: string)
    requires AllDisallowed(r)
    requires v == [] || Allowed(v[0])
    ensures DropDisallowed(r + v) == v
  {
    if r != [] {
      assert (r + v)[1..] == r[1..] + v;
      DropWholeRun(r[1..], v);
    } else {
      assert r + v == v;
    }
  }

  /**
   * Collapsing: between two stretches that end and start at an allowed
   * character (or at the ends of the trimmed input), a maximal run of
   * disallowed characters contributes exactly one `_`.
   */
  lemma CollapsesRun(u: string, r: string, v: string)
    requires u == [] || Allowed(u[|u| - 1])
    requires r != [] && AllDisallowed(r)
    requires v == [] || Allowed(v[0])
    ensures Squeeze(u + r + v) == Squeeze(u) + "_" + Squeeze(v)
  {
    calc {
      Squeeze(u + r + v);
      { assert u + r + v == u + (r + v); }
      Squeeze(u + (r + v));
      { SqueezeSplit(u, r + v); }
      Squeeze(u) + Squeeze(r + v);
      { SqueezeRun(r, v); }
      Squeeze(u) + ("_" + Squeeze(v));
    }
  }

  // ---------------------------------------------------------------------
  // The whitespace stage, run by run
  // ---------------------------------------------------------------------

  predicate NoWhitespace(s: string) { forall i :: 0 <= i < |s| ==> !IsWhitespace(s[i]) }

  predicate AllWhitespace(s: string) { forall i :: 0 <= i < |s| ==> IsWhitespace(s[i]) }

  /** A stretch without whitespace is left as it is. */
  lemma {:induction false} CollapseWord(w: string)
    requires NoWhitespace(w)
    ensures CollapseWhitespace(w) == w
  {
    if w != [] {
      CollapseWord(w[1..]);
    }
  }

  /** Collapsing works piecewise when the split point follows a non-whitespace character. */
  lemma {:induction false} CollapseSplit(u: string, v: string)
    requires u == [] || !IsWhitespace(u[|u| - 1])
    ensures CollapseWhitespace(u + v) == CollapseWhitespace(u) + CollapseWhitespace(v)
    decreases |u|
  {
    if u == [] {
      assert u + v == v;
    } else if !IsWhitespace(u[0]) {
      assert (u + v)[1..] == u[1..] + v;
      CollapseSplit(u[1..], v);
      assert CollapseWhitespace(u + v) == [u[0]] + (CollapseWhitespace(u[1..]) + CollapseWhitespace(v));
    } else {
      var t := u[1..];
      var d := DropWhitespace(t);
      assert (u + v)[1..] == t + v;
      DropWhitespaceKeepsLast(t);
      DropWhitespacePrefixRun(t, v);
      assert CollapseWhitespace(u + v) == " " + CollapseWhitespace(d + v);
      CollapseSplit(d, v);
      assert CollapseWhitespace(u) == " " + CollapseWhitespace(d);
    }
  }

  lemma {:induction false} DropWhitespaceKeepsLast(s: string)
    requires s != [] && !IsWhitespace(s[|s| - 1])
    ensures var d := DropWhitespace(s); d != [] && d[|d| - 1] == s[|s| - 1]
  {
    if IsWhitespace(s[0]) {
      assert s[1..][|s| - 2] == s[|s| - 1];
      DropWhitespaceKeepsLast(s[1..]);
    }
  }

  lemma {:induction false} DropWhitespacePrefixRun(u: string, v: string)
    requires u != [] && !IsWhitespace(u[|u| - 1])
    ensures DropWhitespace(u + v) == DropWhitespace(u) + v
  {
    if IsWhitespace(u[0]) {
      assert (u + v)[1..] == u[1..] + v;
      DropWhitespacePrefixRun(u[1..], v);
    }
  }

  lemma {:induction false} DropWhitespaceWholeRun(r: string, v: string)
    requires AllWhitespace(r)
    requires v == [] || !IsWhitespace(v[0])
    ensures DropWhitespace(r + v) == v
  {
    if r != [] {
      assert (r + v)[1..] == r[1..] + v;
      DropWhitespaceWholeRun(r[1..], v);
    } else {
      assert r + v == v;
    }
  }

  /**
   * Between two stretches that end and start at a non-whitespace character
   * (or at the ends of the string), a maximal whitespace run becomes
   * exactly one space.
   */
  lemma CollapsesWhitespaceRun(u: string, r: string, v: string)
    requires u == [] || !IsWhitespace(u[|u| - 1])
    requires r != [] && AllWhitespace(r)
    requires v == [] || !IsWhitespace(v[0])
    ensures CollapseWhitespace(u + r + v) == CollapseWhitespace(u) + " " + CollapseWhitespace(v)
  {
    calc {
      CollapseWhitespace(u + r + v);
      { assert u + r + v == u + (r + v); }
      CollapseWhitespace(u + (r + v));
      { CollapseSplit(u, r + v); }
      CollapseWhitespace(u) + CollapseWhitespace(r + v);
      { CollapseRun(r, v); }
      CollapseWhitespace(u) + (" " + CollapseWhitespace(v));
    }
  }

  /** A non-empty whitespace run followed by a non-whitespace character (or the end) becomes one space. */
  lemma CollapseRun(r: string, v: string)
    requires r != [] && AllWhitespace(r)
    requires v == [] || !IsWhitespace(v[0])
    ensures CollapseWhitespace(r + v) == " " + CollapseWhitespace(v)
  {
    assert (r + v)[1..] == r[1..] + v;
    DropWhitespaceWholeRun(r[1..], v);
  }

  // ---------------------------------------------------------------------
  // Idempotence
  // ---------------------------------------------------------------------

  /** A string that already is a sanitised name is left as it is. */
  lemma FixedPoint(s: string)
    requires IsProjectName(s)
    ensures FormatProjectName(s) == s
  {
    NameUntouched(s);
    calc {
      FormatProjectName(s);
      { FormatIsSqueeze(s); }
      Truncate(Squeeze(s), MaxLength);
      { SqueezeWord(s); }
      Truncate(s, MaxLength);
      s;
    }
  }

  /** Trimming and lower-casing leave a sanitised name alone, and it has no disallowed character. */
  lemma NameUntouched(s: string)
    requires IsProjectName(s)
    ensures Trim(s) == s && Lower(s) == s && AllAllowed(s)
  {
    NameNotTrimmed(s);
    NameLowered(s);
  }

  lemma NameNotTrimmed(s: string)
    requires IsProjectName(s)
    ensures Trim(s) == s
  {
    forall i | 0 <= i < |s| ensures !IsTrimmed(s[i]) {
      assert NameChar(s[i]);
    }
  }

  lemma NameLowered(s: string)
    requires IsProjectName(s)
    ensures Lower(s) == s
  {
    forall i | 0 <= i < |s| ensures Lower(s)[i] == s[i] {
      assert NameChar(s[i]);
    }
  }

  /** formatProjectName(formatProjectName(s)) == formatProjectName(s). */
  lemma Idempotent(project: string)
    ensures FormatProjectName(FormatProjectName(project)) == FormatProjectName(project)
  {
    FixedPoint(FormatProjectName(project));
  }

  /** `setProject('all')` stores exactly "all". */
  lemma AllIsFixed()
    ensures FormatProjectName("all") == "all"
  {
    FixedPoint("all");
  }
}
