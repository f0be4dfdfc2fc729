/** The generator's protection of JavaScript template strings from its own
    template engine: before rendering, each `${X}` in a file becomes
    `$%{X}%`; after rendering, the escapes are turned back. Both passes
    overwrite each file's contents in place. */
module TemplateStrings {
  import opened Wrappers
  import opened Text

  /** The characters `.` does not match in a regular expression. */
  predicate IsLineTerminator(c: char) {
    c == '\n' || c == '\r' || c == '\U{2028}' || c == '\U{2029}'
  }

  predicate HasTerminator(s: string) {
    exists j :: 0 <= j < |s| && IsLineTerminator(s[j])
  }

  /** Where `(.*?)}` ends: the first `}`, unless a line terminator comes
      before it. */
  function CloseBrace(t: string): (r: Option<nat>)
    ensures r.Some? ==> r.value < |t| && t[r.value] == '}' &&
                        forall j :: 0 <= j < r.value ==> t[j] != '}' && !IsLineTerminator(t[j])
    ensures r.None? ==> forall k :: 0 <= k < |t| && t[k] == '}' ==> HasTerminator(t[..k])
    decreases |t|
  {
    if t == [] then None
    else if t[0] == '}' then Some(0)
    else if IsLineTerminator(t[0]) then
      assert forall k :: 0 < k <= |t| ==> t[..k][0] == t[0];
      None
    else match CloseBrace(t[1..])
      case None =>
        assert forall k :: 1 <= k < |t| && t[k] == '}' ==> HasTerminator(t[..k]) by {
          forall k | 1 <= k < |t| && t[k] == '}'
            ensures HasTerminator(t[..k])
          {
            assert t[1..][k - 1] == '}';
            var j :| 0 <= j < k - 1 && IsLineTerminator(t[1..][..k - 1][j]);
            assert t[..k][j + 1] == t[1..][..k - 1][j];
          }
        }
        None
      case Some(k) => Some(k + 1)
  }

  /** A `}%` starts at position `j` of `t`. */
  predicate MarkAt(t: string, j: int) {
    0 <= j && j + 2 <= |t| && t[j] == '}' && t[j + 1] == '%'
  }

  /** Where `(.*?)}%` ends: the first `}%`, unless a line terminator comes
      before it. A `}` without `%` after it is part of the match. */
  function CloseMark(t: string): (r: Option<nat>)
    ensures r.Some? ==> MarkAt(t, r.value) &&
                        forall j :: 0 <= j < r.value ==> !MarkAt(t, j) && !IsLineTerminator(t[j])
    ensures r.None? ==> forall k :: MarkAt(t, k) ==> HasTerminator(t[..k])
    decreases |t|
  {
    if MarkAt(t, 0) then Some(0)
    else if t == [] then None
    else if IsLineTerminator(t[0]) then
      assert forall k :: 0 < k <= |t| ==> t[..k][0] == t[0];
      None
    else match CloseMark(t[1..])
      case None =>
        assert forall k :: MarkAt(t, k) ==> HasTerminator(t[..k]) by {
          forall k | MarkAt(t, k)
            ensures HasTerminator(t[..k])
          {
            assert MarkAt(t[1..], k - 1);
            var j :| 0 <= j < k - 1 && IsLineTerminator(t[1..][..k - 1][j]);
            assert t[..k][j + 1] == t[1..][..k - 1][j];
          }
        }
        None
      case Some(k) =>
        assert forall j :: 1 <= j < k + 1 ==> (MarkAt(t, j) <==> MarkAt(t[1..], j - 1));
        Some(k + 1)
  }

  /** `content.replace(/\${(.*?)}/g, '$%{$1}%')`: scanning left to right, each
      `${X}` whose `X` is the shortest run up to a `}` on the same line
      becomes `$%{X}%`; the scan goes on after it. */
  function ReplaceAll(s: string): (r: string)
    ensures s != [] ==> r != [] && r[0] == s[0]
    decreases |s|
  {
    if s == [] then []
    else if |s| >= 2 && s[0] == '$' && s[1] == '{' && CloseBrace(s[2..]).Some? then
      var k := CloseBrace(s[2..]).value;
      "$%{" + s[2..2 + k] + "}%" + ReplaceAll(s[3 + k..])
    else [s[0]] + ReplaceAll(s[1..])
  }

  /** `content.replace(/\$%{(.*?)}%/g, '${$1}')`: each `$%{X}%`, with `X` the
      shortest run up to a `}%` on the same line, becomes `${X}`. */
  function RestoreAll(s: string): string
    decreases |s|
  {
    if s == [] then []
    else if |s| >= 3 && s[0] == '$' && s[1] == '%' && s[2] == '{' && CloseMark(s[3..]).Some? then
      var k := CloseMark(s[3..]).value;
      "${" + s[3..3 + k] + "}" + RestoreAll(s[3 + k + 2..])
    else [s[0]] + RestoreAll(s[1..])
  }

  /** The replacing pass on one file: only contents that hold `${` are
      rewritten, and the guard only saves work, since the global replacement
      leaves other contents as they are. */
  function Replace(content: string): (r: string)
    ensures !Contains(content, "${") ==> r == content
    ensures r == ReplaceAll(content)
  {
    if Contains(content, "${") then ReplaceAll(content)
    else NoOpeningNoReplacement(content); content
  }

  /** The restoring pass as written: it rewrites only contents that hold
      `$[[`, which the replacing pass never writes. */
  function RestoreAsWritten(content: string): (r: string)
    ensures !Contains(content, "$[[") ==> r == content
  {
    if Contains(content, "$[[") then RestoreAll(content) else content
  }

  /** The restoring pass with the guard the replacing pass calls for: contents
      that hold `$%{` are rewritten, and the guard only saves work. */
  function Restore(content: string): (r: string)
    ensures !Contains(content, "$%{") ==> r == content
    ensures r == RestoreAll(content)
  {
    if Contains(content, "$%{") then RestoreAll(content)
    else NoMarkNoRestoration(content); content
  }

  /** An occurrence at any position is found by `includes`. */
  lemma {:induction false} OccursContains(s: string, p: string, i: nat)
    requires i + |p| <= |s| && s[i..i + |p|] == p
    ensures Contains(s, p)
    decreases i
  {
    if i == 0 {
      assert s[..|p|] == p;
    } else {
      assert s[1..][i - 1..i - 1 + |p|] == s[i..i + |p|];
      OccursContains(s[1..], p, i - 1);
    }
  }

  /** Text that does not hold a pattern does not hold it in any suffix. */
  lemma {:induction false} SuffixNotContains(s: string, p: string, j: nat)
    requires j <= |s| && !Contains(s, p)
    ensures !Contains(s[j..], p)
    decreases j
  {
    if j > 0 {
      SuffixNotContains(s[1..], p, j - 1);
      assert s[1..][j - 1..] == s[j..];
    }
  }

  /** Text without `${` is left alone by the replacement. */
  lemma {:induction false} NoOpeningNoReplacement(s: string)
    requires !Contains(s, "${")
    ensures ReplaceAll(s) == s
    decreases |s|
  {
    if s != [] {
      SuffixNotContains(s, "${", 1);
      NoOpeningNoReplacement(s[1..]);
    }
  }

  /** Text without `$%{` is left alone by the restoration. */
  lemma {:induction false} NoMarkNoRestoration(s: string)
    requires !Contains(s, "$%{")
    ensures RestoreAll(s) == s
    decreases |s|
  {
    if s != [] {
      SuffixNotContains(s, "$%{", 1);
      NoMarkNoRestoration(s[1..]);
    }
  }

  /** The closing mark the replacement writes after `X` is the first one the
      restoration finds. */
  lemma {:induction false} MarkAfterRun(x: string, rest: string)
    requires forall j :: 0 <= j < |x| ==> x[j] != '}' && !IsLineTerminator(x[j])
    ensures CloseMark(x + "}%" + rest) == Some(|x|)
    decreases |x|
  {
    var t := x + "}%" + rest;
    if x == [] {
      assert t[0] == '}' && t[1] == '%';
    } else {
      assert t[0] == x[0] && t[1..] == x[1..] + "}%" + rest;
      MarkAfterRun(x[1..], rest);
    }
  }

  /** An escape the replacement wrote is turned back by the restoration. */
  lemma EscapeUndone(x: string, r: string)
    requires forall j :: 0 <= j < |x| ==> x[j] != '}' && !IsLineTerminator(x[j])
    ensures RestoreAll("$%{" + x + "}%" + r) == "${" + x + "}" + RestoreAll(r)
  {
    var y := "$%{" + x + "}%" + r;
    MarkAfterRun(x, r);
    assert y[3..] == x + "}%" + r;
    assert y[0] == '$' && y[1] == '%' && y[2] == '{';
    assert y[3..3 + |x|] == x;
    assert y[3 + |x| + 2..] == r;
  }

  /** The run a `${X}` at the front encloses has no `}` and no line
      terminator, and a `}` follows it. */
  lemma RunBeforeBrace(c: string, k: nat) returns (x: string)
    requires |c| >= 2 && CloseBrace(c[2..]) == Some(k)
    ensures 3 + k <= |c| && c[2 + k] == '}' && x == c[2..2 + k]
    ensures forall j :: 0 <= j < |x| ==> x[j] != '}' && !IsLineTerminator(x[j])
  {
    assert c[2..][k] == '}';
    x := c[2..2 + k];
    assert forall j :: 0 <= j < k ==> x[j] == c[2..][j];
  }

  /** A `${X}` at the front of text is its escape opening, run and brace. */
  lemma EscapeText(c: string, k: nat)
    requires 3 + k <= |c| && c[0] == '$' && c[1] == '{' && c[2 + k] == '}'
    ensures c[..3 + k] == "${" + c[2..2 + k] + "}"
  {
    var e := "${" + c[2..2 + k] + "}";
    assert forall j :: 0 <= j < 3 + k ==> c[..3 + k][j] == e[j];
  }

  /** A `${X}` at the front is escaped and then restored as it was. */
  lemma EscapeRestored(c: string, k: nat)
    requires |c| >= 2 && c[0] == '$' && c[1] == '{' && CloseBrace(c[2..]) == Some(k)
    ensures 3 + k <= |c|
    ensures RestoreAll(ReplaceAll(c)) == c[..3 + k] + RestoreAll(ReplaceAll(c[3 + k..]))
  {
    EscapeAtFront(c, k);
    var x := RunBeforeBrace(c, k);
    EscapeUndone(x, ReplaceAll(c[3 + k..]));
    EscapeText(c, k);
  }

  /** Away from a `${X}`, the first character passes through both passes,
      unless the text starts with `$%{`. */
  lemma PlainRestored(c: string)
    requires c != [] && !(|c| >= 2 && c[0] == '$' && c[1] == '{' && CloseBrace(c[2..]).Some?)
    requires !(|c| >= 3 && c[0] == '$' && c[1] == '%' && c[2] == '{')
    ensures RestoreAll(ReplaceAll(c)) == [c[0]] + RestoreAll(ReplaceAll(c[1..]))
  {
    var r := ReplaceAll(c[1..]);
    var y := [c[0]] + r;
    assert ReplaceAll(c) == y;
    if |y| >= 3 && y[0] == '$' && y[1] == '%' {
      assert c[1] == '%';
      assert r == [c[1]] + ReplaceAll(c[2..]);
      assert y[2] == c[2];
    }
    assert y[1..] == r;
  }

  /** Restoring undoes replacing, on any text that held no `$%{` to begin
      with. */
  lemma {:induction false} RestoreAllReplaceAll(c: string)
    requires !Contains(c, "$%{")
    ensures RestoreAll(ReplaceAll(c)) == c
    decreases |c|
  {
    if c == [] {
    } else if |c| >= 2 && c[0] == '$' && c[1] == '{' && CloseBrace(c[2..]).Some? {
      var k := CloseBrace(c[2..]).value;
      var _ := RunBeforeBrace(c, k);
      SuffixNotContains(c, "$%{", 3 + k);
      RestoreAllReplaceAll(c[3 + k..]);
      EscapeRoundTrip(c, k);
    } else {
      SuffixNotContains(c, "$%{", 1);
      RestoreAllReplaceAll(c[1..]);
      assert !StartsWith(c, "$%{");
      PlainRoundTrip(c);
    }
  }

  /** A `${X}` at the front comes back when what follows it does. */
  lemma EscapeRoundTrip(c: string, k: nat)
    requires |c| >= 2 && c[0] == '$' && c[1] == '{' && CloseBrace(c[2..]) == Some(k)
    requires 3 + k <= |c| && RestoreAll(ReplaceAll(c[3 + k..])) == c[3 + k..]
    ensures RestoreAll(ReplaceAll(c)) == c
  {
    EscapeRestored(c, k);
    Rejoin(c, 3 + k);
  }

  /** A first character away from any escape comes back when the rest does. */
  lemma PlainRoundTrip(c: string)
    requires c != [] && !(|c| >= 2 && c[0] == '$' && c[1] == '{' && CloseBrace(c[2..]).Some?)
    requires !(|c| >= 3 && c[0] == '$' && c[1] == '%' && c[2] == '{')
    requires RestoreAll(ReplaceAll(c[1..])) == c[1..]
    ensures RestoreAll(ReplaceAll(c)) == c
  {
    PlainRestored(c);
    Rejoin(c, 1);
  }

  lemma Rejoin(c: string, n: nat)
    requires n <= |c|
    ensures c[..n] + c[n..] == c
  {
  }

  /** With the corrected guard the two passes are inverse: a file comes back
      as it was, unless it held `$%{` to begin with. */
  lemma RoundTrip(content: string)
    requires !Contains(content, "$%{")
    ensures Restore(Replace(content)) == content
  {
    if !Contains(content, "${") {
      NoOpeningNoReplacement(content);
    }
    var replaced := ReplaceAll(content);
    if !Contains(replaced, "$%{") {
      NoMarkNoRestoration(replaced);
    }
    RestoreAllReplaceAll(content);
  }

  /** Text around an occurrence does not hide it. */
  lemma ContainsInfix(a: string, b: string, c: string, p: string)
    requires Contains(b, p)
    ensures Contains(a + b + c, p)
  {
    var i := IndexOf(b, p).value;
    assert (a + b + c)[|a| + i..|a| + i + |p|] == b[i..i + |p|];
    OccursContains(a + b + c, p, |a| + i);
  }

  /** `$[[` never overlaps a `${X}` the replacement escapes: it lies inside
      `X` or after the escape. */
  lemma BracketsBesideEscape(c: string, k: nat, i: nat)
    requires |c| >= 2 && c[0] == '$' && c[1] == '{' && CloseBrace(c[2..]) == Some(k)
    requires i + 3 <= |c| && c[i] == '$' && c[i + 1] == '[' && c[i + 2] == '['
    ensures Contains(c[2..2 + k], "$[[") || Contains(c[3 + k..], "$[[")
  {
    assert c[2 + k] == '}' by {
      assert c[2..][k] == '}';
    }
    assert i >= 2;
    if i + 3 <= 2 + k {
      var x := c[2..2 + k];
      assert x[i - 2..i + 1] == "$[[" by {
        assert x[i - 2] == c[i] && x[i - 1] == c[i + 1] && x[i] == c[i + 2];
      }
      OccursContains(x, "$[[", i - 2);
    } else {
      var rest := c[3 + k..];
      assert i >= 3 + k;
      assert rest[i - 3 - k..i - k] == "$[[" by {
        assert rest[i - 3 - k] == c[i] && rest[i - 2 - k] == c[i + 1] && rest[i - 1 - k] == c[i + 2];
      }
      OccursContains(rest, "$[[", i - 3 - k);
    }
  }

  /** How the replacement writes a `${X}` at the front. */
  lemma EscapeAtFront(c: string, k: nat)
    requires |c| >= 2 && c[0] == '$' && c[1] == '{' && CloseBrace(c[2..]) == Some(k)
    ensures ReplaceAll(c) == "$%{" + c[2..2 + k] + "}%" + ReplaceAll(c[3 + k..])
  {
  }

  /** Escaping a `${X}` at the front keeps a `$[[` of the text, given that
      replacing the rest keeps one there. */
  lemma EscapeKeepsBrackets(c: string, k: nat, i: nat)
    requires |c| >= 2 && c[0] == '$' && c[1] == '{' && CloseBrace(c[2..]) == Some(k)
    requires i + 3 <= |c| && c[i] == '$' && c[i + 1] == '[' && c[i + 2] == '['
    requires Contains(c[3 + k..], "$[[") ==> Contains(ReplaceAll(c[3 + k..]), "$[[")
    ensures Contains(ReplaceAll(c), "$[[")
  {
    EscapeAtFront(c, k);
    BracketsBesideEscape(c, k, i);
    EscapeKeepsPieces(c[2..2 + k], ReplaceAll(c[3 + k..]));
  }

  /** An escape keeps a `$[[` of its run or of what follows it. */
  lemma EscapeKeepsPieces(x: string, r: string)
    requires Contains(x, "$[[") || Contains(r, "$[[")
    ensures Contains("$%{" + x + "}%" + r, "$[[")
  {
    if Contains(x, "$[[") {
      ContainsInfix("$%{", x, "}%" + r, "$[[");
      assert "$%{" + x + ("}%" + r) == "$%{" + x + "}%" + r;
    } else {
      ContainsInfix("$%{" + x + "}%", r, "", "$[[");
      assert "$%{" + x + "}%" + r + "" == "$%{" + x + "}%" + r;
    }
  }

  /** A `$[[` at the front passes through the replacement. */
  lemma FrontBracketsKept(c: string)
    requires |c| >= 3 && c[0] == '$' && c[1] == '[' && c[2] == '['
    ensures StartsWith(ReplaceAll(c), "$[[")
  {
    var t := ReplaceAll(c[2..]);
    assert ReplaceAll(c[1..]) == [c[1]] + t;
    assert ReplaceAll(c) == [c[0]] + ([c[1]] + t);
    assert t[0] == c[2];
    assert ReplaceAll(c)[..3] == "$[[";
  }

  /** Passing the first character through keeps a `$[[` of the text, given
      that replacing the rest keeps one there. */
  lemma PlainKeepsBrackets(c: string)
    requires c != [] && !(|c| >= 2 && c[0] == '$' && c[1] == '{' && CloseBrace(c[2..]).Some?)
    requires Contains(c, "$[[")
    requires Contains(c[1..], "$[[") ==> Contains(ReplaceAll(c[1..]), "$[[")
    ensures Contains(ReplaceAll(c), "$[[")
  {
    var r := ReplaceAll(c[1..]);
    assert ReplaceAll(c) == [c[0]] + r;
    if StartsWith(c, "$[[") {
      assert c[0] == c[..3][0] && c[1] == c[..3][1] && c[2] == c[..3][2];
      FrontBracketsKept(c);
    } else {
      ContainsInfix([c[0]], r, "", "$[[");
      assert [c[0]] + r + "" == ReplaceAll(c);
    }
  }

  /** Where text holding `$[[` holds it. */
  lemma {:induction false} BracketsAt(c: string) returns (i: nat)
    requires Contains(c, "$[[")
    ensures i + 3 <= |c| && c[i] == '$' && c[i + 1] == '[' && c[i + 2] == '['
    decreases |c|
  {
    if StartsWith(c, "$[[") {
      i := 0;
      assert c[0] == c[..3][0] && c[1] == c[..3][1] && c[2] == c[..3][2];
    } else {
      var j := BracketsAt(c[1..]);
      i := j + 1;
      assert c[1..][j] == c[i];
    }
  }

  /** Replacing keeps every `$[[`: the pattern can neither straddle an escape
      nor be cut by one. */
  lemma {:induction false} ReplaceAllKeepsBrackets(c: string)
    requires Contains(c, "$[[")
    ensures Contains(ReplaceAll(c), "$[[")
    decreases |c|
  {
    if |c| >= 2 && c[0] == '$' && c[1] == '{' && CloseBrace(c[2..]).Some? {
      var k := CloseBrace(c[2..]).value;
      if Contains(c[3 + k..], "$[[") {
        ReplaceAllKeepsBrackets(c[3 + k..]);
      }
      var i := BracketsAt(c);
      EscapeKeepsBrackets(c, k, i);
    } else {
      if Contains(c[1..], "$[[") {
        ReplaceAllKeepsBrackets(c[1..]);
      }
      PlainKeepsBrackets(c);
    }
  }

  /** As written, the round trip holds only for files that hold `$[[`. */
  lemma RoundTripAsWritten(content: string)
    requires Contains(content, "$[[") && !Contains(content, "$%{")
    ensures RestoreAsWritten(Replace(content)) == content
  {
    if !Contains(content, "${") {
      NoOpeningNoReplacement(content);
    }
    ReplaceAllKeepsBrackets(content);
    RestoreAllReplaceAll(content);
  }

  /** Text without `[` never holds `$[[`. */
  lemma {:induction false} NoBracketNoPattern(s: string)
    requires '[' !in s
    ensures !Contains(s, "$[[")
    decreases |s|
  {
    if s != [] {
      assert !StartsWith(s, "$[[") by {
        if |s| >= 3 {
          assert s[1] in s;
        }
      }
      assert forall c :: c in s[1..] ==> c in s;
      NoBracketNoPattern(s[1..]);
    }
  }

  /** An ordinary file stays escaped: `${a}` is written back as `$%{a}%`. */
  lemma EscapedFileStaysEscaped()
    ensures Replace("${a}") == "$%{a}%"
    ensures RestoreAsWritten(Replace("${a}")) == "$%{a}%" != "${a}"
  {
    var s := "${a}";
    assert StartsWith(s, "${");
    assert s[2..] == "a}";
    assert CloseBrace("a}") == Some(1) by {
      assert "a}"[1..] == "}";
    }
    assert s[2..3] == "a" && s[4..] == [];
    assert ReplaceAll(s) == "$%{" + "a" + "}%" + [];
    NoBracketNoPattern("$%{a}%");
    assert "$%{a}%"[1] != "${a}"[1];
  }

  /** A file the generator renders. */
  class File {
    var contents: string

    constructor (contents: string)
      ensures this.contents == contents
    {
      this.contents := contents;
    }
  }

  predicate Distinct(files: seq<File>) {
    forall i, j :: 0 <= i < j < |files| ==> files[i] != files[j]
  }

  /** `replaceTemplateStrings`: the same files, in the same order, each with
      its contents replaced. */
  method ReplaceTemplateStrings(files: seq<File>) returns (r: seq<File>)
    requires Distinct(files)
    modifies set f | f in files
    ensures r == files
    ensures forall k :: 0 <= k < |files| ==> files[k].contents == Replace(old(files[k].contents))
  {
    var i := 0;
    while i < |files|
      invariant 0 <= i <= |files|
      invariant forall k :: 0 <= k < i ==> files[k].contents == Replace(old(files[k].contents))
      invariant forall k :: i <= k < |files| ==> files[k].contents == old(files[k].contents)
    {
      var content := files[i].contents;
      if Contains(content, "${") {
        files[i].contents := ReplaceAll(content);
      }
      i := i + 1;
    }
    return files;
  }

  /** `restoreTemplateStrings`, with the guard on `$%{`: the same files, in
      the same order, each with its contents restored. */
  method RestoreTemplateStrings(files: seq<File>) returns (r: seq<File>)
    requires Distinct(files)
    modifies set f | f in files
    ensures r == files
    ensures forall k :: 0 <= k < |files| ==> files[k].contents == Restore(old(files[k].contents))
  {
    var i := 0;
    while i < |files|
      invariant 0 <= i <= |files|
      invariant forall k :: 0 <= k < i ==> files[k].contents == Restore(old(files[k].contents))
      invariant forall k :: i <= k < |files| ==> files[k].contents == old(files[k].contents)
    {
      var content := files[i].contents;
      if Contains(content, "$%{") {
        files[i].contents := RestoreAll(content);
      }
      i := i + 1;
    }
    return files;
  }
}
