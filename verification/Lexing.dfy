/** How the client cuts text apart: Rust's `split_whitespace`, `trim`, `split("\r\n")` and
    `split_once(':')`. */
module Lexing {
  import opened Common
  import opened Subjects
  import opened Text

  // ----- whitespace-separated tokens -----

  predicate CleanToken(t: string) {
    t != "" && forall c :: c in t ==> !IsWhitespace(c)
  }

  function TokenLength(s: string): (n: nat)
    ensures n <= |s| && (forall c :: c in s[..n] ==> !IsWhitespace(c)) && (n < |s| ==> IsWhitespace(s[n]))
  {
    if s == "" || IsWhitespace(s[0]) then 0
    else
      var n := 1 + TokenLength(s[1..]);
      assert s[..n] == [s[0]] + s[1..][..n - 1];
      n
  }

  function SplitWhitespace(s: string): seq<string>
    decreases |s|
  {
    if s == "" then []
    else if IsWhitespace(s[0]) then SplitWhitespace(s[1..])
    else var n := TokenLength(s); [s[..n]] + SplitWhitespace(s[n..])
  }

  lemma {:induction false} TokensAreClean(s: string)
    ensures forall t :: t in SplitWhitespace(s) ==> CleanToken(t)
    decreases |s|
  {
    hide IsWhitespace;
    if s != "" {
      TokensAreClean(if IsWhitespace(s[0]) then s[1..] else s[TokenLength(s)..]);
    }
  }

  lemma SplitFirst(t: string, rest: string)
    requires CleanToken(t) && (rest == "" || IsWhitespace(rest[0]))
    ensures SplitWhitespace(t + rest) == [t] + SplitWhitespace(rest)
  {
    hide IsWhitespace;
    var s := t + rest;
    var n := TokenLength(s);
    forall i | 0 <= i < |t| ensures !IsWhitespace(s[i]) { assert s[i] == t[i] && t[i] in t; }
    forall i | 0 <= i < n ensures !IsWhitespace(s[i]) { assert s[i] == s[..n][i] && s[i] in s[..n]; }
    assert rest != "" ==> s[|t|] == rest[0];
    assert n == |t|;
    assert s[..n] == t && s[n..] == rest;
  }

  lemma SplitSpaced(t: string, rest: string)
    requires CleanToken(t)
    ensures SplitWhitespace(t + [' '] + rest) == [t] + SplitWhitespace(rest)
  {
    SpaceIsWhitespace();
    hide CleanToken, IsWhitespace, SplitWhitespace;
    SplitFirst(t, " " + rest);
    SkipSpace(rest);
    assert t + [' '] + rest == t + (" " + rest);
  }

  lemma SplitSingle(t: string)
    requires CleanToken(t)
    ensures SplitWhitespace(t) == [t]
  {
    assert SplitWhitespace("") == [];
    hide CleanToken, SplitWhitespace;
    SplitFirst(t, "");
    assert t + "" == t;
  }

  /** Clean tokens joined by spaces come back as they were. */
  lemma {:induction false} TokensRoundTrip(tokens: seq<string>)
    requires forall t :: t in tokens ==> CleanToken(t)
    ensures SplitWhitespace(Join(tokens, ' ')) == tokens
  {
    if |tokens| == 1 {
      SplitSingle(tokens[0]);
    } else if |tokens| > 1 {
      hide CleanToken, SplitWhitespace;
      TokensRoundTrip(tokens[1..]);
      SplitSpaced(tokens[0], Join(tokens[1..], ' '));
      assert tokens == [tokens[0]] + tokens[1..];
    }
  }

  lemma SkipSpace(s: string)
    ensures SplitWhitespace(" " + s) == SplitWhitespace(s)
  {
  }

  lemma SpaceIsWhitespace()
    ensures IsWhitespace(' ')
  {
  }

  // ----- trimming -----

  function TrimStart(s: string): string {
    if s != "" && IsWhitespace(s[0]) then TrimStart(s[1..]) else s
  }

  function TrimEnd(s: string): string {
    if s != "" && IsWhitespace(s[|s| - 1]) then TrimEnd(s[..|s| - 1]) else s
  }

  function Trim(s: string): string { TrimEnd(TrimStart(s)) }

  predicate Trimmed(s: string) {
    s == "" || (!IsWhitespace(s[0]) && !IsWhitespace(s[|s| - 1]))
  }

  ghost predicate Within(t: string, s: string) {
    exists i, j :: 0 <= i <= j <= |s| && t == s[i..j]
  }

  lemma {:induction false} TrimStartShape(s: string)
    ensures exists i :: 0 <= i <= |s| && TrimStart(s) == s[i..]
    ensures TrimStart(s) == "" || !IsWhitespace(TrimStart(s)[0])
  {
    hide IsWhitespace;
    if s != "" && IsWhitespace(s[0]) {
      TrimStartShape(s[1..]);
      var i :| 0 <= i <= |s[1..]| && TrimStart(s[1..]) == s[1..][i..];
      assert s[1..][i..] == s[i + 1..];
    } else {
      assert s == s[0..];
    }
  }

  lemma {:induction false} TrimEndShape(s: string)
    ensures exists j :: 0 <= j <= |s| && TrimEnd(s) == s[..j]
    ensures TrimEnd(s) == "" || !IsWhitespace(TrimEnd(s)[|TrimEnd(s)| - 1])
  {
    hide IsWhitespace;
    if s != "" && IsWhitespace(s[|s| - 1]) {
      TrimEndShape(s[..|s| - 1]);
      var j :| 0 <= j <= |s[..|s| - 1]| && TrimEnd(s[..|s| - 1]) == s[..|s| - 1][..j];
      assert s[..|s| - 1][..j] == s[..j];
    } else {
      assert s == s[..|s|];
    }
  }

  /** Trimming gives a stretch of the text without whitespace at either end. */
  lemma TrimShape(s: string)
    ensures Trimmed(Trim(s)) && Within(Trim(s), s)
  {
    hide IsWhitespace, TrimStart, TrimEnd;
    TrimStartShape(s);
    var i :| 0 <= i <= |s| && TrimStart(s) == s[i..];
    TrimEndShape(s[i..]);
    var j :| 0 <= j <= |s[i..]| && TrimEnd(s[i..]) == s[i..][..j];
    assert s[i..][..j] == s[i..i + j];
    assert Trim(s) != "" ==> Trim(s)[0] == s[i..][0];
  }

  lemma TrimmedStays(s: string)
    requires Trimmed(s)
    ensures Trim(s) == s && Trim(" " + s) == s
  {
  }

  // ----- lines -----

  predicate NoCrlf(s: string) {
    forall i :: 0 <= i < |s| - 1 ==> !(s[i] == '\r' && s[i + 1] == '\n')
  }

  function SplitCrlf(s: string): (r: seq<string>)
    ensures |r| >= 1 && r[0] <= s
    decreases |s|
  {
    if s == "" then [""]
    else if |s| >= 2 && s[0] == '\r' && s[1] == '\n' then [""] + SplitCrlf(s[2..])
    else var r := SplitCrlf(s[1..]); [[s[0]] + r[0]] + r[1..]
  }

  lemma {:induction false} LinesHaveNoCrlf(s: string)
    ensures forall t :: t in SplitCrlf(s) ==> NoCrlf(t)
    decreases |s|
  {
    if s == "" {
    } else if |s| >= 2 && s[0] == '\r' && s[1] == '\n' {
      LinesHaveNoCrlf(s[2..]);
    } else {
      LinesHaveNoCrlf(s[1..]);
      var r := SplitCrlf(s[1..]);
      assert r[0] in r && forall t :: t in r[1..] ==> t in r;
      FirstLineExtends(s, r[0]);
    }
  }

  lemma FirstLineExtends(s: string, first: string)
    requires s != "" && !(|s| >= 2 && s[0] == '\r' && s[1] == '\n') && first <= s[1..] && NoCrlf(first)
    ensures NoCrlf([s[0]] + first)
  {
  }

  /** A line without CRLF is cut off at the CRLF that ends it. */
  lemma {:induction false} SplitLine(line: string, rest: string)
    requires NoCrlf(line)
    ensures SplitCrlf(line + "\r\n" + rest) == [line] + SplitCrlf(rest)
  {
    var s := line + "\r\n" + rest;
    if line == "" {
      assert s[2..] == rest;
    } else {
      hide SplitCrlf;
      var tail := line[1..] + "\r\n" + rest;
      assert NoCrlf(line[1..]);
      SplitLine(line[1..], rest);
      assert tail[0] == if |line| > 1 then line[1] else '\r';
      LineGrows(line[0], tail);
      assert s == [line[0]] + tail && [line[0]] + line[1..] == line;
    }
  }

  lemma LineGrows(c: char, tail: string)
    requires !(c == '\r' && tail != "" && tail[0] == '\n')
    ensures SplitCrlf([c] + tail) == [[c] + SplitCrlf(tail)[0]] + SplitCrlf(tail)[1..]
  {
  }

  /** The text before and after the first occurrence of a character. */
  function SplitOnce(s: string, sep: char): Option<(string, string)> {
    if s == "" then None
    else if s[0] == sep then Some(("", s[1..]))
    else
      match SplitOnce(s[1..], sep)
      case None => None
      case Some((before, after)) => Some(([s[0]] + before, after))
  }

  lemma {:induction false} SplitOnceShape(s: string, sep: char)
    requires SplitOnce(s, sep).Some?
    ensures var (before, after) := SplitOnce(s, sep).value; sep !in before && s == before + [sep] + after
  {
    if s[0] != sep {
      SplitOnceShape(s[1..], sep);
      assert s == [s[0]] + s[1..];
    }
  }

  lemma {:induction false} SplitOnceFinds(before: string, sep: char, after: string)
    requires sep !in before
    ensures SplitOnce(before + [sep] + after, sep) == Some((before, after))
  {
    var s := before + [sep] + after;
    if before == "" {
      assert s[1..] == after;
    } else {
      SplitOnceFinds(before[1..], sep, after);
      assert s[1..] == before[1..] + [sep] + after;
      assert [before[0]] + before[1..] == before;
    }
  }
}
