/**
 The parts of Rust's `str` that the config rewriters are written with: `lines`,
 `trim`, `split_whitespace`, `join`, `eq_ignore_ascii_case`, each on Unicode
 scalar values.
 */
module Text {

  datatype Option<+T> = None | Some(value: T)

  // --- Characters ---------------------------------------------------------

  /** The Unicode White_Space property, as `char::is_whitespace` tests it. */
  predicate IsWhite(c: char) {
    var n := c as int;
    || 0x09 <= n <= 0x0D || n == 0x20 || n == 0x85 || n == 0xA0 || n == 0x1680
    || 0x2000 <= n <= 0x200A || n == 0x2028 || n == 0x2029 || n == 0x202F
    || n == 0x205F || n == 0x3000
  }

  /** General category Cc, as `char::is_control` tests it. */
  predicate IsControl(c: char) {
    var n := c as int;
    n <= 0x1F || 0x7F <= n <= 0x9F
  }

  function ToLowerAscii(c: char): char {
    if 'A' <= c <= 'Z' then (c as int + 32) as char else c
  }

  predicate EqIgnoreCase(a: string, b: string) {
    |a| == |b| && forall i :: 0 <= i < |a| ==> ToLowerAscii(a[i]) == ToLowerAscii(b[i])
  }

  predicate NoWhite(s: string) {
    forall i :: 0 <= i < |s| ==> !IsWhite(s[i])
  }

  predicate Absent(c: char, s: string) {
    forall i :: 0 <= i < |s| ==> s[i] != c
  }

  /** What `f` makes of each line. */
  function Each<T>(lines: seq<string>, f: string -> T): (r: seq<T>)
    ensures |r| == |lines| && forall i :: 0 <= i < |r| ==> r[i] == f(lines[i])
  {
    seq(|lines|, i requires 0 <= i < |lines| => f(lines[i]))
  }

  // --- Trimming -----------------------------------------------------------

  function TrimStart(s: string): string {
    if s != "" && IsWhite(s[0]) then TrimStart(s[1..]) else s
  }

  function TrimEnd(s: string): string {
    if s != "" && IsWhite(s[|s| - 1]) then TrimEnd(s[..|s| - 1]) else s
  }

  function Trim(s: string): string {
    TrimEnd(TrimStart(s))
  }

  /** Both ends are already non-blank: nothing for `trim` to remove. */
  predicate Trimmed(s: string) {
    s == "" || (!IsWhite(s[0]) && !IsWhite(s[|s| - 1]))
  }

  lemma {:induction false} TrimOfTrimmed(s: string)
    requires Trimmed(s)
    ensures Trim(s) == s
  {
  }

  lemma {:induction false} TrimStartShape(s: string)
    ensures TrimStart(s) == "" || !IsWhite(TrimStart(s)[0])
  {
    if s != "" && IsWhite(s[0]) {
      TrimStartShape(s[1..]);
    }
  }

  lemma {:induction false} TrimEndShape(s: string)
    ensures TrimEnd(s) <= s
    ensures TrimEnd(s) == "" || !IsWhite(TrimEnd(s)[|TrimEnd(s)| - 1])
  {
    if s != "" && IsWhite(s[|s| - 1]) {
      TrimEndShape(s[..|s| - 1]);
    }
  }

  lemma {:induction false} TrimIsTrimmed(s: string)
    ensures Trimmed(Trim(s))
    ensures Trim(Trim(s)) == Trim(s)
  {
    TrimStartShape(s);
    TrimEndShape(TrimStart(s));
  }

  /** A trailing blank never changes what `trim` returns. */
  lemma {:induction false} TrimDropsTrailing(s: string, c: char)
    requires IsWhite(c)
    ensures Trim(s + [c]) == Trim(s)
  {
    if s == "" {
      assert (s + [c])[1..] == "";
      assert TrimStart(s + [c]) == TrimStart("");
    } else if IsWhite(s[0]) {
      assert (s + [c])[1..] == s[1..] + [c];
      TrimDropsTrailing(s[1..], c);
    } else {
      assert (s + [c])[..|s|] == s;
    }
  }

  // --- Words --------------------------------------------------------------

  function WordLen(s: string): (n: nat)
    ensures n <= |s|
    ensures NoWhite(s[..n])
    ensures n < |s| ==> IsWhite(s[n])
  {
    if s == "" || IsWhite(s[0]) then 0
    else
      var m := WordLen(s[1..]);
      assert forall i :: 1 <= i < m + 1 ==> s[i] == s[1..][..m][i - 1];
      m + 1
  }

  /** `split_whitespace`: the maximal blank-free runs, in order. */
  function Words(s: string): (ws: seq<string>)
    ensures forall w <- ws :: w != "" && NoWhite(w)
    decreases |s|
  {
    if s == "" then []
    else if IsWhite(s[0]) then Words(s[1..])
    else
      var n := WordLen(s);
      [s[..n]] + Words(s[n..])
  }

  function Join(parts: seq<string>, sep: string): string {
    if parts == [] then ""
    else if |parts| == 1 then parts[0]
    else parts[0] + sep + Join(parts[1..], sep)
  }

  predicate Token(w: string) {
    w != "" && NoWhite(w)
  }

  lemma {:induction false} WordLenOf(w: string, rest: string)
    requires NoWhite(w)
    requires rest == "" || IsWhite(rest[0])
    ensures WordLen(w + rest) == |w|
  {
    if w == "" {
      assert w + rest == rest;
    } else {
      assert (w + rest)[1..] == w[1..] + rest;
      WordLenOf(w[1..], rest);
    }
  }

  /** Splitting undoes joining with single spaces. */
  lemma {:induction false} WordsOfJoin(ws: seq<string>)
    requires forall w <- ws :: Token(w)
    ensures Words(Join(ws, " ")) == ws
  {
    if ws == [] {
      return;
    }
    assert Token(ws[0]);
    if |ws| == 1 {
      assert ws[0] + "" == ws[0];
      WordLenOf(ws[0], "");
      assert ws[0][..|ws[0]|] == ws[0];
    } else {
      var rest := " " + Join(ws[1..], " ");
      var s := Join(ws, " ");
      assert s == ws[0] + rest;
      assert !IsWhite(s[0]) by { assert s[0] == ws[0][0]; }
      WordLenOf(ws[0], rest);
      assert s[..|ws[0]|] == ws[0] && s[|ws[0]|..] == rest;
      assert rest[1..] == Join(ws[1..], " ");
      WordsOfJoin(ws[1..]);
    }
  }

  // --- Lines --------------------------------------------------------------

  function IndexOf(c: char, s: string): (n: nat)
    ensures n <= |s|
    ensures Absent(c, s[..n])
    ensures n < |s| ==> s[n] == c
  {
    if s == "" || s[0] == c then 0
    else
      var m := IndexOf(c, s[1..]);
      assert forall i :: 1 <= i < m + 1 ==> s[i] == s[1..][..m][i - 1];
      m + 1
  }

  function StripCr(s: string): string {
    if s != "" && s[|s| - 1] == '\r' then s[..|s| - 1] else s
  }

  /**
   `str::lines`: split at each line feed, dropping one carriage return before
   it; a final line without a line feed is kept as it is, and a trailing line
   feed does not add an empty line.
   */
  function Lines(s: string): (ls: seq<string>)
    decreases |s|
  {
    if s == "" then []
    else
      var n := IndexOf('\n', s);
      if n == |s| then [s]
      else [StripCr(s[..n])] + Lines(s[n + 1..])
  }

  lemma {:induction false} StripCrTrim(l: string)
    ensures Trim(StripCr(l)) == Trim(l)
  {
    if StripCr(l) != l {
      assert l == StripCr(l) + ['\r'];
      TrimDropsTrailing(StripCr(l), '\r');
    }
  }

  /** A line of text: free of line feeds. */
  predicate OneLine(s: string) {
    Absent('\n', s)
  }

  lemma {:induction false} IndexOfSplit(c: char, a: string, b: string)
    requires Absent(c, a)
    requires b != "" && b[0] == c
    ensures IndexOf(c, a + b) == |a|
  {
    if a == "" {
      assert a + b == b;
    } else {
      assert (a + b)[1..] == a[1..] + b;
      IndexOfSplit(c, a[1..], b);
    }
  }

  lemma {:induction false} IndexOfAbsent(c: char, a: string)
    requires Absent(c, a)
    ensures IndexOf(c, a) == |a|
  {
    if a != "" {
      IndexOfAbsent(c, a[1..]);
    }
  }

  lemma {:induction false} LinesCons(l: string, rest: string)
    requires OneLine(l)
    ensures Lines(l + "\n" + rest) == [StripCr(l)] + Lines(rest)
  {
    var s := l + "\n" + rest;
    assert s == l + ("\n" + rest);
    IndexOfSplit('\n', l, "\n" + rest);
    assert s[..|l|] == l && s[|l| + 1..] == rest;
  }

  lemma {:induction false} LinesSingle(l: string)
    requires OneLine(l)
    ensures Lines(l) == if l == "" then [] else [l]
  {
    IndexOfAbsent('\n', l);
  }

  lemma {:induction false} LinesAreLines(s: string)
    ensures forall l <- Lines(s) :: OneLine(l)
    decreases |s|
  {
    if s != "" {
      var n := IndexOf('\n', s);
      if n == |s| {
        assert s[..n] == s;
      } else {
        LinesAreLines(s[n + 1..]);
        assert Absent('\n', StripCr(s[..n]));
      }
    }
  }

  /** Text that is empty or ends with a line feed. */
  predicate Terminated(s: string) {
    s == "" || s[|s| - 1] == '\n'
  }

  /** Cut text at its first line feed. */
  lemma {:induction false} FirstLine(s: string) returns (l: string, rest: string)
    requires !OneLine(s)
    ensures s == l + "\n" + rest && OneLine(l)
    ensures Lines(s) == [StripCr(l)] + Lines(rest)
  {
    var n := IndexOf('\n', s);
    assert n < |s| by { assert s[..|s|] == s; }
    l, rest := s[..n], s[n + 1..];
  }

  lemma {:induction false} Regroup<T>(a: seq<T>, b: seq<T>, c: seq<T>, d: seq<T>)
    ensures (a + b + c) + d == a + b + (c + d)
  {
  }

  lemma {:induction false} LinesAppendStep(l: string, rest: string, b: string)
    requires OneLine(l)
    requires Lines(rest + b) == Lines(rest) + Lines(b)
    ensures Lines((l + "\n" + rest) + b) == Lines(l + "\n" + rest) + Lines(b)
  {
    hide Lines, StripCr;
    Regroup(l, "\n", rest, b);
    LinesCons(l, rest);
    LinesCons(l, rest + b);
    Regroup([], [StripCr(l)], Lines(rest), Lines(b));
  }

  /** Lines of terminated text followed by more text: just concatenate. */
  lemma {:induction false} LinesAppend(a: string, b: string)
    requires Terminated(a)
    ensures Lines(a + b) == Lines(a) + Lines(b)
    decreases |a|
  {
    if a == "" {
      assert a + b == b;
    } else {
      assert !OneLine(a) by { assert a[|a| - 1] == '\n'; }
      hide Lines, OneLine;
      var l, rest := FirstLine(a);
      LinesAppend(rest, b) by {
        assert rest == "" || rest[|rest| - 1] == a[|a| - 1];
      }
      LinesAppendStep(l, rest, b);
    }
  }

  /** `out` is `ls`, perhaps less one carriage return a line and a last empty line. */
  predicate LinesOf(ls: seq<string>, out: seq<string>) {
    && |ls| - 1 <= |out| <= |ls|
    && (forall i :: 0 <= i < |out| ==> out[i] == ls[i] || out[i] == StripCr(ls[i]))
    && (|out| < |ls| ==> ls[|ls| - 1] == "")
  }

  lemma {:induction false} LinesOfCons(l: string, ls: seq<string>, out: seq<string>)
    requires ls != [] && LinesOf(ls, out)
    ensures LinesOf([l] + ls, [StripCr(l)] + out)
  {
    forall i | 0 <= i < 1 + |out|
      ensures var o := ([StripCr(l)] + out)[i]; o == ([l] + ls)[i] || o == StripCr(([l] + ls)[i])
    {
      if i > 0 { assert ([StripCr(l)] + out)[i] == out[i - 1]; }
    }
  }

  /** Reading joined lines back. */
  lemma {:induction false} LinesOfJoin(ls: seq<string>)
    requires forall l <- ls :: OneLine(l)
    ensures LinesOf(ls, Lines(Join(ls, "\n")))
  {
    if ls == [] {
    } else if |ls| == 1 {
      LinesSingle(ls[0]);
    } else {
      hide Lines, LinesOf;
      var rest := Join(ls[1..], "\n");
      LinesOfJoin(ls[1..]);
      LinesCons(ls[0], rest);
      LinesOfCons(ls[0], ls[1..], Lines(rest));
      assert [ls[0]] + ls[1..] == ls;
    }
  }

  lemma {:induction false} JoinAppend(a: seq<string>, b: seq<string>, sep: string)
    requires a != [] && b != []
    ensures Join(a + b, sep) == Join(a, sep) + sep + Join(b, sep)
  {
    if |a| == 1 {
      assert (a + b)[1..] == b;
    } else {
      assert (a + b)[1..] == a[1..] + b;
      JoinAppend(a[1..], b, sep);
    }
  }
}
