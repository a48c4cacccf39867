/** Quoted ssh_config arguments and the spellings of the SSHWarden Include line. */
module SshConfigArg {
  import opened Text

  /** Windows paths are written with forward slashes. */
  function Normalize(value: string, windows: bool): string {
    if windows then seq(|value|, i requires 0 <= i < |value| => if value[i] == '\\' then '/' else value[i])
    else value
  }

  function EscapeChar(c: char): string {
    if c == '"' then "\\\"" else if c == '\\' then "\\\\" else [c]
  }

  function Escape(value: string): string {
    if value == "" then "" else Escape(value[..|value| - 1]) + EscapeChar(value[|value| - 1])
  }

  function Quoted(value: string, windows: bool): string {
    "\"" + Escape(Normalize(value, windows)) + "\""
  }

  /** `quote_ssh_config_arg`. */
  method QuoteArg(value: string, windows: bool) returns (out: string)
    ensures out == Quoted(value, windows)
  {
    var normalized := Normalize(value, windows);
    out := "\"";
    for i := 0 to |normalized|
      invariant out == "\"" + Escape(normalized[..i])
    {
      assert normalized[..i + 1][..i] == normalized[..i];
      out := out + EscapeChar(normalized[i]);
    }
    assert normalized[..|normalized|] == normalized;
    out := out + "\"";
  }

  /** OpenSSH's reading of a quoted argument past its opening quote: the value and what follows the closing one. */
  function ReadQuoted(s: string): Option<(string, string)> {
    if s == "" then None
    else if s[0] == '"' then Some(("", s[1..]))
    else if s[0] == '\\' && |s| > 1 && (s[1] == '"' || s[1] == '\\') then Prefixed(s[1], ReadQuoted(s[2..]))
    else Prefixed(s[0], ReadQuoted(s[1..]))
  }

  function Prefixed(c: char, r: Option<(string, string)>): Option<(string, string)> {
    if r.None? then None else Some(([c] + r.value.0, r.value.1))
  }

  lemma {:induction false} EscapeSnoc(front: string, c: char)
    ensures Escape(front + [c]) == Escape(front) + EscapeChar(c)
  {
    assert (front + [c])[..|front|] == front;
  }

  lemma {:induction false} Assoc(a: string, b: string, c: string)
    ensures a + (b + c) == (a + b) + c
  {
  }

  lemma {:induction false} EscapeCons(c: char, rest: string)
    ensures Escape([c] + rest) == EscapeChar(c) + Escape(rest)
    decreases |rest|
  {
    if rest == "" {
      EscapeSnoc("", c);
      assert "" + [c] == [c] + rest;
    } else {
      var front, last := rest[..|rest| - 1], rest[|rest| - 1];
      assert rest == front + [last];
      EscapeCons(c, front);
      hide Escape, EscapeChar;
      EscapeSnoc([c] + front, last);
      EscapeSnoc(front, last);
      Assoc([c], front, [last]);
      Assoc(EscapeChar(c), Escape(front), EscapeChar(last));
    }
  }

  lemma {:induction false} ReadStep(c: char, rest: string)
    ensures ReadQuoted(EscapeChar(c) + rest) == Prefixed(c, ReadQuoted(rest))
  {
    var s := EscapeChar(c) + rest;
    if c == '"' || c == '\\' {
      assert s[2..] == rest;
    } else {
      assert s[1..] == rest;
    }
  }

  lemma {:induction false} EscapeRoundTrip(value: string, rest: string)
    ensures ReadQuoted(Escape(value) + "\"" + rest) == Some((value, rest))
  {
    if value == "" {
      assert Escape(value) + "\"" + rest == "\"" + rest;
    } else {
      var tail := value[1..];
      assert value == [value[0]] + tail;
      EscapeCons(value[0], tail);
      EscapeRoundTrip(tail, rest);
      ReadStep(value[0], Escape(tail) + "\"" + rest);
      assert Escape(value) + "\"" + rest == EscapeChar(value[0]) + (Escape(tail) + "\"" + rest);
    }
  }

  /**
   Quoting loses nothing: a quoted path followed by anything is read as one
   argument, the path itself, with forward slashes for backslashes on Windows.
   */
  lemma {:induction false} QuoteRoundTrip(value: string, windows: bool, rest: string)
    ensures var q := Quoted(value, windows) + rest;
      && q[0] == '"' && ReadQuoted(q[1..]) == Some((Normalize(value, windows), rest))
    ensures |Normalize(value, windows)| == |value|
    ensures forall i :: 0 <= i < |value| ==>
      Normalize(value, windows)[i] == if windows && value[i] == '\\' then '/' else value[i]
  {
    var q := Quoted(value, windows) + rest;
    EscapeRoundTrip(Normalize(value, windows), rest);
    assert q[1..] == Escape(Normalize(value, windows)) + "\"" + rest;
  }

  lemma {:induction false} EscapeOneLine(value: string)
    requires OneLine(value)
    ensures OneLine(Escape(value))
  {
    if value != "" {
      EscapeOneLine(value[..|value| - 1]);
    }
  }

  /** A quoted path is never blank at its ends and stays on one line. */
  lemma {:induction false} QuotedShape(value: string, windows: bool)
    requires OneLine(value)
    ensures OneLine(Quoted(value, windows))
    ensures var q := Quoted(value, windows); |q| >= 2 && q[0] == '"' && q[|q| - 1] == '"'
  {
    EscapeOneLine(Normalize(value, windows));
  }

  // --- Include lines ------------------------------------------------------

  datatype PathStyle = Absolute | HomeRelative

  /** A managed file: its absolute path, and how the home-relative style spells it. */
  datatype Target = Target(path: string, homePath: string)

  /** Where the snippet lives now, and where older builds kept it. */
  datatype Site = Site(current: Target, legacy: Option<Target>, style: PathStyle, windows: bool)

  function IncludeArg(path: string, windows: bool): string {
    "Include " + Quoted(path, windows)
  }

  function WantedLine(site: Site): string {
    IncludeArg(if site.style.Absolute? then site.current.path else site.current.homePath, site.windows)
  }

  predicate MatchesTarget(line: string, t: Target, windows: bool) {
    var trimmed := Trim(line);
    || trimmed == IncludeArg(t.path, windows)
    || trimmed == IncludeArg(t.homePath, windows)
    || trimmed == "Include " + t.path
  }

  /** `line_matches_current_or_legacy_sshwarden_include`. */
  predicate Matches(line: string, site: Site) {
    || MatchesTarget(line, site.current, site.windows)
    || (site.legacy.Some? && MatchesTarget(line, site.legacy.value, site.windows))
  }

  predicate GoodSite(site: Site) {
    OneLine(site.current.path) && OneLine(site.current.homePath)
  }

  lemma {:induction false} WantedShape(site: Site)
    requires GoodSite(site)
    ensures OneLine(WantedLine(site)) && Trim(WantedLine(site)) == WantedLine(site)
    ensures StripCr(WantedLine(site)) == WantedLine(site)
    ensures WantedLine(site) != "" && WantedLine(site)[0] == 'I'
    ensures Matches(WantedLine(site), site)
  {
    var w := WantedLine(site);
    var path := if site.style.Absolute? then site.current.path else site.current.homePath;
    QuotedShape(path, site.windows);
    var q := Quoted(path, site.windows);
    assert w == "Include " + q;
    assert w[0] == 'I' && w[|w| - 1] == q[|q| - 1];
    TrimOfTrimmed(w);
    assert OneLine(w) by {
      forall i | 0 <= i < |w| ensures w[i] != '\n' {
        if i >= 8 { assert w[i] == q[i - 8]; }
      }
    }
  }

  /** The line to install includes the managed file, spelled in the configured style. */
  lemma {:induction false} WantedReads(site: Site)
    ensures var w := WantedLine(site);
      var path := match site.style { case Absolute => site.current.path case HomeRelative => site.current.homePath };
      && |w| > 9 && w[..9] == "Include \"" && ReadQuoted(w[9..]) == Some((Normalize(path, site.windows), ""))
  {
    var path := if site.style.Absolute? then site.current.path else site.current.homePath;
    var q := Quoted(path, site.windows);
    QuoteRoundTrip(path, site.windows, "");
    assert q + "" == q;
    var w := WantedLine(site);
    assert w == "Include " + q && w[8..] == q && w[9..] == q[1..] && w[8] == q[0];
    assert w[..9] == "Include \"";
  }

  /** Every spelling a build has written of the file's present or former place counts as SSHWarden's, and nothing else. */
  lemma {:induction false} MatchesExactly(line: string, site: Site)
    ensures Matches(line, site) <==>
      exists t :: (t == site.current || Some(t) == site.legacy) &&
        Trim(line) in {"Include " + t.path, "Include " + Quoted(t.path, site.windows), "Include " + Quoted(t.homePath, site.windows)}
  {
    hide Trim, Quoted;
    if Matches(line, site) {
      if MatchesTarget(line, site.current, site.windows) {
        assert Trim(line) in {"Include " + site.current.path, "Include " + Quoted(site.current.path, site.windows), "Include " + Quoted(site.current.homePath, site.windows)};
      } else {
        var t := site.legacy.value;
        assert Trim(line) in {"Include " + t.path, "Include " + Quoted(t.path, site.windows), "Include " + Quoted(t.homePath, site.windows)};
      }
    }
  }
}
