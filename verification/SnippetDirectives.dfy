/** What OpenSSH reads in the managed file: a reader of ssh_config lines, and the directives the printed snippet gives it. */
module SnippetDirectives {
  import opened Text
  import opened Bindings
  import opened SshConfigArg
  import opened ManagedConfig
  import opened Snippet
  import opened SnippetNotes
  import opened RoundTrip

  // --- The reader ---------------------------------------------------------

  datatype Directive =
    | HostIs(patterns: seq<string>)
    | IdentityFileIs(path: string)
    | IdentitiesOnlyIs(value: string)
    | OtherDirective(line: string)

  /** An argument, quoted or not; nothing may follow a closing quote. */
  function ReadArg(arg: string): Option<string> {
    if arg == "" || arg[0] != '"' then Some(arg)
    else
      match ReadQuoted(arg[1..])
      case Some((value, rest)) => if Trim(rest) == "" then Some(value) else None
      case None => None
  }

  /** What a keyword, in any case, and its argument mean. */
  function Meaning(keyword: string, arg: string): Directive {
    if EqIgnoreCase(keyword, "Host") then HostIs(Words(arg))
    else if EqIgnoreCase(keyword, "IdentityFile") && ReadArg(arg).Some? then IdentityFileIs(ReadArg(arg).value)
    else if EqIgnoreCase(keyword, "IdentitiesOnly") then IdentitiesOnlyIs(arg)
    else OtherDirective(keyword + " " + arg)
  }

  /** Blank lines and comments say nothing. */
  function DirectiveOf(line: string): Option<Directive> {
    var t := Trim(line);
    if t == "" || t[0] == '#' then None else Some(Meaning(t[..WordLen(t)], Trim(t[WordLen(t)..])))
  }

  function Directives(lines: seq<string>): seq<Directive> {
    if lines == [] then []
    else
      var d := DirectiveOf(lines[|lines| - 1]);
      Directives(lines[..|lines| - 1]) + if d.Some? then [d.value] else []
  }

  function ReadConfig(text: string): seq<Directive> {
    Directives(Lines(text))
  }

  // --- Reading lists of lines ---------------------------------------------

  lemma {:induction false} DirectivesSnoc(front: seq<string>, last: string)
    ensures var d := DirectiveOf(last); Directives(front + [last]) == Directives(front) + if d.Some? then [d.value] else []
  {
    assert (front + [last])[..|front|] == front;
  }

  lemma {:induction false} DirectivesAppend(a: seq<string>, b: seq<string>)
    ensures Directives(a + b) == Directives(a) + Directives(b)
    decreases |b|
  {
    if b == [] {
      assert a + b == a;
    } else {
      var front, last := b[..|b| - 1], b[|b| - 1];
      assert b == front + [last];
      assert a + b == (a + front) + [last];
      hide DirectiveOf, Directives;
      DirectivesAppend(a, front);
      DirectivesSnoc(a + front, last);
      DirectivesSnoc(front, last);
    }
  }

  ghost predicate Silent(lines: seq<string>) {
    forall i :: 0 <= i < |lines| ==> DirectiveOf(lines[i]) == None
  }

  lemma {:induction false} SilentLines(lines: seq<string>)
    requires Silent(lines)
    ensures Directives(lines) == []
    decreases |lines|
  {
    hide DirectiveOf;
    if lines != [] {
      SilentLines(lines[..|lines| - 1]);
    }
  }

  lemma {:induction false} BlankIsSilent()
    ensures DirectiveOf("") == None
  {
  }

  lemma {:induction false} CommentIsSilent(line: string)
    requires line != "" && line[0] == '#'
    ensures DirectiveOf(line) == None
  {
    TrimStartsAt(line);
  }

  /** A line that starts with a character keeps it when trimmed. */
  lemma {:induction false} TrimStartsAt(s: string)
    requires s != "" && !IsWhite(s[0])
    ensures Trim(s) != "" && Trim(s)[0] == s[0]
    decreases |s|
  {
    assert TrimStart(s) == s;
    if |s| > 1 && IsWhite(s[|s| - 1]) {
      var front := s[..|s| - 1];
      assert TrimStart(front) == front;
      TrimStartsAt(front);
    }
  }

  lemma {:induction false} StrippedSame(l: string)
    ensures DirectiveOf(StripCr(l)) == DirectiveOf(l)
  {
    StripCrTrim(l);
  }

  lemma {:induction false} DirectivesAlike(a: seq<string>, b: seq<string>)
    requires |a| == |b| && forall i :: 0 <= i < |a| ==> DirectiveOf(a[i]) == DirectiveOf(b[i])
    ensures Directives(a) == Directives(b)
    decreases |a|
  {
    hide DirectiveOf;
    if a != [] {
      DirectivesAlike(a[..|a| - 1], b[..|b| - 1]);
    }
  }

  /** Written and read back, lines give the same directives. */
  lemma {:induction false} DirectivesRead(written: seq<string>, out: seq<string>)
    requires LinesOf(written, out)
    ensures Directives(out) == Directives(written)
  {
    hide DirectiveOf, StripCr, Directives;
    var same := written[..|out|];
    forall i | 0 <= i < |out| ensures DirectiveOf(out[i]) == DirectiveOf(same[i]) {
      StrippedSame(written[i]);
    }
    DirectivesAlike(out, same);
    if |out| < |written| {
      BlankIsSilent();
      DirectivesSnoc(same, "");
      assert written == same + [""];
    } else {
      assert written == same;
    }
  }

  lemma {:induction false} DirectivesOfText(ls: seq<string>)
    requires AllOneLine(ls)
    ensures ReadConfig(Join(ls, "\n")) == Directives(ls)
  {
    hide Lines, Join, LinesOf, Directives;
    LinesOfJoin(ls);
    DirectivesRead(ls, Lines(Join(ls, "\n")));
  }

  // --- Printed directives -------------------------------------------------

  /** A keyword, a blank and an argument without blanks at its ends. */
  lemma {:induction false} KeywordLine(keyword: string, arg: string)
    requires Token(keyword) && keyword[0] != '#' && arg != "" && Trimmed(arg)
    ensures DirectiveOf(keyword + " " + arg) == Some(Meaning(keyword, arg))
  {
    var t := keyword + " " + arg;
    var rest := " " + arg;
    assert t == keyword + rest;
    assert t[0] == keyword[0] && t[|t| - 1] == arg[|arg| - 1];
    TrimOfTrimmed(t);
    WordLenOf(keyword, rest);
    assert t[..|keyword|] == keyword && t[|keyword|..] == rest;
    TrimLeadingSpace(arg);
    TrimOfTrimmed(arg);
    hide Meaning;
  }

  /** Indentation does not matter. */
  lemma {:induction false} Indented(t: string)
    ensures DirectiveOf("    " + t) == DirectiveOf(t) && DirectiveOf(" " + t) == DirectiveOf(t)
  {
    TrimIndent(t);
    TrimLeadingSpace(t);
    hide Trim, Meaning, WordLen;
  }

  lemma {:induction false} HostDirective(hosts: seq<string>)
    requires hosts != [] && forall h <- hosts :: Token(h)
    ensures DirectiveOf("Host " + Join(hosts, " ")) == Some(HostIs(hosts))
  {
    JoinTrimmed(hosts);
    WordsOfJoin(hosts);
    var arg := Join(hosts, " ");
    assert "Host " + arg == "Host" + " " + arg;
    hide DirectiveOf, Words, Join;
    KeywordLine("Host", arg);
    SameWord("Host");
  }

  lemma {:induction false} SameWord(w: string)
    ensures EqIgnoreCase(w, w)
  {
  }

  lemma {:induction false} OtherWord(a: string, b: string)
    requires |a| != |b|
    ensures !EqIgnoreCase(a, b)
  {
  }

  lemma {:induction false} ReadsQuoted(value: string, windows: bool)
    ensures ReadArg(Quoted(value, windows)) == Some(Normalize(value, windows))
  {
    QuoteRoundTrip(value, windows, "");
    assert Quoted(value, windows) + "" == Quoted(value, windows);
    hide ReadQuoted, Quoted, Normalize;
  }

  lemma {:induction false} FileMeans(arg: string)
    requires ReadArg(arg).Some?
    ensures Meaning("IdentityFile", arg) == IdentityFileIs(ReadArg(arg).value)
  {
    OtherWord("IdentityFile", "Host");
    SameWord("IdentityFile");
    hide EqIgnoreCase, ReadArg, Words;
  }

  lemma {:induction false} FileText(q: string)
    ensures "    IdentityFile " + q == "    " + ("IdentityFile" + " " + q)
    ensures Token("IdentityFile") && "IdentityFile"[0] != '#'
  {
  }

  lemma {:induction false} IdentityDirective(path: string, windows: bool)
    requires OneLine(path)
    ensures DirectiveOf("    IdentityFile " + Quoted(path, windows)) == Some(IdentityFileIs(Normalize(path, windows)))
  {
    var q := Quoted(path, windows);
    QuotedShape(path, windows);
    assert q != "" && Trimmed(q);
    hide DirectiveOf, Quoted, ReadArg, Normalize, Meaning, Token, Trimmed, OneLine;
    ReadsQuoted(path, windows);
    FileText(q);
    FileMeans(q);
    Indented("IdentityFile" + " " + q);
    KeywordLine("IdentityFile", q);
  }

  lemma {:induction false} OnlyMeans(arg: string)
    ensures Meaning("IdentitiesOnly", arg) == IdentitiesOnlyIs(arg)
  {
    OtherWord("IdentitiesOnly", "Host");
    OtherWord("IdentitiesOnly", "IdentityFile");
    SameWord("IdentitiesOnly");
    hide EqIgnoreCase, ReadArg, Words;
  }

  lemma {:induction false} OnlyKeyword()
    ensures Token("IdentitiesOnly") && "IdentitiesOnly"[0] != '#' && "yes" != "" && Trimmed("yes")
  {
  }

  lemma {:induction false} OnlyText()
    ensures "    IdentitiesOnly yes" == "    " + ("IdentitiesOnly" + " " + "yes")
  {
  }

  lemma {:induction false} OnlyDirective()
    ensures DirectiveOf("    IdentitiesOnly yes") == Some(IdentitiesOnlyIs("yes"))
  {
    hide DirectiveOf, Meaning, Token, Trimmed;
    OnlyText();
    OnlyKeyword();
    OnlyMeans("yes");
    Indented("IdentitiesOnly" + " " + "yes");
    KeywordLine("IdentitiesOnly", "yes");
  }

  // --- The whole snippet --------------------------------------------------

  /** What is wanted of the config: for each bound key in turn its hosts, its selector file and no other key. */
  function Wanted(keys: seq<ManagedKey>, b: BindingMap, at: Layout): seq<Directive> {
    if keys == [] then []
    else
      var k := keys[|keys| - 1];
      Wanted(keys[..|keys| - 1], b, at) + if HostsOf(b, k.id) == [] then [] else Selecting(HostsOf(b, k.id), at.selector(k), at.windows)
  }

  /** Offer this selector file, and only it, to these hosts. */
  function Selecting(hosts: seq<string>, path: string, windows: bool): seq<Directive> {
    [HostIs(hosts), IdentityFileIs(Normalize(path, windows)), IdentitiesOnlyIs("yes")]
  }

  lemma {:induction false} KeyLinesSilent(k: ManagedKey)
    ensures DirectiveOf(KEY_MARKER + k.id) == None && DirectiveOf(Comment(k)) == None
  {
    assert (KEY_MARKER + k.id)[0] == '#' && Comment(k)[0] == '#';
    hide DirectiveOf;
    CommentIsSilent(KEY_MARKER + k.id);
    CommentIsSilent(Comment(k));
  }

  lemma {:induction false} SixLines(a: string, b: string, c: string, d: string, e: string, f: string)
    requires DirectiveOf(a) == None && DirectiveOf(b) == None && DirectiveOf(f) == None
    requires DirectiveOf(c).Some? && DirectiveOf(d).Some? && DirectiveOf(e).Some?
    ensures Directives([a, b, c, d, e, f]) == [DirectiveOf(c).value, DirectiveOf(d).value, DirectiveOf(e).value]
  {
    hide DirectiveOf;
    SilentLines([]);
    hide Directives;
    assert [a, b, c, d, e, f] == [] + [a] + [b] + [c] + [d] + [e] + [f];
    DirectivesSnoc([], a);
    DirectivesSnoc([] + [a], b);
    DirectivesSnoc([] + [a] + [b], c);
    DirectivesSnoc([] + [a] + [b] + [c], d);
    DirectivesSnoc([] + [a] + [b] + [c] + [d], e);
    DirectivesSnoc([] + [a] + [b] + [c] + [d] + [e], f);
  }

  lemma {:induction false} BoundBlockDirectives(k: ManagedKey, hosts: seq<string>, at: Layout)
    requires OneLine(at.selector(k)) && hosts != [] && forall h <- hosts :: Token(h)
    ensures Directives(BoundBlock(k, hosts, at)) == Selecting(hosts, at.selector(k), at.windows)
  {
    hide DirectiveOf, Comment, Directives, Quoted, Normalize;
    KeyLinesSilent(k);
    HostDirective(hosts);
    IdentityDirective(at.selector(k), at.windows);
    OnlyDirective();
    BlankIsSilent();
    var block := BoundBlock(k, hosts, at);
    SixLines(block[0], block[1], block[2], block[3], block[4], block[5]);
  }

  lemma {:induction false} BoundDirectives(keys: seq<ManagedKey>, b: BindingMap, at: Layout, known: set<string>)
    requires forall k <- keys :: GoodKey(k, at, known) && forall h <- HostsOf(b, k.id) :: Token(h)
    ensures Directives(BoundLines(BoundKeys(keys, b), b, at)) == Wanted(keys, b, at)
    decreases |keys|
  {
    hide BoundBlock, Directives, Selecting;
    if keys == [] {
      SilentLines([]);
    } else {
      var front, k := keys[..|keys| - 1], keys[|keys| - 1];
      BoundDirectives(front, b, at, known);
      var bound, hosts := BoundKeys(front, b), HostsOf(b, k.id);
      if hosts != [] {
        assert (bound + [k])[..|bound|] == bound;
        BoundBlockDirectives(k, hosts, at);
        DirectivesAppend(BoundLines(bound, b, at), BoundBlock(k, hosts, at));
      }
    }
  }

  lemma {:induction false} UnboundSilent(keys: seq<ManagedKey>, at: Layout)
    ensures Directives(UnboundLines(keys, at)) == []
    decreases |keys|
  {
    hide DirectiveOf, Comment, SelectorArg;
    if keys != [] {
      var front, k := keys[..|keys| - 1], keys[|keys| - 1];
      UnboundSilent(front, at);
      KeyLinesSilent(k);
      BlankIsSilent();
      var block := UnboundBlock(k, at);
      assert block[3][0] == '#';
      CommentIsSilent(block[2]);
      CommentIsSilent(block[3]);
      CommentIsSilent(block[4]);
      SilentLines(block);
      DirectivesAppend(UnboundLines(front, at), block);
    }
  }

  lemma {:induction false} FrameSilent()
    ensures Directives(HEADER) == [] && Directives([UNBOUND_TITLE, ""]) == []
  {
    hide DirectiveOf, TITLE_LINE, EDIT_LINE, OTHER_LINE, UNBOUND_TITLE, PlainComment;
    HeaderShape();
    TitleShape();
    PlainIsSilent(HEADER[0]);
    PlainIsSilent(HEADER[1]);
    PlainIsSilent(HEADER[2]);
    PlainIsSilent(UNBOUND_TITLE);
    BlankIsSilent();
    SilentLines(HEADER);
    SilentLines([UNBOUND_TITLE, ""]);
  }

  lemma {:induction false} PlainIsSilent(line: string)
    requires PlainComment(line)
    ensures DirectiveOf(line) == None
  {
    CommentIsSilent(line);
  }

  /**
   OpenSSH reads in the printed snippet, for each key with hosts and in order,
   one Host block with exactly those hosts, the key's selector file and
   `IdentitiesOnly yes`, and nothing else.
   */
  lemma {:induction false} SnippetSelectsTheKeys(keys: seq<ManagedKey>, b: BindingMap, at: Layout)
    requires GoodInput(keys, b, at)
    ensures ReadConfig(Rendered(keys, b, at)) == Wanted(keys, b, at)
  {
    hide Directives, SnippetLines, Lines, Join, Wanted, GoodInput;
    SnippetOneLine(keys, b, at);
    DirectivesOfText(SnippetLines(keys, b, at));
    SnippetLinesSelect(keys, b, at);
  }

  lemma {:induction false} SnippetLinesSelect(keys: seq<ManagedKey>, b: BindingMap, at: Layout)
    requires GoodInput(keys, b, at)
    ensures Directives(SnippetLines(keys, b, at)) == Wanted(keys, b, at)
  {
    BoundSelect(keys, b, at);
    hide Directives, BoundLines, UnboundLines, HEADER, UNBOUND_TITLE, Wanted, GoodInput, BoundKeys, UnboundKeys;
    var bound, unbound := BoundLines(BoundKeys(keys, b), b, at), UnboundKeys(keys, b);
    UnboundPartSilent(unbound, at);
    FrameSilent();
    DirectivesAppend(HEADER, bound);
    DirectivesAppend(HEADER + bound, UnboundPart(unbound, at));
  }

  lemma {:induction false} BoundSelect(keys: seq<ManagedKey>, b: BindingMap, at: Layout)
    requires GoodInput(keys, b, at)
    ensures Directives(BoundLines(BoundKeys(keys, b), b, at)) == Wanted(keys, b, at)
  {
    hide Directives, BoundLines, Wanted, OneLine, Token;
    forall k <- keys ensures GoodKey(k, at, IdsOf(keys)) {
    }
    BoundDirectives(keys, b, at, IdsOf(keys));
  }

  lemma {:induction false} UnboundPartSilent(keys: seq<ManagedKey>, at: Layout)
    ensures Directives(UnboundPart(keys, at)) == []
  {
    hide Directives, UnboundLines, UNBOUND_TITLE;
    SilentLines([]);
    FrameSilent();
    UnboundSilent(keys, at);
    DirectivesAppend([UNBOUND_TITLE, ""], UnboundLines(keys, at));
  }

  /** A commented line with its `#` taken away. */
  function Uncommented(line: string): string {
    if line != "" && line[0] == '#' then line[1..] else line
  }

  /** Uncommenting an unbound key's template gives its block, with a host to fill in. */
  lemma {:induction false} TemplateSelectsTheKey(k: ManagedKey, at: Layout)
    requires OneLine(at.selector(k))
    ensures var block := UnboundBlock(k, at);
      && DirectiveOf(Uncommented(block[2])) == Some(HostIs([PLACEHOLDER]))
      && DirectiveOf(Uncommented(block[3])) == Some(IdentityFileIs(Normalize(at.selector(k), at.windows)))
      && DirectiveOf(Uncommented(block[4])) == Some(IdentitiesOnlyIs("yes"))
  {
    hide DirectiveOf, Quoted, Normalize;
    TemplateHost();
    TemplateFile(Quoted(at.selector(k), at.windows));
    IdentityDirective(at.selector(k), at.windows);
    Indented("    IdentityFile " + Quoted(at.selector(k), at.windows));
    TemplateOnly();
    OnlyDirective();
    Indented("    IdentitiesOnly yes");
  }

  lemma {:induction false} TemplateHostText()
    ensures Uncommented("# Host <host>") == " " + ("Host " + PLACEHOLDER)
  {
    assert "# Host <host>"[1..] == " " + ("Host " + PLACEHOLDER);
  }

  lemma {:induction false} TemplateHost()
    ensures DirectiveOf(Uncommented("# Host <host>")) == Some(HostIs([PLACEHOLDER]))
  {
    assert Token(PLACEHOLDER);
    assert Join([PLACEHOLDER], " ") == PLACEHOLDER;
    hide DirectiveOf, Token, Uncommented, Join, PLACEHOLDER;
    TemplateHostText();
    HostDirective([PLACEHOLDER]);
    Indented("Host " + PLACEHOLDER);
  }

  lemma {:induction false} TemplateFile(q: string)
    ensures Uncommented("#     IdentityFile " + q) == " " + ("    IdentityFile " + q)
  {
    assert "#     IdentityFile " + q == "#" + (" " + ("    IdentityFile " + q));
    assert ("#" + (" " + ("    IdentityFile " + q)))[1..] == " " + ("    IdentityFile " + q);
  }

  lemma {:induction false} TemplateOnly()
    ensures Uncommented("#     IdentitiesOnly yes") == " " + "    IdentitiesOnly yes"
  {
    assert "#     IdentitiesOnly yes"[1..] == " " + "    IdentitiesOnly yes";
  }
}
