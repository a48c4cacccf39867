/** What each printed line says to the importer. */
module SnippetNotes {
  import opened Text
  import opened ManagedConfig
  import opened Snippet

  /** Vault item ids: one trimmed line without an opening parenthesis. */
  predicate GoodId(id: string) {
    id != "" && Trimmed(id) && OneLine(id) && Absent('(', id)
  }

  predicate GoodIds(known: set<string>) {
    forall id <- known :: GoodId(id)
  }

  // --- Comment lines ------------------------------------------------------

  lemma {:induction false} FirstWord(t: string)
    requires t != "" && !IsWhite(t[0])
    ensures Words(t) != [] && Words(t)[0] != "" && Words(t)[0][0] == t[0]
  {
  }

  lemma {:induction false} HashIsNoHost(t: string)
    requires t != "" && t[0] == '#'
    ensures HostNote(Words(t)) == Inert
  {
    FirstWord(t);
    assert ToLowerAscii('#') != ToLowerAscii('H');
  }

  lemma {:induction false} NoParenNoLegacy(t: string)
    requires t != "" && t[|t| - 1] != ')'
    ensures LegacyId(t).None?
  {
  }

  /** A comment that does not start like a marker nor end like a key comment. */
  lemma {:induction false} CommentIsInert(line: string, known: set<string>)
    requires |line| >= 3 && line[0] == '#' && line[1] == ' ' && line[2] != 's'
    requires line[|line| - 1] != ')' && !IsWhite(line[|line| - 1])
    ensures NoteOf(line, known) == Inert
  {
    TrimOfTrimmed(line);
    NoParenNoLegacy(line);
    HashIsNoHost(line);
    assert KEY_MARKER[2] == 's';
    assert |KEY_MARKER| <= |line| ==> line[..|KEY_MARKER|][2] == line[2];
  }

  lemma {:induction false} BlankIsInert(known: set<string>)
    ensures NoteOf("", known) == Inert
  {
  }

  // --- Key lines ----------------------------------------------------------

  lemma {:induction false} MarkerLineNote(id: string, known: set<string>)
    requires GoodId(id) && id in known
    ensures NoteOf(KEY_MARKER + id, known) == IdLine(id)
  {
    var t := KEY_MARKER + id;
    assert t[0] == '#' && t[|t| - 1] == id[|id| - 1];
    TrimOfTrimmed(t);
    assert t[..|KEY_MARKER|] == KEY_MARKER && t[|KEY_MARKER|..] == id;
    TrimOfTrimmed(id);
  }

  lemma {:induction false} LastOpenAt(s: string, i: nat)
    requires i + 2 <= |s| && s[i] == ' ' && s[i + 1] == '(' && Absent('(', s[i + 2..])
    ensures LastOpen(s) == Some(i)
    decreases |s|
  {
    if i + 2 < |s| {
      assert s[|s| - 1] == s[i + 2..][|s| - 3 - i];
      var front := s[..|s| - 1];
      assert front[i + 2..] == s[i + 2..][..|s| - 3 - i];
      LastOpenAt(front, i);
    }
  }

  lemma {:induction false} LegacyOfComment(k: ManagedKey)
    requires Absent('(', k.id)
    ensures LegacyId(Comment(k)) == Some(k.id)
  {
    var c := k.name + " (" + (k.id + ")");
    CommentOpens(k.name, k.id);
    CommentShape(k);
    hide LastOpen, Comment, Absent, LegacyId;
    LegacyFrom(Comment(k), c, |k.name|, k.id);
  }

  lemma {:induction false} CommentShape(k: ManagedKey)
    ensures var t := Comment(k); |t| >= 2 && t[0] == '#' && t[1] == ' ' && t[2..] == k.name + " (" + (k.id + ")")
  {
    assert Comment(k) == "# " + (k.name + " (" + (k.id + ")"));
  }

  lemma {:induction false} CommentOpens(name: string, id: string)
    requires Absent('(', id)
    ensures var c := name + " (" + (id + ")");
      LastOpen(c) == Some(|name|) && |name| + 2 <= |c| && c[|name| + 2..] == id + ")"
  {
    var c := name + " (" + (id + ")");
    assert c[|name| + 2..] == id + ")";
    hide LastOpen;
    LastOpenAt(c, |name|);
  }

  lemma {:induction false} LegacyFrom(t: string, c: string, i: nat, id: string)
    requires |t| >= 2 && t[0] == '#' && t[1] == ' ' && t[2..] == c
    requires LastOpen(c) == Some(i) && i + 2 <= |c| && c[i + 2..] == id + ")"
    ensures LegacyId(t) == Some(id)
  {
    hide LastOpen;
    assert (id + ")")[..|id|] == id;
  }

  lemma {:induction false} TrimKeeps(s: string, c: char)
    requires c in s && !IsWhite(c)
    ensures c in Trim(s)
  {
    TrimStartKeeps(s, c);
    TrimEndKeeps(TrimStart(s), c);
  }

  lemma {:induction false} TrimStartKeeps(s: string, c: char)
    requires c in s && !IsWhite(c)
    ensures c in TrimStart(s)
  {
    if s != "" && IsWhite(s[0]) {
      TrimStartKeeps(s[1..], c);
    }
  }

  lemma {:induction false} TrimEndKeeps(s: string, c: char)
    requires c in s && !IsWhite(c)
    ensures c in TrimEnd(s)
  {
    if s != "" && IsWhite(s[|s| - 1]) {
      TrimEndKeeps(s[..|s| - 1], c);
    }
  }

  lemma {:induction false} MarkerHasNoParen()
    ensures Absent('(', KEY_MARKER)
  {
  }

  /** A name that looks like a marker makes an id with a parenthesis in it: no known id. */
  lemma {:induction false} MarkerLikeComment(k: ManagedKey, known: set<string>)
    requires GoodIds(known) && MarkerId(Comment(k)).Some?
    ensures MarkerId(Comment(k)).value !in known
  {
    var t := Comment(k);
    var n := |KEY_MARKER|;
    var p := |k.name| + 3;
    assert t[p] == '(';
    MarkerHasNoParen();
    assert p >= n by { assert forall i :: 0 <= i < n ==> t[i] == KEY_MARKER[i]; }
    assert t[n..][p - n] == '(';
    TrimKeeps(t[n..], '(');
  }

  lemma {:induction false} MarkerLikeName(k: ManagedKey)
    requires MarkerId(Comment(k)).Some?
    ensures KEY_MARKER[2..] <= k.name + " ("
  {
    var t, n, name := Comment(k), |KEY_MARKER|, k.name + " (";
    var p := |k.name| + 3;
    assert t[p] == '(';
    MarkerHasNoParen();
    assert p >= n by { assert forall i :: 0 <= i < n ==> t[i] == KEY_MARKER[i]; }
    assert t[2..|name| + 2] == name;
    assert KEY_MARKER[2..] == t[2..n] == name[..n - 2];
  }

  /** The comment names the key again, as older files have it, or, if the name makes it look like a marker, says nothing. */
  lemma {:induction false} CommentNote(k: ManagedKey, known: set<string>)
    requires GoodIds(known) && k.id in known
    ensures NoteOf(Comment(k), known) == Inert || NoteOf(Comment(k), known) == IdLine(k.id)
    ensures !(KEY_MARKER[2..] <= k.name + " (") ==> NoteOf(Comment(k), known) == IdLine(k.id)
  {
    var t := Comment(k);
    assert t[0] == '#' && t[|t| - 1] == ')';
    TrimOfTrimmed(t);
    if MarkerId(t).Some? {
      MarkerLikeComment(k, known);
      HashIsNoHost(t);
      MarkerLikeName(k);
    } else {
      LegacyOfComment(k);
    }
  }

  // --- Directives ---------------------------------------------------------

  lemma {:induction false} JoinTrimmed(ws: seq<string>)
    requires ws != [] && forall w <- ws :: Token(w)
    ensures Join(ws, " ") != "" && Trimmed(Join(ws, " ")) && Join(ws, " ")[0] == ws[0][0]
  {
    assert Token(ws[0]);
    if |ws| > 1 {
      JoinTrimmed(ws[1..]);
      var s, tail := Join(ws, " "), Join(ws[1..], " ");
      assert s == ws[0] + " " + tail;
      assert s[|s| - 1] == tail[|tail| - 1];
    }
  }

  lemma {:induction false} NotHashNoId(t: string, known: set<string>)
    requires t != "" && t[0] != '#'
    ensures KnownId(t, known).None?
  {
    assert |KEY_MARKER| <= |t| ==> t[..|KEY_MARKER|][0] == t[0];
    assert KEY_MARKER[0] == '#';
  }

  lemma {:induction false} HostLineNote(hosts: seq<string>, known: set<string>)
    requires hosts != [] && forall h <- hosts :: Token(h)
    ensures NoteOf("Host " + Join(hosts, " "), known) == HostLine(DropPlaceholders(hosts))
  {
    var ws := ["Host"] + hosts;
    assert ws[1..] == hosts;
    assert Join(ws, " ") == "Host " + Join(hosts, " ");
    assert Token("Host");
    assert forall w <- ws :: Token(w);
    JoinTrimmed(ws);
    TrimOfTrimmed(Join(ws, " "));
    NotHashNoId(Join(ws, " "), known);
    WordsOfJoin(ws);
  }

  /** An edited Host line counts whatever the case of its keyword. */
  lemma {:induction false} AnyCaseHost(keyword: string, hosts: seq<string>, known: set<string>)
    requires keyword in {"Host", "host", "HOST", "hOST"} && hosts != [] && forall h <- hosts :: Token(h)
    ensures NoteOf(keyword + " " + Join(hosts, " "), known) == HostLine(DropPlaceholders(hosts))
  {
    var ws := [keyword] + hosts;
    assert ws[1..] == hosts;
    assert Join(ws, " ") == keyword + " " + Join(hosts, " ");
    assert Token(keyword) && keyword[0] != '#' && EqIgnoreCase(keyword, "Host");
    hide EqIgnoreCase;
    assert forall w <- ws :: Token(w);
    JoinTrimmed(ws);
    TrimOfTrimmed(Join(ws, " "));
    NotHashNoId(Join(ws, " "), known);
    WordsOfJoin(ws);
  }

  lemma {:induction false} TrimLeadingSpace(s: string)
    ensures Trim(" " + s) == Trim(s)
  {
    assert (" " + s)[1..] == s;
  }

  lemma {:induction false} TrimIndent(s: string)
    ensures Trim("    " + s) == Trim(s)
  {
    assert "    " + s == " " + (" " + (" " + (" " + s)));
    TrimLeadingSpace(s);
    TrimLeadingSpace(" " + s);
    TrimLeadingSpace(" " + (" " + s));
    TrimLeadingSpace(" " + (" " + (" " + s)));
  }

  /** An indented directive other than Host says nothing. */
  lemma {:induction false} DirectiveIsInert(word: string, rest: string, known: set<string>)
    requires Token(word) && word[0] != '#' && |word| > 4
    requires rest != "" && !IsWhite(rest[|rest| - 1])
    ensures NoteOf("    " + (word + " " + rest), known) == Inert
  {
    var t := word + " " + rest;
    assert t[0] == word[0] && t[|t| - 1] == rest[|rest| - 1];
    TrimIndent(t);
    TrimOfTrimmed(t);
    NotHashNoId(t, known);
    assert t == word + (" " + rest);
    WordLenOf(word, " " + rest);
    assert t[..|word|] == word;
    assert Words(t)[0] == word;
  }
}
