/** Importing a printed snippet: what comes back, for every key list and binding map. */
module RoundTrip {
  import opened Text
  import opened Bindings
  import opened SshConfigArg
  import opened ManagedConfig
  import opened Snippet
  import opened SnippetNotes

  function IdsOf(keys: seq<ManagedKey>): set<string> {
    set k <- keys :: k.id
  }

  /** Names and paths fit on a line; ids are ids. */
  ghost predicate Printable(keys: seq<ManagedKey>, at: Layout) {
    && GoodIds(IdsOf(keys))
    && (forall k <- keys :: OneLine(k.name))
    && (forall k <- keys :: OneLine(at.selector(k)))
  }

  ghost predicate TokenHosts(keys: seq<ManagedKey>, b: BindingMap) {
    forall k <- keys :: forall h <- HostsOf(b, k.id) :: Token(h)
  }

  // --- Notes of one block -------------------------------------------------

  /** The notes of a bound key's block: the key, perhaps again, its hosts, and nothing more. */
  ghost predicate BoundNotes(ns: seq<Note>, id: string, hosts: seq<string>) {
    && |ns| == 6 && ns[0] == IdLine(id) && (ns[1] == Inert || ns[1] == IdLine(id))
    && ns[2] == HostLine(hosts) && ns[3] == Inert && ns[4] == Inert && ns[5] == Inert
  }

  ghost predicate UnboundNotes(ns: seq<Note>, id: string) {
    && |ns| == 6 && ns[0] == IdLine(id) && (ns[1] == Inert || ns[1] == IdLine(id))
    && ns[2] == Inert && ns[3] == Inert && ns[4] == Inert && ns[5] == Inert
  }

  lemma {:induction false} IdentityLine(k: ManagedKey, at: Layout, known: set<string>)
    requires OneLine(at.selector(k))
    ensures NoteOf("    IdentityFile " + SelectorArg(k, at), known) == Inert
  {
    hide NoteOf;
    var q := SelectorArg(k, at);
    QuotedShape(at.selector(k), at.windows);
    assert "    IdentityFile " + q == "    " + ("IdentityFile" + " " + q);
    DirectiveIsInert("IdentityFile", q, known);
  }

  lemma {:induction false} IdentityTemplate(k: ManagedKey, at: Layout, known: set<string>)
    requires OneLine(at.selector(k))
    ensures NoteOf("#     IdentityFile " + SelectorArg(k, at), known) == Inert
  {
    hide NoteOf;
    var q := SelectorArg(k, at);
    QuotedShape(at.selector(k), at.windows);
    var c := "#     IdentityFile " + q;
    assert c[|c| - 1] == q[|q| - 1];
    CommentIsInert(c, known);
  }

  lemma {:induction false} OnlyLine(known: set<string>)
    ensures NoteOf("    IdentitiesOnly yes", known) == Inert
  {
    hide NoteOf;
    assert "    IdentitiesOnly yes" == "    " + ("IdentitiesOnly" + " " + "yes");
    DirectiveIsInert("IdentitiesOnly", "yes", known);
  }

  lemma {:induction false} TemplateLines(known: set<string>)
    ensures NoteOf("#     IdentitiesOnly yes", known) == Inert
    ensures NoteOf("# Host <host>", known) == Inert
  {
    hide NoteOf;
    CommentIsInert("#     IdentitiesOnly yes", known);
    CommentIsInert("# Host <host>", known);
  }

  lemma {:induction false} BoundBlockNotes(k: ManagedKey, hosts: seq<string>, at: Layout, known: set<string>)
    requires GoodIds(known) && k.id in known && OneLine(at.selector(k))
    requires hosts != [] && forall h <- hosts :: Token(h)
    ensures BoundNotes(Each(BoundBlock(k, hosts, at), Reader(known)), k.id, DropPlaceholders(hosts))
  {
    hide NoteOf, Comment, SelectorArg;
    MarkerLineNote(k.id, known);
    CommentNote(k, known);
    HostLineNote(hosts, known);
    IdentityLine(k, at, known);
    OnlyLine(known);
    BlankIsInert(known);
  }

  lemma {:induction false} UnboundBlockNotes(k: ManagedKey, at: Layout, known: set<string>)
    requires GoodIds(known) && k.id in known && OneLine(at.selector(k))
    ensures UnboundNotes(Each(UnboundBlock(k, at), Reader(known)), k.id)
  {
    hide NoteOf, Comment, SelectorArg;
    MarkerLineNote(k.id, known);
    CommentNote(k, known);
    IdentityTemplate(k, at, known);
    TemplateLines(known);
    BlankIsInert(known);
  }

  // --- Effect of one block ------------------------------------------------

  lemma {:induction false} InertTail(st: ImportState, notes: seq<Note>, n: nat, now: int)
    requires n <= |notes| && forall i :: n <= i < |notes| ==> notes[i] == Inert
    ensures ApplyNotes(st, notes, now) == ApplyNotes(st, notes[..n], now)
    decreases |notes|
  {
    if n < |notes| {
      var front := notes[..|notes| - 1];
      InertTail(st, front, n, now);
      assert front[..n] == notes[..n];
    } else {
      assert notes[..n] == notes;
    }
  }

  lemma {:induction false} IdPrefix(st: ImportState, ns: seq<Note>, id: string, now: int)
    requires |ns| >= 2 && ns[0] == IdLine(id) && (ns[1] == Inert || ns[1] == IdLine(id))
    ensures ApplyNotes(st, ns[..2], now) == st.(pending := Some(id))
  {
    var two := ns[..2];
    assert two[..1] == [ns[0]] && two[1] == ns[1];
    assert [ns[0]][..0] == [];
    assert ApplyNotes(st, [ns[0]], now) == st.(pending := Some(id));
  }

  lemma {:induction false} BoundEffect(st: ImportState, ns: seq<Note>, id: string, hosts: seq<string>, now: int)
    requires BoundNotes(ns, id, hosts)
    ensures ApplyNotes(st, ns, now) == ApplyNote(st.(pending := Some(id)), HostLine(hosts), now)
  {
    InertTail(st, ns, 3, now);
    IdPrefix(st, ns, id, now);
    assert ns[..3][..2] == ns[..2];
  }

  lemma {:induction false} UnboundEffect(st: ImportState, ns: seq<Note>, id: string, now: int)
    requires UnboundNotes(ns, id)
    ensures ApplyNotes(st, ns, now) == st.(pending := Some(id))
  {
    InertTail(st, ns, 2, now);
    IdPrefix(st, ns, id, now);
  }

  lemma {:induction false} NotesConcat(a: seq<string>, b: seq<string>, note: string -> Note)
    ensures Each(a + b, note) == Each(a, note) + Each(b, note)
  {
  }

  // --- Placeholders -------------------------------------------------------

  /** Printing and reading loses no placeholder: there is none, or nothing else. */
  predicate Stable(hosts: seq<string>) {
    PLACEHOLDER !in hosts || forall h <- hosts :: h == PLACEHOLDER
  }

  lemma {:induction false} DropMeaning(hosts: seq<string>)
    ensures forall h :: h in DropPlaceholders(hosts) <==> h in hosts && h != PLACEHOLDER
    ensures PLACEHOLDER !in hosts ==> DropPlaceholders(hosts) == hosts
  {
    if hosts != [] {
      DropMeaning(hosts[..|hosts| - 1]);
      assert hosts == hosts[..|hosts| - 1] + [hosts[|hosts| - 1]];
    }
  }

  // --- Effect of the printed blocks ---------------------------------------

  /** One bound block of a stable list is read without any effect. */
  lemma {:induction false} StableBlock(st: ImportState, ns: seq<Note>, id: string, hosts: seq<string>, now: int)
    requires BoundNotes(ns, id, DropPlaceholders(hosts)) && Stable(hosts)
    requires id in st.bindings && st.bindings[id].hosts == hosts
    ensures ApplyNotes(st, ns, now) == st.(pending := None)
  {
    BoundEffect(st, ns, id, DropPlaceholders(hosts), now);
    DropMeaning(hosts);
    if PLACEHOLDER in hosts {
      var d := DropPlaceholders(hosts);
      assert forall i :: 0 <= i < |d| ==> d[i] !in hosts;
    }
  }

  /** A key whose block can be printed and read. */
  ghost predicate GoodKey(k: ManagedKey, at: Layout, known: set<string>) {
    k.id in known && OneLine(k.name) && OneLine(at.selector(k))
  }

  ghost predicate GoodBound(k: ManagedKey, b: BindingMap, at: Layout, known: set<string>) {
    && GoodKey(k, at, known)
    && k.id in b && b[k.id].hosts != [] && forall h <- b[k.id].hosts :: Token(h)
  }

  /** Reading stable bound blocks changes nothing. */
  lemma {:induction false} BoundLinesEffect(st: ImportState, keys: seq<ManagedKey>, at: Layout, known: set<string>, now: int)
    requires GoodIds(known) && forall k <- keys :: GoodBound(k, st.bindings, at, known)
    requires forall k <- keys :: Stable(HostsOf(st.bindings, k.id))
    ensures ApplyNotes(st, Each(BoundLines(keys, st.bindings, at), Reader(known)), now)
         == if keys == [] then st else st.(pending := None)
    decreases |keys|
  {
    if keys != [] {
      hide Each, Reader, BoundBlock, Stable;
      var front, k := keys[..|keys| - 1], keys[|keys| - 1];
      var hosts := st.bindings[k.id].hosts;
      var note := Reader(known);
      BoundLinesEffect(st, front, at, known, now);
      var above, block := BoundLines(front, st.bindings, at), BoundBlock(k, hosts, at);
      NotesConcat(above, block, note);
      ApplyNotesConcat(st, Each(above, note), Each(block, note), now);
      assert GoodBound(k, st.bindings, at, known);
      BoundBlockNotes(k, hosts, at, known);
      StableBlock(ApplyNotes(st, Each(above, note), now), Each(block, note), k.id, hosts, now);
    }
  }

  /** Templates of unbound keys never touch the bindings. */
  lemma {:induction false} UnboundLinesEffect(st: ImportState, keys: seq<ManagedKey>, at: Layout, known: set<string>, now: int)
    requires GoodIds(known) && forall k <- keys :: GoodKey(k, at, known)
    ensures var out := ApplyNotes(st, Each(UnboundLines(keys, at), Reader(known)), now);
      out.bindings == st.bindings && out.changed == st.changed
    decreases |keys|
  {
    if keys != [] {
      hide Each, Reader, UnboundBlock;
      var front, k := keys[..|keys| - 1], keys[|keys| - 1];
      var note := Reader(known);
      UnboundLinesEffect(st, front, at, known, now);
      var above, block := UnboundLines(front, at), UnboundBlock(k, at);
      NotesConcat(above, block, note);
      ApplyNotesConcat(st, Each(above, note), Each(block, note), now);
      assert GoodKey(k, at, known);
      UnboundBlockNotes(k, at, known);
      UnboundEffect(ApplyNotes(st, Each(above, note), now), Each(block, note), k.id, now);
    }
  }

  // --- The fixed lines ----------------------------------------------------

  /** A comment line as the printer writes them: plainly neither a marker nor a key comment. */
  ghost predicate PlainComment(line: string) {
    && |line| >= 3 && line[0] == '#' && line[1] == ' ' && line[2] != 's'
    && line[|line| - 1] != ')' && !IsWhite(line[|line| - 1])
    && OneLine(line)
  }

  lemma {:induction false} TitleLineShape()
    ensures PlainComment(TITLE_LINE)
  {
  }

  lemma {:induction false} EditLineShape()
    ensures PlainComment(EDIT_LINE)
  {
  }

  lemma {:induction false} OtherLineShape()
    ensures PlainComment(OTHER_LINE)
  {
  }

  lemma {:induction false} HeaderShape()
    ensures |HEADER| == 4 && HEADER[3] == ""
    ensures PlainComment(HEADER[0]) && PlainComment(HEADER[1]) && PlainComment(HEADER[2])
  {
    hide PlainComment, TITLE_LINE, EDIT_LINE, OTHER_LINE;
    TitleLineShape();
    EditLineShape();
    OtherLineShape();
  }

  lemma {:induction false} TitleShape()
    ensures PlainComment(UNBOUND_TITLE)
  {
  }

  lemma {:induction false} HeaderInert(i: nat, known: set<string>)
    requires i < |HEADER|
    ensures NoteOf(HEADER[i], known) == Inert
  {
    hide NoteOf;
    HeaderShape();
    if i == 3 {
      BlankIsInert(known);
    } else {
      CommentIsInert(HEADER[i], known);
    }
  }

  lemma {:induction false} TitleInert(known: set<string>)
    ensures NoteOf(UNBOUND_TITLE, known) == Inert
  {
    hide NoteOf;
    TitleShape();
    CommentIsInert(UNBOUND_TITLE, known);
  }

  lemma {:induction false} InertLines(st: ImportState, lines: seq<string>, note: string -> Note, now: int)
    requires forall i :: 0 <= i < |lines| ==> note(lines[i]) == Inert
    ensures ApplyNotes(st, Each(lines, note), now) == st
  {
    InertTail(st, Each(lines, note), 0, now);
  }

  lemma {:induction false} HeaderEffect(st: ImportState, known: set<string>, now: int)
    ensures ApplyNotes(st, Each(HEADER, Reader(known)), now) == st
  {
    hide NoteOf, HEADER;
    forall i | 0 <= i < |HEADER| ensures Reader(known)(HEADER[i]) == Inert {
      HeaderInert(i, known);
    }
    InertLines(st, HEADER, Reader(known), now);
  }

  lemma {:induction false} TitleEffect(st: ImportState, known: set<string>, now: int)
    ensures ApplyNotes(st, Each([UNBOUND_TITLE, ""], Reader(known)), now) == st
  {
    hide NoteOf, UNBOUND_TITLE;
    TitleInert(known);
    BlankIsInert(known);
    InertLines(st, [UNBOUND_TITLE, ""], Reader(known), now);
  }

  // --- The whole snippet --------------------------------------------------

  /** What the printer may be given: printable keys and blank-free host words. */
  ghost predicate GoodInput(keys: seq<ManagedKey>, b: BindingMap, at: Layout) {
    Printable(keys, at) && TokenHosts(keys, b)
  }

  lemma {:induction false} KeysAreGood(keys: seq<ManagedKey>, b: BindingMap, at: Layout)
    requires GoodInput(keys, b, at)
    ensures forall k <- BoundKeys(keys, b) :: GoodBound(k, b, at, IdsOf(keys))
    ensures forall k <- UnboundKeys(keys, b) :: GoodKey(k, at, IdsOf(keys))
  {
    BoundKeysAreBound(keys, b);
  }

  ghost predicate AllStable(keys: seq<ManagedKey>, b: BindingMap) {
    forall k <- keys :: Stable(HostsOf(b, k.id))
  }

  function UnboundPart(keys: seq<ManagedKey>, at: Layout): seq<string> {
    if keys == [] then [] else [UNBOUND_TITLE, ""] + UnboundLines(keys, at)
  }

  lemma {:induction false} UnboundPartEffect(st: ImportState, keys: seq<ManagedKey>, at: Layout, known: set<string>, now: int)
    requires GoodIds(known) && forall k <- keys :: GoodKey(k, at, known)
    ensures var out := ApplyNotes(st, Each(UnboundPart(keys, at), Reader(known)), now);
      out.bindings == st.bindings && out.changed == st.changed
  {
    hide Each, Reader, UNBOUND_TITLE;
    var note := Reader(known);
    if keys == [] {
      InertLines(st, [], note, now);
    } else {
      var title := [UNBOUND_TITLE, ""];
      TitleEffect(st, known, now);
      UnboundLinesEffect(st, keys, at, known, now);
      NotesConcat(title, UnboundLines(keys, at), note);
      ApplyNotesConcat(st, Each(title, note), Each(UnboundLines(keys, at), note), now);
    }
  }

  /** Splitting the snippet's effect into its three parts. */
  lemma {:induction false} SnippetEffect(st: ImportState, keys: seq<ManagedKey>, b: BindingMap, at: Layout, known: set<string>, now: int)
    ensures var note := Reader(known);
      ApplyNotes(st, Each(SnippetLines(keys, b, at), note), now)
      == ApplyNotes(ApplyNotes(st, Each(BoundLines(BoundKeys(keys, b), b, at), note), now),
                    Each(UnboundPart(UnboundKeys(keys, b), at), note), now)
  {
    hide Each, Reader, HEADER, UNBOUND_TITLE;
    var note := Reader(known);
    var bound, unbound := BoundLines(BoundKeys(keys, b), b, at), UnboundPart(UnboundKeys(keys, b), at);
    HeaderEffect(st, known, now);
    NotesConcat(HEADER + bound, unbound, note);
    NotesConcat(HEADER, bound, note);
    ApplyNotesConcat(st, Each(HEADER + bound, note), Each(unbound, note), now);
    ApplyNotesConcat(st, Each(HEADER, note), Each(bound, note), now);
  }

  /** Reading a stable snippet, before it becomes text. */
  lemma {:induction false} StableSnippet(keys: seq<ManagedKey>, b: BindingMap, at: Layout, now: int)
    requires GoodInput(keys, b, at) && AllStable(keys, b)
    ensures var out := Imported(b, Each(SnippetLines(keys, b, at), Reader(IdsOf(keys))), now);
      out.bindings == b && !out.changed
  {
    hide Each, Reader, SnippetLines, GoodBound, GoodKey, Stable;
    var known, st := IdsOf(keys), ImportState(None, b, false);
    var bound, unbound := BoundKeys(keys, b), UnboundKeys(keys, b);
    KeysAreGood(keys, b, at);
    BoundKeysAreBound(keys, b);
    SnippetEffect(st, keys, b, at, known, now);
    BoundLinesEffect(st, bound, at, known, now);
    var mid := if bound == [] then st else st.(pending := None);
    UnboundPartEffect(mid, unbound, at, known, now);
  }

  // --- From lines to text and back ----------------------------------------

  lemma {:induction false} OneLineConcat(a: string, b: string)
    requires OneLine(a) && OneLine(b)
    ensures OneLine(a + b)
  {
  }

  lemma {:induction false} TokensOneLine(hosts: seq<string>)
    requires forall h <- hosts :: Token(h)
    ensures OneLine(Join(hosts, " "))
  {
    if hosts != [] {
      assert Token(hosts[0]);
      assert OneLine(hosts[0]) by { assert IsWhite('\n'); }
      if |hosts| > 1 {
        TokensOneLine(hosts[1..]);
      }
    }
  }

  lemma {:induction false} KeyLinesOneLine(k: ManagedKey, at: Layout)
    requires GoodId(k.id) && OneLine(k.name) && OneLine(at.selector(k))
    ensures OneLine(KEY_MARKER + k.id) && OneLine(Comment(k))
    ensures OneLine("    IdentityFile " + SelectorArg(k, at)) && OneLine("#     IdentityFile " + SelectorArg(k, at))
  {
    QuotedShape(at.selector(k), at.windows);
    hide SelectorArg;
    OneLineConcat(KEY_MARKER, k.id);
    OneLineConcat("# ", k.name);
    OneLineConcat("# " + k.name, " (");
    OneLineConcat("# " + k.name + " (", k.id);
    OneLineConcat("# " + k.name + " (" + k.id, ")");
    OneLineConcat("    IdentityFile ", SelectorArg(k, at));
    OneLineConcat("#     IdentityFile ", SelectorArg(k, at));
  }

  ghost predicate AllOneLine(ls: seq<string>) {
    forall l <- ls :: OneLine(l)
  }

  lemma {:induction false} AllOneLineConcat(a: seq<string>, b: seq<string>)
    requires AllOneLine(a) && AllOneLine(b)
    ensures AllOneLine(a + b)
  {
  }

  lemma {:induction false} BoundLinesOneLine(keys: seq<ManagedKey>, b: BindingMap, at: Layout, known: set<string>)
    requires GoodIds(known) && forall k <- keys :: GoodBound(k, b, at, known)
    ensures AllOneLine(BoundLines(keys, b, at))
    decreases |keys|
  {
    if keys != [] {
      var k := keys[|keys| - 1];
      assert GoodBound(k, b, at, known);
      BoundLinesOneLine(keys[..|keys| - 1], b, at, known);
      KeyLinesOneLine(k, at);
      BlockOneLine(k, b[k.id].hosts, at);
      AllOneLineConcat(BoundLines(keys[..|keys| - 1], b, at), BoundBlock(k, b[k.id].hosts, at));
    }
  }

  lemma {:induction false} BlockOneLine(k: ManagedKey, hosts: seq<string>, at: Layout)
    requires OneLine(KEY_MARKER + k.id) && OneLine(Comment(k))
    requires OneLine("    IdentityFile " + SelectorArg(k, at)) && OneLine("#     IdentityFile " + SelectorArg(k, at))
    requires forall h <- hosts :: Token(h)
    ensures AllOneLine(BoundBlock(k, hosts, at)) && AllOneLine(UnboundBlock(k, at))
  {
    hide SelectorArg, Comment, KEY_MARKER;
    TokensOneLine(hosts);
    OneLineConcat("Host ", Join(hosts, " "));
    assert OneLine("    IdentitiesOnly yes") && OneLine("#     IdentitiesOnly yes") && OneLine("# Host <host>");
  }

  lemma {:induction false} UnboundLinesOneLine(keys: seq<ManagedKey>, at: Layout, known: set<string>)
    requires GoodIds(known) && forall k <- keys :: GoodKey(k, at, known)
    ensures AllOneLine(UnboundLines(keys, at))
    decreases |keys|
  {
    if keys != [] {
      var k := keys[|keys| - 1];
      assert GoodKey(k, at, known);
      UnboundLinesOneLine(keys[..|keys| - 1], at, known);
      KeyLinesOneLine(k, at);
      BlockOneLine(k, [], at);
      AllOneLineConcat(UnboundLines(keys[..|keys| - 1], at), UnboundBlock(k, at));
    }
  }

  lemma {:induction false} SnippetOneLine(keys: seq<ManagedKey>, b: BindingMap, at: Layout)
    requires GoodInput(keys, b, at)
    ensures AllOneLine(SnippetLines(keys, b, at))
  {
    hide GoodBound, GoodKey;
    var known, unbound := IdsOf(keys), UnboundKeys(keys, b);
    KeysAreGood(keys, b, at);
    BoundLinesOneLine(BoundKeys(keys, b), b, at, known);
    UnboundLinesOneLine(unbound, at, known);
    HeaderShape();
    TitleShape();
    assert AllOneLine(HEADER);
    assert AllOneLine([UNBOUND_TITLE, ""]);
    AllOneLineConcat(HEADER, BoundLines(BoundKeys(keys, b), b, at));
    AllOneLineConcat([UNBOUND_TITLE, ""], UnboundLines(unbound, at));
    AllOneLineConcat(HEADER + BoundLines(BoundKeys(keys, b), b, at), UnboundPart(unbound, at));
  }

  lemma {:induction false} NoteOfStripped(l: string, known: set<string>)
    ensures NoteOf(StripCr(l), known) == NoteOf(l, known)
  {
    StripCrTrim(l);
  }

  lemma {:induction false} NotesRead(ls: seq<string>, out: seq<string>, known: set<string>)
    requires LinesOf(ls, out)
    ensures var got, want := Each(out, Reader(known)), Each(ls, Reader(known));
      got == want || got + [Inert] == want
  {
    BlankIsInert(known);
    hide NoteOf, StripCr, Each;
    forall i | 0 <= i < |out| ensures NoteOf(out[i], known) == NoteOf(ls[i], known) {
      NoteOfStripped(ls[i], known);
    }
  }

  /** Written and read back, lines say the same, but a last empty line may be gone. */
  lemma {:induction false} NotesSurviveText(ls: seq<string>, known: set<string>)
    requires AllOneLine(ls)
    ensures var got, want := NotesOf(Join(ls, "\n"), known), Each(ls, Reader(known));
      got == want || got + [Inert] == want
  {
    hide LinesOf, Lines, Join, Each, Reader;
    LinesOfJoin(ls);
    NotesRead(ls, Lines(Join(ls, "\n")), known);
  }

  /**
   Importing a freshly printed snippet reports no change and leaves the very
   same bindings, for every key list and every map of blank-free hosts in which
   no listed key mixes the placeholder with other hosts.
   */
  lemma {:induction false} ImportOfRendered(keys: seq<ManagedKey>, b: BindingMap, at: Layout, now: int)
    requires GoodInput(keys, b, at) && AllStable(keys, b)
    ensures var out := Imported(b, NotesOf(Rendered(keys, b, at), IdsOf(keys)), now);
      out.bindings == b && !out.changed
  {
    hide Each, Reader, SnippetLines, NotesOf;
    var ls, known := SnippetLines(keys, b, at), IdsOf(keys);
    SnippetOneLine(keys, b, at);
    NotesSurviveText(ls, known);
    StableSnippet(keys, b, at, now);
    ApplyNotesSnoc(ImportState(None, b, false), NotesOf(Join(ls, "\n"), known), Inert, now);
  }
}
