/** Which Host block the importer finds for a key in a printed snippet. */
module LastBlocks {
  import opened Text
  import opened Bindings
  import opened ManagedConfig
  import opened Snippet
  import opened SnippetNotes
  import opened RoundTrip

  lemma {:induction false} LastBlockSnoc(notes: seq<Note>, note: Note, id: string)
    ensures LastBlock(notes + [note], id) ==
            if note.HostLine? && OpenBlock(notes) == Some(id) && Importable(note.hosts) then Some(note.hosts)
            else LastBlock(notes, id)
    ensures OpenBlock(notes + [note]) ==
            match note { case Inert => OpenBlock(notes) case IdLine(i) => Some(i) case HostLine(_) => None }
  {
    assert (notes + [note])[..|notes|] == notes;
  }

  lemma {:induction false} LastBlockQuiet(pre: seq<Note>, ns: seq<Note>, id: string)
    requires Quiet(ns)
    ensures LastBlock(pre + ns, id) == LastBlock(pre, id)
    decreases |ns|
  {
    if ns == [] {
      assert pre + ns == pre;
    } else {
      var front := ns[..|ns| - 1];
      LastBlockQuiet(pre, front, id);
      LastBlockSnoc(pre + front, ns[|ns| - 1], id);
      assert pre + ns == (pre + front) + [ns[|ns| - 1]];
    }
  }

  lemma {:induction false} OpenAfterId(pre: seq<Note>, ns: seq<Note>, id: string)
    requires |ns| >= 2 && ns[0] == IdLine(id) && (ns[1] == Inert || ns[1] == IdLine(id))
    ensures OpenBlock(pre + ns[..2]) == Some(id)
  {
    LastBlockSnoc(pre, ns[0], id);
    LastBlockSnoc(pre + [ns[0]], ns[1], id);
    assert pre + ns[..2] == (pre + [ns[0]]) + [ns[1]];
  }

  lemma {:induction false} LastBlockBound(pre: seq<Note>, ns: seq<Note>, owner: string, hosts: seq<string>, id: string)
    requires BoundNotes(ns, owner, hosts)
    ensures LastBlock(pre + ns, id) ==
            if id == owner && Importable(hosts) then Some(hosts) else LastBlock(pre, id)
  {
    hide Importable;
    OpenAfterId(pre, ns, owner);
    LastBlockQuiet(pre, ns[..2], id);
    LastBlockSnoc(pre + ns[..2], ns[2], id);
    var upTo := (pre + ns[..2]) + [ns[2]];
    LastBlockQuiet(upTo, ns[3..], id);
    assert pre + ns == upTo + ns[3..];
  }

  /** Among bound blocks, a listed importable key is found with its own hosts. */
  lemma {:induction false} LastBlockInBound(keys: seq<ManagedKey>, b: BindingMap, at: Layout, known: set<string>, pre: seq<Note>, id: string)
    requires GoodIds(known) && forall k <- keys :: GoodBound(k, b, at, known)
    requires exists k <- keys :: k.id == id
    requires Importable(DropPlaceholders(HostsOf(b, id)))
    ensures LastBlock(pre + Each(BoundLines(keys, b, at), Reader(known)), id) == Some(DropPlaceholders(HostsOf(b, id)))
    decreases |keys|
  {
    hide Each, Reader, BoundBlock, Importable, BoundNotes;
    var front, k := keys[..|keys| - 1], keys[|keys| - 1];
    var hosts, note := HostsOf(b, k.id), Reader(known);
    var above, block := BoundLines(front, b, at), BoundBlock(k, hosts, at);
    NotesConcat(above, block, note);
    assert GoodBound(k, b, at, known);
    BoundBlockNotes(k, hosts, at, known);
    LastBlockBound(pre + Each(above, note), Each(block, note), k.id, DropPlaceholders(hosts), id);
    assert pre + (Each(above, note) + Each(block, note)) == (pre + Each(above, note)) + Each(block, note);
    if k.id != id {
      LastBlockInBound(front, b, at, known, pre, id);
    }
  }

  ghost predicate Quiet(ns: seq<Note>) {
    forall n <- ns :: !n.HostLine?
  }

  lemma {:induction false} QuietConcat(a: seq<Note>, b: seq<Note>)
    requires Quiet(a) && Quiet(b)
    ensures Quiet(a + b)
  {
  }

  lemma {:induction false} UnboundNotesQuiet(ns: seq<Note>, id: string)
    requires UnboundNotes(ns, id)
    ensures Quiet(ns)
  {
  }

  lemma {:induction false} UnboundQuiet(keys: seq<ManagedKey>, at: Layout, known: set<string>)
    requires GoodIds(known) && forall k <- keys :: GoodKey(k, at, known)
    ensures Quiet(Each(UnboundLines(keys, at), Reader(known)))
    decreases |keys|
  {
    if keys != [] {
      hide Each, Reader, UnboundBlock, UnboundNotes, Quiet;
      var front, k, note := keys[..|keys| - 1], keys[|keys| - 1], Reader(known);
      UnboundQuiet(front, at, known);
      assert GoodKey(k, at, known);
      UnboundBlockNotes(k, at, known);
      UnboundNotesQuiet(Each(UnboundBlock(k, at), note), k.id);
      NotesConcat(UnboundLines(front, at), UnboundBlock(k, at), note);
      QuietConcat(Each(UnboundLines(front, at), note), Each(UnboundBlock(k, at), note));
    }
  }

  lemma {:induction false} UnboundPartQuiet(keys: seq<ManagedKey>, at: Layout, known: set<string>)
    requires GoodIds(known) && forall k <- keys :: GoodKey(k, at, known)
    ensures Quiet(Each(UnboundPart(keys, at), Reader(known)))
  {
    hide NoteOf, UNBOUND_TITLE;
    UnboundQuiet(keys, at, known);
    TitleInert(known);
    BlankIsInert(known);
    NotesConcat([UNBOUND_TITLE, ""], UnboundLines(keys, at), Reader(known));
  }

  lemma {:induction false} LastBlockInSnippet(keys: seq<ManagedKey>, b: BindingMap, at: Layout, id: string)
    requires GoodInput(keys, b, at) && id in IdsOf(keys)
    requires Importable(DropPlaceholders(HostsOf(b, id)))
    ensures LastBlock(Each(SnippetLines(keys, b, at), Reader(IdsOf(keys))), id) == Some(DropPlaceholders(HostsOf(b, id)))
  {
    hide Each, Reader, GoodBound, GoodKey, Importable, HEADER, UNBOUND_TITLE;
    var known, note := IdsOf(keys), Reader(IdsOf(keys));
    var bound, unbound := BoundKeys(keys, b), UnboundKeys(keys, b);
    KeysAreGood(keys, b, at);
    BoundKeysAreBound(keys, b);
    assert HostsOf(b, id) != [] by { ImportableNonempty(HostsOf(b, id)); }
    var k :| k in keys && k.id == id;
    assert k in bound;
    var ls := BoundLines(bound, b, at);
    LastBlockInBound(bound, b, at, known, Each(HEADER, note), id);
    UnboundPartQuiet(unbound, at, known);
    NotesConcat(HEADER, ls, note);
    NotesConcat(HEADER + ls, UnboundPart(unbound, at), note);
    LastBlockQuiet(Each(HEADER + ls, note), Each(UnboundPart(unbound, at), note), id);
  }

  lemma {:induction false} ImportableNonempty(hosts: seq<string>)
    requires Importable(DropPlaceholders(hosts))
    ensures hosts != []
  {
  }

  /** In a printed snippet, every listed key with a host to import has its own hosts as last block. */
  lemma {:induction false} LastBlockOfRendered(keys: seq<ManagedKey>, b: BindingMap, at: Layout, id: string)
    requires GoodInput(keys, b, at) && id in IdsOf(keys)
    requires Importable(DropPlaceholders(HostsOf(b, id)))
    ensures LastBlock(NotesOf(Rendered(keys, b, at), IdsOf(keys)), id) == Some(DropPlaceholders(HostsOf(b, id)))
  {
    hide Each, Reader, SnippetLines, NotesOf, Importable;
    var ls, known := SnippetLines(keys, b, at), IdsOf(keys);
    SnippetOneLine(keys, b, at);
    NotesSurviveText(ls, known);
    LastBlockInSnippet(keys, b, at, id);
    LastBlockSnoc(NotesOf(Join(ls, "\n"), known), Inert, id);
  }

  lemma {:induction false} DedupHasNoPlaceholder(hosts: seq<string>)
    requires forall h <- hosts :: Token(h)
    ensures PLACEHOLDER !in Dedup(DropPlaceholders(hosts))
  {
    var kept := DropPlaceholders(hosts);
    DropMeaning(hosts);
    DedupFrom(kept);
    forall d <- Dedup(kept) ensures d != PLACEHOLDER {
      var h :| h in kept && Trim(h) == d;
      TokenIsTrimmed(h);
    }
  }

  /** A list that mixes the placeholder with importable hosts does not survive the trip. */
  lemma {:induction false} MixedListChanges(keys: seq<ManagedKey>, b: BindingMap, at: Layout, now: int, id: string)
    requires GoodInput(keys, b, at) && GoodMap(b)
    requires id in IdsOf(keys) && !Stable(HostsOf(b, id))
    ensures var out := Imported(b, NotesOf(Rendered(keys, b, at), IdsOf(keys)), now);
      out.changed && HostsOf(out.bindings, id) == Dedup(DropPlaceholders(HostsOf(b, id)))
  {
    var hosts, notes := HostsOf(b, id), NotesOf(Rendered(keys, b, at), IdsOf(keys));
    assert id in b;
    assert Importable(DropPlaceholders(hosts)) by {
      DropMeaning(hosts);
      var h :| h in hosts && h != PLACEHOLDER;
      assert h in DropPlaceholders(hosts);
    }
    LastBlockOfRendered(keys, b, at, id);
    ImportMeaning(b, notes, now);
    DedupHasNoPlaceholder(hosts);
  }

  /**
   The exact condition: importing a printed snippet leaves the bindings alone
   if and only if no listed key mixes the placeholder with other hosts.
   */
  lemma {:induction false} ImportOfRenderedExactly(keys: seq<ManagedKey>, b: BindingMap, at: Layout, now: int)
    requires Printable(keys, at) && GoodMap(b)
    ensures var out := Imported(b, NotesOf(Rendered(keys, b, at), IdsOf(keys)), now);
      out.bindings == b && !out.changed <==> AllStable(keys, b)
  {
    hide NotesOf, Rendered, Stable;
    assert GoodInput(keys, b, at);
    if AllStable(keys, b) {
      ImportOfRendered(keys, b, at, now);
    } else {
      var k :| k in keys && !Stable(HostsOf(b, k.id));
      MixedListChanges(keys, b, at, now, k.id);
    }
  }
}
