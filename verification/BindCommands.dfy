/**
 `keys bind`, `keys unbind` and the managed-config sync as the ordered file
 effects they are: import, edit, save, and then import the old file again
 before rendering.
 */
module BindCommands {
  import opened Text
  import opened Bindings
  import opened ManagedConfig
  import opened Snippet
  import opened RoundTrip
  import opened LastBlocks

  /** The two files: `bindings.json` and the managed config. */
  datatype Disk = Disk(saved: BindingMap, managed: Option<string>)

  function AfterImport(d: Disk, known: set<string>, now: int): BindingMap {
    if d.managed.None? then d.saved else Imported(d.saved, NotesOf(d.managed.value, known), now).bindings
  }

  /** The bindings a sync ends with: imported, then pruned, but only against known keys. */
  function SyncedBindings(d: Disk, keys: seq<ManagedKey>, now: int): BindingMap {
    if keys == [] then d.saved else Pruned(AfterImport(d, IdsOf(keys), now), IdsOf(keys))
  }

  function Synced(d: Disk, keys: seq<ManagedKey>, force: bool, at: Layout, now: int): Disk {
    var b := SyncedBindings(d, keys, now);
    Disk(b, if !force && b == map[] && d.managed.None? then None else Some(Rendered(keys, b, at)))
  }

  function AddAll(hosts: seq<string>, more: seq<string>): seq<string> {
    if more == [] then hosts else PushNew(AddAll(hosts, more[..|more| - 1]), Trim(more[|more| - 1]))
  }

  /** The bindings an edit starts from: the saved ones with the managed file imported. */
  function EditBase(d: Disk, keys: seq<ManagedKey>, now: int): BindingMap {
    if keys == [] then d.saved else AfterImport(d, IdsOf(keys), now)
  }

  function BoundTo(b: BindingMap, id: string, hosts: seq<string>, now: int): BindingMap {
    if hosts == [] then b else b[id := KeyBinding(AddAll(HostsOf(b, id), hosts), now)]
  }

  datatype Unbind = OneHost(host: string) | AllHosts

  predicate Removes(b: BindingMap, id: string, what: Unbind) {
    match what
    case OneHost(host) => Mentions(HostsOf(b, id), Trim(host))
    case AllHosts => id in b
  }

  function UnboundFrom(b: BindingMap, id: string, what: Unbind, now: int): BindingMap {
    match what
    case OneHost(host) => RemovedFrom(b, id, Trim(host), now)
    case AllHosts => b - {id}
  }

  /** The editing loop of `keys bind`, stopping at the first refused pattern. */
  method AddHosts(file: HostBindingsFile, id: string, hosts: seq<string>, now: int) returns (ok: bool)
    modifies file
    ensures ok <==> AllValid(hosts)
    ensures ok ==> file.bindings == BoundTo(old(file.bindings), id, hosts, now)
    ensures old(GoodMap(file.bindings)) ==> GoodMap(file.bindings)
  {
    hide ValidPattern, GoodMap, Trim;
    ghost var base := file.bindings;
    for i := 0 to |hosts|
      invariant AllValid(hosts[..i])
      invariant file.bindings == BoundTo(base, id, hosts[..i], now)
      invariant GoodMap(base) ==> GoodMap(file.bindings)
    {
      assert hosts[..i + 1][..i] == hosts[..i];
      var added := file.AddHost(id, hosts[i], now);
      if !added {
        return false;
      }
      assert hosts[..i + 1] == hosts[..i] + [hosts[i]];
    }
    assert hosts[..|hosts|] == hosts;
    return true;
  }

  class ConfigStore {
    const at: Layout
    var saved: BindingMap
    var managed: Option<string>

    constructor (at: Layout, saved: BindingMap, managed: Option<string>)
      ensures this.at == at && View() == Disk(saved, managed)
    {
      this.at, this.saved, this.managed := at, saved, managed;
    }

    function View(): Disk
      reads this
    {
      Disk(saved, managed)
    }

    /** `sync_managed_ssh_config_inner`. */
    method SyncManaged(keys: seq<ManagedKey>, force: bool, now: int)
      modifies this
      ensures View() == Synced(old(View()), keys, force, at, now)
    {
      var file := new HostBindingsFile();
      file.bindings := saved;
      if keys != [] {
        UnchangedImport(View(), IdsOf(keys), now);
        var changed := ImportManagedFile(file, managed, IdsOf(keys), now);
        if changed {
          saved := file.bindings;
        }
        var pruned := file.PruneOrphans(IdsOf(keys));
        if pruned > 0 {
          saved := file.bindings;
        }
      }
      if !force && file.bindings == map[] && managed.None? {
        return;
      }
      var snippet := RenderSnippet(keys, file.bindings, at);
      managed := Some(snippet);
    }

    /** `keys bind`: nothing is written when a pattern is refused. */
    method Bind(keys: seq<ManagedKey>, id: string, hosts: seq<string>, now: int) returns (ok: bool)
      modifies this
      ensures ok <==> AllValid(hosts)
      ensures !ok ==> View() == old(View())
      ensures ok ==>
        var edited := BoundTo(EditBase(old(View()), keys, now), id, hosts, now);
        View() == Synced(old(View()).(saved := edited), keys, true, at, now)
    {
      var file := new HostBindingsFile();
      file.bindings := saved;
      if keys != [] {
        var _ := ImportManagedFile(file, managed, IdsOf(keys), now);
      }
      var added := AddHosts(file, id, hosts, now);
      if !added {
        return false;
      }
      saved := file.bindings;
      SyncManaged(keys, true, now);
      return true;
    }

    /** `keys unbind`: the import is saved even when there was nothing to remove. */
    method Unbind(keys: seq<ManagedKey>, id: string, what: Unbind, now: int) returns (ok: bool)
      modifies this
      ensures var base := EditBase(old(View()), keys, now);
        var edited := old(View()).(saved := UnboundFrom(base, id, what, now));
        && (ok <==> Removes(base, id, what))
        && View() == (if ok then Synced(edited, keys, true, at, now) else edited)
        && (old(GoodMap(saved)) && !ok ==> saved == base)
    {
      var file := new HostBindingsFile();
      file.bindings := saved;
      if keys != [] {
        var _ := ImportManagedFile(file, managed, IdsOf(keys), now);
      }
      match what {
        case OneHost(host) => ok := file.RemoveHost(id, host, now);
        case AllHosts => ok := file.ClearKey(id);
      }
      NothingRemoved(View(), keys, id, what, now);
      saved := file.bindings;
      if ok {
        SyncManaged(keys, true, now);
      }
    }
  }

  /** On stored bindings, an unbind with nothing to remove edits nothing. */
  lemma {:induction false} NothingRemoved(d: Disk, keys: seq<ManagedKey>, id: string, what: Unbind, now: int)
    ensures var base := EditBase(d, keys, now);
      GoodMap(d.saved) && !Removes(base, id, what) ==> UnboundFrom(base, id, what, now) == base
  {
    var base := EditBase(d, keys, now);
    if GoodMap(d.saved) {
      MetaImport(d, IdsOf(keys), now);
      hide GoodMap, Mentions, Without, NotesOf;
      match what
      case OneHost(host) => RemovedMeaning(base, id, Trim(host), now);
      case AllHosts => assert id !in base ==> base - {id} == base;
    }
  }

  lemma {:induction false} NoteUnchanged(st: ImportState, notes: seq<Note>, now: int)
    ensures st.changed ==> ApplyNotes(st, notes, now).changed
    ensures !ApplyNotes(st, notes, now).changed ==> ApplyNotes(st, notes, now).bindings == st.bindings
    decreases |notes|
  {
    if notes != [] {
      NoteUnchanged(st, notes[..|notes| - 1], now);
    }
  }

  /** An import that reports no change made none, whatever was saved. */
  lemma {:induction false} UnchangedImport(d: Disk, known: set<string>, now: int)
    ensures d.managed.Some? && !Imported(d.saved, NotesOf(d.managed.value, known), now).changed ==>
              AfterImport(d, known, now) == d.saved
  {
    if d.managed.Some? {
      NoteUnchanged(ImportState(None, d.saved, false), NotesOf(d.managed.value, known), now);
    }
  }

  lemma {:induction false} MetaImport(d: Disk, known: set<string>, now: int)
    requires GoodMap(d.saved)
    ensures GoodMap(AfterImport(d, known, now))
  {
    if d.managed.Some? {
      ImportMeaning(d.saved, NotesOf(d.managed.value, known), now);
    }
  }

  // --- Syncing twice ------------------------------------------------------

  lemma {:induction false} SyncedGood(d: Disk, keys: seq<ManagedKey>, now: int)
    requires GoodMap(d.saved)
    ensures GoodMap(SyncedBindings(d, keys, now))
    ensures keys != [] ==> Pruned(SyncedBindings(d, keys, now), IdsOf(keys)) == SyncedBindings(d, keys, now)
  {
    MetaImport(d, IdsOf(keys), now);
  }

  /**
   Once a sync has written the managed file, a second sync with the same keys
   changes neither file if and only if no listed key mixes the placeholder with
   other hosts.
   */
  lemma {:induction false} SecondSync(d: Disk, keys: seq<ManagedKey>, force: bool, again: bool, at: Layout, now: int, later: int)
    requires GoodMap(d.saved) && Printable(keys, at)
    requires Synced(d, keys, force, at, now).managed.Some?
    ensures var once := Synced(d, keys, force, at, now);
      Synced(once, keys, again, at, later) == once <==> keys == [] || AllStable(keys, once.saved)
  {
    hide Rendered, NotesOf, Printable;
    var once := Synced(d, keys, force, at, now);
    SyncedGood(d, keys, now);
    if keys != [] {
      ImportOfRenderedExactly(keys, once.saved, at, later);
      var out := Imported(once.saved, NotesOf(once.managed.value, IdsOf(keys)), later);
      if !AllStable(keys, once.saved) {
        MixedShows(keys, once.saved, at, later);
      }
    }
  }

  /** A mixed list shows in what is saved, not only in the timestamp. */
  lemma {:induction false} MixedShows(keys: seq<ManagedKey>, b: BindingMap, at: Layout, now: int)
    requires GoodMap(b) && Printable(keys, at) && !AllStable(keys, b)
    ensures Pruned(Imported(b, NotesOf(Rendered(keys, b, at), IdsOf(keys)), now).bindings, IdsOf(keys)) != b
  {
    hide Rendered, NotesOf, Stable;
    var k :| k in keys && !Stable(HostsOf(b, k.id));
    var out := Imported(b, NotesOf(Rendered(keys, b, at), IdsOf(keys)), now);
    MixedListChanges(keys, b, at, now, k.id);
    UnstableHasPlaceholder(HostsOf(b, k.id));
    DedupHasNoPlaceholder(HostsOf(b, k.id));
    assert k.id in IdsOf(keys) && HostsOf(Pruned(out.bindings, IdsOf(keys)), k.id) == HostsOf(out.bindings, k.id);
  }

  lemma {:induction false} UnstableHasPlaceholder(hosts: seq<string>)
    requires !Stable(hosts)
    ensures PLACEHOLDER in hosts
  {
  }

  // --- What an edit leaves behind -----------------------------------------

  /** The old managed file's last importable block for a key. */
  function OldBlock(d: Disk, keys: seq<ManagedKey>, id: string): Option<seq<string>> {
    if d.managed.None? then None else LastBlock(NotesOf(d.managed.value, IdsOf(keys)), id)
  }

  /** The second import undoes whatever an edit did to a key with a block in the old file. */
  lemma {:induction false} HostsAfterSync(d: Disk, edited: BindingMap, keys: seq<ManagedKey>, at: Layout, now: int, id: string)
    requires GoodMap(edited) && id in IdsOf(keys)
    ensures HostsOf(Synced(d.(saved := edited), keys, true, at, now).saved, id) ==
            match OldBlock(d, keys, id) { case Some(hosts) => Dedup(hosts) case None => HostsOf(edited, id) }
  {
    hide Rendered, NotesOf;
    var mid := d.(saved := edited);
    assert keys != [];
    if d.managed.Some? {
      ImportMeaning(edited, NotesOf(d.managed.value, IdsOf(keys)), now);
    }
    var b := AfterImport(mid, IdsOf(keys), now);
    assert HostsOf(Pruned(b, IdsOf(keys)), id) == HostsOf(b, id);
  }

  /** The hosts of the key's last importable block in the file or, without one, its saved hosts. */
  function ShownHosts(d: Disk, keys: seq<ManagedKey>, id: string): seq<string> {
    match OldBlock(d, keys, id)
    case Some(hosts) => Dedup(hosts)
    case None => HostsOf(d.saved, id)
  }

  /**
   A sync on stored bindings: listed keys have the hosts of their last
   importable block in the old file or, without one, the hosts they had; unlisted
   keys have none; and the file is written from that, unless there is nothing to
   write and no file yet. Without keys the bindings stay.
   */
  lemma {:induction false} SyncedExactly(d: Disk, keys: seq<ManagedKey>, force: bool, at: Layout, now: int, id: string)
    requires GoodMap(d.saved)
    ensures var d' := Synced(d, keys, force, at, now);
      && (keys == [] ==> d'.saved == d.saved)
      && (keys != [] && id !in IdsOf(keys) ==> id !in d'.saved)
      && (id in IdsOf(keys) ==> HostsOf(d'.saved, id) == ShownHosts(d, keys, id))
      && d'.managed == (if force || d'.saved != map[] || d.managed.Some? then Some(Rendered(keys, d'.saved, at)) else None)
  {
    hide Rendered, NotesOf, Dedup;
    if id in IdsOf(keys) {
      HostsAfterSync(d, d.saved, keys, at, now, id);
      assert d.(saved := d.saved) == d;
    }
  }

  lemma {:induction false} HostsBeforeEdit(d: Disk, keys: seq<ManagedKey>, now: int, id: string)
    requires GoodMap(d.saved) && keys != []
    ensures GoodMap(EditBase(d, keys, now))
    ensures HostsOf(EditBase(d, keys, now), id) ==
            match OldBlock(d, keys, id) { case Some(hosts) => Dedup(hosts) case None => HostsOf(d.saved, id) }
  {
    hide NotesOf;
    if d.managed.Some? {
      ImportMeaning(d.saved, NotesOf(d.managed.value, IdsOf(keys)), now);
    }
  }

  lemma {:induction false} AddAllGrows(hosts: seq<string>, more: seq<string>)
    ensures hosts <= AddAll(hosts, more)
    ensures AddAll(hosts, more) == hosts <==> forall h <- more :: Mentions(hosts, Trim(h))
  {
    if more != [] {
      hide Mentions;
      var front, last := more[..|more| - 1], more[|more| - 1];
      AddAllGrows(hosts, front);
      assert more == front + [last];
      if AddAll(hosts, more) == hosts {
        assert |AddAll(hosts, front)| <= |AddAll(hosts, more)|;
      }
    }
  }

  lemma {:induction false} AddAllGood(hosts: seq<string>, more: seq<string>)
    requires CaseDistinct(hosts) && (forall h <- hosts :: Token(h) && ValidPattern(h)) && AllValid(more)
    ensures CaseDistinct(AddAll(hosts, more)) && forall h <- AddAll(hosts, more) :: Token(h) && ValidPattern(h)
  {
    if more != [] {
      hide CaseDistinct, ValidPattern;
      var front, last := more[..|more| - 1], more[|more| - 1];
      AddAllGood(hosts, front);
      StoredPattern(last);
      PushNewDistinct(AddAll(hosts, front), Trim(last));
    }
  }

  lemma {:induction false} BoundToGood(b: BindingMap, id: string, hosts: seq<string>, now: int)
    requires GoodMap(b) && AllValid(hosts)
    ensures GoodMap(BoundTo(b, id, hosts, now))
    ensures HostsOf(BoundTo(b, id, hosts, now), id) == AddAll(HostsOf(b, id), hosts)
  {
    if hosts != [] {
      AddAllGood(HostsOf(b, id), hosts);
      assert AddAll(HostsOf(b, id), hosts) != [];
    }
  }

  /**
   `keys bind` on a listed key: without an importable block in the old managed
   file the saved hosts are the edited list; with one they are that block's
   hosts, and the edit survives only if every added pattern was already there.
   The rendered file always shows what was saved.
   */
  lemma {:induction false} BindOutcome(d: Disk, keys: seq<ManagedKey>, at: Layout, id: string, hosts: seq<string>, now: int)
    requires GoodMap(d.saved) && id in IdsOf(keys) && AllValid(hosts)
    ensures var edited := BoundTo(EditBase(d, keys, now), id, hosts, now);
      var final := Synced(d.(saved := edited), keys, true, at, now);
      && final.managed == Some(Rendered(keys, final.saved, at))
      && (match OldBlock(d, keys, id)
          case None => HostsOf(final.saved, id) == AddAll(HostsOf(d.saved, id), hosts)
          case Some(block) => HostsOf(final.saved, id) == Dedup(block))
      && (HostsOf(final.saved, id) == HostsOf(edited, id) <==>
          match OldBlock(d, keys, id)
          case None => true
          case Some(block) => forall h <- hosts :: Mentions(Dedup(block), Trim(h)))
  {
    hide Rendered, NotesOf, Mentions, BoundTo, OldBlock;
    assert keys != [];
    var base := EditBase(d, keys, now);
    HostsBeforeEdit(d, keys, now, id);
    BoundToGood(base, id, hosts, now);
    HostsAfterSync(d, BoundTo(base, id, hosts, now), keys, at, now, id);
    AddAllGrows(HostsOf(base, id), hosts);
  }

  lemma {:induction false} UnboundFromShrinks(b: BindingMap, id: string, what: Unbind, now: int)
    requires GoodMap(b) && Removes(b, id, what)
    ensures GoodMap(UnboundFrom(b, id, what, now))
    ensures HostsOf(UnboundFrom(b, id, what, now), id) != HostsOf(b, id)
  {
    match what
    case OneHost(host) =>
      WithoutKeeps(HostsOf(b, id), Trim(host));
      RemovedMeaning(b, id, Trim(host), now);
    case AllHosts =>
  }

  /**
   `keys unbind` on a listed key that had something to remove: the removal
   survives if and only if the old managed file had no importable block for it.
   */
  lemma {:induction false} UnbindOutcome(d: Disk, keys: seq<ManagedKey>, at: Layout, id: string, what: Unbind, now: int)
    requires GoodMap(d.saved) && id in IdsOf(keys) && Removes(EditBase(d, keys, now), id, what)
    ensures var base := EditBase(d, keys, now);
      var edited := UnboundFrom(base, id, what, now);
      var final := Synced(d.(saved := edited), keys, true, at, now);
      && final.managed == Some(Rendered(keys, final.saved, at))
      && (HostsOf(final.saved, id) == HostsOf(edited, id) <==> OldBlock(d, keys, id).None?)
      && (OldBlock(d, keys, id).Some? ==> HostsOf(final.saved, id) == HostsOf(base, id))
  {
    hide Rendered, NotesOf, UnboundFrom, Removes, OldBlock;
    assert keys != [];
    var base := EditBase(d, keys, now);
    HostsBeforeEdit(d, keys, now, id);
    UnboundFromShrinks(base, id, what, now);
    HostsAfterSync(d, UnboundFrom(base, id, what, now), keys, at, now, id);
  }

  /** The hosts a key has after any sync that follows its rendering: those printed for it. */
  function Printed(hosts: seq<string>): seq<string> {
    Dedup(DropPlaceholders(hosts))
  }

  /** A sync from a rendered file gives a bound key its printed hosts, however its bindings were edited in between. */
  lemma {:induction false} PrintedHostsReturn(once: Disk, edited: BindingMap, keys: seq<ManagedKey>, at: Layout, id: string, now: int)
    requires GoodMap(once.saved) && GoodMap(edited) && Printable(keys, at) && id in IdsOf(keys)
    requires once.managed == Some(Rendered(keys, once.saved, at))
    requires exists h <- HostsOf(once.saved, id) :: h != PLACEHOLDER
    ensures HostsOf(Synced(once.(saved := edited), keys, true, at, now).saved, id) == Printed(HostsOf(once.saved, id))
  {
    hide Rendered, NotesOf, Printable;
    var mine := HostsOf(once.saved, id);
    assert GoodInput(keys, once.saved, at);
    DropMeaning(mine);
    var h :| h in mine && h != PLACEHOLDER;
    assert h in DropPlaceholders(mine);
    LastBlockOfRendered(keys, once.saved, at, id);
    HostsAfterSync(once, edited, keys, at, now, id);
  }

  /** Without the placeholder, the printed hosts are the hosts. */
  lemma {:induction false} PrintedAsIs(hosts: seq<string>)
    requires GoodHosts(hosts) && PLACEHOLDER !in hosts
    ensures Printed(hosts) == hosts
  {
    DropMeaning(hosts);
    DedupFixed(hosts);
  }

  /**
   What this means from day to day: once a sync has rendered a key bound to any
   real host, a bind, an unbind and doing nothing all lead to the same hosts at
   the next sync, which are the ones it had, less the placeholder.
   */
  lemma {:induction false} EditsOfRenderedKeysAreLost(
      d: Disk, keys: seq<ManagedKey>, force: bool, at: Layout, id: string,
      hosts: seq<string>, what: Unbind, now: int, later: int)
    requires GoodMap(d.saved) && Printable(keys, at) && id in IdsOf(keys) && AllValid(hosts)
    requires var once := Synced(d, keys, force, at, now);
      once.managed.Some? && exists h <- HostsOf(once.saved, id) :: h != PLACEHOLDER
    ensures var once := Synced(d, keys, force, at, now);
      var base := EditBase(once, keys, later);
      var bound, unbound := BoundTo(base, id, hosts, later), UnboundFrom(base, id, what, later);
      var shown := Printed(HostsOf(once.saved, id));
      && HostsOf(Synced(once, keys, true, at, later).saved, id) == shown
      && HostsOf(Synced(once.(saved := bound), keys, true, at, later).saved, id) == shown
      && HostsOf(Synced(once.(saved := unbound), keys, true, at, later).saved, id) == shown
      && (PLACEHOLDER !in HostsOf(once.saved, id) ==> shown == HostsOf(once.saved, id))
  {
    var once := Synced(d, keys, force, at, now);
    var base := EditBase(once, keys, later);
    SyncedGood(d, keys, now);
    assert keys != [];
    MetaImport(once, IdsOf(keys), later);
    assert once.(saved := once.saved) == once;
    assert id in once.saved;
    hide Rendered, NotesOf, BoundTo, UnboundFrom, Printed, Printable, GoodHosts;
    BoundToGood(base, id, hosts, later);
    UnboundGood(base, id, what, later);
    PrintedHostsReturn(once, once.saved, keys, at, id, later);
    PrintedHostsReturn(once, BoundTo(base, id, hosts, later), keys, at, id, later);
    PrintedHostsReturn(once, UnboundFrom(base, id, what, later), keys, at, id, later);
    if PLACEHOLDER !in HostsOf(once.saved, id) {
      PrintedAsIs(HostsOf(once.saved, id));
    }
  }

  lemma {:induction false} UnboundGood(b: BindingMap, id: string, what: Unbind, now: int)
    requires GoodMap(b)
    ensures GoodMap(UnboundFrom(b, id, what, now))
  {
    match what
    case OneHost(host) => RemovedMeaning(b, id, Trim(host), now);
    case AllHosts =>
  }

  function BoundOnce(key: ManagedKey, host: string, at: Layout, now: int): Disk {
    Synced(Disk(BoundTo(map[], key.id, [host], now), None), [key], true, at, now)
  }

  lemma {:induction false} FirstBind(key: ManagedKey, at: Layout, host: string, now: int)
    requires Token(host) && AllValid([host])
    ensures var once := BoundOnce(key, host, at, now);
      once.managed.Some? && HostsOf(once.saved, key.id) == [host]
    ensures GoodMap(BoundTo(map[], key.id, [host], now)) && key.id in IdsOf([key])
  {
    hide Rendered, NotesOf, BoundTo, Trim, Token, ValidPattern;
    assert key in [key];
    BoundToGood(map[], key.id, [host], now);
    AddAllOne(host);
    HostsAfterSync(Disk(map[], None), BoundTo(map[], key.id, [host], now), [key], at, now, key.id);
  }

  /** Bind a fresh key to one host and then to another: the second bind is lost. */
  lemma {:induction false} SecondBindIsLost(key: ManagedKey, at: Layout, first: string, second: string, now: int, later: int)
    requires Printable([key], at) && Token(first) && AllValid([first]) && AllValid([second]) && first != PLACEHOLDER
    ensures var once := BoundOnce(key, first, at, now);
      var twice := Synced(once.(saved := BoundTo(EditBase(once, [key], later), key.id, [second], later)), [key], true, at, later);
      HostsOf(once.saved, key.id) == [first] && HostsOf(twice.saved, key.id) == [first]
  {
    hide Synced, EditBase, BoundTo, Token, AllValid, Printable, HostsOf, GoodMap, IdsOf, UnboundFrom, Printed;
    FirstBind(key, at, first, now);
    assert first in [first];
    EditsOfRenderedKeysAreLost(Disk(BoundTo(map[], key.id, [first], now), None), [key], true, at, key.id, [second], AllHosts, now, later);
  }

  lemma {:induction false} AddAllOne(host: string)
    requires Token(host)
    ensures AddAll([], [host]) == [host]
  {
    TokenIsTrimmed(host);
    assert [host][..0] == [];
  }

  /** A concrete loss. */
  lemma {:induction false} LostBindExample(at: Layout, now: int, later: int)
    requires OneLine(at.selector(ManagedKey("github", "id-1")))
    ensures var key := ManagedKey("github", "id-1");
      var once := BoundOnce(key, "a", at, now);
      var twice := Synced(once.(saved := BoundTo(EditBase(once, [key], later), "id-1", ["b"], later)), [key], true, at, later);
      HostsOf(once.saved, "id-1") == ["a"] && HostsOf(twice.saved, "id-1") == ["a"]
  {
    TokenIsTrimmed("a");
    TokenIsTrimmed("b");
    TokenIsTrimmed("id-1");
    hide Synced, BoundOnce, EditBase, BoundTo, HostsOf, Trim;
    SecondBindIsLost(ManagedKey("github", "id-1"), at, "a", "b", now, later);
  }
}
