/**
 The managed `sshwarden_config` text: printing keys and bindings, and importing
 user-edited `Host` lines back. Importing has two layers here: what one line
 says (`NoteOf`), and what a run of such notes does to the bindings (`Imported`).
 */
module ManagedConfig {
  import opened Text
  import opened Bindings

  datatype ManagedKey = ManagedKey(name: string, id: string)

  const KEY_MARKER := "# sshwarden:key "
  const PLACEHOLDER := "<host>"

  // --- Reading one line ---------------------------------------------------

  datatype Note =
    | Inert
    | IdLine(id: string)
    | HostLine(hosts: seq<string>)

  /** `sshwarden_key_marker_cipher_id`, on a trimmed line. */
  function MarkerId(t: string): Option<string> {
    if |KEY_MARKER| <= |t| && t[..|KEY_MARKER|] == KEY_MARKER && Trim(t[|KEY_MARKER|..]) != ""
    then Some(Trim(t[|KEY_MARKER|..]))
    else None
  }

  /** Where the last " (" starts. */
  function LastOpen(s: string): (r: Option<nat>)
    ensures r.Some? ==> r.value + 2 <= |s| && s[r.value] == ' ' && s[r.value + 1] == '('
  {
    if |s| < 2 then None
    else if s[|s| - 2] == ' ' && s[|s| - 1] == '(' then Some(|s| - 2)
    else LastOpen(s[..|s| - 1])
  }

  /** `legacy_key_comment_cipher_id`, on a trimmed line. */
  function LegacyId(t: string): Option<string> {
    if |t| < 2 || t[0] != '#' || t[1] != ' ' then None
    else
      var comment := t[2..];
      var open := LastOpen(comment);
      if open.None? then None
      else
        var suffix := comment[open.value + 2..];
        if suffix != "" && suffix[|suffix| - 1] == ')' then Some(suffix[..|suffix| - 1]) else None
  }

  function KnownId(t: string, known: set<string>): Option<string> {
    var id := if MarkerId(t).Some? then MarkerId(t) else LegacyId(t);
    if id.Some? && id.value in known then id else None
  }

  function DropPlaceholders(hosts: seq<string>): seq<string> {
    if hosts == [] then []
    else
      var front, last := DropPlaceholders(hosts[..|hosts| - 1]), hosts[|hosts| - 1];
      if last == PLACEHOLDER then front else front + [last]
  }

  function HostNote(words: seq<string>): Note {
    if words != [] && EqIgnoreCase(words[0], "Host") then HostLine(DropPlaceholders(words[1..])) else Inert
  }

  function NoteOf(line: string, known: set<string>): Note {
    var t := Trim(line);
    var id := KnownId(t, known);
    if id.Some? then IdLine(id.value) else HostNote(Words(t))
  }

  function Reader(known: set<string>): string -> Note {
    l => NoteOf(l, known)
  }

  /** What the managed file's lines say to someone who knows these ids. */
  function NotesOf(content: string, known: set<string>): seq<Note> {
    Each(Lines(content), Reader(known))
  }

  // --- Applying notes -----------------------------------------------------

  datatype ImportState = ImportState(pending: Option<string>, bindings: BindingMap, changed: bool)

  predicate Importable(hosts: seq<string>) {
    hosts != [] && AllValid(hosts)
  }

  function ApplyNote(st: ImportState, note: Note, now: int): ImportState {
    match note
    case Inert => st
    case IdLine(id) => st.(pending := Some(id))
    case HostLine(hosts) =>
      if st.pending.None? then st
      else
        var id, b := st.pending.value, st.bindings;
        if !Importable(hosts) || (id in b && b[id].hosts == hosts) then st.(pending := None)
        else ImportState(None, WithHosts(b, id, Dedup(hosts), now), true)
  }

  function ApplyNotes(st: ImportState, notes: seq<Note>, now: int): ImportState
    decreases |notes|
  {
    if notes == [] then st
    else ApplyNote(ApplyNotes(st, notes[..|notes| - 1], now), notes[|notes| - 1], now)
  }

  function Imported(b: BindingMap, notes: seq<Note>, now: int): ImportState {
    ApplyNotes(ImportState(None, b, false), notes, now)
  }

  /** `import_host_bindings_from_managed_file`: a missing file changes nothing. */
  method ImportManagedFile(file: HostBindingsFile, managed: Option<string>, known: set<string>, now: int)
    returns (changed: bool)
    modifies file
    ensures managed.None? ==> !changed && file.bindings == old(file.bindings)
    ensures managed.Some? ==>
      var out := Imported(old(file.bindings), NotesOf(managed.value, known), now);
      file.bindings == out.bindings && changed == out.changed
  {
    if managed.None? {
      return false;
    }
    var lines := Lines(managed.value);
    ghost var notes := Each(lines, Reader(known));
    ghost var start := ImportState(None, file.bindings, false);
    var pending: Option<string> := None;
    changed := false;
    for i := 0 to |lines|
      invariant ApplyNotes(start, notes[..i], now) == ImportState(pending, file.bindings, changed)
    {
      assert notes[..i + 1][..i] == notes[..i];
      var trimmed := Trim(lines[i]);
      var id := KnownId(trimmed, known);
      if id.Some? {
        pending := id;
        continue;
      }
      var parts := Words(trimmed);
      if parts == [] || !EqIgnoreCase(parts[0], "Host") || pending.None? {
        continue;
      }
      var owner := pending.value;
      pending := None;
      var hosts := DropPlaceholders(parts[1..]);
      if hosts == [] || !AllValid(hosts) {
        continue;
      }
      if owner !in file.bindings || file.bindings[owner].hosts != hosts {
        var ok := file.SetHosts(owner, hosts, now);
        changed := true;
      }
    }
    assert notes[..|lines|] == notes;
  }

  // --- What importing means -----------------------------------------------

  lemma {:induction false} ApplyNotesSnoc(st: ImportState, notes: seq<Note>, note: Note, now: int)
    ensures ApplyNotes(st, notes + [note], now) == ApplyNote(ApplyNotes(st, notes, now), note, now)
  {
    assert (notes + [note])[..|notes|] == notes;
  }

  lemma {:induction false} ApplyNotesConcat(st: ImportState, a: seq<Note>, b: seq<Note>, now: int)
    ensures ApplyNotes(st, a + b, now) == ApplyNotes(ApplyNotes(st, a, now), b, now)
    decreases |b|
  {
    if b == [] {
      assert a + b == a;
    } else {
      var front, last := b[..|b| - 1], b[|b| - 1];
      assert a + b == (a + front) + [last];
      ApplyNotesConcat(st, a, front, now);
      ApplyNotesSnoc(st, a + front, last, now);
    }
  }

  /** The key a Host line after `notes` would belong to. */
  function OpenBlock(notes: seq<Note>): Option<string> {
    if notes == [] then None
    else
      match notes[|notes| - 1]
      case Inert => OpenBlock(notes[..|notes| - 1])
      case IdLine(id) => Some(id)
      case HostLine(_) => None
  }

  /** The hosts of the last importable Host block of `id`. */
  function LastBlock(notes: seq<Note>, id: string): Option<seq<string>> {
    if notes == [] then None
    else
      var front, last := notes[..|notes| - 1], notes[|notes| - 1];
      if last.HostLine? && OpenBlock(front) == Some(id) && Importable(last.hosts) then Some(last.hosts)
      else LastBlock(front, id)
  }

  function HostsAfterImport(b: BindingMap, notes: seq<Note>, id: string): seq<string> {
    match LastBlock(notes, id)
    case Some(hosts) => Dedup(hosts)
    case None => HostsOf(b, id)
  }

  lemma {:induction false} SetKeepsGood(b: BindingMap, id: string, hosts: seq<string>, now: int)
    requires GoodMap(b) && Importable(hosts)
    ensures GoodMap(WithHosts(b, id, Dedup(hosts), now))
  {
    DedupGood(hosts);
  }

  /** `out` is what importing `notes` into `b` should give. */
  ghost predicate Meant(b: BindingMap, notes: seq<Note>, out: ImportState) {
    && out.pending == OpenBlock(notes)
    && GoodMap(out.bindings)
    && (!out.changed ==> out.bindings == b)
    && (forall id :: HostsOf(out.bindings, id) == HostsAfterImport(b, notes, id))
  }

  lemma {:induction false} OneMoreNote(b: BindingMap, front: seq<Note>, last: Note, st: ImportState, now: int)
    requires Meant(b, front, st)
    ensures Meant(b, front + [last], ApplyNote(st, last, now))
  {
    var notes, out := front + [last], ApplyNote(st, last, now);
    assert notes[..|front|] == front;
    if last.HostLine? && st.pending.Some? && Importable(last.hosts) {
      var owner := st.pending.value;
      if owner in st.bindings && st.bindings[owner].hosts == last.hosts {
        DedupFixed(last.hosts);
      } else {
        SetKeepsGood(st.bindings, owner, last.hosts, now);
      }
    }
    hide Dedup, GoodMap, Importable;
    forall id ensures HostsOf(out.bindings, id) == HostsAfterImport(b, notes, id) {
      assert HostsOf(st.bindings, id) == HostsAfterImport(b, front, id);
    }
  }

  /**
   Importing: for each key the file's last importable block wins, and a key
   without one keeps its hosts. An import that reports no change made none.
   */
  lemma {:induction false} ImportMeaning(b: BindingMap, notes: seq<Note>, now: int)
    requires GoodMap(b)
    ensures var out := Imported(b, notes, now);
      && out.pending == OpenBlock(notes)
      && GoodMap(out.bindings)
      && (!out.changed ==> out.bindings == b)
      && (forall id :: HostsOf(out.bindings, id) == HostsAfterImport(b, notes, id))
    decreases |notes|
  {
    if notes != [] {
      var front, last := notes[..|notes| - 1], notes[|notes| - 1];
      ImportMeaning(b, front, now);
      OneMoreNote(b, front, last, Imported(b, front, now), now);
      assert front + [last] == notes;
    }
  }
}
