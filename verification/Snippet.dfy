/**
 The printer behind the managed file, and why the importer reads back exactly
 what it printed.
 */
module Snippet {
  import opened Text
  import opened Bindings
  import opened SshConfigArg
  import opened ManagedConfig

  // Long literals are joined from parts: the verifier unfolds each part letter by letter.
  const TITLE_LINE := "# SSHWarden managed SSH config"
  const EDIT_LINE := "# You may edit Host lines in " + "SSHWarden key blocks; " + "they are imported " + "before regeneration."
  const OTHER_LINE := "# Other lines are regenerated. " + "Manage bindings via " + "`sshwarden keys " + "bind/unbind ...`."
  const HEADER: seq<string> := [TITLE_LINE, EDIT_LINE, OTHER_LINE, ""]

  const UNBOUND_TITLE := "# --- Unbound keys " + "(uncomment + edit to use) ---"

  /** Everything the printer needs besides the bindings: where each key's selector file is. */
  datatype Layout = Layout(selector: ManagedKey -> string, windows: bool)

  function SelectorArg(k: ManagedKey, at: Layout): string {
    Quoted(at.selector(k), at.windows)
  }

  function Comment(k: ManagedKey): string {
    "# " + k.name + " (" + k.id + ")"
  }

  function BoundBlock(k: ManagedKey, hosts: seq<string>, at: Layout): seq<string> {
    [KEY_MARKER + k.id, Comment(k), "Host " + Join(hosts, " "),
     "    IdentityFile " + SelectorArg(k, at), "    IdentitiesOnly yes", ""]
  }

  function UnboundBlock(k: ManagedKey, at: Layout): seq<string> {
    [KEY_MARKER + k.id, Comment(k), "# Host <host>",
     "#     IdentityFile " + SelectorArg(k, at), "#     IdentitiesOnly yes", ""]
  }

  function BoundKeys(keys: seq<ManagedKey>, b: BindingMap): seq<ManagedKey> {
    if keys == [] then []
    else
      var front, k := BoundKeys(keys[..|keys| - 1], b), keys[|keys| - 1];
      if HostsOf(b, k.id) != [] then front + [k] else front
  }

  function UnboundKeys(keys: seq<ManagedKey>, b: BindingMap): seq<ManagedKey> {
    if keys == [] then []
    else
      var front, k := UnboundKeys(keys[..|keys| - 1], b), keys[|keys| - 1];
      if HostsOf(b, k.id) != [] then front else front + [k]
  }

  function BoundLines(keys: seq<ManagedKey>, b: BindingMap, at: Layout): seq<string> {
    if keys == [] then []
    else
      var k := keys[|keys| - 1];
      BoundLines(keys[..|keys| - 1], b, at) + BoundBlock(k, HostsOf(b, k.id), at)
  }

  function UnboundLines(keys: seq<ManagedKey>, at: Layout): seq<string> {
    if keys == [] then []
    else UnboundLines(keys[..|keys| - 1], at) + UnboundBlock(keys[|keys| - 1], at)
  }

  function SnippetLines(keys: seq<ManagedKey>, b: BindingMap, at: Layout): seq<string> {
    var unbound := UnboundKeys(keys, b);
    HEADER + BoundLines(BoundKeys(keys, b), b, at)
    + (if unbound == [] then [] else [UNBOUND_TITLE, ""] + UnboundLines(unbound, at))
  }

  function Rendered(keys: seq<ManagedKey>, b: BindingMap, at: Layout): string {
    Join(SnippetLines(keys, b, at), "\n")
  }

  /** `ssh_config_snippet_with_bindings_in`. */
  method RenderSnippet(keys: seq<ManagedKey>, b: BindingMap, at: Layout) returns (text: string)
    ensures text == Rendered(keys, b, at)
  {
    var bound, unbound := SplitKeys(keys, b);
    var boundLines := PrintBound(bound, b, at);
    var lines := HEADER + boundLines;
    if unbound != [] {
      var unboundLines := PrintUnbound(unbound, at);
      lines := lines + ([UNBOUND_TITLE, ""] + unboundLines);
    } else {
      lines := lines + [];
    }
    text := Join(lines, "\n");
  }

  method SplitKeys(keys: seq<ManagedKey>, b: BindingMap) returns (bound: seq<ManagedKey>, unbound: seq<ManagedKey>)
    ensures bound == BoundKeys(keys, b) && unbound == UnboundKeys(keys, b)
    ensures forall k <- bound :: k.id in b
  {
    bound, unbound := [], [];
    for i := 0 to |keys|
      invariant bound == BoundKeys(keys[..i], b) && unbound == UnboundKeys(keys[..i], b)
      invariant forall k <- bound :: k.id in b
    {
      assert keys[..i + 1][..i] == keys[..i];
      if keys[i].id in b && b[keys[i].id].hosts != [] {
        bound := bound + [keys[i]];
      } else {
        unbound := unbound + [keys[i]];
      }
    }
    assert keys[..|keys|] == keys;
  }

  method PrintBound(bound: seq<ManagedKey>, b: BindingMap, at: Layout) returns (lines: seq<string>)
    requires forall k <- bound :: k.id in b
    ensures lines == BoundLines(bound, b, at)
  {
    lines := [];
    for i := 0 to |bound|
      invariant lines == BoundLines(bound[..i], b, at)
    {
      assert bound[..i + 1][..i] == bound[..i];
      assert bound[i] in bound;
      lines := lines + BoundBlock(bound[i], b[bound[i].id].hosts, at);
    }
    assert bound[..|bound|] == bound;
  }

  method PrintUnbound(unbound: seq<ManagedKey>, at: Layout) returns (lines: seq<string>)
    ensures lines == UnboundLines(unbound, at)
  {
    lines := [];
    for i := 0 to |unbound|
      invariant lines == UnboundLines(unbound[..i], at)
    {
      assert unbound[..i + 1][..i] == unbound[..i];
      lines := lines + UnboundBlock(unbound[i], at);
    }
    assert unbound[..|unbound|] == unbound;
  }

  lemma {:induction false} BoundKeysAreBound(keys: seq<ManagedKey>, b: BindingMap)
    ensures forall k <- BoundKeys(keys, b) :: k in keys && k.id in b && b[k.id].hosts != []
    ensures forall k <- keys :: HostsOf(b, k.id) != [] ==> k in BoundKeys(keys, b)
    ensures forall k <- UnboundKeys(keys, b) :: k in keys
  {
    if keys != [] {
      BoundKeysAreBound(keys[..|keys| - 1], b);
    }
  }

  /** Each key is printed once: as a block if it has hosts, as a template if not. */
  lemma {:induction false} SplitExactly(keys: seq<ManagedKey>, b: BindingMap)
    ensures |BoundKeys(keys, b)| + |UnboundKeys(keys, b)| == |keys|
    ensures forall k <- UnboundKeys(keys, b) :: k in keys && HostsOf(b, k.id) == []
    ensures forall k <- keys :: HostsOf(b, k.id) == [] ==> k in UnboundKeys(keys, b)
  {
    if keys != [] {
      SplitExactly(keys[..|keys| - 1], b);
    }
  }
}
