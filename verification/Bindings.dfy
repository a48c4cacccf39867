/**
 `HostBindingsFile`: which OpenSSH `Host` patterns each vault item id is bound
 to. The class keeps the map in place as the source does; the functions state
 what each operation leaves behind.
 */
module Bindings {
  import opened Text

  datatype KeyBinding = KeyBinding(hosts: seq<string>, updatedAt: int)

  type BindingMap = map<string, KeyBinding>

  // --- Host patterns ------------------------------------------------------

  predicate UnsafeInSshConfig(c: char) {
    c == '"' || c == '\'' || c == '\\' || c == '#'
  }

  /** `validate_host_pattern` accepts exactly these. */
  predicate ValidPattern(pattern: string) {
    var t := Trim(pattern);
    && t != ""
    && (forall i :: 0 <= i < |t| ==> !IsWhite(t[i]) && !IsControl(t[i]) && !UnsafeInSshConfig(t[i]))
  }

  /** A stored pattern is one word that ssh_config reads as it is: it holds no quote, backslash, comment sign, blank or control character. */
  lemma {:induction false} ValidExactly(pattern: string)
    requires Trim(pattern) == pattern
    ensures ValidPattern(pattern) <==>
      pattern != "" && forall c <- pattern :: !IsWhite(c) && !IsControl(c) && c != '"' && c != '\'' && c != '\\' && c != '#'
  {
    hide Trim, IsWhite, IsControl;
    assert forall c <- pattern :: exists i :: 0 <= i < |pattern| && pattern[i] == c;
  }

  predicate AllValid(hosts: seq<string>) {
    forall h <- hosts :: ValidPattern(h)
  }

  lemma {:induction false} TokenIsTrimmed(h: string)
    requires Token(h)
    ensures Trim(h) == h
  {
    TrimOfTrimmed(h);
  }

  // --- Case-insensitive deduplication -------------------------------------

  predicate Mentions(hosts: seq<string>, host: string) {
    exists i :: 0 <= i < |hosts| && EqIgnoreCase(hosts[i], host)
  }

  function PushNew(hosts: seq<string>, host: string): seq<string> {
    if Mentions(hosts, host) then hosts else hosts + [host]
  }

  /** Trim each pattern and keep its first spelling only. */
  function Dedup(hosts: seq<string>): seq<string> {
    if hosts == [] then []
    else PushNew(Dedup(hosts[..|hosts| - 1]), Trim(hosts[|hosts| - 1]))
  }

  predicate CaseDistinct(hosts: seq<string>) {
    forall i, j :: 0 <= i < j < |hosts| ==> !EqIgnoreCase(hosts[i], hosts[j])
  }

  /** What the file may hold for one key. */
  predicate GoodHosts(hosts: seq<string>) {
    && hosts != []
    && CaseDistinct(hosts)
    && (forall h <- hosts :: Token(h) && ValidPattern(h))
  }

  predicate GoodMap(b: BindingMap) {
    forall id <- b :: GoodHosts(b[id].hosts)
  }

  lemma {:induction false} PushNewDistinct(hosts: seq<string>, host: string)
    requires CaseDistinct(hosts)
    ensures CaseDistinct(PushNew(hosts, host))
    ensures Mentions(PushNew(hosts, host), host)
  {
    var r := PushNew(hosts, host);
    if !Mentions(hosts, host) {
      assert r[|hosts|] == host;
    }
  }

  /** A valid pattern is stored as one blank-free word that is itself valid. */
  lemma {:induction false} StoredPattern(h: string)
    requires ValidPattern(h)
    ensures Token(Trim(h)) && ValidPattern(Trim(h))
  {
    TrimIsTrimmed(h);
  }

  /** Deduplicating valid patterns gives storable ones, and covers every input. */
  lemma {:induction false} DedupGood(hosts: seq<string>)
    requires AllValid(hosts)
    ensures CaseDistinct(Dedup(hosts))
    ensures forall h <- Dedup(hosts) :: Token(h) && ValidPattern(h)
    ensures forall h <- hosts :: Mentions(Dedup(hosts), Trim(h))
    ensures hosts != [] ==> Dedup(hosts) != []
  {
    if hosts != [] {
      var front, h := hosts[..|hosts| - 1], hosts[|hosts| - 1];
      DedupGood(front);
      StoredPattern(h);
      PushNewDistinct(Dedup(front), Trim(h));
      forall g <- hosts ensures Mentions(Dedup(hosts), Trim(g)) {
        if g in front {
          var i :| 0 <= i < |Dedup(front)| && EqIgnoreCase(Dedup(front)[i], Trim(g));
          assert Dedup(hosts)[i] == Dedup(front)[i];
        }
      }
    }
  }

  lemma {:induction false} DistinctLast(front: seq<string>, last: string)
    requires CaseDistinct(front + [last])
    ensures CaseDistinct(front) && !Mentions(front, last)
  {
    var all := front + [last];
    forall i | 0 <= i < |front| ensures !EqIgnoreCase(front[i], last) {
      assert all[i] == front[i] && all[|front|] == last;
    }
    forall i, j | 0 <= i < j < |front| ensures !EqIgnoreCase(front[i], front[j]) {
      assert all[i] == front[i] && all[j] == front[j];
    }
  }

  /** Storable lists are the fixed points: nothing to trim, nothing to merge. */
  lemma {:induction false} DedupFixed(hosts: seq<string>)
    requires CaseDistinct(hosts) && forall h <- hosts :: Token(h)
    ensures Dedup(hosts) == hosts
  {
    if hosts != [] {
      var front, h := hosts[..|hosts| - 1], hosts[|hosts| - 1];
      assert hosts == front + [h];
      DistinctLast(front, h);
      assert Token(h);
      TokenIsTrimmed(h);
      DedupFixed(front);
    }
  }

  /** Every kept spelling comes from the input. */
  lemma {:induction false} DedupFrom(hosts: seq<string>)
    ensures forall d <- Dedup(hosts) :: exists h <- hosts :: Trim(h) == d
  {
    if hosts != [] {
      var front, last := hosts[..|hosts| - 1], hosts[|hosts| - 1];
      DedupFrom(front);
      forall d <- Dedup(hosts) ensures exists h <- hosts :: Trim(h) == d {
        if d in Dedup(front) {
          var h :| h in front && Trim(h) == d;
          assert h in hosts;
        } else {
          assert last in hosts && Trim(last) == d;
        }
      }
    }
  }

  lemma {:induction false} NewSpelling(front: seq<string>, host: string)
    requires forall j :: 0 <= j < |front| ==> !EqIgnoreCase(Trim(front[j]), host)
    ensures !Mentions(Dedup(front), host)
  {
    DedupFrom(front);
    hide EqIgnoreCase, Trim, Dedup;
    forall k | 0 <= k < |Dedup(front)| ensures !EqIgnoreCase(Dedup(front)[k], host) {
      assert Dedup(front)[k] in Dedup(front);
      var h :| h in front && Trim(h) == Dedup(front)[k];
      var j :| 0 <= j < |front| && front[j] == h;
    }
  }

  /** A spelling is kept if no earlier pattern spells the same, right behind what was kept before it. */
  lemma {:induction false} DedupFirst(hosts: seq<string>, i: nat)
    requires i < |hosts| && forall j :: 0 <= j < i ==> !EqIgnoreCase(Trim(hosts[j]), Trim(hosts[i]))
    ensures Dedup(hosts[..i]) + [Trim(hosts[i])] <= Dedup(hosts)
    decreases |hosts|
  {
    hide EqIgnoreCase, Trim, Mentions;
    var front := hosts[..|hosts| - 1];
    if i < |front| {
      DedupFirst(front, i);
      assert front[..i] == hosts[..i];
    } else {
      assert hosts[..i] == front;
      NewSpelling(front, Trim(hosts[i]));
    }
  }

  // --- Operations on the map ----------------------------------------------

  function WithHosts(b: BindingMap, id: string, hosts: seq<string>, now: int): BindingMap {
    if hosts == [] then b - {id} else b[id := KeyBinding(hosts, now)]
  }

  /** The hosts bound to `id`; none when it has no entry. */
  function HostsOf(b: BindingMap, id: string): seq<string> {
    if id in b then b[id].hosts else []
  }

  /** Setting hosts stamps the entry with the time, and touches no other. */
  lemma {:induction false} WithHostsExactly(b: BindingMap, id: string, hosts: seq<string>, now: int, other: string)
    ensures HostsOf(WithHosts(b, id, hosts, now), id) == hosts
    ensures hosts != [] ==> WithHosts(b, id, hosts, now)[id].updatedAt == now
    ensures hosts == [] ==> id !in WithHosts(b, id, hosts, now)
    ensures other != id ==> (other in WithHosts(b, id, hosts, now) <==> other in b)
    ensures other != id && other in b ==> WithHosts(b, id, hosts, now)[other] == b[other]
  {
  }

  function Without(hosts: seq<string>, host: string): seq<string> {
    if hosts == [] then []
    else
      var front := Without(hosts[..|hosts| - 1], host);
      if EqIgnoreCase(hosts[|hosts| - 1], host) then front else front + [hosts[|hosts| - 1]]
  }

  lemma {:induction false} MentionsSnoc(front: seq<string>, last: string, host: string)
    ensures Mentions(front + [last], host) <==> Mentions(front, host) || EqIgnoreCase(last, host)
  {
    hide EqIgnoreCase;
    var hosts := front + [last];
    if Mentions(front, host) {
      var i :| 0 <= i < |front| && EqIgnoreCase(front[i], host);
      assert EqIgnoreCase(hosts[i], host);
    }
    if EqIgnoreCase(last, host) {
      assert EqIgnoreCase(hosts[|front|], host);
    }
  }

  lemma {:induction false} WithoutMembers(hosts: seq<string>, host: string)
    ensures forall h :: h in Without(hosts, host) <==> h in hosts && !EqIgnoreCase(h, host)
  {
    hide EqIgnoreCase;
    if hosts != [] {
      var front, last := hosts[..|hosts| - 1], hosts[|hosts| - 1];
      WithoutMembers(front, host);
      assert hosts == front + [last];
    }
  }

  /** Removal works pattern by pattern, in order. */
  lemma {:induction false} WithoutAppend(a: seq<string>, b: seq<string>, host: string)
    ensures Without(a + b, host) == Without(a, host) + Without(b, host)
    decreases |b|
  {
    hide EqIgnoreCase;
    if b == [] {
      assert a + b == a;
    } else {
      assert (a + b)[..|a + b| - 1] == a + b[..|b| - 1];
      WithoutAppend(a, b[..|b| - 1], host);
    }
  }

  lemma {:induction false} WithoutLength(hosts: seq<string>, host: string)
    ensures |Without(hosts, host)| <= |hosts|
    ensures |Without(hosts, host)| == |hosts| <==> !Mentions(hosts, host)
    ensures |Without(hosts, host)| == |hosts| ==> Without(hosts, host) == hosts
  {
    hide EqIgnoreCase;
    if hosts != [] {
      var front, last := hosts[..|hosts| - 1], hosts[|hosts| - 1];
      WithoutLength(front, host);
      assert hosts == front + [last];
      MentionsSnoc(front, last, host);
    }
  }

  lemma {:induction false} WithoutDistinct(hosts: seq<string>, host: string)
    requires CaseDistinct(hosts)
    ensures CaseDistinct(Without(hosts, host))
  {
    hide EqIgnoreCase;
    if hosts != [] {
      var front, last := hosts[..|hosts| - 1], hosts[|hosts| - 1];
      WithoutDistinct(front, host);
      WithoutMembers(front, host);
      var rest, out := Without(front, host), Without(hosts, host);
      forall i, j | 0 <= i < j < |out| ensures !EqIgnoreCase(out[i], out[j]) {
        if j == |rest| {
          assert out[i] in front;
          var k :| 0 <= k < |front| && front[k] == out[i];
          assert !EqIgnoreCase(hosts[k], hosts[|front|]);
        }
      }
    }
  }

  /** Dropping a pattern keeps the others in order and only the others. */
  lemma {:induction false} WithoutKeeps(hosts: seq<string>, host: string)
    ensures CaseDistinct(hosts) ==> CaseDistinct(Without(hosts, host))
    ensures !Mentions(Without(hosts, host), host)
    ensures |Without(hosts, host)| == |hosts| ==> Without(hosts, host) == hosts
    ensures forall h :: h in Without(hosts, host) <==> h in hosts && !EqIgnoreCase(h, host)
    ensures |Without(hosts, host)| == |hosts| <==> !Mentions(hosts, host)
    ensures |Without(hosts, host)| <= |hosts|
  {
    hide EqIgnoreCase, Without;
    WithoutMembers(hosts, host);
    WithoutLength(hosts, host);
    if CaseDistinct(hosts) {
      WithoutDistinct(hosts, host);
    }
  }

  /** What removing a pattern leaves: an entry left, or found, without patterns goes away. */
  function RemovedFrom(b: BindingMap, id: string, host: string, now: int): BindingMap {
    if id !in b then b
    else
      var kept := Without(b[id].hosts, host);
      if kept == [] then b - {id} else if |kept| != |b[id].hosts| then b[id := KeyBinding(kept, now)] else b
  }

  lemma {:induction false} RemovedMeaning(b: BindingMap, id: string, host: string, now: int)
    ensures HostsOf(RemovedFrom(b, id, host, now), id) == Without(HostsOf(b, id), host)
    ensures GoodMap(b) ==> GoodMap(RemovedFrom(b, id, host, now))
    ensures GoodMap(b) && !Mentions(HostsOf(b, id), host) ==> RemovedFrom(b, id, host, now) == b
  {
    WithoutKeeps(HostsOf(b, id), host);
  }

  class HostBindingsFile {
    var bindings: BindingMap

    constructor ()
      ensures bindings == map[]
    {
      bindings := map[];
    }

    /** Replace the patterns of `id`; an empty list removes the entry. */
    method SetHosts(id: string, hosts: seq<string>, now: int) returns (ok: bool)
      modifies this
      ensures ok <==> AllValid(hosts)
      ensures bindings == if ok then WithHosts(old(bindings), id, Dedup(hosts), now) else old(bindings)
      ensures old(GoodMap(bindings)) ==> GoodMap(bindings)
    {
      for i := 0 to |hosts|
        invariant AllValid(hosts[..i])
      {
        if !ValidPattern(hosts[i]) {
          return false;
        }
        assert hosts[..i + 1] == hosts[..i] + [hosts[i]];
      }
      assert hosts[..|hosts|] == hosts;
      var deduped: seq<string> := [];
      for i := 0 to |hosts|
        invariant deduped == Dedup(hosts[..i])
      {
        var trimmed := Trim(hosts[i]);
        if !Mentions(deduped, trimmed) {
          deduped := deduped + [trimmed];
        }
        assert hosts[..i + 1][..i] == hosts[..i];
      }
      DedupGood(hosts);
      if deduped == [] {
        bindings := bindings - {id};
      } else {
        bindings := bindings[id := KeyBinding(deduped, now)];
      }
      return true;
    }

    /** Add one pattern unless some spelling of it is already there. */
    method AddHost(id: string, host: string, now: int) returns (ok: bool)
      modifies this
      ensures ok <==> ValidPattern(host)
      ensures !ok ==> bindings == old(bindings)
      ensures ok ==>
        bindings == old(bindings)[id := KeyBinding(PushNew(HostsOf(old(bindings), id), Trim(host)), now)]
      ensures old(GoodMap(bindings)) ==> GoodMap(bindings)
    {
      if !ValidPattern(host) {
        return false;
      }
      StoredPattern(host);
      var trimmed := Trim(host);
      var hosts := if id in bindings then bindings[id].hosts else [];
      if CaseDistinct(hosts) {
        PushNewDistinct(hosts, trimmed);
      }
      if !Mentions(hosts, trimmed) {
        hosts := hosts + [trimmed];
      }
      bindings := bindings[id := KeyBinding(hosts, now)];
      return true;
    }

    /** Remove one pattern, whatever its spelling; say whether it was there. */
    method RemoveHost(id: string, host: string, now: int) returns (removed: bool)
      modifies this
      ensures removed <==> Mentions(HostsOf(old(bindings), id), Trim(host))
      ensures bindings == RemovedFrom(old(bindings), id, Trim(host), now)
      ensures HostsOf(bindings, id) == Without(HostsOf(old(bindings), id), Trim(host))
      ensures old(GoodMap(bindings)) ==> GoodMap(bindings) && (!removed ==> bindings == old(bindings))
    {
      RemovedMeaning(bindings, id, Trim(host), now);
      if id !in bindings {
        return false;
      }
      var lookup := Trim(host);
      var hosts := bindings[id].hosts;
      var kept: seq<string> := [];
      for i := 0 to |hosts|
        invariant kept == Without(hosts[..i], lookup)
      {
        if !EqIgnoreCase(hosts[i], lookup) {
          kept := kept + [hosts[i]];
        }
        assert hosts[..i + 1][..i] == hosts[..i];
      }
      assert hosts[..|hosts|] == hosts;
      WithoutKeeps(hosts, lookup);
      removed := |kept| != |hosts|;
      if kept == [] {
        bindings := bindings - {id};
      } else if removed {
        bindings := bindings[id := KeyBinding(kept, now)];
      }
    }

    method ClearKey(id: string) returns (removed: bool)
      modifies this
      ensures removed <==> id in old(bindings)
      ensures bindings == old(bindings) - {id}
      ensures old(GoodMap(bindings)) ==> GoodMap(bindings)
    {
      removed := id in bindings;
      bindings := bindings - {id};
    }

    /** Drop entries of ids that are not known any more. */
    method PruneOrphans(known: set<string>) returns (pruned: nat)
      modifies this
      ensures bindings == Pruned(old(bindings), known)
      ensures pruned == |old(bindings)| - |bindings|
      ensures pruned == 0 <==> bindings == old(bindings)
      ensures old(GoodMap(bindings)) ==> GoodMap(bindings)
    {
      var before := bindings;
      bindings := map id | id in bindings && id in known :: bindings[id];
      PrunedSize(before, known);
      pruned := |before| - |bindings|;
    }
  }

  function Pruned(b: BindingMap, known: set<string>): BindingMap {
    map id | id in b && id in known :: b[id]
  }

  /** Pruning keeps exactly the entries of known ids, as they were. */
  lemma {:induction false} PrunedExactly(b: BindingMap, known: set<string>, id: string)
    ensures id in Pruned(b, known) <==> id in b && id in known
    ensures id in Pruned(b, known) ==> Pruned(b, known)[id] == b[id]
  {
  }

  lemma {:induction false} PrunedSize(b: BindingMap, known: set<string>)
    ensures |Pruned(b, known)| <= |b|
    ensures |Pruned(b, known)| == |b| <==> Pruned(b, known) == b
  {
    var p := Pruned(b, known);
    assert p.Keys <= b.Keys;
    SubsetSize(p.Keys, b.Keys);
    if p.Keys == b.Keys {
      assert p == b;
    }
  }

  lemma {:induction false} SubsetSize(a: set<string>, b: set<string>)
    requires a <= b
    ensures |a| <= |b|
    ensures |a| == |b| <==> a == b
  {
    assert b == a + (b - a);
    if a != b {
      var x :| x in b - a;
    }
  }
}
