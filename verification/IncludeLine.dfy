/**
 Installing and removing SSHWarden's Include line in `~/.ssh/config`. The
 methods are the source's flag-driven loops over lines; the functions say what
 becomes of each line from its kind and its context alone.
 */
module IncludeLine {
  import opened Text
  import opened SshConfigArg

  const MARKER := "# SSHWarden managed key selector snippets"

  /** `is_ssh_include_directive`. */
  predicate IsInclude(line: string) {
    var ws := Words(line);
    ws != [] && EqIgnoreCase(ws[0], "Include")
  }

  /** The keyword counts in any case, whatever its argument. */
  lemma {:induction false} AnyCaseIncludes(keyword: string, arg: string)
    requires keyword in {"Include", "include", "INCLUDE", "iNCLUDE"}
    ensures IsInclude(keyword + " " + arg)
  {
    assert NoWhite(keyword);
    WordLenOf(keyword, " " + arg);
    var t := keyword + (" " + arg);
    assert keyword + " " + arg == t && t[..|keyword|] == keyword && t[0] == keyword[0];
  }

  /** The line to install, and which trimmed lines count as an old form of it. */
  datatype Rules = Rules(wanted: string, matches: string -> bool)

  predicate GoodRules(rules: Rules) {
    var w := rules.wanted;
    && OneLine(w) && StripCr(w) == w && Trim(w) == w && w != "" && w != MARKER
    && rules.matches(w) && !rules.matches("")
  }

  /** What the rewriters can tell about one line. */
  datatype Kind = Marker | Blank | Match | Include | Other

  function KindOf(line: string, rules: Rules): Kind {
    var t := Trim(line);
    if t == MARKER then Marker
    else if t == "" then Blank
    else if rules.matches(t) then Match
    else if IsInclude(t) then Include
    else Other
  }

  function Classifier(rules: Rules): string -> Kind {
    l => KindOf(l, rules)
  }

  function Kinds(lines: seq<string>, rules: Rules): seq<Kind> {
    Each(lines, Classifier(rules))
  }

  /** Line `i` comes right after a marker, blank lines apart. */
  predicate Awaiting(ks: seq<Kind>, i: nat)
    requires i <= |ks|
  {
    i > 0 && (ks[i - 1] == Marker || (ks[i - 1] == Blank && Awaiting(ks, i - 1)))
  }

  /** The same from a distance: some marker before `i` with only blank lines between. */
  lemma {:induction false} AwaitingMeaning(ks: seq<Kind>, i: nat)
    requires i <= |ks|
    ensures Awaiting(ks, i) <==>
      exists j :: 0 <= j < i && ks[j] == Marker && forall k :: j < k < i ==> ks[k] == Blank
  {
    if i > 0 && ks[i - 1] == Blank {
      AwaitingMeaning(ks, i - 1);
      if Awaiting(ks, i - 1) {
        var j :| 0 <= j < i - 1 && ks[j] == Marker && forall k :: j < k < i - 1 ==> ks[k] == Blank;
        assert forall k :: j < k < i ==> ks[k] == Blank;
      }
    }
  }

  // --- Shared text facts --------------------------------------------------

  function EnsureNewline(s: string): string {
    if Terminated(s) then s else s + "\n"
  }

  /** Joined lines with a final line feed ensured are again joined lines. */
  lemma {:induction false} NewlineJoin(ls: seq<string>) returns (padded: seq<string>)
    ensures padded == ls || padded == ls + [""]
    ensures EnsureNewline(Join(ls, "\n")) == Join(padded, "\n")
  {
    padded := ls;
    if !Terminated(Join(ls, "\n")) {
      padded := ls + [""];
      JoinAppend(ls, [""], "\n");
      assert Join(ls, "\n") + "\n" + "" == Join(ls, "\n") + "\n";
    }
  }

  /** Reading written lines back, every line trims to one that was written. */
  lemma {:induction false} ReadBack(ls: seq<string>)
    requires forall l <- ls :: OneLine(l)
    ensures forall l <- Lines(EnsureNewline(Join(ls, "\n"))) ::
              Trim(l) == "" || exists w <- ls :: Trim(w) == Trim(l)
    ensures forall w <- ls :: w != "" && StripCr(w) == w ==> w in Lines(EnsureNewline(Join(ls, "\n")))
  {
    var padded := NewlineJoin(ls);
    LinesOfJoin(padded);
    var out := Lines(Join(padded, "\n"));
    forall l <- out ensures Trim(l) == "" || exists w <- ls :: Trim(w) == Trim(l) {
      var i :| 0 <= i < |out| && out[i] == l;
      StripCrTrim(padded[i]);
      if i < |ls| { assert ls[i] in ls; }
    }
    forall w <- ls | w != "" && StripCr(w) == w ensures w in out {
      var i :| 0 <= i < |ls| && ls[i] == w;
      assert padded[i] == w;
      assert out[i] == w;
    }
  }

  /** Kinds are decided by the trimmed text. */
  lemma {:induction false} KindOfTrim(a: string, b: string, rules: Rules)
    requires Trim(a) == Trim(b)
    ensures KindOf(a, rules) == KindOf(b, rules)
  {
  }

  lemma {:induction false} MarkerShape()
    ensures OneLine(MARKER) && StripCr(MARKER) == MARKER && Trim(MARKER) == MARKER
    ensures MARKER != "" && MARKER[0] == '#'
  {
    TrimOfTrimmed(MARKER);
  }

  /** The rules a site gives. */
  function SiteRules(site: Site): Rules {
    Rules(WantedLine(site), t => Matches(t, site))
  }

  lemma {:induction false} SiteRulesGood(site: Site)
    requires GoodSite(site)
    ensures GoodRules(SiteRules(site))
  {
    WantedShape(site);
    BlankIsNoMatch(site);
    assert MARKER[0] == '#';
  }

  /** No path makes a blank line count as an Include line. */
  lemma {:induction false} BlankIsNoMatch(site: Site)
    ensures !SiteRules(site).matches("")
  {
    assert Trim("") == "";
  }

  lemma {:induction false} WantedKind(rules: Rules)
    requires GoodRules(rules)
    ensures KindOf(rules.wanted, rules) == Match
  {
    MarkerShape();
  }

  /** A line whose trimmed text is the wanted one is a matching line. */
  lemma {:induction false} WantedTextKind(l: string, rules: Rules)
    requires GoodRules(rules) && Trim(l) == rules.wanted
    ensures KindOf(l, rules) == Match
  {
    WantedKind(rules);
    KindOfTrim(l, rules.wanted, rules);
  }

  // --- Installing ---------------------------------------------------------

  datatype Fate = Keep | Replace | Drop

  /** What installing does with line `i`. */
  function InstallFate(ks: seq<Kind>, i: nat): Fate
    requires i < |ks|
  {
    if Awaiting(ks, i) && (ks[i] == Include || ks[i] == Match) then Replace
    else if ks[i] == Match then Drop
    else Keep
  }

  function Rewritten(lines: seq<string>, ks: seq<Kind>, n: nat, wanted: string): seq<string>
    requires n <= |lines| == |ks|
  {
    if n == 0 then []
    else
      var front := Rewritten(lines, ks, n - 1, wanted);
      match InstallFate(ks, n - 1)
      case Keep => front + [lines[n - 1]]
      case Replace => front + [wanted]
      case Drop => front
  }

  predicate SomeFate(ks: seq<Kind>, n: nat, f: Fate)
    requires n <= |ks|
  {
    exists i :: 0 <= i < n && InstallFate(ks, i) == f
  }

  predicate Present(text: string, rules: Rules) {
    exists l <- Lines(text) :: Trim(l) == rules.wanted
  }

  function MarkedBlock(rules: Rules): string {
    "\n" + MARKER + "\n" + rules.wanted + "\n"
  }

  function AllRewritten(existing: string, rules: Rules): seq<string> {
    var lines := Lines(existing);
    Rewritten(lines, Kinds(lines, rules), |lines|, rules.wanted)
  }

  predicate Fated(existing: string, rules: Rules, f: Fate) {
    var lines := Lines(existing);
    SomeFate(Kinds(lines, rules), |lines|, f)
  }

  function Installed(existing: string, rules: Rules): string {
    if Present(existing, rules) then existing
    else if Fated(existing, rules, Replace) then EnsureNewline(Join(AllRewritten(existing, rules), "\n"))
    else
      var base := if Fated(existing, rules, Drop) then Join(AllRewritten(existing, rules), "\n") else existing;
      EnsureNewline(base) + MarkedBlock(rules)
  }

  /** `write_sshwarden_include_line`, from the old config text to the new one. */
  method WriteIncludeLine(existing: string, rules: Rules) returns (content: string)
    requires !rules.matches("")
    ensures content == Installed(existing, rules)
  {
    hide Trim, Lines, Join, EnsureNewline, IsInclude;
    var lines := Lines(existing);
    var wanted := rules.wanted;
    for i := 0 to |lines|
      invariant forall j :: 0 <= j < i ==> Trim(lines[j]) != wanted
    {
      if Trim(lines[i]) == wanted {
        return existing;
      }
    }
    ghost var ks := Kinds(lines, rules);
    var rewritten: seq<string> := [];
    var markerWaiting, replaced, dropped := false, false, false;
    for i := 0 to |lines|
      invariant markerWaiting <==> Awaiting(ks, i)
      invariant rewritten == Rewritten(lines, ks, i, wanted)
      invariant replaced <==> SomeFate(ks, i, Replace)
      invariant dropped <==> SomeFate(ks, i, Drop)
    {
      var line := lines[i];
      var trimmed := Trim(line);
      SomeFateNext(ks, i, Replace);
      SomeFateNext(ks, i, Drop);
      OursLine(line, rules);
      if trimmed == MARKER {
        markerWaiting := true;
        rewritten := rewritten + [line];
        continue;
      }
      if markerWaiting {
        if trimmed == "" {
          rewritten := rewritten + [line];
          continue;
        }
        if IsInclude(trimmed) || rules.matches(trimmed) {
          rewritten := rewritten + [wanted];
          markerWaiting, replaced := false, true;
          continue;
        }
        markerWaiting := false;
      }
      if rules.matches(trimmed) {
        dropped := true;
        continue;
      }
      rewritten := rewritten + [line];
    }
    if replaced {
      content := EnsureNewline(Join(rewritten, "\n"));
    } else {
      var base := if dropped then Join(rewritten, "\n") else existing;
      content := EnsureNewline(base) + ("\n" + MARKER + "\n" + wanted + "\n");
    }
  }

  lemma {:induction false} SomeFateNext(ks: seq<Kind>, i: nat, f: Fate)
    requires i < |ks|
    ensures SomeFate(ks, i + 1, f) <==> SomeFate(ks, i, f) || InstallFate(ks, i) == f
  {
  }

  lemma {:induction false} RewrittenLines(lines: seq<string>, ks: seq<Kind>, n: nat, wanted: string)
    requires n <= |lines| == |ks|
    requires OneLine(wanted) && forall l <- lines :: OneLine(l)
    ensures forall l <- Rewritten(lines, ks, n, wanted) :: OneLine(l)
    ensures SomeFate(ks, n, Replace) ==> wanted in Rewritten(lines, ks, n, wanted)
  {
    if n > 0 {
      RewrittenLines(lines, ks, n - 1, wanted);
      SomeFateNext(ks, n - 1, Replace);
    }
  }

  lemma {:induction false} OneEndedLine(b: string)
    requires OneLine(b) && StripCr(b) == b
    ensures Lines(b + "\n") == [b]
  {
    LinesCons(b, "");
    assert b + "\n" + "" == b + "\n";
  }

  lemma {:induction false} TwoLines(a: string, b: string, tail: string)
    requires OneLine(a) && StripCr(a) == a && OneLine(b) && StripCr(b) == b && tail == b + "\n"
    ensures Lines(a + "\n" + tail) == [a, b]
  {
    OneEndedLine(b);
    hide Lines, StripCr, OneLine;
    LinesCons(a, tail);
  }

  lemma {:induction false} BlankFirst(text: string)
    ensures Lines("" + "\n" + text) == [""] + Lines(text)
  {
    LinesCons("", text);
    hide Lines;
  }

  lemma {:induction false} BlockLines(a: string, b: string)
    requires OneLine(a) && StripCr(a) == a && OneLine(b) && StripCr(b) == b
    ensures Lines("\n" + a + "\n" + b + "\n") == ["", a, b]
  {
    hide Lines, StripCr, OneLine;
    TwoLines(a, b, b + "\n");
    BlankFirst(a + "\n" + (b + "\n"));
    BlockShape("\n", a, b);
  }

  lemma {:induction false} BlockShape<T>(nl: seq<T>, a: seq<T>, b: seq<T>)
    ensures [] + nl + (a + nl + (b + nl)) == nl + a + nl + b + nl
  {
  }

  lemma {:induction false} MarkedBlockLines(rules: Rules)
    requires GoodRules(rules)
    ensures Lines(MarkedBlock(rules)) == ["", MARKER, rules.wanted]
  {
    MarkerShape();
    BlockLines(MARKER, rules.wanted);
  }

  /** After installing, the wanted line is there, whatever the config was. */
  lemma {:induction false} InstalledIsPresent(existing: string, rules: Rules)
    requires GoodRules(rules)
    ensures Present(Installed(existing, rules), rules)
  {
    var lines := Lines(existing);
    var w := rules.wanted;
    if !Present(existing, rules) {
      if Fated(existing, rules, Replace) {
        LinesAreLines(existing);
        RewrittenLines(lines, Kinds(lines, rules), |lines|, w);
        ReadBack(AllRewritten(existing, rules));
      } else {
        var base := if Fated(existing, rules, Drop) then Join(AllRewritten(existing, rules), "\n") else existing;
        LinesAppend(EnsureNewline(base), MarkedBlock(rules));
        MarkedBlockLines(rules);
      }
      assert w in Lines(Installed(existing, rules));
    }
  }

  /** Installing twice is installing once. */
  lemma {:induction false} InstallIdempotent(existing: string, rules: Rules)
    requires GoodRules(rules)
    ensures Installed(Installed(existing, rules), rules) == Installed(existing, rules)
  {
    InstalledIsPresent(existing, rules);
  }

  /** The lines SSHWarden has no claim on: neither matching nor an awaited Include. */
  function Foreign(lines: seq<string>, ks: seq<Kind>, n: nat): seq<string>
    requires n <= |lines| == |ks|
  {
    if n == 0 then []
    else if ks[n - 1] == Match || (ks[n - 1] == Include && Awaiting(ks, n - 1)) then Foreign(lines, ks, n - 1)
    else Foreign(lines, ks, n - 1) + [lines[n - 1]]
  }

  /** Lines that are not matching Include lines. */
  function Unmatched(lines: seq<string>, kind: string -> Kind): seq<string> {
    if lines == [] then []
    else
      var front, last := Unmatched(lines[..|lines| - 1], kind), lines[|lines| - 1];
      if kind(last) == Match then front else front + [last]
  }

  lemma {:induction false} UnmatchedSnoc(front: seq<string>, last: string, kind: string -> Kind)
    ensures Unmatched(front + [last], kind) ==
            if kind(last) == Match then Unmatched(front, kind) else Unmatched(front, kind) + [last]
  {
    assert (front + [last])[..|front|] == front;
  }

  lemma {:induction false} RewriteKeepsForeign(lines: seq<string>, n: nat, kind: string -> Kind, wanted: string)
    requires n <= |lines| && kind(wanted) == Match
    ensures Unmatched(Rewritten(lines, Each(lines, kind), n, wanted), kind)
         == Foreign(lines, Each(lines, kind), n)
  {
    if n > 0 {
      var ks := Each(lines, kind);
      RewriteKeepsForeign(lines, n - 1, kind, wanted);
      var front := Rewritten(lines, ks, n - 1, wanted);
      UnmatchedSnoc(front, lines[n - 1], kind);
      UnmatchedSnoc(front, wanted, kind);
    }
  }

  /** Installing keeps every foreign line, in order, and adds only matching lines. */
  lemma {:induction false} InstallKeepsForeign(existing: string, rules: Rules)
    requires GoodRules(rules)
    ensures var lines := Lines(existing);
      Unmatched(AllRewritten(existing, rules), Classifier(rules)) == Foreign(lines, Kinds(lines, rules), |lines|)
  {
    WantedKind(rules);
    RewriteKeepsForeign(Lines(existing), |Lines(existing)|, Classifier(rules), rules.wanted);
  }

  // --- Removing -----------------------------------------------------------

  /** Line `i` is SSHWarden's to remove. */
  predicate Ours(ks: seq<Kind>, i: nat)
    requires i < |ks|
  {
    ks[i] == Match || (ks[i] == Include && Awaiting(ks, i))
  }

  /** The marker an awaited line waits behind: the last one before it. */
  function MarkerBefore(ks: seq<Kind>, i: nat): (j: nat)
    requires i <= |ks| && Awaiting(ks, i)
    ensures j < i && ks[j] == Marker && forall k :: j < k < i ==> ks[k] == Blank
  {
    if ks[i - 1] == Marker then i - 1 else MarkerBefore(ks, i - 1)
  }

  /** Lines left after removal: an awaited line goes with its marker and the blanks between. */
  function Kept(lines: seq<string>, ks: seq<Kind>, n: nat): seq<string>
    requires n <= |lines| == |ks|
  {
    if n == 0 then []
    else if !Ours(ks, n - 1) then Kept(lines, ks, n - 1) + [lines[n - 1]]
    else if Awaiting(ks, n - 1) then Kept(lines, ks, MarkerBefore(ks, n - 1))
    else Kept(lines, ks, n - 1)
  }

  predicate AnyOurs(ks: seq<Kind>, n: nat)
    requires n <= |ks|
  {
    n > 0 && (Ours(ks, n - 1) || AnyOurs(ks, n - 1))
  }

  predicate HasOurs(existing: string, rules: Rules) {
    var lines := Lines(existing);
    AnyOurs(Kinds(lines, rules), |lines|)
  }

  function AllKept(existing: string, rules: Rules): seq<string> {
    var lines := Lines(existing);
    Kept(lines, Kinds(lines, rules), |lines|)
  }

  function Removed(existing: string, rules: Rules): string {
    if HasOurs(existing, rules) then EnsureNewline(Join(AllKept(existing, rules), "\n")) else existing
  }

  /** While a marker is awaited, what was kept ends with it and blanks only. */
  lemma {:induction false} KeptTail(lines: seq<string>, ks: seq<Kind>, j: nat, i: nat)
    requires j < i <= |lines| == |ks|
    requires ks[j] == Marker && forall k :: j < k < i ==> ks[k] == Blank
    ensures Kept(lines, ks, i) == Kept(lines, ks, j) + lines[j..i]
    decreases i
  {
    if j == i - 1 {
      assert lines[j..i] == [lines[j]];
    } else {
      KeptTail(lines, ks, j, i - 1);
      assert lines[j..i] == lines[j..i - 1] + [lines[i - 1]];
      assert Kept(lines, ks, i) == Kept(lines, ks, i - 1) + [lines[i - 1]];
    }
  }

  /** `remove_sshwarden_include_line`; no file, nothing to do. */
  method RemoveIncludeLine(config: Option<string>, rules: Rules) returns (changed: bool, content: Option<string>)
    requires !rules.matches("")
    ensures config.None? ==> !changed && content == config
    ensures config.Some? ==> content == Some(Removed(config.value, rules)) && changed == HasOurs(config.value, rules)
  {
    if config.None? {
      return false, config;
    }
    var kept: seq<string>;
    changed, kept := KeepLines(Lines(config.value), rules);
    if !changed {
      return false, config;
    }
    content := Some(EnsureNewline(Join(kept, "\n")));
  }

  /** The removal loop: keep lines, and take back the marker when its Include goes. */
  method KeepLines(lines: seq<string>, rules: Rules) returns (changed: bool, kept: seq<string>)
    requires !rules.matches("")
    ensures changed == AnyOurs(Kinds(lines, rules), |lines|)
    ensures kept == Kept(lines, Kinds(lines, rules), |lines|)
  {
    hide Trim, IsInclude;
    ghost var ks := Kinds(lines, rules);
    var skipMarker := false;
    kept, changed := [], false;
    for i := 0 to |lines|
      invariant skipMarker == Awaiting(ks, i)
      invariant kept == Kept(lines, ks, i)
      invariant changed == AnyOurs(ks, i)
    {
      var trimmed := Trim(lines[i]);
      OursLine(lines[i], rules);
      if trimmed == MARKER {
        skipMarker := true;
        kept := kept + [lines[i]];
        continue;
      }
      if rules.matches(trimmed) || (skipMarker && IsInclude(trimmed)) {
        if skipMarker {
          KeptMarkerTail(lines, rules, i);
          ghost var j := MarkerBefore(ks, i);
          kept := PopMarker(kept, Kept(lines, ks, j), lines[j..i]);
        }
        skipMarker := false;
        changed := true;
        continue;
      }
      if trimmed != "" {
        skipMarker := false;
      }
      kept := kept + [lines[i]];
    }
  }

  lemma {:induction false} OursLine(line: string, rules: Rules)
    requires !rules.matches("")
    ensures Trim(line) != MARKER ==>
      && (KindOf(line, rules) == Match <==> rules.matches(Trim(line)))
      && (KindOf(line, rules) == Include <==> IsInclude(Trim(line)) && !rules.matches(Trim(line)))
  {
  }

  /** The inner pop loop: it always reaches the marker, and stops there. */
  method PopMarker(kept: seq<string>, ghost front: seq<string>, ghost tail: seq<string>)
    returns (popped: seq<string>)
    requires kept == front + tail
    requires MarkerTail(tail)
    ensures popped == front
  {
    MarkerShape();
    popped := kept;
    while popped != []
      invariant |front| < |popped| <= |kept| && popped == kept[..|popped|]
    {
      var last := Trim(popped[|popped| - 1]);
      assert popped[|popped| - 1] == tail[|popped| - 1 - |front|];
      if last == "" {
        assert |popped| - 1 > |front|;
        popped := popped[..|popped| - 1];
      } else {
        assert |popped| - 1 == |front|;
        if last == MARKER {
          popped := popped[..|popped| - 1];
        }
        break;
      }
    }
  }

  /** A marker and then only blank lines. */
  ghost predicate MarkerTail(tail: seq<string>) {
    tail != [] && Trim(tail[0]) == MARKER && forall k :: 0 < k < |tail| ==> Trim(tail[k]) == ""
  }

  lemma {:induction false} TailShape(lines: seq<string>, rules: Rules, j: nat, i: nat)
    requires j < i <= |lines| && KindOf(lines[j], rules) == Marker
    requires forall k :: j < k < i ==> KindOf(lines[k], rules) == Blank
    ensures MarkerTail(lines[j..i])
  {
    hide Trim;
    var tail := lines[j..i];
    forall k | 0 < k < |tail| ensures Trim(tail[k]) == "" {
      assert KindOf(lines[j + k], rules) == Blank;
    }
  }

  /** Behind an awaited line, the kept lines end with its marker. */
  lemma {:induction false} KeptMarkerTail(lines: seq<string>, rules: Rules, i: nat)
    requires i <= |lines| && Awaiting(Kinds(lines, rules), i)
    ensures var ks := Kinds(lines, rules); var j := MarkerBefore(ks, i);
      Kept(lines, ks, i) == Kept(lines, ks, j) + lines[j..i] && MarkerTail(lines[j..i])
  {
    hide Kept, KindOf, MarkerTail;
    var ks := Kinds(lines, rules);
    var j := MarkerBefore(ks, i);
    KeptTail(lines, ks, j, i);
    forall k | j < k < i ensures KindOf(lines[k], rules) == Blank {
      assert ks[k] == Blank;
    }
    TailShape(lines, rules, j, i);
  }

  lemma {:induction false} AnyOursMeaning(ks: seq<Kind>, n: nat)
    requires n <= |ks|
    ensures AnyOurs(ks, n) <==> exists i :: 0 <= i < n && Ours(ks, i)
  {
    if n > 0 {
      AnyOursMeaning(ks, n - 1);
    }
  }

  lemma {:induction false} KeptUnmatched(lines: seq<string>, ks: seq<Kind>, n: nat)
    requires n <= |lines| == |ks|
    ensures forall l <- Kept(lines, ks, n) :: exists i :: 0 <= i < n && lines[i] == l && ks[i] != Match
  {
    if n > 0 {
      KeptUnmatched(lines, ks, n - 1);
      if Ours(ks, n - 1) && Awaiting(ks, n - 1) {
        KeptUnmatched(lines, ks, MarkerBefore(ks, n - 1));
      }
    }
  }

  /** After removing, no line of any config matches. */
  lemma {:induction false} RemovedIsGone(existing: string, rules: Rules)
    ensures forall l <- Lines(Removed(existing, rules)) :: KindOf(l, rules) != Match
  {
    var lines := Lines(existing);
    var ks := Kinds(lines, rules);
    forall l <- Lines(Removed(existing, rules)) ensures KindOf(l, rules) != Match {
      if HasOurs(existing, rules) {
        var kept := AllKept(existing, rules);
        KeptUnmatched(lines, ks, |lines|);
        KeptOneLine(existing, rules);
        ReadBack(kept);
        if Trim(l) != "" {
          var w :| w in kept && Trim(w) == Trim(l);
          KindOfTrim(w, l, rules);
        }
      } else {
        var i :| 0 <= i < |lines| && lines[i] == l;
        AnyOursMeaning(ks, |ks|);
        assert !Ours(ks, i);
      }
    }
  }

  lemma {:induction false} KeptOneLine(existing: string, rules: Rules)
    ensures forall l <- AllKept(existing, rules) :: OneLine(l)
  {
    var lines := Lines(existing);
    LinesAreLines(existing);
    KeptUnmatched(lines, Kinds(lines, rules), |lines|);
  }

  /** Lines that say something: not blank, not a marker. */
  function Content(lines: seq<string>, kind: string -> Kind): seq<string> {
    if lines == [] then []
    else
      var front, last := Content(lines[..|lines| - 1], kind), lines[|lines| - 1];
      if kind(last) == Blank || kind(last) == Marker then front else front + [last]
  }

  /** The user's own contentful lines among the first `n`. */
  function UserContent(lines: seq<string>, ks: seq<Kind>, n: nat): seq<string>
    requires n <= |lines| == |ks|
  {
    if n == 0 then []
    else if Ours(ks, n - 1) || ks[n - 1] == Blank || ks[n - 1] == Marker then UserContent(lines, ks, n - 1)
    else UserContent(lines, ks, n - 1) + [lines[n - 1]]
  }

  lemma {:induction false} ContentSnoc(front: seq<string>, last: string, kind: string -> Kind)
    ensures Content(front + [last], kind) ==
            if kind(last) == Blank || kind(last) == Marker then Content(front, kind) else Content(front, kind) + [last]
  {
    assert (front + [last])[..|front|] == front;
  }

  lemma {:induction false} UserContentFlat(lines: seq<string>, ks: seq<Kind>, j: nat, i: nat)
    requires j <= i <= |lines| == |ks|
    requires forall k :: j <= k < i ==> ks[k] == Blank || ks[k] == Marker
    ensures UserContent(lines, ks, i) == UserContent(lines, ks, j)
    decreases i - j
  {
    if j < i {
      UserContentFlat(lines, ks, j, i - 1);
    }
  }

  lemma {:induction false} KeptContent(lines: seq<string>, ks: seq<Kind>, n: nat, kind: string -> Kind)
    requires n <= |lines| == |ks|
    requires forall i :: 0 <= i < |ks| ==> ks[i] == kind(lines[i])
    ensures Content(Kept(lines, ks, n), kind) == UserContent(lines, ks, n)
    decreases n
  {
    if n == 0 {
      NothingKept(lines, ks, kind);
    } else {
      hide Kept, UserContent, Content, MarkerBefore, Awaiting, Ours;
      var i := n - 1;
      if !Ours(ks, i) {
        KeptContent(lines, ks, i, kind);
        KeptContentSnoc(lines, ks, i, kind);
      } else if Awaiting(ks, i) {
        MarkerIsBefore(ks, i);
        KeptContent(lines, ks, MarkerBefore(ks, i), kind);
        UserContentAwaited(lines, ks, i);
        KeptAwaited(lines, ks, i);
      } else {
        KeptContent(lines, ks, i, kind);
        KeptDropped(lines, ks, i);
      }
    }
  }

  lemma {:induction false} NothingKept(lines: seq<string>, ks: seq<Kind>, kind: string -> Kind)
    requires |lines| == |ks|
    ensures Content(Kept(lines, ks, 0), kind) == UserContent(lines, ks, 0)
  {
  }

  lemma {:induction false} MarkerIsBefore(ks: seq<Kind>, i: nat)
    requires i <= |ks| && Awaiting(ks, i)
    ensures MarkerBefore(ks, i) < i
  {
  }

  lemma {:induction false} KeptAwaited(lines: seq<string>, ks: seq<Kind>, i: nat)
    requires i < |lines| == |ks| && Ours(ks, i) && Awaiting(ks, i)
    ensures Kept(lines, ks, i + 1) == Kept(lines, ks, MarkerBefore(ks, i))
  {
  }

  lemma {:induction false} KeptDropped(lines: seq<string>, ks: seq<Kind>, i: nat)
    requires i < |lines| == |ks| && Ours(ks, i) && !Awaiting(ks, i)
    ensures Kept(lines, ks, i + 1) == Kept(lines, ks, i) && UserContent(lines, ks, i + 1) == UserContent(lines, ks, i)
  {
  }

  lemma {:induction false} UserContentAwaited(lines: seq<string>, ks: seq<Kind>, i: nat)
    requires i < |lines| == |ks| && Ours(ks, i) && Awaiting(ks, i)
    ensures UserContent(lines, ks, i + 1) == UserContent(lines, ks, MarkerBefore(ks, i))
  {
    UserContentFlat(lines, ks, MarkerBefore(ks, i), i);
  }

  lemma {:induction false} KeptContentSnoc(lines: seq<string>, ks: seq<Kind>, i: nat, kind: string -> Kind)
    requires i < |lines| == |ks| && ks[i] == kind(lines[i]) && !Ours(ks, i)
    requires Content(Kept(lines, ks, i), kind) == UserContent(lines, ks, i)
    ensures Content(Kept(lines, ks, i + 1), kind) == UserContent(lines, ks, i + 1)
  {
    ContentSnoc(Kept(lines, ks, i), lines[i], kind);
  }

  /** Removing takes nothing else: the user's contentful lines stay, in order. */
  lemma {:induction false} RemoveKeepsUserContent(existing: string, rules: Rules)
    ensures var lines := Lines(existing);
      Content(AllKept(existing, rules), Classifier(rules)) == UserContent(lines, Kinds(lines, rules), |lines|)
  {
    var lines := Lines(existing);
    KeptContent(lines, Kinds(lines, rules), |lines|, Classifier(rules));
  }

  // --- Install, then remove -----------------------------------------------

  /** A config with no trace of SSHWarden. */
  predicate Untouched(existing: string, rules: Rules) {
    forall l <- Lines(existing) :: KindOf(l, rules) !in {Marker, Match}
  }

  function Unlines(ls: seq<string>): string {
    if ls == [] then "" else ls[0] + "\n" + Unlines(ls[1..])
  }

  predicate NoCrLf(s: string) {
    forall i :: 0 <= i < |s| - 1 ==> !(s[i] == '\r' && s[i + 1] == '\n')
  }

  lemma {:induction false} UnlinesIsJoin(ls: seq<string>)
    ensures Unlines(ls) == Join(ls + [""], "\n")
    ensures Terminated(Unlines(ls))
  {
    if ls != [] {
      UnlinesIsJoin(ls[1..]);
      assert (ls + [""])[1..] == ls[1..] + [""];
    }
  }

  lemma {:induction false} NoCrLfCons(l: string, rest: string)
    requires OneLine(l)
    ensures NoCrLf(l + "\n" + rest) <==> StripCr(l) == l && NoCrLf(rest)
  {
    var s := l + "\n" + rest;
    var n := |l|;
    assert s[n] == '\n' && (n > 0 ==> s[n - 1] == l[n - 1]);
    assert forall i :: 0 <= i < |rest| ==> s[n + 1 + i] == rest[i];
    if StripCr(l) == l && NoCrLf(rest) {
      forall i | 0 <= i < |s| - 1 ensures !(s[i] == '\r' && s[i + 1] == '\n') {
        if i + 1 < n {
          assert s[i + 1] == l[i + 1];
        } else if i > n {
          assert s[i] == rest[i - n - 1] && s[i + 1] == rest[i - n];
        }
      }
    }
    if NoCrLf(s) {
      assert n > 0 ==> s[n - 1] != '\r';
      forall i | 0 <= i < |rest| - 1 ensures !(rest[i] == '\r' && rest[i + 1] == '\n') {
        assert s[n + 1 + i] == rest[i] && s[(n + 1 + i) + 1] == rest[i + 1];
      }
    }
  }

  /** Writing terminated text back line by line loses exactly its carriage returns before line feeds. */
  lemma {:induction false} UnlinesLines(s: string)
    requires Terminated(s)
    ensures |Unlines(Lines(s))| <= |s|
    ensures Unlines(Lines(s)) == s <==> NoCrLf(s)
    ensures |Unlines(Lines(s))| == |s| ==> NoCrLf(s)
    decreases |s|
  {
    if s != "" {
      assert !OneLine(s) by { assert s[|s| - 1] == '\n'; }
      var l, rest := FirstLine(s);
      assert Terminated(rest) by { assert rest == "" || rest[|rest| - 1] == s[|s| - 1]; }
      hide Lines, Unlines, NoCrLf, StripCr;
      UnlinesLines(rest);
      NoCrLfCons(l, rest);
      UnlinesStep(l, rest);
      StripShrinks(l, rest, Unlines(Lines(rest)));
    }
  }

  lemma {:induction false} StripShrinks(l: string, rest: string, u: string)
    requires |u| <= |rest| && (|u| == |rest| ==> u == rest)
    ensures var got, was := StripCr(l) + "\n" + u, l + "\n" + rest;
      && |got| <= |was|
      && (got == was <==> StripCr(l) == l && u == rest)
      && (StripCr(l) != l || u != rest ==> |got| < |was|)
  {
    if StripCr(l) != l {
      assert |StripCr(l)| < |l|;
    }
  }

  lemma {:induction false} UnlinesStep(l: string, rest: string)
    requires OneLine(l)
    ensures Unlines(Lines(l + "\n" + rest)) == StripCr(l) + "\n" + Unlines(Lines(rest))
  {
    LinesCons(l, rest);
    assert ([StripCr(l)] + Lines(rest))[1..] == Lines(rest);
  }

  predicate Plain(ks: seq<Kind>, n: nat)
    requires n <= |ks|
  {
    forall i :: 0 <= i < n ==> ks[i] !in {Marker, Match}
  }

  lemma {:induction false} PlainKept(lines: seq<string>, ks: seq<Kind>, n: nat)
    requires n <= |lines| == |ks| && Plain(ks, n)
    ensures Kept(lines, ks, n) == lines[..n]
    ensures !Awaiting(ks, n)
  {
    if n > 0 {
      PlainKept(lines, ks, n - 1);
      assert lines[..n] == lines[..n - 1] + [lines[n - 1]];
    }
  }

  lemma {:induction false} InstalledUntouched(existing: string, rules: Rules)
    requires GoodRules(rules) && Untouched(existing, rules)
    ensures Installed(existing, rules) == EnsureNewline(existing) + MarkedBlock(rules)
  {
    hide Lines, Trim, Join, MarkedBlock, EnsureNewline, GoodRules, KindOf;
    var lines := Lines(existing);
    var ks := Kinds(lines, rules);
    assert !Present(existing, rules) by {
      forall l <- lines ensures Trim(l) != rules.wanted {
        if Trim(l) == rules.wanted {
          WantedTextKind(l, rules);
        }
      }
    }
    forall i | 0 <= i < |ks| ensures InstallFate(ks, i) == Keep {
      assert lines[i] in lines;
      PlainKept(lines, ks, i);
    }
  }

  lemma {:induction false} KeptAfterBlock(ls: seq<string>, rules: Rules)
    requires GoodRules(rules)
    requires forall l <- ls :: KindOf(l, rules) !in {Marker, Match}
    ensures var all := ls + ["", MARKER, rules.wanted];
      && Kept(all, Kinds(all, rules), |all|) == ls + [""]
      && AnyOurs(Kinds(all, rules), |all|)
  {
    var all := ls + ["", MARKER, rules.wanted];
    var ks := Kinds(all, rules);
    var n := |ls|;
    MarkerShape();
    WantedKind(rules);
    assert KindOf(MARKER, rules) == Marker && KindOf("", rules) == Blank;
    assert all[n] == "" && all[n + 1] == MARKER && all[n + 2] == rules.wanted;
    forall i | 0 <= i < n + 1 ensures ks[i] !in {Marker, Match} {
      if i < n { assert all[i] == ls[i] && ls[i] in ls; }
    }
    PlainKept(all, ks, n + 1);
    assert Ours(ks, n + 2);
    assert all[..n + 1] == ls + [""];
  }

  /**
   Installing and then removing gives a config back with its line ends
   normalised; so an untouched config comes back character for character
   exactly when it is empty or ends with a line feed, and has no CR LF.
   */
  lemma {:induction false} InstallThenRemove(existing: string, rules: Rules)
    requires GoodRules(rules) && Untouched(existing, rules)
    ensures Removed(Installed(existing, rules), rules) == Unlines(Lines(EnsureNewline(existing)))
    ensures Removed(Installed(existing, rules), rules) == existing <==> Terminated(existing) && NoCrLf(existing)
  {
    var base := EnsureNewline(existing);
    InstalledUntouched(existing, rules);
    LinesAppend(base, MarkedBlock(rules));
    MarkedBlockLines(rules);
    UntouchedNewline(existing, rules);
    KeptAfterBlock(Lines(base), rules);
    UnlinesIsJoin(Lines(base));
    UnlinesLines(base);
  }

  function LastStripped(ls: seq<string>): seq<string>
    requires ls != []
  {
    ls[..|ls| - 1] + [StripCr(ls[|ls| - 1])]
  }

  /** What a final line feed does to the lines: at most one carriage return goes. */
  lemma {:induction false} LinesWithNewline(s: string)
    requires !Terminated(s)
    ensures Lines(s) != [] && Lines(s + "\n") == LastStripped(Lines(s))
    decreases |s|
  {
    if OneLine(s) {
      LinesSingle(s);
      LinesCons(s, "");
      assert s + "\n" + "" == s + "\n";
      assert [s][..0] + [StripCr(s)] == [StripCr(s)];
    } else {
      var l, rest := FirstLine(s);
      LinesWithNewline(rest) by {
        assert s[|s| - 1] == if rest == "" then '\n' else rest[|rest| - 1];
      }
      LinesWithNewlineStep(l, rest);
    }
  }

  lemma {:induction false} LinesWithNewlineStep(l: string, rest: string)
    requires OneLine(l)
    requires Lines(rest) != [] && Lines(rest + "\n") == LastStripped(Lines(rest))
    ensures var s := l + "\n" + rest; Lines(s) != [] && Lines(s + "\n") == LastStripped(Lines(s))
  {
    hide Lines, StripCr;
    Regroup(l, "\n", rest, "\n");
    LinesCons(l, rest);
    LinesCons(l, rest + "\n");
    var tl := Lines(rest);
    var ls := [StripCr(l)] + tl;
    assert ls[..|ls| - 1] == [StripCr(l)] + tl[..|tl| - 1];
  }

  /** Ending the last line does not make it SSHWarden's. */
  lemma {:induction false} UntouchedNewline(existing: string, rules: Rules)
    requires Untouched(existing, rules)
    ensures Untouched(EnsureNewline(existing), rules)
  {
    if !Terminated(existing) {
      LinesWithNewline(existing);
      var ls := Lines(existing);
      var last := ls[|ls| - 1];
      StripCrTrim(last);
      KindOfTrim(StripCr(last), last, rules);
      assert last in ls;
      forall l <- Lines(existing + "\n") ensures KindOf(l, rules) !in {Marker, Match} {
        assert l in ls || l == StripCr(last);
      }
    }
  }
}
