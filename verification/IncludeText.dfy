/**
 What installing and removing the Include line do to the config as OpenSSH
 reads it: the directives and comments of the final text, in order.
 */
module IncludeText {
  import opened Text
  import opened IncludeLine

  /** The trimmed texts of the lines that are neither blank, nor a marker, nor a matching Include line. */
  function Says(lines: seq<string>, kind: string -> Kind): seq<string> {
    if lines == [] then []
    else
      Says(lines[..|lines| - 1], kind) +
      if kind(lines[|lines| - 1]) in {Include, Other} then [Trim(lines[|lines| - 1])] else []
  }

  lemma {:induction false} SaysSnoc(front: seq<string>, last: string, kind: string -> Kind)
    ensures Says(front + [last], kind) == Says(front, kind) + if kind(last) in {Include, Other} then [Trim(last)] else []
  {
    assert (front + [last])[..|front|] == front;
  }

  lemma {:induction false} SaysAppend(a: seq<string>, b: seq<string>, kind: string -> Kind)
    ensures Says(a + b, kind) == Says(a, kind) + Says(b, kind)
    decreases |b|
  {
    if b == [] {
      assert a + b == a;
    } else {
      var front, last := b[..|b| - 1], b[|b| - 1];
      assert a + b == (a + front) + [last];
      SaysSnoc(a + front, last, kind);
      SaysAppend(a, front, kind);
    }
  }

  /** Lines that trim alike say the same. */
  lemma {:induction false} SaysAlike(a: seq<string>, b: seq<string>, rules: Rules)
    requires |a| == |b| && forall i :: 0 <= i < |a| ==> Trim(a[i]) == Trim(b[i])
    ensures Says(a, Classifier(rules)) == Says(b, Classifier(rules))
    decreases |a|
  {
    hide Trim, KindOf;
    if a != [] {
      SaysAlike(a[..|a| - 1], b[..|b| - 1], rules);
      KindOfTrim(a[|a| - 1], b[|b| - 1], rules);
    }
  }

  lemma {:induction false} BlankSaysNothing(ls: seq<string>, rules: Rules)
    ensures Says(ls + [""], Classifier(rules)) == Says(ls, Classifier(rules))
  {
    SaysSnoc(ls, "", Classifier(rules));
    MarkerShape();
    assert KindOf("", rules) == Blank;
  }

  lemma {:induction false} SaysRead(written: seq<string>, out: seq<string>, rules: Rules)
    requires LinesOf(written, out)
    ensures Says(out, Classifier(rules)) == Says(written, Classifier(rules))
  {
    hide Trim, StripCr, Says;
    var same := written[..|out|];
    forall i | 0 <= i < |out| ensures Trim(out[i]) == Trim(same[i]) {
      StripCrTrim(written[i]);
    }
    SaysAlike(out, same, rules);
    if |out| < |written| {
      BlankSaysNothing(same, rules);
      assert written == same + [""];
    } else {
      assert written == same;
    }
  }

  /** Lines written out and read back say the same. */
  lemma {:induction false} SaysWritten(ls: seq<string>, rules: Rules)
    requires forall l <- ls :: OneLine(l)
    ensures Says(Lines(EnsureNewline(Join(ls, "\n"))), Classifier(rules)) == Says(ls, Classifier(rules))
  {
    hide Lines, Join, EnsureNewline, Says, LinesOf;
    var padded := NewlineJoin(ls);
    LinesOfJoin(padded);
    SaysRead(padded, Lines(Join(padded, "\n")), rules);
    BlankSaysNothing(ls, rules);
  }

  // --- Installing ---------------------------------------------------------

  lemma {:induction false} SaysRewritten(lines: seq<string>, n: nat, kind: string -> Kind, wanted: string)
    requires n <= |lines| && kind(wanted) == Match
    ensures Says(Rewritten(lines, Each(lines, kind), n, wanted), kind)
         == Says(UserContent(lines, Each(lines, kind), n), kind)
    decreases n
  {
    if n > 0 {
      var ks := Each(lines, kind);
      SaysRewritten(lines, n - 1, kind, wanted);
      SaysSnoc(Rewritten(lines, ks, n - 1, wanted), lines[n - 1], kind);
      SaysSnoc(Rewritten(lines, ks, n - 1, wanted), wanted, kind);
      SaysSnoc(UserContent(lines, ks, n - 1), lines[n - 1], kind);
      hide Says;
    }
  }

  lemma {:induction false} AllKeptAsIs(lines: seq<string>, ks: seq<Kind>, n: nat, wanted: string)
    requires n <= |lines| == |ks| && !SomeFate(ks, n, Replace) && !SomeFate(ks, n, Drop)
    ensures Rewritten(lines, ks, n, wanted) == lines[..n]
    decreases n
  {
    if n > 0 {
      SomeFateNext(ks, n - 1, Replace);
      SomeFateNext(ks, n - 1, Drop);
      hide SomeFate;
      AllKeptAsIs(lines, ks, n - 1, wanted);
      assert lines[..n] == lines[..n - 1] + [lines[n - 1]];
    }
  }

  /**
   For any config at all: if the wanted line was there nothing changes;
   otherwise the new config says what the old one said, in order, without its
   matching Include lines and Includes behind a marker.
   */
  lemma {:induction false} InstallKeepsText(existing: string, rules: Rules)
    requires GoodRules(rules)
    ensures Present(existing, rules) ==> Installed(existing, rules) == existing
    ensures !Present(existing, rules) ==>
      var lines := Lines(existing);
      Says(Lines(Installed(existing, rules)), Classifier(rules))
      == Says(UserContent(lines, Kinds(lines, rules), |lines|), Classifier(rules))
  {
    hide Lines, Join, EnsureNewline, Says, UserContent, Rewritten, KindOf, SomeFate, Present, MarkedBlock, GoodRules;
    if !Present(existing, rules) {
      var lines, all := Lines(existing), AllRewritten(existing, rules);
      WantedOneLine(rules);
      LinesAreLines(existing);
      RewrittenLines(lines, Kinds(lines, rules), |lines|, rules.wanted);
      SaysWritten(all, rules);
      SaysRewritten(lines, |lines|, Classifier(rules), rules.wanted);
      if !Fated(existing, rules, Replace) {
        var base := if Fated(existing, rules, Drop) then Join(all, "\n") else existing;
        if !Fated(existing, rules, Drop) {
          AllKeptAsIs(lines, Kinds(lines, rules), |lines|, rules.wanted);
          assert lines[..|lines|] == lines;
          SaysEnded(existing, rules);
        }
        BlockSaysNothing(base, rules);
      }
    }
  }

  /** A final line feed changes nothing that is said. */
  lemma {:induction false} SaysEnded(s: string, rules: Rules)
    ensures Says(Lines(EnsureNewline(s)), Classifier(rules)) == Says(Lines(s), Classifier(rules))
  {
    if !Terminated(s) {
      LinesWithNewline(s);
      var ls, ended := Lines(s), Lines(s + "\n");
      StripCrTrim(ls[|ls| - 1]);
      hide Lines, Says, Trim, StripCr;
      assert forall i :: 0 <= i < |ls| ==> Trim(ls[i]) == Trim(ended[i]);
      SaysAlike(ls, ended, rules);
    }
  }

  lemma {:induction false} BlockSaysNothing(text: string, rules: Rules)
    requires GoodRules(rules)
    ensures Says(Lines(EnsureNewline(text) + MarkedBlock(rules)), Classifier(rules)) == Says(Lines(EnsureNewline(text)), Classifier(rules))
  {
    var ended := EnsureNewline(text);
    LinesAppend(ended, MarkedBlock(rules));
    hide Lines, KindOf, Trim, EnsureNewline, MarkedBlock, GoodRules, Says;
    MarkedBlockLines(rules);
    var kind := Classifier(rules);
    SaysAppend(Lines(ended), ["", MARKER, rules.wanted], kind);
    SilentBlock(rules);
  }

  lemma {:induction false} SilentBlock(rules: Rules)
    requires GoodRules(rules)
    ensures Says(["", MARKER, rules.wanted], Classifier(rules)) == []
  {
    MarkerShape();
    WantedKind(rules);
    assert KindOf("", rules) == Blank && KindOf(MARKER, rules) == Marker;
    hide KindOf, Trim;
    var kind := Classifier(rules);
    assert ["", MARKER, rules.wanted] == ["", MARKER] + [rules.wanted];
    SaysSnoc(["", MARKER], rules.wanted, kind);
    assert ["", MARKER] == [""] + [MARKER];
    SaysSnoc([""], MARKER, kind);
    assert [""] == [] + [""];
    SaysSnoc([], "", kind);
  }

  lemma {:induction false} WantedOneLine(rules: Rules)
    requires GoodRules(rules)
    ensures OneLine(rules.wanted) && Classifier(rules)(rules.wanted) == Match
  {
    WantedKind(rules);
  }

  // --- Removing -----------------------------------------------------------

  lemma {:induction false} SaysOfContent(ls: seq<string>, kind: string -> Kind)
    ensures Says(Content(ls, kind), kind) == Says(ls, kind)
    decreases |ls|
  {
    if ls != [] {
      var front, last := ls[..|ls| - 1], ls[|ls| - 1];
      SaysOfContent(front, kind);
      SaysSnoc(Content(front, kind), last, kind);
    }
  }

  lemma {:induction false} NothingOurs(lines: seq<string>, ks: seq<Kind>, n: nat)
    requires n <= |lines| == |ks| && !AnyOurs(ks, n)
    ensures Kept(lines, ks, n) == lines[..n]
    decreases n
  {
    if n > 0 {
      NothingOurs(lines, ks, n - 1);
      assert lines[..n] == lines[..n - 1] + [lines[n - 1]];
    }
  }

  /** For any config at all, removing leaves a config that says exactly what the user's own lines said, in order. */
  lemma {:induction false} RemoveKeepsText(existing: string, rules: Rules)
    ensures var lines := Lines(existing);
      Says(Lines(Removed(existing, rules)), Classifier(rules))
      == Says(UserContent(lines, Kinds(lines, rules), |lines|), Classifier(rules))
  {
    var lines, kept := Lines(existing), AllKept(existing, rules);
    RemoveKeepsUserContent(existing, rules);
    SaysOfContent(kept, Classifier(rules));
    if HasOurs(existing, rules) {
      KeptOneLine(existing, rules);
      SaysWritten(kept, rules);
    } else {
      NothingOurs(lines, Kinds(lines, rules), |lines|);
      assert lines[..|lines|] == lines;
    }
  }
}
