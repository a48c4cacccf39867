/** Where installing leaves the Include line: only in its wanted form, and only behind a marker. */
module InstallPlaces {
  import opened Text
  import opened IncludeLine
  import opened RemoveTwice

  /** Every matching line is the wanted one and stands behind a marker. */
  ghost predicate Marked(lines: seq<string>, rules: Rules) {
    forall i :: 0 <= i < |lines| && KindOf(lines[i], rules) == Match ==>
      Trim(lines[i]) == rules.wanted && Awaiting(Kinds(lines, rules), i)
  }

  lemma {:induction false} MarkedSnoc(lines: seq<string>, last: string, rules: Rules)
    requires Marked(lines, rules)
    requires KindOf(last, rules) == Match ==> Trim(last) == rules.wanted && Awaiting(Kinds(lines, rules), |lines|)
    ensures Marked(lines + [last], rules)
    ensures Awaiting(Kinds(lines + [last], rules), |lines|) <==> Awaiting(Kinds(lines, rules), |lines|)
  {
    hide KindOf, Awaiting, Trim;
    var all := lines + [last];
    AwaitingAlike(Kinds(all, rules), Kinds(lines, rules), |lines|);
    forall i | 0 <= i < |all| && KindOf(all[i], rules) == Match
      ensures Trim(all[i]) == rules.wanted && Awaiting(Kinds(all, rules), i)
    {
      if i < |lines| {
        assert KindOf(lines[i], rules) == Match;
        AwaitingAlike(Kinds(all, rules), Kinds(lines, rules), i);
      }
    }
  }

  lemma {:induction false} AwaitingNext(lines: seq<string>, last: string, rules: Rules)
    ensures var ks := Kinds(lines + [last], rules);
      Awaiting(ks, |lines| + 1) <==>
      KindOf(last, rules) == Marker || (KindOf(last, rules) == Blank && Awaiting(Kinds(lines, rules), |lines|))
  {
    hide KindOf;
    AwaitingAlike(Kinds(lines + [last], rules), Kinds(lines, rules), |lines|);
  }

  /** The rewriting loop: what it has written is marked, and it awaits an Include exactly when what it has read does. */
  lemma {:induction false} RewrittenMarked(lines: seq<string>, n: nat, rules: Rules)
    requires GoodRules(rules) && n <= |lines|
    ensures var ks := Kinds(lines, rules); var out := Rewritten(lines, ks, n, rules.wanted);
      Marked(out, rules) && (Awaiting(ks, n) ==> Awaiting(Kinds(out, rules), |out|))
    decreases n
  {
    if n > 0 {
      WantedKind(rules);
      assert Trim(rules.wanted) == rules.wanted;
      hide KindOf, Marked, Trim, GoodRules;
      var ks := Kinds(lines, rules);
      var front, line := Rewritten(lines, ks, n - 1, rules.wanted), lines[n - 1];
      RewrittenMarked(lines, n - 1, rules);
      match InstallFate(ks, n - 1)
      case Keep =>
        MarkedSnoc(front, line, rules);
        AwaitingNext(front, line, rules);
      case Replace =>
        MarkedSnoc(front, rules.wanted, rules);
        AwaitingNext(front, rules.wanted, rules);
      case Drop =>
    }
  }

  lemma {:induction false} MarkedRead(ls: seq<string>, padded: seq<string>, out: seq<string>, rules: Rules)
    requires Marked(ls, rules) && (padded == ls || padded == ls + [""]) && LinesOf(padded, out)
    ensures Marked(out, rules)
  {
    ReadAlike(ls, padded, out, rules);
    BlankKind(rules);
    hide KindOf, Awaiting, Trim, StripCr;
    var a, b := Kinds(out, rules), Kinds(ls, rules);
    forall i | 0 <= i < |out| && KindOf(out[i], rules) == Match
      ensures Trim(out[i]) == rules.wanted && Awaiting(a, i)
    {
      assert a[i] == Match;
      assert i < |b| && b[i] == Match;
      assert padded[i] == ls[i];
      StripCrTrim(padded[i]);
      AwaitingAlike(a, b, i);
    }
  }

  lemma {:induction false} MarkedWritten(ls: seq<string>, rules: Rules)
    requires Marked(ls, rules) && forall l <- ls :: OneLine(l)
    ensures Marked(Lines(EnsureNewline(Join(ls, "\n"))), rules)
  {
    hide Lines, Join, EnsureNewline, LinesOf, Marked;
    var padded := NewlineJoin(ls);
    LinesOfJoin(padded);
    MarkedRead(ls, padded, Lines(Join(padded, "\n")), rules);
  }

  lemma {:induction false} MarkedBlockAdds(ls: seq<string>, rules: Rules)
    requires GoodRules(rules) && Marked(ls, rules)
    ensures Marked(ls + ["", MARKER, rules.wanted], rules)
  {
    WantedKind(rules);
    MarkerKind(rules);
    BlankKind(rules);
    assert Trim(rules.wanted) == rules.wanted;
    hide KindOf, Trim, Marked, GoodRules;
    var blank := ls + [""];
    var marked := blank + [MARKER];
    assert ls + ["", MARKER, rules.wanted] == marked + [rules.wanted];
    hide Awaiting, Kinds;
    MarkedSnoc(ls, "", rules);
    MarkedSnoc(blank, MARKER, rules);
    AwaitingNext(blank, MARKER, rules);
    MarkedSnoc(marked, rules.wanted, rules);
  }

  lemma {:induction false} EndsTerminated(s: string)
    ensures Terminated(EnsureNewline(s))
  {
  }

  lemma {:induction false} MarkedBlockAfter(text: string, rules: Rules)
    requires GoodRules(rules) && Marked(Lines(EnsureNewline(text)), rules)
    ensures Marked(Lines(EnsureNewline(text) + MarkedBlock(rules)), rules)
  {
    hide Lines, EnsureNewline, MarkedBlock, Marked, GoodRules;
    EndsTerminated(text);
    LinesAppend(EnsureNewline(text), MarkedBlock(rules));
    MarkedBlockLines(rules);
    MarkedBlockAdds(Lines(EnsureNewline(text)), rules);
  }

  /** Nothing matches, so there is nothing to be marked. */
  lemma {:induction false} UnmatchedMarked(lines: seq<string>, ks: seq<Kind>, rules: Rules)
    requires ks == Kinds(lines, rules) && !SomeFate(ks, |ks|, Replace) && !SomeFate(ks, |ks|, Drop)
    ensures Marked(lines, rules)
  {
    hide KindOf, Trim, Awaiting;
    forall i | 0 <= i < |lines| ensures KindOf(lines[i], rules) != Match {
      assert ks[i] == KindOf(lines[i], rules);
      assert InstallFate(ks, i) != Replace && InstallFate(ks, i) != Drop;
    }
  }

  lemma {:induction false} EndedMarked(s: string, rules: Rules)
    requires Marked(Lines(s), rules)
    ensures Marked(Lines(EnsureNewline(s)), rules)
  {
    if !Terminated(s) {
      LinesWithNewline(s);
      var ls := Lines(s);
      assert LinesOf(ls, LastStripped(ls));
      hide Lines, Marked, LinesOf, StripCr, LastStripped;
      MarkedRead(ls, ls, LastStripped(ls), rules);
    }
  }

  /**
   For any config without the wanted line: afterwards every line that counts as
   SSHWarden's is the wanted one, right behind a marker. No old form is left,
   and none stands unmarked.
   */
  lemma {:induction false} InstalledMarked(existing: string, rules: Rules)
    requires GoodRules(rules) && !Present(existing, rules)
    ensures Marked(Lines(Installed(existing, rules)), rules)
  {
    WantedOne(rules);
    hide Lines, Join, EnsureNewline, Rewritten, KindOf, Present, MarkedBlock, GoodRules, Marked, SomeFate;
    var lines, all := Lines(existing), AllRewritten(existing, rules);
    LinesAreLines(existing);
    RewrittenLines(lines, Kinds(lines, rules), |lines|, rules.wanted);
    RewrittenMarked(lines, |lines|, rules);
    MarkedWritten(all, rules);
    if !Fated(existing, rules, Replace) {
      if Fated(existing, rules, Drop) {
        MarkedBlockAfter(Join(all, "\n"), rules);
      } else {
        UnmatchedMarked(lines, Kinds(lines, rules), rules);
        EndedMarked(existing, rules);
        MarkedBlockAfter(existing, rules);
      }
    }
  }

  lemma {:induction false} WantedOne(rules: Rules)
    requires GoodRules(rules)
    ensures OneLine(rules.wanted)
  {
  }
}
