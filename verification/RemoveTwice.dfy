/** When removing the Include line a second time removes more, and when it does not. */
module RemoveTwice {
  import opened Text
  import opened IncludeLine
  import opened IncludeText

  /** An Include stands right behind a marker, blank lines apart. */
  ghost predicate Exposes(ks: seq<Kind>) {
    exists i :: 0 <= i < |ks| && ks[i] == Include && Awaiting(ks, i)
  }

  // --- What is written and read back --------------------------------------

  lemma {:induction false} AwaitingAlike(a: seq<Kind>, b: seq<Kind>, i: nat)
    requires i <= |a| && i <= |b| && forall k :: 0 <= k < i ==> a[k] == b[k]
    ensures Awaiting(a, i) <==> Awaiting(b, i)
  {
    if i > 0 {
      AwaitingAlike(a, b, i - 1);
    }
  }

  /** `a` and `b` agree as far as both go, and the longer one ends in blanks. */
  ghost predicate Alike(a: seq<Kind>, b: seq<Kind>) {
    && (forall k :: 0 <= k < |a| && k < |b| ==> a[k] == b[k])
    && (forall k :: |b| <= k < |a| ==> a[k] == Blank)
    && (forall k :: |a| <= k < |b| ==> b[k] == Blank)
  }

  lemma {:induction false} ExposesAlike(a: seq<Kind>, b: seq<Kind>)
    requires Alike(a, b) && Exposes(a)
    ensures Exposes(b)
  {
    hide Awaiting;
    var i :| 0 <= i < |a| && a[i] == Include && Awaiting(a, i);
    AwaitingAlike(a, b, i);
    assert b[i] == Include;
  }

  lemma {:induction false} ReadAlike(ls: seq<string>, padded: seq<string>, out: seq<string>, rules: Rules)
    requires (padded == ls || padded == ls + [""]) && LinesOf(padded, out)
    ensures Alike(Kinds(out, rules), Kinds(ls, rules)) && Alike(Kinds(ls, rules), Kinds(out, rules))
  {
    BlankKind(rules);
    hide KindOf, StripCr;
    var a, b := Kinds(out, rules), Kinds(ls, rules);
    forall k | 0 <= k < |out| ensures KindOf(out[k], rules) == KindOf(padded[k], rules) {
      StripCrTrim(padded[k]);
      KindOfTrim(out[k], padded[k], rules);
    }
    forall k | |a| <= k < |b| ensures b[k] == Blank {
      assert ls[k] == padded[|padded| - 1];
    }
  }

  lemma {:induction false} BlankKind(rules: Rules)
    ensures KindOf("", rules) == Blank
  {
    MarkerShape();
  }

  /** Written and read back, lines expose an Include if and only if they did before. */
  lemma {:induction false} WrittenExposes(ls: seq<string>, rules: Rules)
    requires forall l <- ls :: OneLine(l)
    ensures Exposes(Kinds(Lines(EnsureNewline(Join(ls, "\n"))), rules)) <==> Exposes(Kinds(ls, rules))
  {
    hide Lines, Join, EnsureNewline, LinesOf, Exposes, Alike, Kinds;
    var padded := NewlineJoin(ls);
    LinesOfJoin(padded);
    var out := Lines(Join(padded, "\n"));
    ReadAlike(ls, padded, out, rules);
    if Exposes(Kinds(out, rules)) {
      ExposesAlike(Kinds(out, rules), Kinds(ls, rules));
    }
    if Exposes(Kinds(ls, rules)) {
      ExposesAlike(Kinds(ls, rules), Kinds(out, rules));
    }
  }

  // --- A removal that removes something changes what is said --------------

  /** How many lines of the first `n` are Includes behind a marker. */
  function Exposed(ks: seq<Kind>, n: nat): nat
    requires n <= |ks|
  {
    if n == 0 then 0 else Exposed(ks, n - 1) + if ks[n - 1] == Include && Awaiting(ks, n - 1) then 1 else 0
  }

  lemma {:induction false} ExposedSome(ks: seq<Kind>, n: nat, i: nat)
    requires i < n <= |ks| && ks[i] == Include && Awaiting(ks, i)
    ensures Exposed(ks, n) > 0
  {
    hide Awaiting;
    if i < n - 1 {
      ExposedSome(ks, n - 1, i);
    }
  }

  /** The user's own lines say that much less than all lines. */
  lemma {:induction false} SaysLess(lines: seq<string>, n: nat, kind: string -> Kind)
    requires n <= |lines|
    ensures var ks := Each(lines, kind);
      |Says(UserContent(lines, ks, n), kind)| + Exposed(ks, n) == |Says(lines[..n], kind)|
    decreases n
  {
    if n > 0 {
      hide Says, Awaiting, Each;
      var ks := Each(lines, kind);
      SaysLess(lines, n - 1, kind);
      SaysSnoc(lines[..n - 1], lines[n - 1], kind);
      SaysSnoc(UserContent(lines, ks, n - 1), lines[n - 1], kind);
      assert lines[..n] == lines[..n - 1] + [lines[n - 1]];
    }
  }

  lemma {:induction false} ExposedIsTaken(y: string, rules: Rules)
    requires Exposes(Kinds(Lines(y), rules))
    ensures Removed(y, rules) != y
  {
    hide Removed, Says, Lines, UserContent, KindOf, Awaiting;
    var lines := Lines(y);
    var ks := Kinds(lines, rules);
    var i :| 0 <= i < |ks| && ks[i] == Include && Awaiting(ks, i);
    ExposedSome(ks, |lines|, i);
    SaysLess(lines, |lines|, Classifier(rules));
    assert lines[..|lines|] == lines;
    RemoveKeepsText(y, rules);
  }

  lemma {:induction false} OursIsExposed(ks: seq<Kind>)
    requires forall k <- ks :: k != Match
    ensures AnyOurs(ks, |ks|) <==> Exposes(ks)
  {
    hide Awaiting;
    AnyOursMeaning(ks, |ks|);
    if i :| 0 <= i < |ks| && Ours(ks, i) {
      assert ks[i] in ks;
    }
    if i :| 0 <= i < |ks| && ks[i] == Include && Awaiting(ks, i) {
      assert Ours(ks, i);
    }
  }

  lemma {:induction false} OursAfterRemoval(x: string, rules: Rules)
    ensures HasOurs(Removed(x, rules), rules) <==> Exposes(Kinds(Lines(Removed(x, rules)), rules))
  {
    hide Removed, Lines, KindOf, AnyOurs, Exposes;
    RemovedIsGone(x, rules);
    var ks := Kinds(Lines(Removed(x, rules)), rules);
    OursIsExposed(ks);
  }

  /** What is kept exposes an Include exactly when the text written from it does. */
  lemma {:induction false} KeptExposes(x: string, rules: Rules)
    ensures Exposes(Kinds(Lines(Removed(x, rules)), rules)) <==> Exposes(Kinds(AllKept(x, rules), rules))
  {
    hide Lines, Exposes, KindOf, Kept, AnyOurs, EnsureNewline, Join;
    if HasOurs(x, rules) {
      KeptOneLine(x, rules);
      WrittenExposes(AllKept(x, rules), rules);
    } else {
      var lines := Lines(x);
      NothingOurs(lines, Kinds(lines, rules), |lines|);
      assert lines[..|lines|] == lines;
    }
  }

  // --- Which lines go -----------------------------------------------------

  /** Line `k` is in the block that goes with line `i`: from the marker before it on. */
  predicate GoesWith(ks: seq<Kind>, k: nat, i: nat)
    requires i < |ks|
  {
    k < i && Ours(ks, i) && Awaiting(ks, i) && MarkerBefore(ks, i) <= k
  }

  /** Among the first `n` lines, `k` is SSHWarden's or goes with one that is. */
  ghost predicate Gone(ks: seq<Kind>, n: nat, k: nat)
    requires k < n <= |ks|
  {
    Ours(ks, k) || exists i :: k < i < n && GoesWith(ks, k, i)
  }

  /** The lines that stay, by their places. */
  function Stay(ks: seq<Kind>, n: nat): seq<nat>
    requires n <= |ks|
  {
    if n == 0 then []
    else if !Ours(ks, n - 1) then Stay(ks, n - 1) + [n - 1]
    else if Awaiting(ks, n - 1) then Stay(ks, MarkerBefore(ks, n - 1))
    else Stay(ks, n - 1)
  }

  ghost predicate Rising(places: seq<nat>, n: nat) {
    && (forall t :: 0 <= t < |places| ==> places[t] < n)
    && (forall t, u :: 0 <= t < u < |places| ==> places[t] < places[u])
  }

  lemma {:induction false} StayRises(ks: seq<Kind>, n: nat)
    requires n <= |ks|
    ensures Rising(Stay(ks, n), n)
    decreases n
  {
    hide Ours, Awaiting;
    if n > 0 {
      if Ours(ks, n - 1) && Awaiting(ks, n - 1) {
        StayRises(ks, MarkerBefore(ks, n - 1));
      } else {
        StayRises(ks, n - 1);
      }
    }
  }

  /** Kept lines are the lines at those places. */
  lemma {:induction false} KeptStays(lines: seq<string>, ks: seq<Kind>, n: nat)
    requires n <= |lines| == |ks|
    ensures |Kept(lines, ks, n)| == |Stay(ks, n)|
    ensures forall t :: 0 <= t < |Stay(ks, n)| ==> Stay(ks, n)[t] < n && Kept(lines, ks, n)[t] == lines[Stay(ks, n)[t]]
    decreases n
  {
    hide Ours, Awaiting;
    if n > 0 {
      if Ours(ks, n - 1) && Awaiting(ks, n - 1) {
        KeptStays(lines, ks, MarkerBefore(ks, n - 1));
      } else {
        KeptStays(lines, ks, n - 1);
      }
    }
  }

  /** Between a marker and the line awaited behind it nothing is SSHWarden's. */
  lemma {:induction false} GoneBefore(ks: seq<Kind>, n: nat, m: nat, k: nat)
    requires k < m < n <= |ks|
    requires forall i :: m <= i < n - 1 ==> !Ours(ks, i)
    requires !GoesWith(ks, k, n - 1)
    ensures Gone(ks, n, k) <==> Gone(ks, m, k)
  {
    hide Ours, MarkerBefore, Awaiting;
    if i :| k < i < n && GoesWith(ks, k, i) {
      assert i < m;
      assert Gone(ks, m, k);
    }
    if i :| k < i < m && GoesWith(ks, k, i) {
      assert Gone(ks, n, k);
    }
  }

  lemma {:induction false} StaysExactly(ks: seq<Kind>, n: nat, k: nat)
    requires k < n <= |ks|
    ensures k in Stay(ks, n) <==> !Gone(ks, n, k)
    decreases n
  {
    var last := n - 1;
    StayRises(ks, n);
    if !Ours(ks, last) || !Awaiting(ks, last) {
      if k < last {
        StaysExactly(ks, last, k);
        StepGone(ks, n, k);
      }
      StayRises(ks, last);
    } else {
      var m := MarkerBefore(ks, last);
      StayRises(ks, m);
      if k < m {
        StaysExactly(ks, m, k);
        GoneBefore(ks, n, m, k);
      } else {
        assert k < last ==> GoesWith(ks, k, last);
      }
    }
  }

  lemma {:induction false} StepGone(ks: seq<Kind>, n: nat, k: nat)
    requires k < n - 1 < |ks| && (!Ours(ks, n - 1) || !Awaiting(ks, n - 1))
    ensures Gone(ks, n, k) <==> Gone(ks, n - 1, k)
  {
    hide Ours, MarkerBefore, Awaiting;
    if i :| k < i < n && GoesWith(ks, k, i) {
      assert i < n - 1;
      assert Gone(ks, n - 1, k);
    }
    if i :| k < i < n - 1 && GoesWith(ks, k, i) {
      assert Gone(ks, n, k);
    }
  }

  /** Only markers and blank lines go with another line. */
  lemma {:induction false} IncludeStays(ks: seq<Kind>, i: nat)
    requires i < |ks| && ks[i] == Include && !Awaiting(ks, i)
    ensures !Gone(ks, |ks|, i)
  {
    forall j | i < j < |ks| ensures !GoesWith(ks, i, j) {
      if Awaiting(ks, j) {
        assert MarkerBefore(ks, j) > i;
      }
    }
  }

  /**
   In the config itself: a marker that stays, and after it an Include not
   awaited behind a marker, with only blank lines and lines that go between.
   */
  ghost predicate WillExpose(ks: seq<Kind>) {
    exists j, i :: 0 <= j < i < |ks| && Opens(ks, j, i)
  }

  ghost predicate Opens(ks: seq<Kind>, j: nat, i: nat)
    requires j < i < |ks|
  {
    && ks[j] == Marker && !Gone(ks, |ks|, j)
    && ks[i] == Include && !Awaiting(ks, i)
    && (forall k :: j < k < i ==> ks[k] == Blank || Gone(ks, |ks|, k))
  }

  /** The kinds at rising places. */
  ghost predicate At(ks: seq<Kind>, places: seq<nat>, kept: seq<Kind>) {
    && |kept| == |places| && Rising(places, |ks|)
    && (forall t :: 0 <= t < |places| ==> kept[t] == ks[places[t]])
    && (forall k :: 0 <= k < |ks| ==> (k in places <==> !Gone(ks, |ks|, k)))
  }

  lemma {:induction false} ExposedFromInput(ks: seq<Kind>, places: seq<nat>, kept: seq<Kind>, j: nat, i: nat)
    requires At(ks, places, kept) && j < i < |ks| && Opens(ks, j, i)
    ensures Exposes(kept)
  {
    IncludeStays(ks, i);
    hide Gone, Awaiting;
    assert j in places && i in places;
    var u :| 0 <= u < |places| && places[u] == j;
    var t :| 0 <= t < |places| && places[t] == i;
    assert u < t;
    forall v | u < v < t ensures kept[v] == Blank {
      assert places[v] in places;
    }
    AwaitingMeaning(kept, t);
  }

  lemma {:induction false} InputFromExposed(ks: seq<Kind>, places: seq<nat>, kept: seq<Kind>)
    requires At(ks, places, kept) && Exposes(kept)
    ensures WillExpose(ks)
  {
    var t :| 0 <= t < |kept| && kept[t] == Include && Awaiting(kept, t);
    AwaitingMeaning(kept, t);
    var u :| 0 <= u < t && kept[u] == Marker && forall v :: u < v < t ==> kept[v] == Blank;
    var j, i := places[u], places[t];
    assert j in places && i in places;
    assert !Awaiting(ks, i) by {
      assert !Gone(ks, |ks|, i);
    }
    hide Gone, Awaiting;
    forall k | j < k < i ensures ks[k] == Blank || Gone(ks, |ks|, k) {
      if k in places {
        var v :| 0 <= v < |places| && places[v] == k;
        assert u < v < t;
      }
    }
    assert Opens(ks, j, i);
  }

  lemma {:induction false} KeptAt(lines: seq<string>, rules: Rules)
    ensures var ks := Kinds(lines, rules); At(ks, Stay(ks, |ks|), Kinds(Kept(lines, ks, |lines|), rules))
  {
    var ks := Kinds(lines, rules);
    hide Ours, Awaiting, Gone, Stay, Kept, KindOf;
    StayRises(ks, |ks|);
    KeptStays(lines, ks, |lines|);
    forall k | 0 <= k < |ks| ensures k in Stay(ks, |ks|) <==> !Gone(ks, |ks|, k) {
      StaysExactly(ks, |ks|, k);
    }
  }

  /**
   Removing twice is removing once if and only if the config has no marker that
   stays with, after it, an unmarked Include and between them only blank lines
   and lines that go.
   */
  lemma {:induction false} RemoveIdempotentExactly(x: string, rules: Rules)
    ensures Removed(Removed(x, rules), rules) == Removed(x, rules) <==> !WillExpose(Kinds(Lines(x), rules))
  {
    var y := Removed(x, rules);
    KeptExposes(x, rules);
    OursAfterRemoval(x, rules);
    if Exposes(Kinds(Lines(y), rules)) {
      ExposedIsTaken(y, rules);
    }
    var ks, kept := Kinds(Lines(x), rules), Kinds(AllKept(x, rules), rules);
    KeptAt(Lines(x), rules);
    hide Exposes, Lines, HasOurs, At, Opens, Kept, KindOf, Removed;
    if Exposes(kept) {
      InputFromExposed(ks, Stay(ks, |ks|), kept);
    }
    if j, i :| 0 <= j < i < |ks| && Opens(ks, j, i) {
      ExposedFromInput(ks, Stay(ks, |ks|), kept, j, i);
    }
  }

  // --- The case where it fails --------------------------------------------

  lemma {:induction false} LinesOfUnlines(ls: seq<string>)
    requires forall l <- ls :: OneLine(l) && StripCr(l) == l
    ensures Lines(Unlines(ls)) == ls
  {
    if ls != [] {
      LinesOfUnlines(ls[1..]);
      LinesCons(ls[0], Unlines(ls[1..]));
      hide Lines, StripCr, OneLine;
      assert ls == [ls[0]] + ls[1..];
    }
  }

  lemma {:induction false} JoinEnded(ls: seq<string>)
    requires ls != [] && !Terminated(Join(ls, "\n"))
    ensures EnsureNewline(Join(ls, "\n")) == Unlines(ls)
  {
    UnlinesIsJoin(ls);
    JoinAppend(ls, [""], "\n");
    assert Join(ls, "\n") + "\n" + "" == Join(ls, "\n") + "\n";
  }

  lemma {:induction false} JoinOfThree(a: string, b: string, c: string)
    requires c != "" && OneLine(c)
    ensures !Terminated(Join([a, b, c], "\n"))
  {
    JoinAppend([a, b], [c], "\n");
    assert [a, b] + [c] == [a, b, c];
    var j := Join([a, b, c], "\n");
    assert j[|j| - 1] == c[|c| - 1];
  }

  lemma {:induction false} FirstTime(lines: seq<string>, ks: seq<Kind>)
    requires |lines| == 5 == |ks| && ks == [Marker, Blank, Marker, Match, Include]
    ensures AnyOurs(ks, 5) && Kept(lines, ks, 5) == [lines[0], lines[1], lines[4]]
  {
    assert Kept(lines, ks, 1) == [lines[0]];
    assert !Ours(ks, 1) && Kept(lines, ks, 2) == [lines[0], lines[1]];
    assert Awaiting(ks, 3) && MarkerBefore(ks, 3) == 2 && Ours(ks, 3);
    assert Kept(lines, ks, 4) == Kept(lines, ks, 2);
    assert !Awaiting(ks, 4) && !Ours(ks, 4);
  }

  lemma {:induction false} SecondTime(lines: seq<string>, ks: seq<Kind>)
    requires |lines| == 3 == |ks| && ks == [Marker, Blank, Include]
    ensures AnyOurs(ks, 3) && Kept(lines, ks, 3) == []
  {
    assert Awaiting(ks, 1) && Awaiting(ks, 2) && Ours(ks, 2);
    assert MarkerBefore(ks, 2) == 0;
  }

  /**
   Two markers, SSHWarden's line behind the second and an Include of the user's
   after it: the first removal leaves that Include behind the first marker, and
   the second removal takes it.
   */
  lemma {:induction false} SecondRemovalTakesMore(rules: Rules, own: string)
    requires GoodRules(rules) && OneLine(own) && StripCr(own) == own && KindOf(own, rules) == Include
    ensures var x := Unlines([MARKER, "", MARKER, rules.wanted, own]);
      && Removed(x, rules) == Unlines([MARKER, "", own])
      && Removed(Removed(x, rules), rules) == ""
  {
    var five, three := [MARKER, "", MARKER, rules.wanted, own], [MARKER, "", own];
    Shapes(rules, own);
    hide Lines, KindOf, StripCr, Join, Unlines, GoodRules, EnsureNewline, Trim, OneLine;
    LinesOfUnlines(five);
    LinesOfUnlines(three);
    FirstTime(five, Kinds(five, rules));
    JoinOfThree(MARKER, "", own);
    JoinEnded(three);
    SecondTime(three, Kinds(three, rules));
    EmptyText();
  }

  lemma {:induction false} EmptyText()
    ensures EnsureNewline(Join([], "\n")) == ""
  {
  }

  lemma {:induction false} Shapes(rules: Rules, own: string)
    requires GoodRules(rules) && OneLine(own) && StripCr(own) == own && KindOf(own, rules) == Include
    ensures Kinds([MARKER, "", MARKER, rules.wanted, own], rules) == [Marker, Blank, Marker, Match, Include]
    ensures Kinds([MARKER, "", own], rules) == [Marker, Blank, Include]
    ensures forall l <- [MARKER, "", MARKER, rules.wanted, own] :: OneLine(l) && StripCr(l) == l
    ensures own != ""
  {
    hide Trim;
    MarkerShape();
    MarkerKind(rules);
    WantedShapes(rules);
    BlankKind(rules);
    assert StripCr("") == "" && OneLine("");
    assert own != "";
    hide KindOf, StripCr, OneLine, GoodRules;
  }

  lemma {:induction false} MarkerKind(rules: Rules)
    ensures KindOf(MARKER, rules) == Marker
  {
    MarkerShape();
  }

  lemma {:induction false} WantedShapes(rules: Rules)
    requires GoodRules(rules)
    ensures KindOf(rules.wanted, rules) == Match && OneLine(rules.wanted) && StripCr(rules.wanted) == rules.wanted
  {
    WantedKind(rules);
  }
}
