/**
 Replacing a file through a temporary copy, with a backup to fall back on. Any
 file operation may fail and the process may die between any two of them; a
 rename either happens or does not.
 */
module FileReplace {
  import opened Text

  type Content = seq<char>

  datatype Files = Files(path: Option<Content>, tmp: Option<Content>, bak: Option<Content>)

  /**
   How each operation goes. `landed` is how much of the content reaches the
   temporary file when its write fails; `seen` is whether `exists` notices the
   file; `modeSet` is `true` where no mode is set.
   */
  datatype Luck = Luck(
    written: bool, landed: nat, modeSet: bool, renamed: bool, seen: bool,
    cleared: bool, moved: bool, promoted: bool, rolledBack: bool, tidied: bool)

  // --- The code, step by step ---------------------------------------------

  /** The three files; `past` holds every state a crash could leave behind. */
  class Disk {
    var path: Option<Content>
    var tmp: Option<Content>
    var bak: Option<Content>
    ghost var past: seq<Files>

    ghost function Now(): Files
      reads this
    {
      Files(path, tmp, bak)
    }

    ghost predicate Valid()
      reads this
    {
      past != [] && past[|past| - 1] == Now()
    }

    constructor (files: Files)
      ensures Valid() && past == [files]
    {
      path, tmp, bak := files.path, files.tmp, files.bak;
      past := [files];
    }

    /** `fs::write` on the temporary file: truncates it, then fills it. */
    method WriteTmp(content: Content, luck: Luck)
      requires Valid()
      modifies this
      ensures Valid()
      ensures past == old(past) + [old(Now()).(tmp := Some([])), old(Now()).(tmp := Some(Landed(content, luck)))]
    {
      tmp := Some([]);
      past := past + [Now()];
      tmp := Some(if luck.written then content else content[..if luck.landed <= |content| then luck.landed else |content|]);
      past := past + [Now()];
    }

    /** The temporary file over the path, or the backup-and-promote flow where that fails. */
    method Promote(luck: Luck) returns (ok: bool)
      requires Valid() && tmp.Some?
      modifies this
      ensures Valid()
      ensures past == old(past) + Promotion(old(Now()), luck)
      ensures ok == Promotes(old(Now()), luck)
    {
      if luck.renamed {
        path, tmp := tmp, None;
        past := past + [Now()];
        return true;
      }
      if !(path.Some? && luck.seen) {
        return false;
      }
      if luck.cleared {
        bak := None;
      }
      past := past + [Now()];
      if !luck.moved {
        return false;
      }
      path, bak := None, path;
      past := past + [Now()];
      if !luck.promoted {
        if luck.rolledBack {
          path, bak := bak, None;
        }
        past := past + [Now()];
        return false;
      }
      path, tmp := tmp, None;
      past := past + [Now()];
      if luck.tidied {
        bak := None;
      }
      past := past + [Now()];
      return true;
    }

    /** `write_owner_only_file`, and `save_to` where no mode is set. */
    method Replace(content: Content, luck: Luck) returns (ok: bool)
      requires Valid()
      modifies this
      ensures Valid()
      ensures past == old(past) + Steps(old(Now()), content, luck)
      ensures ok == Succeeds(old(Now()), luck)
      ensures forall k :: |old(past)| <= k < |past| ==> Recoverable(old(path), content, past[k])
      ensures path == if ok then Some(content) else if Stranded(old(Now()), luck) then None else old(path)
      ensures Stranded(old(Now()), luck) ==> !ok && bak == old(path)
      ensures ok <==> luck.written && luck.modeSet && (luck.renamed || (old(path).Some? && luck.seen && luck.moved && luck.promoted))
      ensures ok ==> tmp == None && bak == if luck.renamed then old(bak) else if luck.tidied then None else old(path)
      ensures !ok && luck.written ==> tmp == Some(content)
      ensures Unmoved(old(Now()), luck) ==> bak == if luck.cleared then None else old(bak)
    {
      ghost var start, before := Now(), past;
      WriteTmp(content, luck);
      if luck.written && luck.modeSet {
        ok := Promote(luck);
      } else {
        ok := false;
      }
      assert past == before + Steps(start, content, luck);
      EveryStepRecoverable(start, content, luck);
      LastStep(start, content, luck);
      forall k | |before| <= k < |past|
        ensures Recoverable(start.path, content, past[k])
      {
        assert past[k] == Steps(start, content, luck)[k - |before|];
      }
    }
  }

  // --- The states passed through ------------------------------------------

  function Landed(content: Content, luck: Luck): Content {
    if luck.written then content else content[..if luck.landed <= |content| then luck.landed else |content|]
  }

  function Promotion(f: Files, luck: Luck): seq<Files> {
    if luck.renamed then [f.(path := f.tmp, tmp := None)]
    else if !(f.path.Some? && luck.seen) then []
    else
      var cleared := if luck.cleared then f.(bak := None) else f;
      if !luck.moved then [cleared]
      else
        var moved := Files(None, f.tmp, f.path);
        if !luck.promoted then [cleared, moved, if luck.rolledBack then Files(f.path, f.tmp, None) else moved]
        else [cleared, moved, Files(f.tmp, None, f.path), Files(f.tmp, None, if luck.tidied then None else f.path)]
  }

  predicate Promotes(f: Files, luck: Luck) {
    luck.renamed || (f.path.Some? && luck.seen && luck.moved && luck.promoted)
  }

  function Steps(f: Files, content: Content, luck: Luck): (states: seq<Files>)
    ensures states != []
  {
    var full := f.(tmp := Some(Landed(content, luck)));
    [f.(tmp := Some([])), full] + if luck.written && luck.modeSet then Promotion(full, luck) else []
  }

  predicate Succeeds(f: Files, luck: Luck) {
    luck.written && luck.modeSet && Promotes(f, luck)
  }

  /** Backed up, then neither promoted nor rolled back: the one way to leave the path empty. */
  predicate Stranded(f: Files, luck: Luck) {
    && luck.written && luck.modeSet && !luck.renamed && f.path.Some? && luck.seen
    && luck.moved && !luck.promoted && !luck.rolledBack
  }

  /** The file could be neither replaced nor backed up: only an older backup may be gone. */
  predicate Unmoved(f: Files, luck: Luck) {
    luck.written && luck.modeSet && !luck.renamed && f.path.Some? && luck.seen && !luck.moved
  }

  /** The whole old file is at the path or in the backup, or the whole new one is at the path. */
  predicate Recoverable(was: Option<Content>, content: Content, f: Files) {
    f.path == was || f.path == Some(content) || (was.Some? && f.path == None && f.bak == was)
  }

  lemma {:induction false} EveryStepRecoverable(f: Files, content: Content, luck: Luck)
    ensures forall k :: 0 <= k < |Steps(f, content, luck)| ==> Recoverable(f.path, content, Steps(f, content, luck)[k])
  {
    var full := f.(tmp := Some(Landed(content, luck)));
    if luck.written && luck.modeSet {
      assert forall k :: 0 <= k < |Promotion(full, luck)| ==> Recoverable(f.path, content, Promotion(full, luck)[k]);
    }
  }

  lemma {:induction false} LastStep(f: Files, content: Content, luck: Luck)
    ensures var states := Steps(f, content, luck);
      var last := states[|states| - 1];
      && last.path == (if Succeeds(f, luck) then Some(content) else if Stranded(f, luck) then None else f.path)
      && (Stranded(f, luck) ==> last.bak == f.path)
      && (Succeeds(f, luck) ==> last.tmp == None && last.bak == if luck.renamed then f.bak else if luck.tidied then None else f.path)
      && (!Succeeds(f, luck) && luck.written ==> last.tmp == Some(content))
      && (Unmoved(f, luck) ==> last.bak == if luck.cleared then None else f.bak)
  {
  }

  // --- Many writes and crashes --------------------------------------------

  /** A write that runs to its end, or dies after reaching the given state. */
  datatype Write = Write(content: Content, luck: Luck, crash: Option<nat>)

  function Left(f: Files, w: Write): Files {
    var states := [f] + Steps(f, w.content, w.luck);
    if w.crash.Some? && w.crash.value < |states| then states[w.crash.value] else states[|states| - 1]
  }

  predicate Reported(f: Files, w: Write) {
    w.crash == None && Succeeds(f, w.luck)
  }

  function After(start: Files, ws: seq<Write>): Files {
    if ws == [] then start else Left(After(start, ws[..|ws| - 1]), ws[|ws| - 1])
  }

  /** What an administrator would take: the file, or its backup if the file is gone. */
  function Survivor(f: Files): Option<Content> {
    if f.path.Some? then f.path else f.bak
  }

  /** The last content whose write reported success, and those attempted since. */
  function Current(start: Files, first: Content, ws: seq<Write>): seq<Content> {
    if ws == [] then [first]
    else
      var before, w := ws[..|ws| - 1], ws[|ws| - 1];
      if Reported(After(start, before), w) then [w.content] else Current(start, first, before) + [w.content]
  }

  lemma {:induction false} OneWrite(f: Files, w: Write)
    requires Survivor(f).Some?
    ensures Survivor(Left(f, w)) == Survivor(f) || Survivor(Left(f, w)) == Some(w.content)
    ensures Reported(f, w) ==> Survivor(Left(f, w)) == Some(w.content)
  {
    LastStep(f, w.content, w.luck);
    var full := f.(tmp := Some(Landed(w.content, w.luck)));
    if w.luck.written && w.luck.modeSet {
      assert forall g <- Promotion(full, w.luck) :: Survivor(g) == Survivor(f) || Survivor(g) == Some(w.content);
    }
    assert forall g <- Steps(f, w.content, w.luck) :: Survivor(g) == Survivor(f) || Survivor(g) == Some(w.content);
  }

  /**
   Over any number of writes, each failing or crashing anywhere, with stale
   temporary and backup files carried along: the file, or its backup when the
   file is gone, is a whole content no older than the last reported success.
   */
  lemma {:induction false} NothingOlderSurvives(start: Files, first: Content, ws: seq<Write>)
    requires start.path == Some(first)
    ensures Survivor(After(start, ws)).Some? && Survivor(After(start, ws)).value in Current(start, first, ws)
    decreases |ws|
  {
    if ws != [] {
      var before := ws[..|ws| - 1];
      NothingOlderSurvives(start, first, before);
      OneWrite(After(start, before), ws[|ws| - 1]);
    }
  }

  /** The path itself is empty after a run of uncrashed writes only if some write was stranded. */
  lemma {:induction false} PathStays(start: Files, ws: seq<Write>)
    requires start.path.Some?
    requires forall k :: 0 <= k < |ws| ==> ws[k].crash == None && !Stranded(After(start, ws[..k]), ws[k].luck)
    ensures After(start, ws).path.Some?
    decreases |ws|
  {
    if ws != [] {
      var before, w := ws[..|ws| - 1], ws[|ws| - 1];
      forall k | 0 <= k < |before|
        ensures before[k].crash == None && !Stranded(After(start, before[..k]), before[k].luck)
      {
        assert before[..k] == ws[..k];
        assert ws[k].crash == None;
      }
      PathStays(start, before);
      assert ws[|before|].crash == None;
      LastStep(After(start, before), w.content, w.luck);
    }
  }
}
