/**
 The daemon log: appended to, and moved to a single backup once the next record
 would take it past its cap. Everything from flush to rename may fail; opening
 the new file after a rename is taken to work.
 */
module RotatingLog {
  import opened Text
  import opened Numbers

  type Bytes = seq<Byte>

  const U64_MAX: nat := 0xFFFF_FFFF_FFFF_FFFF

  type U64 = n: nat | n <= U64_MAX

  /** How far a rotation gets: each failure leaves the later steps undone. */
  datatype Rotation = FlushFails | RemoveFails | RenameFails | Rotates

  /** One record: how its rotation would go, and how many of its bytes are taken (none on an error). */
  datatype Record = Record(bytes: Bytes, rotation: Rotation, taken: Option<nat>)

  datatype Log = Log(current: Bytes, backup: Option<Bytes>, written: U64, warned: bool)

  // --- The writer ---------------------------------------------------------

  class RotatingFileWriter {
    const maxBytes: U64
    var current: Bytes
    var backup: Option<Bytes>
    var written: U64
    var warned: bool

    ghost function State(): Log
      reads this
    {
      Log(current, backup, written, warned)
    }

    /** `open`; a file whose size cannot be read counts as empty. */
    constructor (maxBytes: U64, found: Bytes, backup: Option<Bytes>, sized: bool)
      ensures this.maxBytes == maxBytes && State() == Opened(found, backup, sized)
    {
      this.maxBytes := maxBytes;
      this.current, this.backup := found, backup;
      this.written := if sized then Min(|found|, U64_MAX) else 0;
      this.warned := false;
    }

    method Rotate(how: Rotation) returns (ok: bool)
      modifies this
      ensures State() == Rotated(old(State()), how) && ok == how.Rotates?
    {
      if how.FlushFails? || how.RemoveFails? {
        return false;
      }
      backup := None;
      if how.RenameFails? {
        return false;
      }
      backup, current := Some(current), [];
      written, warned := 0, false;
      return true;
    }

    method RotateIfNeeded(incoming: nat, how: Rotation)
      modifies this
      ensures State() == Prepared(maxBytes, old(State()), incoming, how)
    {
      if !(maxBytes > 0 && written > 0 && Min(written + incoming, U64_MAX) > maxBytes) {
        return;
      }
      var ok := Rotate(how);
      if !ok && !warned {
        warned := true;
      }
    }

    method Write(r: Record) returns (n: Option<nat>)
      requires r.taken.Some? ==> r.taken.value <= |r.bytes|
      modifies this
      ensures State() == Step(maxBytes, old(State()), r) && n == r.taken
    {
      RotateIfNeeded(|r.bytes|, r.rotation);
      if r.taken.None? {
        return None;
      }
      current := current + r.bytes[..r.taken.value];
      written := Min(written + r.taken.value, U64_MAX);
      return r.taken;
    }
  }

  // --- The writer as a function -------------------------------------------

  function Opened(found: Bytes, backup: Option<Bytes>, sized: bool): Log {
    Log(found, backup, if sized then Min(|found|, U64_MAX) else 0, false)
  }

  predicate Needed(cap: U64, s: Log, incoming: nat) {
    cap > 0 && s.written > 0 && Min(s.written + incoming, U64_MAX) > cap
  }

  function Rotated(s: Log, how: Rotation): Log {
    match how
    case FlushFails => s
    case RemoveFails => s
    case RenameFails => s.(backup := None)
    case Rotates => Log([], Some(s.current), 0, false)
  }

  function Prepared(cap: U64, s: Log, incoming: nat, how: Rotation): Log {
    if !Needed(cap, s, incoming) then s
    else if how.Rotates? then Rotated(s, how)
    else Rotated(s, how).(warned := true)
  }

  function Taken(r: Record): Bytes {
    if r.taken.Some? && r.taken.value <= |r.bytes| then r.bytes[..r.taken.value] else []
  }

  function Step(cap: U64, s: Log, r: Record): Log {
    var p := Prepared(cap, s, |r.bytes|, r.rotation);
    p.(current := p.current + Taken(r), written := Min(p.written + |Taken(r)|, U64_MAX))
  }

  function After(cap: U64, start: Log, records: seq<Record>): Log {
    if records == [] then start else Step(cap, After(cap, start, records[..|records| - 1]), records[|records| - 1])
  }

  // --- Nothing is lost but the oldest -------------------------------------

  /** What the two files hold, oldest first. */
  function Kept(s: Log): Bytes {
    (if s.backup.Some? then s.backup.value else []) + s.current
  }

  /** Everything ever logged: what was found at the start and every byte taken since. */
  function Everything(start: Log, records: seq<Record>): Bytes {
    if records == [] then Kept(start) else Everything(start, records[..|records| - 1]) + Taken(records[|records| - 1])
  }

  predicate Suffix(tail: Bytes, all: Bytes) {
    |tail| <= |all| && all[|all| - |tail|..] == tail
  }

  lemma {:induction false} SuffixTrans(a: Bytes, b: Bytes, c: Bytes)
    requires Suffix(a, b) && Suffix(b, c)
    ensures Suffix(a, c)
  {
    assert c[|c| - |a|..] == c[|c| - |b|..][|b| - |a|..];
  }

  lemma {:induction false} SuffixAppend(a: Bytes, b: Bytes, more: Bytes)
    requires Suffix(a, b)
    ensures Suffix(a + more, b + more)
  {
    assert (b + more)[|b| - |a|..] == b[|b| - |a|..] + more;
  }

  lemma {:induction false} SuffixOfPair(a: Bytes, b: Bytes)
    ensures Suffix(b, a + b) && Suffix(b, b)
  {
    assert (a + b)[|a|..] == b && b[0..] == b;
  }

  lemma {:induction false} PreparedKeeps(cap: U64, s: Log, incoming: nat, how: Rotation)
    ensures Suffix(Kept(Prepared(cap, s, incoming, how)), Kept(s))
  {
    hide Suffix;
    var p := Prepared(cap, s, incoming, how);
    SuffixOfPair(if s.backup.Some? then s.backup.value else [], s.current);
    SuffixOfPair([], Kept(s));
    if Needed(cap, s, incoming) && (how.RenameFails? || how.Rotates?) {
      OnlyCurrentLeft(s, p);
    }
  }

  /** A rotation keeps the current log, in whichever file, and nothing else. */
  lemma {:induction false} OnlyCurrentLeft(s: Log, p: Log)
    requires (p.backup == None && p.current == s.current) || (p.backup == Some(s.current) && p.current == [])
    ensures Kept(p) == s.current
  {
  }

  lemma {:induction false} StepKeeps(cap: U64, s: Log, r: Record)
    ensures Suffix(Kept(Step(cap, s, r)), Kept(s) + Taken(r))
  {
    var p := Prepared(cap, s, |r.bytes|, r.rotation);
    PreparedKeeps(cap, s, |r.bytes|, r.rotation);
    SuffixAppend(Kept(p), Kept(s), Taken(r));
    KeptGrows(p, Taken(r), Step(cap, s, r).written);
    hide Prepared, Suffix, Kept, Taken;
  }

  lemma {:induction false} KeptGrows(p: Log, more: Bytes, n: U64)
    ensures Kept(p.(current := p.current + more, written := n)) == Kept(p) + more
  {
    if p.backup.Some? {
      assert p.backup.value + (p.current + more) == p.backup.value + p.current + more;
    }
  }

  /**
   After any records, with any partial writes and failed rotations, the backup
   followed by the log is a suffix of everything logged.
   */
  lemma {:induction false} KeptIsSuffix(cap: U64, start: Log, records: seq<Record>)
    ensures Suffix(Kept(After(cap, start, records)), Everything(start, records))
    decreases |records|
  {
    if records != [] {
      var before, r := records[..|records| - 1], records[|records| - 1];
      var s := After(cap, start, before);
      KeptIsSuffix(cap, start, before);
      StepKeeps(cap, s, r);
      SuffixAppend(Kept(s), Everything(start, before), Taken(r));
      SuffixTrans(Kept(Step(cap, s, r)), Kept(s) + Taken(r), Everything(start, before) + Taken(r));
      hide Step, Kept, Suffix;
    } else {
      assert Kept(start)[0..] == Kept(start);
    }
  }

  /**
   A log that is empty, uncapped, or has room for the record is not rotated: the
   record is appended and the backup left alone. Otherwise the log, where the
   rotation works, becomes the backup and the record starts a new one; where it
   fails, the record is appended all the same and the failure noted.
   */
  lemma {:induction false} RotatesExactly(cap: U64, s: Log, r: Record)
    ensures var s' := Step(cap, s, r);
      && (cap == 0 || s.written == 0 || s.written + |r.bytes| <= cap || cap == U64_MAX ==>
          s'.current == s.current + Taken(r) && s'.backup == s.backup && s'.warned == s.warned)
      && (0 < cap < U64_MAX && s.written > 0 && s.written + |r.bytes| > cap ==>
          if r.rotation == Rotates then s'.current == Taken(r) && s'.backup == Some(s.current) && !s'.warned
          else s'.current == s.current + Taken(r) && s'.warned && s'.backup == (if r.rotation == RenameFails then None else s.backup))
  {
  }

  // --- The counter and the cap --------------------------------------------

  /** Bytes of the current log that the counter has never seen. */
  function Unseen(cap: U64, start: Log, records: seq<Record>): nat {
    if records == [] then if start.written == 0 then |start.current| else 0
    else
      var before, r := records[..|records| - 1], records[|records| - 1];
      if Needed(cap, After(cap, start, before), |r.bytes|) && r.rotation.Rotates? then 0 else Unseen(cap, start, before)
  }

  /**
   The counter is the length of the current log, less what an unreadable size
   at opening hid from it until the first rotation.
   */
  lemma {:induction false} CounterIsLength(cap: U64, found: Bytes, backup: Option<Bytes>, sized: bool, records: seq<Record>)
    ensures var start := Opened(found, backup, sized);
      var s := After(cap, start, records);
      && Unseen(cap, start, records) <= |s.current|
      && s.written == Min(|s.current| - Unseen(cap, start, records), U64_MAX)
      && (sized ==> s.written == Min(|s.current|, U64_MAX))
    decreases |records|
  {
    if records != [] {
      CounterIsLength(cap, found, backup, sized, records[..|records| - 1]);
    }
  }

  /** The rotation this record needs, if any, works. */
  predicate Smooth(cap: U64, s: Log, r: Record) {
    Needed(cap, s, |r.bytes|) ==> r.rotation.Rotates?
  }

  /**
   With a size read at opening and a cap that 64 bits can pass, a record whose
   rotation is not needed or works leaves the log no longer than the cap or
   than what was taken of that record.
   */
  lemma {:induction false} WithinCap(cap: U64, found: Bytes, backup: Option<Bytes>, before: seq<Record>, r: Record)
    requires 0 < cap < U64_MAX
    requires Smooth(cap, After(cap, Opened(found, backup, true), before), r)
    ensures |Step(cap, After(cap, Opened(found, backup, true), before), r).current| <= Max(cap, |Taken(r)|)
  {
    CounterIsLength(cap, found, backup, true, before);
  }

  function Longest(records: seq<Record>): nat {
    if records == [] then 0 else Max(Longest(records[..|records| - 1]), |Taken(records[|records| - 1])|)
  }

  function Extent(backup: Option<Bytes>): nat {
    if backup.Some? then |backup.value| else 0
  }

  /** While rotations work, neither file outgrows the cap, the longest record taken and what was found. */
  lemma {:induction false} BothFilesBounded(cap: U64, found: Bytes, backup: Option<Bytes>, records: seq<Record>)
    requires 0 < cap < U64_MAX
    requires forall k :: 0 <= k < |records| ==> Smooth(cap, After(cap, Opened(found, backup, true), records[..k]), records[k])
    ensures var s := After(cap, Opened(found, backup, true), records);
      && |s.current| <= Max(Max(cap, |found|), Longest(records))
      && Extent(s.backup) <= Max(Max(Max(cap, |found|), Longest(records)), Extent(backup))
    decreases |records|
  {
    if records != [] {
      var before, r := records[..|records| - 1], records[|records| - 1];
      forall k | 0 <= k < |before|
        ensures Smooth(cap, After(cap, Opened(found, backup, true), before[..k]), before[k])
      {
        assert before[..k] == records[..k];
        assert before[k] == records[k];
      }
      BothFilesBounded(cap, found, backup, before);
      assert records[..|before|] == before && records[|before|] == r;
      WithinCap(cap, found, backup, before, r);
    }
  }
}
