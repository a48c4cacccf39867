/** Telling the operation kind of a sign request from the data to be signed. */
module SshSig {
  import opened Text
  import opened Numbers

  datatype OperationKind = SshAuthentication | GitSigning | FileSigning | SshSignature

  datatype SignRequest = PlainRequest | SshSigRequest(ns: seq<Byte>)

  datatype ParseResult = Parsed(request: SignRequest) | MissingVersion | InvalidNamespace

  const MAGIC: seq<Byte> := [83, 83, 72, 83, 73, 71]  // "SSHSIG"
  const GIT: seq<Byte> := [103, 105, 116]
  const FILE: seq<Byte> := [102, 105, 108, 101]
  const SSH: seq<Byte> := [115, 115, 104]

  /** `operation_kind_from_namespace`. */
  function KindOfNamespace(ns: seq<Byte>): OperationKind {
    if ns == GIT then GitSigning
    else if ns == FILE then FileSigning
    else if ns == SSH then SshAuthentication
    else SshSignature
  }

  function KindOfRequest(r: SignRequest): OperationKind {
    match r
    case PlainRequest => SshAuthentication
    case SshSigRequest(ns) => KindOfNamespace(ns)
  }

  // --- UTF-8 --------------------------------------------------------------

  predicate Continuation(b: Byte) {
    0x80 <= b <= 0xBF
  }

  /** Length of the well-formed UTF-8 sequence at the start of `s`; 0 if there is none. */
  function CharLen(s: seq<Byte>): (n: nat)
    ensures n <= |s|
  {
    if s == [] then 0
    else if s[0] <= 0x7F then 1
    else if 0xC2 <= s[0] <= 0xDF then
      if |s| >= 2 && Continuation(s[1]) then 2 else 0
    else if 0xE0 <= s[0] <= 0xEF then
      if |s| >= 3 && Continuation(s[1]) && Continuation(s[2])
         && (s[0] == 0xE0 ==> s[1] >= 0xA0) && (s[0] == 0xED ==> s[1] <= 0x9F) then 3 else 0
    else if 0xF0 <= s[0] <= 0xF4 then
      if |s| >= 4 && Continuation(s[1]) && Continuation(s[2]) && Continuation(s[3])
         && (s[0] == 0xF0 ==> s[1] >= 0x90) && (s[0] == 0xF4 ==> s[1] <= 0x8F) then 4 else 0
    else 0
  }

  predicate IsUtf8(s: seq<Byte>) {
    s == [] || (CharLen(s) > 0 && IsUtf8(s[CharLen(s)..]))
  }

  /** The UTF-8 bytes of a character. */
  function Utf8Char(c: char): (b: seq<Byte>)
    ensures 1 <= |b| <= 4
  {
    var n := c as int;
    if n < 0x80 then [n]
    else if n < 0x800 then [0xC0 + n / 0x40, 0x80 + n % 0x40]
    else if n < 0x1_0000 then [0xE0 + n / 0x1000, 0x80 + n / 0x40 % 0x40, 0x80 + n % 0x40]
    else [0xF0 + n / 0x4_0000, 0x80 + n / 0x1000 % 0x40, 0x80 + n / 0x40 % 0x40, 0x80 + n % 0x40]
  }

  function Utf8(text: string): seq<Byte> {
    if text == "" then [] else Utf8Char(text[0]) + Utf8(text[1..])
  }

  lemma {:induction false} CharLenOfChar(c: char, rest: seq<Byte>)
    ensures CharLen(Utf8Char(c) + rest) == |Utf8Char(c)|
  {
    var n := c as int;
    assert n < 0xD800 || 0xE000 <= n < 0x11_0000;
  }

  lemma {:induction false} TwoBytes(a: int, b: int) returns (c: char)
    requires 2 <= a < 0x20 && 0 <= b < 0x40
    ensures Utf8Char(c) == [0xC0 + a, 0x80 + b]
  {
    c := (a * 0x40 + b) as char;
    assert c as int / 0x40 == a && c as int % 0x40 == b;
  }

  lemma {:induction false} ThreeBytes(a: int, b: int, d: int) returns (c: char)
    requires 0 <= a < 0x10 && 0 <= b < 0x40 && 0 <= d < 0x40
    requires (a == 0 ==> b >= 0x20) && (a == 0xD ==> b < 0x20)
    ensures Utf8Char(c) == [0xE0 + a, 0x80 + b, 0x80 + d]
  {
    var high := a * 0x40 + b;
    var n := high * 0x40 + d;
    assert high / 0x40 == a && high % 0x40 == b;
    assert n / 0x40 == high && n % 0x40 == d && n / 0x1000 == high / 0x40;
    assert 0x800 <= n < 0xD800 || 0xE000 <= n < 0x1_0000;
    c := n as char;
  }

  lemma {:induction false} FourBytes(a: int, b: int, d: int, e: int) returns (c: char)
    requires 0 <= a < 5 && 0 <= b < 0x40 && 0 <= d < 0x40 && 0 <= e < 0x40
    requires (a == 0 ==> b >= 0x10) && (a == 4 ==> b < 0x10)
    ensures Utf8Char(c) == [0xF0 + a, 0x80 + b, 0x80 + d, 0x80 + e]
  {
    var high := a * 0x40 + b;
    var mid := high * 0x40 + d;
    var n := mid * 0x40 + e;
    assert high / 0x40 == a && high % 0x40 == b;
    assert mid / 0x40 == high && mid % 0x40 == d;
    assert n / 0x40 == mid && n % 0x40 == e && n / 0x1000 == mid / 0x40 && n / 0x4_0000 == high / 0x40;
    assert 0x1_0000 <= n < 0x11_0000;
    c := n as char;
  }

  /** The character a well-formed sequence stands for. */
  lemma {:induction false} CharOfBytes(s: seq<Byte>) returns (c: char)
    requires CharLen(s) > 0
    ensures Utf8Char(c) == s[..CharLen(s)]
  {
    var n := CharLen(s);
    var b0: int := s[0];
    if n == 1 {
      c := b0 as char;
      assert s[..1] == [s[0]];
      return;
    }
    hide Utf8Char;
    var b1: int := s[1];
    if n == 2 {
      c := TwoBytes(b0 - 0xC0, b1 - 0x80);
      assert s[..2] == [s[0], s[1]];
    } else if n == 3 {
      var b2: int := s[2];
      c := ThreeBytes(b0 - 0xE0, b1 - 0x80, b2 - 0x80);
      assert s[..3] == [s[0], s[1], s[2]];
    } else {
      var b2: int, b3: int := s[2], s[3];
      c := FourBytes(b0 - 0xF0, b1 - 0x80, b2 - 0x80, b3 - 0x80);
      assert s[..4] == [s[0], s[1], s[2], s[3]];
    }
  }

  /** The test accepts exactly the UTF-8 encodings of text. */
  lemma {:induction false} Utf8Exactly(s: seq<Byte>)
    ensures IsUtf8(s) <==> exists text :: Utf8(text) == s
    decreases |s|
  {
    if IsUtf8(s) {
      var text := TextOf(s);
    }
    if text :| Utf8(text) == s {
      EncodesWell(text);
    }
  }

  lemma {:induction false} TextOf(s: seq<Byte>) returns (text: string)
    requires IsUtf8(s)
    ensures Utf8(text) == s
    decreases |s|
  {
    text := "";
    if s != [] {
      var n := CharLen(s);
      var c := CharOfBytes(s);
      var rest := TextOf(s[n..]);
      text := [c] + rest;
      assert text[1..] == rest;
      assert s == s[..n] + s[n..];
    }
  }

  lemma {:induction false} EncodesWell(text: string)
    ensures IsUtf8(Utf8(text))
  {
    if text != "" {
      EncodesWell(text[1..]);
      var first, rest := Utf8Char(text[0]), Utf8(text[1..]);
      CharLenOfChar(text[0], rest);
      assert (first + rest)[|first|..] == rest;
    }
  }

  // --- The parser ---------------------------------------------------------

  function UntilNul(s: seq<Byte>): seq<Byte> {
    if s == [] || s[0] == 0 then [] else [s[0]] + UntilNul(s[1..])
  }

  /** `take_while` up to the first NUL byte. */
  method TakeUntilNul(data: seq<Byte>) returns (taken: seq<Byte>)
    ensures taken == UntilNul(data)
  {
    taken := [];
    var i := 0;
    while i < |data| && data[i] != 0
      invariant 0 <= i <= |data|
      invariant UntilNul(data) == taken + UntilNul(data[i..])
    {
      assert data[i..][1..] == data[i + 1..];
      taken := taken + [data[i]];
      i := i + 1;
    }
  }

  function Parse(data: seq<Byte>): ParseResult {
    if |data| < |MAGIC| || data[..|MAGIC|] != MAGIC then Parsed(PlainRequest)
    else
      var rest := data[|MAGIC|..];
      if |rest| < 4 then MissingVersion
      else
        var ns := UntilNul(rest[4..]);
        if IsUtf8(ns) then Parsed(SshSigRequest(ns)) else InvalidNamespace
  }

  /** `parse_request`, consuming its buffer front to back. */
  method ParseRequest(data: seq<Byte>) returns (result: ParseResult)
    ensures result == Parse(data)
  {
    if |data| < |MAGIC| {
      return Parsed(PlainRequest);
    }
    var header, buffer := data[..|MAGIC|], data[|MAGIC|..];
    if header != MAGIC {
      return Parsed(PlainRequest);
    }
    if |buffer| < 4 {
      return MissingVersion;
    }
    buffer := buffer[4..];
    var ns := TakeUntilNul(buffer);
    if !IsUtf8(ns) {
      return InvalidNamespace;
    }
    return Parsed(SshSigRequest(ns));
  }

  // --- The format it stands for -------------------------------------------

  /** A 32-bit big-endian length. */
  function U32(n: nat): (b: seq<Byte>)
    requires n < 0x1_0000_0000
    ensures |b| == 4
  {
    [n / 0x100_0000, n / 0x1_0000 % 0x100, n / 0x100 % 0x100, n % 0x100]
  }

  function FromU32(b: seq<Byte>): nat
    requires |b| == 4
  {
    b[0] as int * 0x100_0000 + b[1] as int * 0x1_0000 + b[2] as int * 0x100 + b[3] as int
  }

  predicate Fits(s: seq<Byte>) {
    |s| < 0x1_0000_0000
  }

  /** An SSH wire string: length, then bytes. */
  function WireString(s: seq<Byte>): seq<Byte>
    requires Fits(s)
  {
    U32(|s|) + s
  }

  function ReadWireString(s: seq<Byte>): Option<(seq<Byte>, seq<Byte>)> {
    if |s| < 4 then None
    else
      var n := FromU32(s[..4]);
      if |s| < 4 + n then None else Some((s[4..4 + n], s[4 + n..]))
  }

  /** Signed data as section 3 of OpenSSH's PROTOCOL.sshsig lays it out. */
  datatype SignedData = SignedData(ns: seq<Byte>, reserved: seq<Byte>, hashAlg: seq<Byte>, hash: seq<Byte>)

  predicate Encodable(d: SignedData) {
    Fits(d.ns) && Fits(d.reserved) && Fits(d.hashAlg) && Fits(d.hash)
  }

  function Encode(d: SignedData): seq<Byte>
    requires Encodable(d)
  {
    MAGIC + (WireString(d.ns) + (WireString(d.reserved) + (WireString(d.hashAlg) + WireString(d.hash))))
  }

  /** The namespace as a length-prefixed reader finds it. */
  function NamespaceOf(blob: seq<Byte>): Option<seq<Byte>> {
    if |blob| < |MAGIC| || blob[..|MAGIC|] != MAGIC then None
    else
      match ReadWireString(blob[|MAGIC|..])
      case Some((ns, _)) => Some(ns)
      case None => None
  }

  lemma {:induction false} U32RoundTrip(n: nat)
    requires n < 0x1_0000_0000
    ensures FromU32(U32(n)) == n
    ensures U32(n)[0] == 0 <==> n < 0x100_0000
  {
  }

  lemma {:induction false} WireRoundTrip(s: seq<Byte>, rest: seq<Byte>)
    requires Fits(s)
    ensures ReadWireString(WireString(s) + rest) == Some((s, rest))
  {
    var w := WireString(s) + rest;
    U32RoundTrip(|s|);
    assert w[..4] == U32(|s|);
    assert w[4..4 + |s|] == s && w[4 + |s|..] == rest;
  }

  predicate NulFree(s: seq<Byte>) {
    forall i :: 0 <= i < |s| ==> s[i] != 0
  }

  lemma {:induction false} UntilNulPrefix(s: seq<Byte>, rest: seq<Byte>)
    requires NulFree(s)
    ensures UntilNul(s + rest) == s + UntilNul(rest)
  {
    if s == [] {
      assert s + rest == rest;
    } else {
      assert (s + rest)[1..] == s[1..] + rest;
      UntilNulPrefix(s[1..], rest);
    }
  }

  lemma {:induction false} UntilNulShape(s: seq<Byte>)
    ensures NulFree(UntilNul(s))
  {
    if s != [] && s[0] != 0 {
      UntilNulShape(s[1..]);
    }
  }

  /** What follows the namespace: the reserved field's length, high byte first. */
  function AfterNamespace(d: SignedData): seq<Byte>
    requires Encodable(d)
  {
    WireString(d.reserved) + (WireString(d.hashAlg) + WireString(d.hash))
  }

  lemma {:induction false} EncodeShape(d: SignedData)
    requires Encodable(d)
    ensures var blob := Encode(d);
      && |blob| >= |MAGIC| + 4 && blob[..|MAGIC|] == MAGIC
      && blob[|MAGIC|..] == WireString(d.ns) + AfterNamespace(d)
      && blob[|MAGIC|..][4..] == d.ns + AfterNamespace(d)
  {
    var blob, tail := Encode(d), WireString(d.ns) + AfterNamespace(d);
    assert blob == MAGIC + tail;
    assert blob[|MAGIC|..] == tail;
    assert tail == U32(|d.ns|) + (d.ns + AfterNamespace(d));
    assert tail[4..] == d.ns + AfterNamespace(d);
  }

  lemma {:induction false} ReservedByte(d: SignedData)
    requires Encodable(d)
    ensures AfterNamespace(d) != [] && AfterNamespace(d)[0] == U32(|d.reserved|)[0]
  {
  }

  /**
   The skip-four-then-read-to-NUL parser names the true namespace of every
   well-formed blob with a UTF-8 namespace if and only if the namespace is
   NUL-free and the reserved field is shorter than 2^24 bytes.
   */
  lemma {:induction false} ParsesTheNamespace(d: SignedData)
    requires Encodable(d)
    ensures NamespaceOf(Encode(d)) == Some(d.ns)
    ensures IsUtf8(d.ns) ==>
      (Parse(Encode(d)) == Parsed(SshSigRequest(d.ns)) <==> NulFree(d.ns) && |d.reserved| < 0x100_0000)
  {
    var after := AfterNamespace(d);
    EncodeShape(d);
    WireRoundTrip(d.ns, after);
    U32RoundTrip(|d.reserved|);
    ReservedByte(d);
    var read := UntilNul(d.ns + after);
    UntilNulShape(d.ns + after);
    if NulFree(d.ns) {
      UntilNulPrefix(d.ns, after);
      if after[0] == 0 {
        assert UntilNul(after) == [] && d.ns + [] == d.ns;
      } else {
        assert |UntilNul(after)| > 0;
      }
    }
  }

  // --- The operation kind -------------------------------------------------

  /** The namespaces with an operation kind of their own. */
  predicate Named(ns: seq<Byte>) {
    ns == GIT || ns == FILE || ns == SSH
  }

  lemma {:induction false} SameKind(a: seq<Byte>, b: seq<Byte>)
    ensures KindOfNamespace(a) == KindOfNamespace(b) <==> a == b || (!Named(a) && !Named(b))
  {
    assert GIT[0] != FILE[0] && GIT[0] != SSH[0] && FILE[0] != SSH[0];
  }

  /** The bytes of ASCII text. */
  function Ascii(text: string): seq<Byte>
    requires forall i :: 0 <= i < |text| ==> text[i] < '\U{80}'
  {
    seq(|text|, i requires 0 <= i < |text| => text[i] as int)
  }

  /** Which kind each name has: git and file signing, ssh authentication, and for any other name a plain signature. */
  lemma {:induction false} NamesHaveKinds(ns: seq<Byte>)
    ensures KindOfRequest(PlainRequest) == SshAuthentication
    ensures KindOfRequest(SshSigRequest(ns)) == GitSigning <==> ns == Ascii("git")
    ensures KindOfRequest(SshSigRequest(ns)) == FileSigning <==> ns == Ascii("file")
    ensures KindOfRequest(SshSigRequest(ns)) == SshAuthentication <==> ns == Ascii("ssh")
    ensures MAGIC == Ascii("SSHSIG")
  {
    assert Ascii("git") == GIT && Ascii("file") == FILE && Ascii("ssh") == SSH && Ascii("SSHSIG") == MAGIC;
    assert GIT[0] != FILE[0] && GIT[0] != SSH[0] && FILE[0] != SSH[0];
  }

  lemma {:induction false} UntilNulStops(s: seq<Byte>, rest: seq<Byte>)
    requires !NulFree(s)
    ensures UntilNul(s + rest) == UntilNul(s) && UntilNul(s) != s
  {
    UntilNulShape(s);
    if s[0] != 0 {
      assert (s + rest)[1..] == s[1..] + rest;
      assert s == [s[0]] + s[1..];
      UntilNulStops(s[1..], rest);
    }
  }

  /** The bytes begin with this name and a NUL. */
  predicate BeginsWith(bytes: seq<Byte>, name: seq<Byte>) {
    |bytes| > |name| && bytes[..|name|] == name && bytes[|name|] == 0
  }

  /** The namespace, run on into the reserved field and its length, spells a name of its own up to a NUL. */
  predicate SpellsAName(d: SignedData)
    requires Encodable(d)
  {
    var bytes := d.ns + WireString(d.reserved);
    BeginsWith(bytes, GIT) || BeginsWith(bytes, FILE) || BeginsWith(bytes, SSH)
  }

  lemma {:induction false} ReadAs(bytes: seq<Byte>, name: seq<Byte>)
    requires NulFree(name) && |bytes| > |name|
    ensures UntilNul(bytes) == name <==> BeginsWith(bytes, name)
    decreases |name|
  {
    if name == [] {
      assert bytes[..0] == name;
    } else if bytes[0] == name[0] {
      ReadAs(bytes[1..], name[1..]);
      assert name == [name[0]] + name[1..];
      assert bytes[..|name|] == [bytes[0]] + bytes[1..][..|name| - 1];
      if UntilNul(bytes) == name {
        assert UntilNul(bytes)[1..] == UntilNul(bytes[1..]);
      }
    } else {
      assert bytes[..|name|][0] == bytes[0];
      if bytes[0] != 0 {
        assert UntilNul(bytes)[0] == bytes[0];
      }
    }
  }

  /** Five bytes decide, and they lie in the namespace, the reserved field's length and its first byte. */
  lemma {:induction false} NameIsNear(d: SignedData, name: seq<Byte>)
    requires Encodable(d) && NulFree(name) && 0 < |name| <= 4
    ensures UntilNul(d.ns + AfterNamespace(d)) == name <==> BeginsWith(d.ns + WireString(d.reserved), name)
  {
    var near, far := d.ns + WireString(d.reserved), WireString(d.hashAlg) + WireString(d.hash);
    var bytes := near + far;
    assert d.ns + AfterNamespace(d) == bytes;
    assert |WireString(d.reserved)| >= 4 && |far| >= 8;
    ReadAs(bytes, name);
    if |near| > |name| {
      assert bytes[..|name|] == near[..|name|] && bytes[|name|] == near[|name|];
    } else {
      assert d.ns == [] && d.reserved == [];
      assert bytes[0] == near[0] == U32(0)[0] == 0;
      assert bytes[..|name|][0] == bytes[0];
    }
  }

  /**
   The kind a parsed blob is filed under, in prompts and in authorization
   memory, is its namespace's own if and only if the namespace is NUL-free and
   the reserved field under 2^24 bytes, or the namespace has no kind of its own
   and does not, run on into the reserved field, spell one that has.
   */
  lemma {:induction false} KindIsTrueExactly(d: SignedData)
    requires Encodable(d) && Parse(Encode(d)).Parsed?
    ensures KindOfRequest(Parse(Encode(d)).request) == KindOfNamespace(d.ns) <==>
      (NulFree(d.ns) && |d.reserved| < 0x100_0000) || (!Named(d.ns) && !SpellsAName(d))
  {
    EncodeShape(d);
    U32RoundTrip(|d.reserved|);
    ReservedByte(d);
    var after := AfterNamespace(d);
    var read := UntilNul(d.ns + after);
    SameKind(read, d.ns);
    NameIsNear(d, GIT);
    NameIsNear(d, FILE);
    NameIsNear(d, SSH);
    if NulFree(d.ns) {
      UntilNulPrefix(d.ns, after);
      assert read == d.ns <==> UntilNul(after) == [];
    } else {
      UntilNulStops(d.ns, after);
    }
  }

  /** A NUL hides the rest: "git", NUL, anything is filed as a git signature, which it is not. */
  lemma {:induction false} NulHidesTheRest(d: SignedData, rest: seq<Byte>)
    requires Encodable(d) && d.ns == GIT + [0] + rest
    ensures Parse(Encode(d)) == Parsed(SshSigRequest(GIT))
    ensures KindOfRequest(SshSigRequest(GIT)) == GitSigning && KindOfNamespace(d.ns) == SshSignature
  {
    EncodeShape(d);
    var tail := [0] + rest + AfterNamespace(d);
    assert d.ns + AfterNamespace(d) == GIT + tail;
    UntilNulPrefix(GIT, tail);
    assert UntilNul(tail) == [] && GIT + [] == GIT;
    assert d.ns[3] == 0;
    assert |GIT| == 3 && IsUtf8(GIT[1..][1..][1..]) && IsUtf8(GIT[1..][1..]) && IsUtf8(GIT[1..]);
    assert FILE[3] != 0;
  }
}
