/**
 SignalR's binary framing: a payload behind a VarInt that holds its length.
 Lengths are 64-bit, as `usize` is on every supported target.
 */
module Framing {
  import opened Text
  import opened Numbers

  const TWO64: nat := 0x1_0000_0000_0000_0000

  // --- The VarInt on its own terms ----------------------------------------

  function Pow128(k: nat): (p: nat)
    ensures p >= 1
  {
    if k == 0 then 1 else 128 * Pow128(k - 1)
  }

  /** The number whose base-128 digits, least significant first, are the bytes' low seven bits. */
  function Value(bytes: seq<Byte>): nat {
    if bytes == [] then 0 else Value(bytes[..|bytes| - 1]) + bytes[|bytes| - 1] % 128 * Pow128(|bytes| - 1)
  }

  /** All bytes but the last have the continuation bit. */
  predicate Continued(bytes: seq<Byte>) {
    forall i :: 0 <= i < |bytes| ==> bytes[i] >= 128
  }

  /** `bytes[..k]` is a whole VarInt. */
  predicate Ends(bytes: seq<Byte>, k: nat) {
    1 <= k <= |bytes| && Continued(bytes[..k - 1]) && bytes[k - 1] < 128
  }

  // --- The encoder and the decoder ----------------------------------------

  function Varint(n: nat): seq<Byte> {
    if n < 128 then [n] else [n % 128 + 128] + Varint(n / 128)
  }

  function Frame(payload: seq<Byte>): seq<Byte> {
    Varint(|payload|) + payload
  }

  /** `encode_signalr_message`, from the payload on. */
  method EncodeFrame(payload: seq<Byte>) returns (frame: seq<Byte>)
    ensures frame == Frame(payload)
  {
    var size: nat := |payload|;
    frame := [];
    while true
      invariant frame + Varint(size) == Varint(|payload|)
      decreases size
    {
      var part: Byte, rest: nat := size % 128, size / 128;
      if rest > 0 {
        part := part + 128;
      }
      ghost var was := frame;
      frame := frame + [part];
      if rest == 0 {
        break;
      }
      assert was + Varint(size) == frame + Varint(rest);
      size := rest;
    }
    frame := frame + payload;
  }

  datatype Prefix = Prefix(length: nat, header: nat)

  /** How many leading bytes have the continuation bit. */
  function Stop(data: seq<Byte>): (s: nat)
    ensures s <= |data| && Continued(data[..s]) && (s < |data| ==> data[s] < 128)
  {
    if data == [] || data[0] < 128 then 0
    else
      var s := Stop(data[1..]);
      assert data[..s + 1] == [data[0]] + data[1..][..s];
      s + 1
  }

  /** The first VarInt of at most ten bytes, its value cut to 64 bits. */
  function Read(data: seq<Byte>): Option<Prefix> {
    var s := Stop(data);
    if s < |data| && s < 10 then Some(Prefix(Value(data[..s + 1]) % TWO64, s + 1)) else None
  }

  lemma {:induction false} StopAt(data: seq<Byte>, k: nat)
    requires Ends(data, k)
    ensures Stop(data) == k - 1
  {
    var s := Stop(data);
    assert forall i :: 0 <= i < k - 1 ==> data[i] == data[..k - 1][i] >= 128;
    assert forall i :: 0 <= i < s ==> data[i] == data[..s][i] >= 128;
  }

  lemma {:induction false} NoStop(data: seq<Byte>, k: nat)
    requires k <= |data| && Continued(data[..k])
    ensures Stop(data) >= k
  {
    assert forall i :: 0 <= i < k ==> data[i] == data[..k][i] >= 128;
  }

  lemma {:induction false} ValueBound(bytes: seq<Byte>)
    ensures Value(bytes) < Pow128(|bytes|)
    decreases |bytes|
  {
    if bytes != [] {
      ValueBound(bytes[..|bytes| - 1]);
      DigitStep(Value(bytes[..|bytes| - 1]), bytes[|bytes| - 1] % 128, Pow128(|bytes| - 1));
    }
  }

  lemma {:induction false} DigitStep(v: nat, d: nat, p: nat)
    requires v < p && d < 128
    ensures v + d * p < 128 * p
  {
    assert d * p <= 127 * p;
  }

  lemma {:induction false} PowMono(j: nat, k: nat)
    requires j <= k
    ensures Pow128(j) <= Pow128(k)
    decreases k
  {
    if j < k {
      PowMono(j, k - 1);
    }
  }

  lemma {:induction false} PowNine()
    ensures Pow128(9) * 2 == TWO64
  {
    assert Pow128(3) == 0x20_0000;
    assert Pow128(6) == 0x400_0000_0000;
  }

  /** Below ten digits nothing is cut; the tenth keeps its lowest bit only. */
  lemma {:induction false} TruncatedDigit(v: nat, d: nat, i: nat)
    requires i <= 9 && v < Pow128(i) && d < 128
    ensures v + d * Pow128(i) % TWO64 == (v + d * Pow128(i)) % TWO64
    ensures i < 9 ==> v + d * Pow128(i) < TWO64
  {
    PowNine();
    if i < 9 {
      DigitStep(v, d, Pow128(i));
      PowMono(i + 1, 9);
      assert Pow128(i + 1) == 128 * Pow128(i);
      var x := d * Pow128(i);
      Wraps(0, x);
      Wraps(0, v + x);
    } else {
      LastBit(v, d, Pow128(9));
      LastBit(0, d, Pow128(9));
    }
  }

  lemma {:induction false} ReadDigit(data: seq<Byte>, i: nat)
    requires i < |data| && i <= 9
    ensures Value(data[..i]) + data[i] % 128 * Pow128(i) % TWO64 == Value(data[..i + 1]) % TWO64
    ensures i < 9 ==> Value(data[..i]) + data[i] % 128 * Pow128(i) % TWO64 == Value(data[..i + 1])
  {
    assert data[..i + 1][..i] == data[..i];
    ValueBound(data[..i]);
    TruncatedDigit(Value(data[..i]), data[i] % 128, i);
    if i < 9 {
      Wraps(0, Value(data[..i + 1]));
    }
  }

  /**
   `read_varint`. The accumulator stays below 2^shift, so the source's
   bitwise-or is an addition; the shift drops what leaves the 64 bits.
   */
  method ReadVarint(data: seq<Byte>) returns (r: Option<Prefix>)
    ensures r == Read(data)
  {
    var result, shift, i := 0, 0, 0;
    assert Value(data[..0]) == 0;
    hide Value, Pow128, Stop;
    while i < |data|
      invariant 0 <= i <= |data| && i <= 9 && shift == 7 * i
      invariant Continued(data[..i])
      invariant result == Value(data[..i])
    {
      ReadDigit(data, i);
      result := result + data[i] % 128 * Pow128(i) % TWO64;
      if data[i] < 128 {
        StopAt(data, i + 1);
        return Some(Prefix(result, i + 1));
      }
      shift := shift + 7;
      if shift >= 64 {
        NoStop(data, i + 1);
        return None;
      }
      i := i + 1;
    }
    NoStop(data, i);
    return None;
  }

  // --- The length prefix --------------------------------------------------

  lemma {:induction false} ValueCons(b: Byte, rest: seq<Byte>)
    ensures Value([b] + rest) == b % 128 + 128 * Value(rest)
    decreases |rest|
  {
    var all := [b] + rest;
    if rest == [] {
      assert all[..0] == [] && Value(all) == b % 128 * Pow128(0);
    } else {
      assert all[..|rest|] == [b] + rest[..|rest| - 1];
      ValueCons(b, rest[..|rest| - 1]);
      var d, p := rest[|rest| - 1] % 128, Pow128(|rest| - 1);
      assert d * (128 * p) == 128 * (d * p);
    }
  }

  lemma {:induction false} VarintEnds(n: nat)
    ensures var v := Varint(n); Ends(v, |v|) && (|v| > 1 ==> v[|v| - 1] > 0)
    ensures n > 0 ==> var v := Varint(n); v[|v| - 1] > 0
    decreases n
  {
    if n >= 128 {
      var v, w := Varint(n), Varint(n / 128);
      VarintEnds(n / 128);
      assert v[..|v| - 1] == [v[0]] + w[..|w| - 1];
    }
  }

  lemma {:induction false} VarintValue(n: nat)
    ensures Value(Varint(n)) == n
    decreases n
  {
    if n < 128 {
      ValueCons(n, []);
      assert [n] + [] == [n];
    } else {
      VarintValue(n / 128);
      ValueCons(n % 128 + 128, Varint(n / 128));
    }
  }

  lemma {:induction false} VarintLow(n: nat)
    ensures var v := Varint(n); |v| >= 1 && (|v| > 1 ==> n >= Pow128(|v| - 1))
    decreases n
  {
    if n >= 128 {
      VarintLow(n / 128);
      assert Pow128(|Varint(n)| - 1) == 128 * Pow128(|Varint(n)| - 2);
    }
  }

  /** The encoding is one whole VarInt of that value, with no digit to spare. */
  lemma {:induction false} VarintMeans(n: nat)
    ensures var v := Varint(n); Ends(v, |v|) && Value(v) == n && (|v| > 1 ==> v[|v| - 1] > 0 && n >= Pow128(|v| - 1))
  {
    hide Varint, Value, Pow128, Ends;
    VarintEnds(n);
    VarintValue(n);
    VarintLow(n);
  }

  lemma {:induction false} VarintLength(n: nat, k: nat)
    requires 1 <= k && n < Pow128(k)
    ensures |Varint(n)| <= k
  {
    VarintMeans(n);
    if |Varint(n)| > k {
      PowMono(k, |Varint(n)| - 1);
    }
  }

  lemma {:induction false} VarintFits(n: nat)
    requires n < TWO64
    ensures |Varint(n)| <= 10
  {
    PowNine();
    assert Pow128(10) == 128 * Pow128(9);
    VarintLength(n, 10);
  }

  /** For every 64-bit length, and whatever follows, reading gives back that length and its extent. */
  lemma {:induction false} ReadOfVarint(n: nat, rest: seq<Byte>)
    requires n < TWO64
    ensures Read(Varint(n) + rest) == Some(Prefix(n, |Varint(n)|))
  {
    VarintMeans(n);
    VarintFits(n);
    var v := Varint(n);
    assert (v + rest)[..|v| - 1] == v[..|v| - 1] && (v + rest)[..|v|] == v;
    StopAt(v + rest, |v|);
  }

  /** No bytes that read as `n` are fewer than the encoder writes for it. */
  lemma {:induction false} VarintIsMinimal(data: seq<Byte>)
    requires Read(data).Some?
    ensures |Varint(Read(data).value.length)| <= Read(data).value.header
  {
    var p := Read(data).value;
    if p.header == 10 {
      VarintFits(p.length);
    } else {
      ValueBound(data[..p.header]);
      PowNine();
      PowMono(p.header, 9);
      VarintLength(p.length, p.header);
    }
  }

  /** No length's encoding begins another's. */
  lemma {:induction false} VarintIsPrefixFree(m: nat, n: nat)
    requires |Varint(m)| <= |Varint(n)| && Varint(n)[..|Varint(m)|] == Varint(m)
    ensures m == n
  {
    VarintMeans(m);
    VarintMeans(n);
    var k := |Varint(m)|;
    assert Varint(n)[..k][..k - 1] == Varint(n)[..k - 1];
    StopAt(Varint(n), k);
    StopAt(Varint(n), |Varint(n)|);
  }

  lemma {:induction false} VarintOfValue(bytes: seq<Byte>)
    requires Ends(bytes, |bytes|) && (|bytes| > 1 ==> bytes[|bytes| - 1] > 0)
    ensures Varint(Value(bytes)) == bytes && (bytes[|bytes| - 1] > 0 ==> Value(bytes) > 0)
    decreases |bytes|
  {
    var rest := bytes[1..];
    assert bytes == [bytes[0]] + rest;
    ValueCons(bytes[0], rest);
    if rest != [] {
      assert bytes[..|bytes| - 1][0] == bytes[0];
      assert rest[..|rest| - 1] == bytes[..|bytes| - 1][1..];
      VarintOfValue(rest);
    }
  }

  /**
   Reading accepts an overlong spelling exactly when the last of several bytes
   is zero, or a tenth byte has bits above the 64th.
   */
  lemma {:induction false} ReadsItsOwnSpelling(data: seq<Byte>)
    requires Read(data).Some?
    ensures var p := Read(data).value;
      data[..p.header] == Varint(p.length) <==> (p.header > 1 ==> data[p.header - 1] > 0) && (p.header == 10 ==> data[9] <= 1)
  {
    hide Varint, Value, Pow128, Stop;
    var p := Read(data).value;
    var bytes := data[..p.header];
    Untruncated(bytes);
    if Value(bytes) < TWO64 {
      Wraps(0, Value(bytes));
    }
    assert bytes[..p.header - 1] == data[..p.header - 1];
    if bytes == Varint(p.length) {
      VarintMeans(p.length);
    } else if p.header > 1 ==> data[p.header - 1] > 0 {
      VarintOfValue(bytes);
    }
  }

  lemma {:induction false} Untruncated(bytes: seq<Byte>)
    requires 1 <= |bytes| <= 10 && bytes[|bytes| - 1] < 128
    ensures Value(bytes) < TWO64 <==> (|bytes| == 10 ==> bytes[9] <= 1)
  {
    PowNine();
    if |bytes| < 10 {
      ValueBound(bytes);
      PowMono(|bytes|, 9);
    } else {
      ValueBound(bytes[..9]);
      assert bytes[9] >= 2 ==> bytes[9] * Pow128(9) >= 2 * Pow128(9);
    }
  }

  // --- Frames -------------------------------------------------------------

  datatype Parsed = Payload(bytes: seq<Byte>) | Rejected | Panics

  function Parse(data: seq<Byte>): Parsed {
    match Read(data)
    case None => Rejected
    case Some(p) =>
      if p.header + p.length >= TWO64 then Panics
      else if p.header + p.length > |data| then Rejected
      else Payload(data[p.header..p.header + p.length])
  }

  /**
   `parse_signalr_message` up to its payload. A sum past 64 bits panics where
   overflow is checked; elsewhere it wraps to an end before the start, passes
   the length test and panics in the slice.
   */
  method ParseFrame(data: seq<Byte>, overflowChecked: bool) returns (r: Parsed)
    requires |data| < TWO64
    ensures r == Parse(data)
  {
    var prefix := ReadVarint(data);
    if prefix.None? {
      return Rejected;
    }
    var start := prefix.value.header;
    var end := start + prefix.value.length;
    if end >= TWO64 {
      if overflowChecked {
        return Panics;
      }
      end := end % TWO64;
    }
    if end > |data| {
      return Rejected;
    }
    if start > end {
      return Panics;
    }
    return Payload(data[start..end]);
  }

  /** A frame gives back its payload, whatever follows it. */
  lemma {:induction false} FrameRoundTrip(payload: seq<Byte>, rest: seq<Byte>)
    requires |Frame(payload)| < TWO64
    ensures Parse(Frame(payload) + rest) == Payload(payload)
  {
    var v := Varint(|payload|);
    assert Frame(payload) + rest == v + (payload + rest);
    ReadOfVarint(|payload|, payload + rest);
    assert (v + (payload + rest))[|v|..|v| + |payload|] == payload;
  }

  /** Anything short of a whole frame is refused. */
  lemma {:induction false} PartialFrameRejected(payload: seq<Byte>, k: nat)
    requires k < |Frame(payload)| < TWO64
    ensures Parse(Frame(payload)[..k]) == Rejected
  {
    var v, part := Varint(|payload|), Frame(payload)[..k];
    if k < |v| {
      VarintMeans(|payload|);
      assert part == v[..|v| - 1][..k];
      assert part[..k] == part;
      NoStop(part, k);
    } else {
      assert part == v + payload[..k - |v|];
      ReadOfVarint(|payload|, payload[..k - |v|]);
    }
  }

  /** A stream of bytes begins with at most one frame. */
  lemma {:induction false} FramesAreUnique(p: seq<Byte>, q: seq<Byte>, afterP: seq<Byte>, afterQ: seq<Byte>)
    requires |Frame(p)| < TWO64 && |Frame(q)| < TWO64 && Frame(p) + afterP == Frame(q) + afterQ
    ensures p == q && afterP == afterQ
  {
    FrameRoundTrip(p, afterP);
    FrameRoundTrip(q, afterQ);
    assert afterP == (Frame(p) + afterP)[|Frame(p)|..];
  }

  /** The ten-byte prefixes whose 64-bit value is within ten of 2^64. */
  predicate NearWrap(data: seq<Byte>) {
    && |data| >= 10
    && data[0] >= 246
    && (forall i :: 1 <= i < 9 ==> data[i] == 255)
    && data[9] < 128 && data[9] % 2 == 1
  }

  /** The parser fails on a message exactly when it begins with one of those. */
  lemma {:induction false} PanicsExactly(data: seq<Byte>)
    ensures Parse(data) == Panics <==> NearWrap(data)
  {
    hide Value, Stop, Pow128;
    NearWrapEnds(data);
    if Read(data).Some? {
      var p := Read(data).value;
      if p.header < 10 {
        ShortValue(data[..p.header]);
      } else {
        TenDigits(data);
      }
    }
  }

  lemma {:induction false} ShortValue(bytes: seq<Byte>)
    requires |bytes| < 10
    ensures Value(bytes) % TWO64 < TWO64 / 2
  {
    ValueBound(bytes);
    PowNine();
    PowMono(|bytes|, 9);
    Wraps(0, Value(bytes));
  }

  lemma {:induction false} NearWrapEnds(data: seq<Byte>)
    ensures NearWrap(data) <==>
      Stop(data) == 9 && |data| >= 10 && Full(data, 9) && data[9] % 2 == 1
  {
    hide Stop;
    if NearWrap(data) {
      assert forall i :: 0 <= i < 9 ==> data[..9][i] == data[i] >= 128;
      StopAt(data, 10);
    } else if Stop(data) == 9 && |data| >= 10 {
      assert forall i :: 0 <= i < 9 ==> data[i] == data[..9][i] >= 128;
    }
  }

  /** The value of ten bytes, digit by digit. */
  lemma {:induction false} TenDigits(data: seq<Byte>)
    requires |data| >= 10
    ensures Value(data[..10]) % TWO64 >= TWO64 - 10 <==> Full(data, 9) && data[9] % 2 == 1
  {
    Saturated(data, 9);
    assert data[..10][..9] == data[..9];
    ValueBound(data[..9]);
    PowNine();
    LastBit(Value(data[..9]), data[9] % 128, Pow128(9));
  }

  lemma {:induction false} LastBit(v: nat, d: nat, p: nat)
    requires v < p && TWO64 == 2 * p
    ensures (v + d * p) % TWO64 == v + d % 2 * p
  {
    var q, r := d / 2, d % 2;
    assert d * p == q * TWO64 + r * p;
    assert v + r * p < TWO64;
    Wraps(q, v + r * p);
  }

  lemma {:induction false} Wraps(q: nat, x: nat)
    requires x < TWO64
    ensures (q * TWO64 + x) % TWO64 == x
  {
  }

  /** The first `k` digits are as large as they can be, the lowest within nine of it. */
  predicate Full(data: seq<Byte>, k: nat)
    requires 1 <= k <= |data|
  {
    data[0] % 128 >= 118 && (forall i :: 1 <= i < k ==> data[i] % 128 == 127)
  }

  lemma {:induction false} Saturated(data: seq<Byte>, k: nat)
    requires 1 <= k <= |data|
    ensures Value(data[..k]) >= Pow128(k) - 10 <==> Full(data, k)
    decreases k
  {
    assert data[..k][..k - 1] == data[..k - 1];
    if k == 1 {
      assert Value(data[..0]) == 0 && Pow128(1) == 128;
    } else {
      Saturated(data, k - 1);
      ValueBound(data[..k - 1]);
      PowMono(1, k - 1);
      TopDigit(Value(data[..k - 1]), data[k - 1] % 128, Pow128(k - 1));
      assert Full(data, k) <==> Full(data, k - 1) && data[k - 1] % 128 == 127;
    }
  }

  lemma {:induction false} TopDigit(v: nat, d: nat, p: nat)
    requires v < p && d < 128 && p >= 128
    ensures v + d * p >= 128 * p - 10 <==> v >= p - 10 && d == 127
  {
    if d < 127 {
      assert d * p <= 126 * p;
    }
  }
}
