/** The unpadded URL-safe base64 layer of app/core/pagination.py cursors (section 5 of RFC 4648), with
    the lenient decoder of the standard library: it skips characters outside the alphabet. */
module Base64Url {
  import opened Tables

  type Byte = n: nat | n < 256
  type Sextet = n: nat | n < 64

  // Alphabet

  function CharOf(s: Sextet): char {
    if s < 26 then 'A' + s as char
    else if s < 52 then 'a' + (s - 26) as char
    else if s < 62 then '0' + (s - 52) as char
    else if s == 62 then '-' else '_'
  }

  /** '-' and '_' are translated to '+' and '/' first, so all four are read. */
  function SextetOf(c: char): Option<Sextet> {
    if 'A' <= c <= 'Z' then Some((c - 'A') as nat)
    else if 'a' <= c <= 'z' then Some((c - 'a') as nat + 26)
    else if '0' <= c <= '9' then Some((c - '0') as nat + 52)
    else if c == '-' || c == '+' then Some(62)
    else if c == '_' || c == '/' then Some(63)
    else None
  }

  lemma AlphabetRoundTrip(s: Sextet)
    ensures SextetOf(CharOf(s)) == Some(s) && CharOf(s) != '=' && CharOf(s) < 128 as char
  {
  }

  // Encoding

  /** Three bytes are four sextets; a short last group is filled up with zero bits. */
  function Sextets(bs: seq<Byte>): seq<Sextet> {
    if |bs| == 0 then []
    else if |bs| == 1 then [bs[0] / 4, bs[0] % 4 * 16]
    else if |bs| == 2 then [bs[0] / 4, bs[0] % 4 * 16 + bs[1] / 16, bs[1] % 16 * 4]
    else [bs[0] / 4, bs[0] % 4 * 16 + bs[1] / 16, bs[1] % 16 * 4 + bs[2] / 64, bs[2] % 64] + Sextets(bs[3..])
  }

  function Text(ss: seq<Sextet>): (s: string)
    ensures |s| == |ss|
  {
    seq(|ss|, k requires 0 <= k < |ss| => CharOf(ss[k]))
  }

  function Repeat(c: char, n: nat): string {
    seq(n, _ => c)
  }

  function Encoded(bs: seq<Byte>): string {
    Text(Sextets(bs)) + Repeat('=', (3 - |bs| % 3) % 3)
  }

  function RStrip(s: string, c: char): string {
    if s != [] && s[|s| - 1] == c then RStrip(s[..|s| - 1], c) else s
  }

  function EncodeUnpadded(bs: seq<Byte>): string {
    RStrip(Encoded(bs), '=')
  }

  // Decoding

  datatype Decoding = Decoded(bytes: seq<Byte>) | BadInput

  /** One quantum in progress: how many characters of it were read, and the bits not yet written. */
  datatype Scan = Scan(position: nat, bits: nat, pads: nat, bytes: seq<Byte>) {
    predicate Valid() {
      position < 4 && bits < (match position case 0 => 1 case 1 => 64 case 2 => 16 case _ => 4)
    }
  }

  function Take(q: Scan, v: Sextet): (r: Scan)
    requires q.Valid()
    ensures r.Valid()
  {
    match q.position
    case 0 => Scan(1, v, 0, q.bytes)
    case 1 => Scan(2, v % 16, 0, q.bytes + [q.bits * 4 + v / 16])
    case 2 => Scan(3, v % 4, 0, q.bytes + [q.bits * 16 + v / 4])
    case _ => Scan(0, 0, 0, q.bytes + [q.bits * 64 + v])
  }

  /** The scan stops at a complete pad sequence, and fails inside a quantum. */
  function ScanAll(s: string, q: Scan): Decoding
    requires q.Valid()
    decreases |s|
  {
    if s == [] then
      if q.position == 0 then Decoded(q.bytes) else BadInput
    else if s[0] == '=' then
      if q.position >= 2 && q.position + q.pads + 1 >= 4 then Decoded(q.bytes)
      else ScanAll(s[1..], q.(pads := if q.position >= 2 then q.pads + 1 else q.pads))
    else
      match SextetOf(s[0])
      case None => ScanAll(s[1..], q)
      case Some(v) => ScanAll(s[1..], Take(q, v))
  }

  /** -len % 4 with Python's sign. */
  function PaddingFor(length: nat): nat {
    (4 - length % 4) % 4
  }

  function DecodeUnpadded(cursor: string): Decoding {
    if exists k | 0 <= k < |cursor| :: cursor[k] >= 128 as char then BadInput
    else ScanAll(cursor + Repeat('=', PaddingFor(|cursor|)), Scan(0, 0, 0, []))
  }

  // Round trip

  predicate UrlSafe(c: char) {
    'A' <= c <= 'Z' || 'a' <= c <= 'z' || '0' <= c <= '9' || c == '-' || c == '_'
  }

  lemma {:induction false} SextetCount(bs: seq<Byte>)
    ensures |Sextets(bs)| == (4 * |bs| + 2) / 3
  {
    if |bs| >= 3 {
      SextetCount(bs[3..]);
    }
  }

  lemma {:induction false} StripPads(s: string, n: nat)
    requires forall k | 0 <= k < |s| :: s[k] != '='
    ensures RStrip(s + Repeat('=', n), '=') == s
  {
    var t := s + Repeat('=', n);
    if n == 0 {
      assert t == s;
    } else {
      assert t[..|t| - 1] == s + Repeat('=', n - 1);
      StripPads(s, n - 1);
    }
  }

  /** A cursor is the text of the sextets alone: URL-safe characters, no padding. */
  lemma EncodedText(bs: seq<Byte>)
    ensures EncodeUnpadded(bs) == Text(Sextets(bs))
    ensures forall c <- EncodeUnpadded(bs) :: UrlSafe(c)
    ensures |EncodeUnpadded(bs)| == (4 * |bs| + 2) / 3
  {
    forall s: Sextet
      ensures UrlSafe(CharOf(s))
    {
      AlphabetRoundTrip(s);
    }
    SextetCount(bs);
    StripPads(Text(Sextets(bs)), (3 - |bs| % 3) % 3);
  }

  function TakeAll(q: Scan, ss: seq<Sextet>): Scan
    requires q.Valid()
    decreases |ss|
  {
    if ss == [] then q else TakeAll(Take(q, ss[0]), ss[1..])
  }

  lemma {:induction false} ScanText(ss: seq<Sextet>, rest: string, q: Scan)
    requires q.Valid()
    ensures TakeAll(q, ss).Valid() && ScanAll(Text(ss) + rest, q) == ScanAll(rest, TakeAll(q, ss))
    decreases |ss|
  {
    var s := Text(ss) + rest;
    if ss == [] {
      assert s == rest;
    } else {
      AlphabetRoundTrip(ss[0]);
      assert s[1..] == Text(ss[1..]) + rest;
      ScanText(ss[1..], rest, Take(q, ss[0]));
    }
  }

  lemma Regroup(a: Byte, b: Byte, c: Byte)
    ensures a / 4 * 4 + (a % 4 * 16 + b / 16) / 16 == a
    ensures (a % 4 * 16 + b / 16) % 16 * 16 + (b % 16 * 4 + c / 64) / 4 == b
    ensures (b % 16 * 4 + c / 64) % 4 * 64 + c % 64 == c
    ensures a / 4 * 4 + a % 4 * 16 / 16 == a
    ensures (a % 4 * 16 + b / 16) % 16 * 16 + b % 16 * 4 / 4 == b
  {
  }

  lemma TakeFirst(q: Scan, v: Sextet, ss: seq<Sextet>)
    requires q.Valid()
    ensures TakeAll(q, [v] + ss) == TakeAll(Take(q, v), ss)
  {
    assert ([v] + ss)[1..] == ss;
  }

  lemma TakeTwo(t0: Sextet, t1: Sextet, a: Byte, ss: seq<Sextet>, out: seq<Byte>)
    requires t0 * 4 + t1 / 16 == a
    ensures TakeAll(Scan(0, 0, 0, out), [t0] + ([t1] + ss)) == TakeAll(Scan(2, t1 % 16, 0, out + [a]), ss)
  {
    var q0 := Scan(0, 0, 0, out);
    TakeFirst(q0, t0, [t1] + ss);
    TakeFirst(Take(q0, t0), t1, ss);
  }

  lemma TakeThird(left: nat, t2: Sextet, b: Byte, ss: seq<Sextet>, out: seq<Byte>)
    requires left < 16 && left * 16 + t2 / 4 == b
    ensures TakeAll(Scan(2, left, 0, out), [t2] + ss) == TakeAll(Scan(3, t2 % 4, 0, out + [b]), ss)
  {
    TakeFirst(Scan(2, left, 0, out), t2, ss);
  }

  lemma TakeFourth(left: nat, t3: Sextet, c: Byte, ss: seq<Sextet>, out: seq<Byte>)
    requires left < 4 && left * 64 + t3 == c
    ensures TakeAll(Scan(3, left, 0, out), [t3] + ss) == TakeAll(Scan(0, 0, 0, out + [c]), ss)
  {
    TakeFirst(Scan(3, left, 0, out), t3, ss);
  }

  /** Three bytes survive the trip through four sextets. */
  lemma QuantumRoundTrip(a: Byte, b: Byte, c: Byte, ss: seq<Sextet>, out: seq<Byte>)
    ensures TakeAll(Scan(0, 0, 0, out), [a / 4, a % 4 * 16 + b / 16, b % 16 * 4 + c / 64, c % 64] + ss)
         == TakeAll(Scan(0, 0, 0, out + [a, b, c]), ss)
  {
    Regroup(a, b, c);
    var t0, t1, t2, t3: Sextet := a / 4, a % 4 * 16 + b / 16, b % 16 * 4 + c / 64, c % 64;
    TakeTwo(t0, t1, a, [t2] + ([t3] + ss), out);
    TakeThird(t1 % 16, t2, b, [t3] + ss, out + [a]);
    TakeFourth(t2 % 4, t3, c, ss, out + [a] + [b]);
    assert [t0, t1, t2, t3] + ss == [t0] + ([t1] + ([t2] + ([t3] + ss)));
    assert out + [a] + [b] + [c] == out + [a, b, c];
  }

  /** A short last group is written out too, and leaves no bits over. */
  lemma OneByteLeft(a: Byte, out: seq<Byte>)
    ensures TakeAll(Scan(0, 0, 0, out), Sextets([a])) == Scan(2, 0, 0, out + [a])
  {
    Regroup(a, 0, 0);
    TakeTwo(a / 4, a % 4 * 16, a, [], out);
    assert Sextets([a]) == [a / 4] + ([a % 4 * 16] + []);
  }

  lemma TwoBytesLeft(a: Byte, b: Byte, out: seq<Byte>)
    ensures TakeAll(Scan(0, 0, 0, out), Sextets([a, b])) == Scan(3, 0, 0, out + [a, b])
  {
    Regroup(a, b, 0);
    var t1, t2: Sextet := a % 4 * 16 + b / 16, b % 16 * 4;
    TakeTwo(a / 4, t1, a, [t2] + [], out);
    TakeThird(t1 % 16, t2, b, [], out + [a]);
    assert Sextets([a, b]) == [a / 4] + ([t1] + ([t2] + []));
    assert out + [a] + [b] == out + [a, b];
  }

  /** After the sextets of bs the scan has written bs and stands at its length modulo 3. */
  lemma {:induction false} SextetsRoundTrip(bs: seq<Byte>, out: seq<Byte>)
    ensures TakeAll(Scan(0, 0, 0, out), Sextets(bs)) == Scan(if |bs| % 3 == 0 then 0 else |bs| % 3 + 1, 0, 0, out + bs)
    decreases |bs|
  {
    if |bs| >= 3 {
      QuantumRoundTrip(bs[0], bs[1], bs[2], Sextets(bs[3..]), out);
      SextetsRoundTrip(bs[3..], out + [bs[0], bs[1], bs[2]]);
      assert out + [bs[0], bs[1], bs[2]] + bs[3..] == out + bs;
    } else if |bs| == 2 {
      TwoBytesLeft(bs[0], bs[1], out);
      assert bs == [bs[0], bs[1]];
    } else if |bs| == 1 {
      OneByteLeft(bs[0], out);
      assert bs == [bs[0]];
    } else {
      assert out + bs == out;
    }
  }

  lemma PadsMatch(n: nat)
    ensures PaddingFor((4 * n + 2) / 3) == (3 - n % 3) % 3
  {
    var m := n / 3;
    assert n == 3 * m + n % 3;
    assert (4 * n + 2) / 3 == 4 * m + (4 * (n % 3) + 2) / 3;
  }

  /** The padding that decode puts back ends the scan where the sextets left it. */
  lemma PadsEndTheScan(q: Scan, n: nat)
    requires q.Valid() && q.pads == 0
    requires (q.position == 0 && n == 0) || (q.position == 2 && n == 2) || (q.position == 3 && n == 1)
    ensures ScanAll(Repeat('=', n), q) == Decoded(q.bytes)
  {
    if n == 2 {
      assert Repeat('=', 2)[1..] == Repeat('=', 1);
    }
  }

  /** Where the sextets leave the scan, whatever follows them. */
  lemma AfterSextets(bs: seq<Byte>, rest: string) returns (q: Scan)
    ensures q == Scan(if |bs| % 3 == 0 then 0 else |bs| % 3 + 1, 0, 0, bs) && q.Valid()
    ensures ScanAll(Text(Sextets(bs)) + rest, Scan(0, 0, 0, [])) == ScanAll(rest, q)
  {
    q := TakeAll(Scan(0, 0, 0, []), Sextets(bs));
    SextetsRoundTrip(bs, []);
    assert [] + bs == bs;
    ScanText(Sextets(bs), rest, Scan(0, 0, 0, []));
  }

  /** Text that leaves the scan in q, followed by the padding that q needs, decodes to what q wrote. */
  lemma PaddedTextDecodes(text: string, q: Scan, n: nat)
    requires q.Valid() && q.pads == 0
    requires (q.position == 0 && n == 0) || (q.position == 2 && n == 2) || (q.position == 3 && n == 1)
    requires ScanAll(text + Repeat('=', n), Scan(0, 0, 0, [])) == ScanAll(Repeat('=', n), q)
    ensures ScanAll(text + Repeat('=', n), Scan(0, 0, 0, [])) == Decoded(q.bytes)
  {
    PadsEndTheScan(q, n);
  }

  lemma ScansBack(bs: seq<Byte>, m: nat, n: nat)
    requires m == |bs| % 3 && ((m == 0 && n == 0) || (m == 1 && n == 2) || (m == 2 && n == 1))
    ensures ScanAll(Text(Sextets(bs)) + Repeat('=', n), Scan(0, 0, 0, [])) == Decoded(bs)
  {
    var q := AfterSextets(bs, Repeat('=', n));
    PaddedTextDecodes(Text(Sextets(bs)), q, n);
  }

  lemma PadCount(length: nat) returns (m: nat, n: nat)
    ensures m == length % 3 && n == (3 - length % 3) % 3
    ensures (m == 0 && n == 0) || (m == 1 && n == 2) || (m == 2 && n == 1)
  {
    m, n := length % 3, (3 - length % 3) % 3;
  }

  /** Every payload comes back from its cursor. */
  lemma DecodesWhatItEncodes(bs: seq<Byte>)
    ensures DecodeUnpadded(EncodeUnpadded(bs)) == Decoded(bs)
  {
    EncodedText(bs);
    PadsMatch(|bs|);
    UrlSafeIsAscii(EncodeUnpadded(bs));
    var m, n := PadCount(|bs|);
    ScansBack(bs, m, n);
  }

  lemma UrlSafeIsAscii(s: string)
    requires forall c <- s :: UrlSafe(c)
    ensures !exists k | 0 <= k < |s| :: s[k] >= 128 as char
  {
    forall k | 0 <= k < |s|
      ensures s[k] < 128 as char
    {
      assert s[k] in s;
    }
  }
}
