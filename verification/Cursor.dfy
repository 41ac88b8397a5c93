/** The pagination cursor: a key and a filter fingerprint packed into bytes, carried as
    canonical base64url text. */
module Cursor {
  import opened Prelude
  import opened Base64Url

  datatype SourceKind = NetworkMeasurement | ServiceCheck

  /** A grain of the daily reliability view. `date` is a proleptic ordinal. */
  datatype Key = Key(date: int, agent: Text, endpoint: Text, source: SourceKind, probe: Text)

  datatype Filters = Filters(fromDate: Option<int>, throughDate: Option<int>, agent: Option<Text>,
                             endpoint: Option<Text>, source: Option<SourceKind>, probe: Option<Text>)

  /** What SHA-256 returns; the hash itself is a parameter. */
  type Digest = d: Bytes | |d| == 32 && IsBytes(d) witness seq(32, i => 0)
  type Fingerprint = Filters -> Digest

  /** The version-1 JSON payload, as the partial function its decoder is. */
  type LegacyDecoder = Bytes -> Option<(Key, Digest)>

  datatype CursorError = Invalid | FilterMismatch

  const MAX_TOKEN := 2048
  const LAST_ORDINAL := 3652059
  const MAGIC: Bytes := [78, 80, 67]  // "NPC"
  const HEADER: Bytes := MAGIC + [2]

  // ------------------------------------------------------------------ valid keys

  /** A Unicode scalar value: a code point that is no surrogate. */
  predicate ScalarValue(c: int) { 0 <= c <= 0x10FFFF && !(0xD800 <= c <= 0xDFFF) }

  /** Unicode White_Space, the complement of the pattern class `\S`. */
  predicate WhiteSpace(c: int) {
    || 9 <= c <= 13 || c == 32 || c == 0x85 || c == 0xA0 || c == 0x1680 || 0x2000 <= c <= 0x200A
    || c == 0x2028 || c == 0x2029 || c == 0x202F || c == 0x205F || c == 0x3000
  }

  /** What the encoder demands of an identifier. */
  predicate Encodable(v: Text) {
    1 <= |v| <= 128 && forall i :: 0 <= i < |v| ==> ScalarValue(v[i])
  }

  /** What a stored identifier is: encodable text with a non-blank character. */
  predicate StoredIdentifier(v: Text) {
    Encodable(v) && exists i :: 0 <= i < |v| && !WhiteSpace(v[i])
  }

  predicate ValidDate(d: int) { 1 <= d <= LAST_ORDINAL }

  /** The ordinals of the days of the years 1 to 9999, by the Gregorian leap years. */
  lemma DatesAre(d: int)
    ensures ValidDate(d) <==> 0 < d <= 365 * 9999 + 9999 / 4 - 9999 / 100 + 9999 / 400
  {
  }

  predicate ValidKey(k: Key) {
    ValidDate(k.date) && StoredIdentifier(k.agent) && StoredIdentifier(k.endpoint) && StoredIdentifier(k.probe)
  }

  // ------------------------------------------------------------------ encoding

  function Be3(n: int): (b: Bytes)
    requires 0 <= n < 0x1000000
    ensures |b| == 3 && IsBytes(b) && FromBe3(b[0], b[1], b[2]) == n
  {
    [n / 256 / 256, n / 256 % 256, n % 256]
  }

  function FromBe3(a: int, b: int, c: int): int { (a * 256 + b) * 256 + c }

  function EncodeScalars(v: Text): (b: Bytes)
    requires forall i :: 0 <= i < |v| ==> ScalarValue(v[i])
    ensures |b| == 3 * |v| && IsBytes(b)
  {
    if v == [] then []
    else
      assert ScalarValue(v[0]);
      Be3(v[0]) + EncodeScalars(v[1..])
  }

  function EncodeIdentifier(v: Text): (r: Option<Bytes>)
    ensures r.Some? <==> Encodable(v)
    ensures r.Some? ==> |r.value| == 1 + 3 * |v| && IsBytes(r.value)
  {
    if !(1 <= |v| <= 128) then None
    else if exists i :: 0 <= i < |v| && !ScalarValue(v[i]) then None
    else Some([|v|] + EncodeScalars(v))
  }

  function SourceByte(s: SourceKind): int { if s.NetworkMeasurement? then 0 else 1 }

  /** Magic and version, date ordinal and source: the eight bytes before the identifiers. */
  function Head(k: Key): (h: Bytes)
    requires ValidDate(k.date)
    ensures |h| == 8 && IsBytes(h)
  {
    HEADER + Be3(k.date) + [SourceByte(k.source)]
  }

  function Payload(k: Key, digest: Digest): (p: Bytes)
    requires ValidDate(k.date) && Encodable(k.agent) && Encodable(k.endpoint) && Encodable(k.probe)
    ensures |p| <= 1195 && IsBytes(p) && IsMagic(p)
  {
    Head(k)
    + EncodeIdentifier(k.agent).value + EncodeIdentifier(k.endpoint).value + EncodeIdentifier(k.probe).value
    + digest
  }

  /** At the offset stand the text's length and its scalars, three bytes each, big end first. */
  predicate TextAt(p: Bytes, offset: nat, v: Text) {
    && offset + 1 + 3 * |v| <= |p| && p[offset] == |v|
    && forall i :: 0 <= i < |v| ==>
         p[offset + 1 + 3 * i] * 65536 + p[offset + 2 + 3 * i] * 256 + p[offset + 3 + 3 * i] == v[i]
  }

  /** The payload, byte by byte. */
  lemma PayloadLayout(k: Key, digest: Digest)
    requires ValidDate(k.date) && Encodable(k.agent) && Encodable(k.endpoint) && Encodable(k.probe)
    ensures var p := Payload(k, digest);
      && |p| == 43 + 3 * (|k.agent| + |k.endpoint| + |k.probe|)
      && p[0] == 78 && p[1] == 80 && p[2] == 67 && p[3] == 2
      && p[4] * 65536 + p[5] * 256 + p[6] == k.date
      && p[7] == (if k.source.NetworkMeasurement? then 0 else 1)
      && TextAt(p, 8, k.agent) && TextAt(p, 9 + 3 * |k.agent|, k.endpoint)
      && TextAt(p, 10 + 3 * (|k.agent| + |k.endpoint|), k.probe)
      && p[|p| - 32..] == digest
  {
    hide EncodeScalars, Be3, ScalarValue, TextAt;
    var agent, endpoint, probe :=
      EncodeIdentifier(k.agent).value, EncodeIdentifier(k.endpoint).value, EncodeIdentifier(k.probe).value;
    var head := Head(k);
    assert head[4..7] == Be3(k.date) && head[7] == SourceByte(k.source);
    TextPlaced(head, k.agent, endpoint + probe + digest);
    TextPlaced(head + agent, k.endpoint, probe + digest);
    TextPlaced(head + agent + endpoint, k.probe, digest);
    var p := Payload(k, digest);
    assert p == head + agent + (endpoint + probe + digest);
    assert p == head + agent + endpoint + (probe + digest);
    assert p[4] == head[4..7][0] && p[5] == head[4..7][1] && p[6] == head[4..7][2];
  }

  lemma TextPlaced(before: Bytes, v: Text, behind: Bytes)
    requires Encodable(v)
    ensures TextAt(before + EncodeIdentifier(v).value + behind, |before|, v)
  {
    hide ScalarValue, EncodeScalars;
    var p, e := before + EncodeIdentifier(v).value + behind, EncodeScalars(v);
    forall i | 0 <= i < |v|
      ensures p[|before| + 1 + 3 * i] * 65536 + p[|before| + 2 + 3 * i] * 256 + p[|before| + 3 + 3 * i] == v[i]
    {
      ScalarPlaced(v, i);
      assert p[|before| + 1 + 3 * i] == e[3 * i];
      assert p[|before| + 2 + 3 * i] == e[3 * i + 1];
      assert p[|before| + 3 + 3 * i] == e[3 * i + 2];
    }
  }

  lemma {:induction false} ScalarPlaced(v: Text, i: nat)
    requires i < |v| && forall j :: 0 <= j < |v| ==> ScalarValue(v[j])
    ensures var e := EncodeScalars(v); e[3 * i] * 65536 + e[3 * i + 1] * 256 + e[3 * i + 2] == v[i]
  {
    assert ScalarValue(v[0]);
    if i > 0 {
      ScalarPlaced(v[1..], i - 1);
    } else {
      BigEndian(v[0]);
    }
  }

  lemma BigEndian(n: int)
    requires 0 <= n < 0x1000000
    ensures Be3(n)[0] * 65536 + Be3(n)[1] * 256 + Be3(n)[2] == n
  {
  }

  /** None stands for the encoder's ValueError. */
  function EncodeCursor(k: Key, f: Filters, sha: Fingerprint): (t: Option<Text>)
    requires ValidDate(k.date)
    ensures t.Some? <==> Encodable(k.agent) && Encodable(k.endpoint) && Encodable(k.probe)
    ensures t.Some? ==> |t.value| <= 1594 < MAX_TOKEN
  {
    if EncodeIdentifier(k.agent).None? || EncodeIdentifier(k.endpoint).None? || EncodeIdentifier(k.probe).None? then
      None
    else
      Some(Encode(Payload(k, sha(f))))
  }

  // ------------------------------------------------------------------ decoding

  /** `n` three-byte groups back to scalars; None when a group is no Unicode scalar value. */
  function DecodeScalars(b: Bytes, n: nat): (v: Option<Text>)
    requires |b| == 3 * n && IsBytes(b)
    ensures v.Some? ==> |v.value| == n
  {
    if n == 0 then Some([])
    else
      var c := FromBe3(b[0], b[1], b[2]);
      if !ScalarValue(c) then None
      else
        match DecodeScalars(b[3..], n - 1)
        case None => None
        case Some(rest) => Some([c] + rest)
  }

  lemma {:induction false} ScalarsExact(b: Bytes, n: nat)
    requires |b| == 3 * n && IsBytes(b) && DecodeScalars(b, n).Some?
    ensures forall i :: 0 <= i < n ==> ScalarValue(DecodeScalars(b, n).value[i])
    ensures EncodeScalars(DecodeScalars(b, n).value) == b
  {
    if n > 0 {
      ScalarsExact(b[3..], n - 1);
      Be3Back(b[0], b[1], b[2]);
      assert b == [b[0], b[1], b[2]] + b[3..];
    }
  }

  lemma Be3Back(a: int, b: int, c: int)
    requires 0 <= a < 256 && 0 <= b < 256 && 0 <= c < 256
    ensures 0 <= FromBe3(a, b, c) < 0x1000000 && Be3(FromBe3(a, b, c)) == [a, b, c]
  {
    var n := FromBe3(a, b, c);
    assert n / 256 == a * 256 + b && n % 256 == c;
  }

  /** One length-prefixed identifier at `offset`, leaving room for the digest: its text
      and the offset behind it. */
  function ReadIdentifier(raw: Bytes, offset: nat): (r: Option<(Text, nat)>)
    requires IsBytes(raw)
    ensures r.Some? ==> offset < r.value.1 <= |raw| - 32 && r.value.1 == offset + 1 + 3 * |r.value.0|
  {
    if offset >= |raw| - 32 then None
    else
      var length: int := raw[offset];
      var end := offset + 1 + 3 * length;
      if !(1 <= length <= 128) || end > |raw| - 32 then None
      else
        match DecodeScalars(raw[offset + 1..end], length)
        case None => None
        case Some(v) => Some((v, end))
  }

  lemma ReadExact(raw: Bytes, offset: nat)
    requires IsBytes(raw) && ReadIdentifier(raw, offset).Some?
    ensures var (v, end) := ReadIdentifier(raw, offset).value;
      Encodable(v) && EncodeIdentifier(v) == Some(raw[offset..end])
  {
    var (v, end) := ReadIdentifier(raw, offset).value;
    ScalarsExact(raw[offset + 1..end], |v|);
    assert raw[offset..end] == [raw[offset]] + raw[offset + 1..end];
  }

  /** An encoded identifier is read back from wherever it stands. */
  lemma ReadBack(raw: Bytes, offset: nat, v: Text)
    requires IsBytes(raw) && Encodable(v) && offset + 1 + 3 * |v| <= |raw| - 32
    requires raw[offset..offset + 1 + 3 * |v|] == EncodeIdentifier(v).value
    ensures ReadIdentifier(raw, offset) == Some((v, offset + 1 + 3 * |v|))
  {
    var e, end := EncodeIdentifier(v).value, offset + 1 + 3 * |v|;
    assert raw[offset] == e[0] == |v|;
    assert raw[offset + 1..end] == e[1..] == EncodeScalars(v);
    ScalarsBack(v);
  }

  lemma {:induction false} ScalarsBack(v: Text)
    requires forall i :: 0 <= i < |v| ==> ScalarValue(v[i])
    ensures DecodeScalars(EncodeScalars(v), |v|) == Some(v)
  {
    if v == [] {
    } else {
      assert v == [v[0]] + v[1..];
      assert ScalarValue(v[0]);
      ScalarsBack(v[1..]);
      ScalarBack(v[0], EncodeScalars(v[1..]), |v| - 1);
    }
  }

  lemma ScalarBack(c: int, rest: Bytes, n: nat)
    requires ScalarValue(c) && |rest| == 3 * n && IsBytes(rest)
    ensures DecodeScalars(Be3(c) + rest, n + 1) ==
      match DecodeScalars(rest, n)
      case None => None
      case Some(v) => Some([c] + v)
  {
    var b := Be3(c) + rest;
    assert b[3..] == rest;
    assert FromBe3(b[0], b[1], b[2]) == c;
  }

  /** `n` identifiers one after the other, and the offset behind the last. */
  function ReadMany(raw: Bytes, offset: nat, n: nat): (r: Option<(seq<Text>, nat)>)
    requires IsBytes(raw)
    ensures r.Some? ==> |r.value.0| == n
    decreases n
  {
    if n == 0 then Some(([], offset))
    else
      match ReadIdentifier(raw, offset)
      case None => None
      case Some((v, next)) => Prepend([v], ReadMany(raw, next, n - 1))
  }

  function Prepend(vs: seq<Text>, r: Option<(seq<Text>, nat)>): Option<(seq<Text>, nat)> {
    match r
    case None => None
    case Some((ws, end)) => Some((vs + ws, end))
  }

  /** The version-2 payload format, read in one go. */
  function ParseV2(raw: Bytes): (r: Option<(Key, Digest)>)
    requires IsBytes(raw)
  {
    if |raw| < 52 || raw[..4] != HEADER then None
    else
      var date := FromBe3(raw[4], raw[5], raw[6]);
      if !ValidDate(date) || raw[7] >= 2 then None
      else
        match ReadMany(raw, 8, 3)
        case None => None
        case Some((ids, end)) =>
          var key := Key(date, ids[0], ids[1], if raw[7] == 0 then NetworkMeasurement else ServiceCheck, ids[2]);
          if |raw| - end != 32 || !ValidKey(key) then None else Some((key, raw[end..]))
  }

  /** The parser as the program runs it, with the loop over the three identifiers. */
  method DecodeV2(raw: Bytes) returns (r: Option<(Key, Digest)>)
    requires IsBytes(raw)
    ensures r == ParseV2(raw)
  {
    hide ReadIdentifier, StoredIdentifier, FromBe3;
    if |raw| < 52 || raw[..4] != HEADER {
      return None;
    }
    var date := FromBe3(raw[4], raw[5], raw[6]);
    if !ValidDate(date) {
      return None;
    }
    var source := raw[7];
    if source >= 2 {
      return None;
    }
    var identifiers: seq<Text> := [];
    var offset: nat := 8;
    PrependNone(ReadMany(raw, 8, 3));
    for i := 0 to 3
      invariant |identifiers| == i
      invariant 8 <= offset <= |raw| - 32
      invariant ReadMany(raw, 8, 3) == Prepend(identifiers, ReadMany(raw, offset, 3 - i))
    {
      var read := ReadIdentifier(raw, offset);
      if read.None? {
        return None;
      }
      PrependTwice(identifiers, read.value.0, ReadMany(raw, read.value.1, 2 - i));
      identifiers := identifiers + [read.value.0];
      offset := read.value.1;
    }
    assert identifiers + [] == identifiers;
    if |raw| - offset != 32 {
      return None;
    }
    var key := Key(date, identifiers[0], identifiers[1],
                   if source == 0 then NetworkMeasurement else ServiceCheck, identifiers[2]);
    if !ValidKey(key) {
      return None;
    }
    return Some((key, raw[offset..]));
  }

  lemma PrependNone(r: Option<(seq<Text>, nat)>)
    ensures Prepend([], r) == r
  {
    if r.Some? {
      assert [] + r.value.0 == r.value.0;
    }
  }

  lemma PrependTwice(vs: seq<Text>, v: Text, r: Option<(seq<Text>, nat)>)
    ensures Prepend(vs, Prepend([v], r)) == Prepend(vs + [v], r)
  {
    if r.Some? {
      assert vs + ([v] + r.value.0) == vs + [v] + r.value.0;
    }
  }

  // ------------------------------------------------------------------ the format is a bijection

  /** What the parser accepts is what the encoder writes. */
  lemma ParsedIsPayload(raw: Bytes)
    requires IsBytes(raw) && ParseV2(raw).Some?
    ensures var (k, d) := ParseV2(raw).value; ValidKey(k) && raw == Payload(k, d)
  {
    hide EncodeIdentifier, ReadIdentifier, StoredIdentifier, FromBe3, Be3;
    var (k, d) := ParseV2(raw).value;
    var (agent, a) := ReadIdentifier(raw, 8).value;
    var (endpoint, b) := ReadIdentifier(raw, a).value;
    var (probe, c) := ReadIdentifier(raw, b).value;
    ReadExact(raw, 8);
    ReadExact(raw, a);
    ReadExact(raw, b);
    ReadThree(raw, agent, a, endpoint, b, probe, c);
    Be3Back(raw[4], raw[5], raw[6]);
    PiecesRejoin(raw, a, b, c);
    assert [raw[4], raw[5], raw[6]] == raw[4..7];
  }

  lemma PiecesRejoin(raw: Bytes, a: nat, b: nat, c: nat)
    requires 8 <= a <= b <= c <= |raw|
    ensures raw == raw[..4] + raw[4..7] + [raw[7]] + raw[8..a] + raw[a..b] + raw[b..c] + raw[c..]
  {
  }

  lemma ReadThree(raw: Bytes, agent: Text, a: nat, endpoint: Text, b: nat, probe: Text, c: nat)
    requires IsBytes(raw) && ReadIdentifier(raw, 8) == Some((agent, a))
    requires ReadIdentifier(raw, a) == Some((endpoint, b))
    requires ReadIdentifier(raw, b) == Some((probe, c))
    ensures ReadMany(raw, 8, 3) == Some(([agent, endpoint, probe], c))
  {
    assert [probe] + [] == [probe];
    assert ReadMany(raw, c, 0) == Some(([], c));
    assert ReadMany(raw, b, 1) == Some(([probe], c));
    assert [endpoint] + [probe] == [endpoint, probe];
    assert ReadMany(raw, a, 2) == Some(([endpoint, probe], c));
    assert [agent] + [endpoint, probe] == [agent, endpoint, probe];
  }

  /** What the encoder writes, the parser reads back. */
  lemma PayloadParses(k: Key, d: Digest)
    requires ValidKey(k)
    ensures ParseV2(Payload(k, d)) == Some((k, d))
  {
    var agent, endpoint, probe :=
      EncodeIdentifier(k.agent).value, EncodeIdentifier(k.endpoint).value, EncodeIdentifier(k.probe).value;
    PayloadReads(k, agent, endpoint, probe, d);
  }

  lemma PayloadReads(k: Key, agent: Bytes, endpoint: Bytes, probe: Bytes, d: Digest)
    requires ValidKey(k)
    requires EncodeIdentifier(k.agent) == Some(agent) && EncodeIdentifier(k.endpoint) == Some(endpoint)
    requires EncodeIdentifier(k.probe) == Some(probe)
    ensures ParseV2(Payload(k, d)) == Some((k, d))
  {
    hide ParseV2, ReadMany, ReadIdentifier, FromBe3, Be3, StoredIdentifier, EncodeIdentifier, EncodeScalars;
    var raw := Payload(k, d);
    var a := 8 + |agent|;
    var b := a + |endpoint|;
    var c := b + |probe|;
    Slices(Head(k), agent, endpoint, probe, d);
    ReadBack(raw, 8, k.agent);
    ReadBack(raw, a, k.endpoint);
    ReadBack(raw, b, k.probe);
    ReadThree(raw, k.agent, a, k.endpoint, b, k.probe, c);
    HeadBack(k, raw);
    ParseFrom(raw, k, d, c);
  }

  lemma Slices(head: Bytes, agent: Bytes, endpoint: Bytes, probe: Bytes, d: Bytes)
    requires |head| == 8
    ensures var raw := head + agent + endpoint + probe + d;
      var a := 8 + |agent|;
      var b := a + |endpoint|;
      var c := b + |probe|;
      && |raw| == c + |d|
      && raw[..8] == head && raw[8..a] == agent && raw[a..b] == endpoint && raw[b..c] == probe && raw[c..] == d
  {
  }

  lemma ParseFrom(raw: Bytes, k: Key, d: Digest, c: nat)
    requires IsBytes(raw) && ValidKey(k) && |raw| >= 52 && c == |raw| - 32 && raw[c..] == d
    requires raw[..4] == HEADER && FromBe3(raw[4], raw[5], raw[6]) == k.date && raw[7] == SourceByte(k.source)
    requires ReadMany(raw, 8, 3) == Some(([k.agent, k.endpoint, k.probe], c))
    ensures ParseV2(raw) == Some((k, d))
  {
    var ids := [k.agent, k.endpoint, k.probe];
    assert k == Key(k.date, ids[0], ids[1], if raw[7] == 0 then NetworkMeasurement else ServiceCheck, ids[2]);
  }

  lemma HeadBack(k: Key, raw: Bytes)
    requires ValidDate(k.date) && |raw| >= 8 && raw[..8] == Head(k)
    ensures raw[..4] == HEADER && FromBe3(raw[4], raw[5], raw[6]) == k.date && raw[7] == SourceByte(k.source)
  {
    var h := Head(k);
    assert raw[..4] == raw[..8][..4] == h[..4];
    assert raw[4] == h[4] == Be3(k.date)[0] && raw[5] == h[5] == Be3(k.date)[1] && raw[6] == h[6] == Be3(k.date)[2];
    assert raw[7] == h[7];
  }

  /** Both directions: parsing inverts encoding, on exactly the encodings. */
  lemma ParseV2Iff(raw: Bytes, k: Key, d: Digest)
    requires IsBytes(raw)
    ensures ParseV2(raw) == Some((k, d)) <==> ValidKey(k) && raw == Payload(k, d)
  {
    if ParseV2(raw) == Some((k, d)) {
      ParsedIsPayload(raw);
    }
    if ValidKey(k) && raw == Payload(k, d) {
      PayloadParses(k, d);
    }
  }

  // ------------------------------------------------------------------ tokens

  predicate IsMagic(raw: Bytes) { |raw| >= 3 && raw[..3] == MAGIC }

  /** The bytes of a token the transport checks accept; None for every malformed token. */
  function Transport(token: Text): (raw: Option<Bytes>)
    ensures raw.Some? ==> IsBytes(raw.value)
  {
    if |token| > MAX_TOKEN || !AllInAlphabet(token) then None
    else
      match Decode(token)
      case None => None
      case Some(raw) => if Encode(raw) != token then None else Some(raw)
  }

  /** A token passes the transport checks if and only if it is short enough, uses the
      alphabet only, and is canonical: no missing sextet and zero pad bits. */
  lemma TransportIff(token: Text)
    ensures Transport(token).Some? <==> |token| <= 2048 && AllInAlphabet(token) && ZeroPadBits(SextetsOf(token))
  {
    hide Decode, Encode, ZeroPadBits;
    if |token| <= MAX_TOKEN && AllInAlphabet(token) { CanonicalIff(token); }
  }

  method DecodeCursor(token: Text, f: Filters, sha: Fingerprint, legacy: LegacyDecoder)
    returns (r: Result<Key, CursorError>)
    ensures r == Decoded(token, f, sha, legacy)
  {
    if |token| > MAX_TOKEN || !AllInAlphabet(token) {
      return Err(Invalid);
    }
    var raw := Decode(token);
    if raw.None? || Encode(raw.value) != token {
      return Err(Invalid);
    }
    var parsed: Option<(Key, Digest)>;
    if |raw.value| >= 3 && raw.value[..3] == MAGIC {
      parsed := DecodeV2(raw.value);
    } else {
      parsed := legacy(raw.value);
    }
    if parsed.None? {
      return Err(Invalid);
    }
    if parsed.value.1 != sha(f) {
      return Err(FilterMismatch);
    }
    return Ok(parsed.value.0);
  }

  function Decoded(token: Text, f: Filters, sha: Fingerprint, legacy: LegacyDecoder): (r: Result<Key, CursorError>)
  {
    match Transport(token)
    case None => Err(Invalid)
    case Some(raw) =>
      match (if IsMagic(raw) then ParseV2(raw) else legacy(raw))
      case None => Err(Invalid)
      case Some((k, d)) => if d != sha(f) then Err(FilterMismatch) else Ok(k)
  }

  lemma TokenTransports(k: Key, f: Filters, sha: Fingerprint)
    requires ValidKey(k)
    ensures var t, p := EncodeCursor(k, f, sha), Payload(k, sha(f));
      t.Some? && Transport(t.value) == Some(p) && IsMagic(p)
  {
    var p := Payload(k, sha(f));
    DecodeEncode(p);
    assert p[..3] == MAGIC;
  }

  /** Every valid key survives the trip through its token, for every filter. */
  lemma RoundTrip(k: Key, f: Filters, sha: Fingerprint, legacy: LegacyDecoder)
    requires ValidKey(k)
    ensures var t := EncodeCursor(k, f, sha); t.Some? && Decoded(t.value, f, sha, legacy) == Ok(k)
  {
    hide ParseV2, Payload, Transport, EncodeCursor, ValidKey, IsMagic;
    TokenTransports(k, f, sha);
    PayloadParses(k, sha(f));
  }

  /** A token whose bytes start with "NPC" is accepted, as the key k, exactly when it is
      the token of the valid key k under those filters. */
  lemma AcceptedIffEncoded(token: Text, k: Key, f: Filters, sha: Fingerprint, legacy: LegacyDecoder)
    requires Transport(token).Some? && IsMagic(Transport(token).value)
    ensures Decoded(token, f, sha, legacy) == Ok(k)
       <==> ValidKey(k) && EncodeCursor(k, f, sha) == Some(token)
  {
    hide ParseV2, Payload, Encode, Decode, AllInAlphabet, Encodable;
    var raw := Transport(token).value;
    ParseV2Iff(raw, k, sha(f));
    if ValidKey(k) && EncodeCursor(k, f, sha) == Some(token) {
      EncodeInjective(raw, Payload(k, sha(f)));
    }
  }

  /** One token stands for one key and one fingerprint, whatever the filters were. */
  lemma TokensDistinct(k: Key, f: Filters, k': Key, f': Filters, sha: Fingerprint)
    requires ValidKey(k) && ValidKey(k')
    requires EncodeCursor(k, f, sha) == EncodeCursor(k', f', sha)
    ensures k == k' && sha(f) == sha(f')
  {
    hide ParseV2, Encode, Decode, AllInAlphabet;
    EncodeInjective(Payload(k, sha(f)), Payload(k', sha(f')));
    PayloadParses(k, sha(f));
    PayloadParses(k', sha(f'));
  }

  /** A token replayed under other filters is refused, exactly when the fingerprints differ. */
  lemma ReplayUnderOtherFilters(k: Key, f: Filters, g: Filters, sha: Fingerprint, legacy: LegacyDecoder)
    requires ValidKey(k)
    ensures var t := EncodeCursor(k, f, sha).value;
      Decoded(t, g, sha, legacy) == if sha(f) == sha(g) then Ok(k) else Err(FilterMismatch)
  {
    hide ParseV2, Payload, Transport, EncodeCursor, ValidKey, IsMagic;
    TokenTransports(k, f, sha);
    PayloadParses(k, sha(f));
  }
}
