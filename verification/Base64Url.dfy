/** base64url without padding: alphabet of section 5, omitted padding of section 3.2 and
    canonical pad bits of section 3.5 of RFC 4648. */
module Base64Url {
  import opened Prelude

  /** Text as its code points. */
  type Text = seq<int>
  type Bytes = seq<int>

  predicate IsBytes(b: Bytes) { forall i :: 0 <= i < |b| ==> 0 <= b[i] < 256 }

  /** The character for a six-bit value. */
  function Symbol(n: int): (c: int)
    requires 0 <= n < 64
    ensures InAlphabet(c) && Sextet(c) == n
  {
    if n < 26 then 65 + n            // A-Z
    else if n < 52 then 97 + n - 26  // a-z
    else if n < 62 then 48 + n - 52  // 0-9
    else if n == 62 then 45          // -
    else 95                          // _
  }

  predicate InAlphabet(c: int) {
    65 <= c <= 90 || 97 <= c <= 122 || 48 <= c <= 57 || c == 45 || c == 95
  }

  function Sextet(c: int): (n: int)
    requires InAlphabet(c)
    ensures 0 <= n < 64
  {
    if 65 <= c <= 90 then c - 65
    else if 97 <= c <= 122 then c - 97 + 26
    else if 48 <= c <= 57 then c - 48 + 52
    else if c == 45 then 62
    else 63
  }

  predicate AllInAlphabet(t: Text) { forall i :: 0 <= i < |t| ==> InAlphabet(t[i]) }

  // Three bytes spread over four sextets, and the way back.

  function First(a: int): (n: int)
    requires 0 <= a < 256
    ensures 0 <= n < 64
  {
    a / 4
  }

  function Second(a: int, b: int): (n: int)
    requires 0 <= a < 256 && 0 <= b < 256
    ensures 0 <= n < 64
  {
    a % 4 * 16 + b / 16
  }

  function Third(b: int, c: int): (n: int)
    requires 0 <= b < 256 && 0 <= c < 256
    ensures 0 <= n < 64
  {
    b % 16 * 4 + c / 64
  }

  function Fourth(c: int): (n: int)
    requires 0 <= c < 256
    ensures 0 <= n < 64
  {
    c % 64
  }

  function High(p: int, q: int): (n: int)
    requires 0 <= p < 64 && 0 <= q < 64
    ensures 0 <= n < 256
  {
    p * 4 + q / 16
  }

  function Middle(q: int, r: int): (n: int)
    requires 0 <= q < 64 && 0 <= r < 64
    ensures 0 <= n < 256
  {
    q % 16 * 16 + r / 4
  }

  function Low(r: int, s: int): (n: int)
    requires 0 <= r < 64 && 0 <= s < 64
    ensures 0 <= n < 256
  {
    r % 4 * 64 + s
  }

  lemma Regroup(a: int, b: int, c: int)
    requires 0 <= a < 256 && 0 <= b < 256 && 0 <= c < 256
    ensures High(First(a), Second(a, b)) == a
    ensures Middle(Second(a, b), Third(b, c)) == b
    ensures Low(Third(b, c), Fourth(c)) == c
  {
  }

  predicate AreSextets(s: seq<int>) { forall i :: 0 <= i < |s| ==> 0 <= s[i] < 64 }

  /** Missing bytes of the last group count as zero bits. */
  function Spread(b: Bytes): (s: seq<int>)
    requires IsBytes(b)
    ensures AreSextets(s)
    ensures 3 * |s| == 4 * |b| || 3 * |s| == 4 * |b| + 1 || 3 * |s| == 4 * |b| + 2
  {
    if |b| == 0 then []
    else if |b| == 1 then [First(b[0]), Second(b[0], 0)]
    else if |b| == 2 then [First(b[0]), Second(b[0], b[1]), Third(b[1], 0)]
    else [First(b[0]), Second(b[0], b[1]), Third(b[1], b[2]), Fourth(b[2])] + Spread(b[3..])
  }

  /** Left-over low bits are dropped without a check; one sextet over a multiple of four
      is an error. */
  function Gather(s: seq<int>): (b: Option<Bytes>)
    requires AreSextets(s)
    ensures b.Some? ==> IsBytes(b.value)
  {
    if |s| == 0 then Some([])
    else if |s| == 1 then None
    else if |s| == 2 then Some([High(s[0], s[1])])
    else if |s| == 3 then Some([High(s[0], s[1]), Middle(s[1], s[2])])
    else
      match Gather(s[4..])
      case None => None
      case Some(rest) => Some([High(s[0], s[1]), Middle(s[1], s[2]), Low(s[2], s[3])] + rest)
  }

  function Encode(b: Bytes): (t: Text)
    requires IsBytes(b)
    ensures AllInAlphabet(t)
    ensures 3 * |t| == 4 * |b| || 3 * |t| == 4 * |b| + 1 || 3 * |t| == 4 * |b| + 2
  {
    var s := Spread(b);
    seq(|s|, i requires 0 <= i < |s| => Symbol(s[i]))
  }

  function SextetsOf(t: Text): (s: seq<int>)
    requires AllInAlphabet(t)
    ensures |s| == |t| && AreSextets(s)
    ensures forall i :: 0 <= i < |t| ==> s[i] == Sextet(t[i])
  {
    seq(|t|, i requires 0 <= i < |t| => Sextet(t[i]))
  }

  function Decode(t: Text): (b: Option<Bytes>)
    requires AllInAlphabet(t)
    ensures b.Some? ==> IsBytes(b.value)
  {
    Gather(SextetsOf(t))
  }

  lemma {:induction false} GatherSpread(b: Bytes)
    requires IsBytes(b)
    ensures Gather(Spread(b)).Some? && Gather(Spread(b)).value == b
  {
    hide First, Second, Third, Fourth, High, Middle, Low;
    if |b| == 0 {
    } else if |b| == 1 {
      Regroup(b[0], 0, 0);
    } else if |b| == 2 {
      Regroup(b[0], b[1], 0);
    } else {
      GatherSpread(b[3..]);
      Regroup(b[0], b[1], b[2]);
      assert Spread(b)[4..] == Spread(b[3..]);
    }
  }

  lemma DecodeEncode(b: Bytes)
    requires IsBytes(b)
    ensures Decode(Encode(b)) == Some(b)
  {
    GatherSpread(b);
    var s, t := Spread(b), Encode(b);
    assert SextetsOf(t) == s;
  }

  /** No text of this length is one sextet over whole groups, and the bits that carry no
      byte are zero: section 3.5 of RFC 4648, read off the sextets. */
  predicate ZeroPadBits(s: seq<int>) {
    && |s| % 4 != 1
    && (|s| % 4 == 2 ==> s[|s| - 1] % 16 == 0)
    && (|s| % 4 == 3 ==> s[|s| - 1] % 4 == 0)
  }

  lemma RegroupSextets(p: int, q: int, r: int, s: int)
    requires 0 <= p < 64 && 0 <= q < 64 && 0 <= r < 64 && 0 <= s < 64
    ensures First(High(p, q)) == p && Second(High(p, q), Middle(q, r)) == q
    ensures Third(Middle(q, r), Low(r, s)) == r && Fourth(Low(r, s)) == s
    ensures Second(High(p, q), 0) == q <==> q % 16 == 0
    ensures Third(Middle(q, r), 0) == r <==> r % 4 == 0
  {
  }

  lemma SpreadGatherShort(s: seq<int>)
    requires AreSextets(s) && |s| < 4
    ensures Gather(s).Some? && Spread(Gather(s).value) == s <==> ZeroPadBits(s)
  {
    hide First, Second, Third, Fourth, High, Middle, Low;
    if |s| == 2 {
      RegroupSextets(s[0], s[1], 0, 0);
      assert s == [s[0], s[1]];
    }
    if |s| == 3 {
      RegroupSextets(s[0], s[1], s[2], 0);
      assert s == [s[0], s[1], s[2]];
    }
  }

  lemma SpreadCons(a: int, b: int, c: int, rest: Bytes)
    requires 0 <= a < 256 && 0 <= b < 256 && 0 <= c < 256 && IsBytes(rest)
    ensures IsBytes([a, b, c] + rest)
    ensures Spread([a, b, c] + rest) == [First(a), Second(a, b), Third(b, c), Fourth(c)] + Spread(rest)
  {
    hide First, Second, Third, Fourth;
    assert ([a, b, c] + rest)[3..] == rest;
  }

  lemma GatherGroup(s: seq<int>)
    requires AreSextets(s) && |s| >= 4
    ensures Gather(s).Some? <==> Gather(s[4..]).Some?
    ensures Gather(s).Some? ==>
      Gather(s).value == [High(s[0], s[1]), Middle(s[1], s[2]), Low(s[2], s[3])] + Gather(s[4..]).value
  {
    hide High, Middle, Low;
  }

  /** One whole group at a time. */
  lemma SpreadGatherGroup(s: seq<int>)
    requires AreSextets(s) && |s| >= 4
    ensures Gather(s).Some? <==> Gather(s[4..]).Some?
    ensures Gather(s).Some? ==> Spread(Gather(s).value) == [s[0], s[1], s[2], s[3]] + Spread(Gather(s[4..]).value)
  {
    hide Gather, Spread, First, Second, Third, Fourth, High, Middle, Low, IsBytes;
    GatherGroup(s);
    RegroupSextets(s[0], s[1], s[2], s[3]);
    if Gather(s).Some? {
      SpreadCons(High(s[0], s[1]), Middle(s[1], s[2]), Low(s[2], s[3]), Gather(s[4..]).value);
    }
  }

  /** Sextets survive the way to bytes and back exactly when their pad bits are zero. */
  lemma {:induction false} SpreadGatherIff(s: seq<int>)
    requires AreSextets(s)
    ensures Gather(s).Some? && Spread(Gather(s).value) == s <==> ZeroPadBits(s)
  {
    hide Gather, Spread;
    if |s| < 4 {
      SpreadGatherShort(s);
    } else {
      var rest := s[4..];
      SpreadGatherIff(rest);
      SpreadGatherGroup(s);
      var group := [s[0], s[1], s[2], s[3]];
      assert s == group + rest;
      if Gather(rest).Some? {
        var t := Spread(Gather(rest).value);
        assert (group + t)[4..] == t && (group + rest)[4..] == rest;
      }
    }
  }

  lemma SymbolSextet(c: int)
    requires InAlphabet(c)
    ensures Symbol(Sextet(c)) == c
  {
  }

  /** What canonical means, on the text: it decodes to bytes whose encoding it is, if and
      only if its length and its pad bits are right. */
  lemma CanonicalIff(t: Text)
    requires AllInAlphabet(t)
    ensures Decode(t).Some? && Encode(Decode(t).value) == t <==> ZeroPadBits(SextetsOf(t))
  {
    hide Gather, Spread, ZeroPadBits, Symbol, Sextet;
    var s := SextetsOf(t);
    SpreadGatherIff(s);
    if Decode(t).Some? {
      var b := Decode(t).value;
      if Spread(b) == s {
        forall i | 0 <= i < |t|
          ensures Encode(b)[i] == t[i]
        {
          SymbolSextet(t[i]);
        }
        assert Encode(b) == t;
      }
      if Encode(b) == t {
        assert |Spread(b)| == |t|;
        forall i | 0 <= i < |t|
          ensures Spread(b)[i] == s[i]
        {
          assert Encode(b)[i] == Symbol(Spread(b)[i]);
        }
        assert Spread(b) == s;
      }
    }
  }

  lemma EncodeInjective(a: Bytes, b: Bytes)
    requires IsBytes(a) && IsBytes(b) && Encode(a) == Encode(b)
    ensures a == b
  {
    DecodeEncode(a);
    DecodeEncode(b);
  }
}
