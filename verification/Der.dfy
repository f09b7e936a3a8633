/** The consent key parser: RSA public keys in both of their DER forms. */
module Der {
  import opened Wrappers
  import opened Bytes

  const SEQUENCE: byte := 0x30
  const INTEGER: byte := 0x02
  const BIT_STRING: byte := 0x03

  /** A value with this tag at `offset`, and where it ends. */
  function DerValue(data: seq<byte>, offset: nat, tag: byte): (r: Option<(seq<byte>, nat)>)
    ensures r.Some? ==> offset + 2 <= r.value.1 <= |data|
  {
    if offset >= |data| || data[offset] != tag then None
    else if offset + 1 >= |data| then None
    else
      var first, body := data[offset + 1], offset + 2;
      if first < 0x80 then
        if body + first > |data| then None else Some((data[body..body + first], body + first))
      else
        var count := first - 0x80;
        if count == 0 || count > 4 || body + count > |data| then None
        else
          var length, start := Value(data[body..body + count]), body + count;
          if start + length > |data| then None else Some((data[start..start + length], start + length))
  }

  /** Two integers that fill `data`. */
  function TwoIntegers(data: seq<byte>): Option<(seq<byte>, seq<byte>)> {
    match DerValue(data, 0, INTEGER)
    case None => None
    case Some((modulus, offset)) =>
      match DerValue(data, offset, INTEGER)
      case None => None
      case Some((exponent, final)) => if final == |data| then Some((modulus, exponent)) else None
  }

  /** The second form: an algorithm, then a bit string that wraps the two integers. */
  function Wrapped(body: seq<byte>): Option<(seq<byte>, seq<byte>)> {
    match DerValue(body, 0, SEQUENCE)
    case None => None
    case Some((_, offset)) =>
      match DerValue(body, offset, BIT_STRING)
      case None => None
      case Some((bits, final)) =>
        if final != |body| || bits == [] || bits[0] != 0 then None
        else match DerValue(bits[1..], 0, SEQUENCE)
          case None => None
          case Some((nested, end)) => if end != |bits| - 1 then None else TwoIntegers(nested)
  }

  function KeyBytes(data: seq<byte>): Option<(seq<byte>, seq<byte>)> {
    match DerValue(data, 0, SEQUENCE)
    case None => None
    case Some((body, end)) =>
      if end != |data| then None
      else if TwoIntegers(body).Some? then TwoIntegers(body)
      else Wrapped(body)
  }

  /** The modulus and exponent of a key, read as unsigned numbers. */
  function ParseRsaPublicKey(data: seq<byte>): Option<(nat, nat)> {
    match KeyBytes(data)
    case None => None
    case Some((modulus, exponent)) => Some((Value(modulus), Value(exponent)))
  }

  // ----- What an encoding is, independently of the parser

  /** A short length, or a long one of one to four bytes, not necessarily the shortest. */
  predicate IsLength(l: seq<byte>, n: nat) {
    || (|l| == 1 && l[0] < 0x80 && n == l[0])
    || (2 <= |l| <= 5 && l[0] == 0x80 + |l| - 1 && n == Value(l[1..]))
  }

  function Tlv(tag: byte, l: seq<byte>, v: seq<byte>): seq<byte> {
    [tag] + l + v
  }

  ghost predicate Encodes(s: seq<byte>, tag: byte, v: seq<byte>) {
    exists l: seq<byte> :: IsLength(l, |v|) && s == Tlv(tag, l, v)
  }

  /** `s` is the integer `m` followed by the integer `x`. */
  ghost predicate EncodesPair(s: seq<byte>, m: seq<byte>, x: seq<byte>) {
    exists k :: 0 <= k <= |s| && Encodes(s[..k], INTEGER, m) && Encodes(s[k..], INTEGER, x)
  }

  /** An RSAPublicKey. */
  ghost predicate EncodesKey(data: seq<byte>, m: seq<byte>, x: seq<byte>) {
    exists body: seq<byte> :: Encodes(data, SEQUENCE, body) && EncodesPair(body, m, x)
  }

  /** The body of a SubjectPublicKeyInfo: any algorithm, then a bit string without unused bits. */
  ghost predicate EncodesInfo(body: seq<byte>, m: seq<byte>, x: seq<byte>) {
    exists k, algorithm: seq<byte>, nested: seq<byte>, inner: seq<byte> ::
      && 0 <= k <= |body|
      && Encodes(body[..k], SEQUENCE, algorithm)
      && Encodes(body[k..], BIT_STRING, [0] + nested)
      && Encodes(nested, SEQUENCE, inner)
      && EncodesPair(inner, m, x)
  }

  ghost predicate EncodesWrappedKey(data: seq<byte>, m: seq<byte>, x: seq<byte>) {
    exists body: seq<byte> :: Encodes(data, SEQUENCE, body) && EncodesInfo(body, m, x)
  }

  // ----- The parser accepts exactly the encodings

  lemma SliceOfSlice(s: seq<byte>, a: nat, b: nat, i: nat, j: nat)
    requires a <= b <= |s| && i <= j <= b - a
    ensures s[a..b][i..j] == s[a + i..a + j]
  {
    var inner, outer := s[a..b][i..j], s[a + i..a + j];
    assert |inner| == |outer| && forall k :: 0 <= k < |inner| ==> inner[k] == outer[k];
  }

  lemma TlvParts(tag: byte, l: seq<byte>, v: seq<byte>)
    ensures var s := Tlv(tag, l, v);
      |s| == 1 + |l| + |v| && s[0] == tag && s[1..1 + |l|] == l && s[1 + |l|..|s|] == v
  {
  }

  lemma TlvOfParts(data: seq<byte>, a: nat, b: nat, c: nat)
    requires a < b <= c <= |data|
    ensures data[a..c] == Tlv(data[a], data[a + 1..b], data[b..c])
  {
    assert data[a..c] == data[a..b] + data[b..c];
    assert data[a..b] == [data[a]] + data[a + 1..b];
  }

  lemma ReadsEncoding(data: seq<byte>, offset: nat, tag: byte, l: seq<byte>, v: seq<byte>, end: nat)
    requires IsLength(l, |v|) && offset <= end <= |data| && data[offset..end] == Tlv(tag, l, v)
    ensures DerValue(data, offset, tag) == Some((v, end))
  {
    TlvParts(tag, l, v);
    var n := 1 + |l|;
    SliceOfSlice(data, offset, end, 1, n);
    SliceOfSlice(data, offset, end, n, end - offset);
    assert data[offset] == data[offset..end][0];
    assert data[offset + 1..offset + n] == l && data[offset + n..end] == v;
    assert data[offset + 1] == data[offset + 1..offset + n][0];
    SliceOfSlice(data, offset + 1, offset + n, 1, |l|);
    assert l[1..|l|] == l[1..];
  }

  lemma ReadIsEncoding(data: seq<byte>, offset: nat, tag: byte)
    requires DerValue(data, offset, tag).Some?
    ensures var (v, end) := DerValue(data, offset, tag).value;
      Encodes(data[offset..end], tag, v)
  {
    var (v, end) := DerValue(data, offset, tag).value;
    var first := data[offset + 1];
    var start := if first < 0x80 then offset + 2 else offset + 2 + (first - 0x80);
    var l := data[offset + 1..start];
    TlvOfParts(data, offset, start, end);
    if first >= 0x80 {
      SliceOfSlice(data, offset + 1, start, 1, |l|);
      assert l[1..|l|] == l[1..];
    }
    assert IsLength(l, |v|);
  }

  /** Reading a value at an offset succeeds exactly on an encoding of it that starts there. */
  lemma DerValueExactly(data: seq<byte>, offset: nat, tag: byte, v: seq<byte>, end: nat)
    ensures DerValue(data, offset, tag) == Some((v, end))
      <==> offset <= end <= |data| && Encodes(data[offset..end], tag, v)
  {
    if DerValue(data, offset, tag) == Some((v, end)) {
      ReadIsEncoding(data, offset, tag);
    } else if offset <= end <= |data| && Encodes(data[offset..end], tag, v) {
      var l :| IsLength(l, |v|) && data[offset..end] == Tlv(tag, l, v);
      ReadsEncoding(data, offset, tag, l, v, end);
      assert false;
    }
  }

  lemma PairExactly(data: seq<byte>, m: seq<byte>, x: seq<byte>)
    ensures TwoIntegers(data) == Some((m, x)) <==> EncodesPair(data, m, x)
  {
    assert data[..|data|] == data;
    if TwoIntegers(data) == Some((m, x)) {
      var k := DerValue(data, 0, INTEGER).value.1;
      DerValueExactly(data, 0, INTEGER, m, k);
      DerValueExactly(data, k, INTEGER, x, |data|);
      assert data[0..k] == data[..k] && data[k..|data|] == data[k..];
    }
    if EncodesPair(data, m, x) {
      var k :| 0 <= k <= |data| && Encodes(data[..k], INTEGER, m) && Encodes(data[k..], INTEGER, x);
      assert data[0..k] == data[..k] && data[k..|data|] == data[k..];
      DerValueExactly(data, 0, INTEGER, m, k);
      DerValueExactly(data, k, INTEGER, x, |data|);
    }
  }

  lemma InfoExactly(body: seq<byte>, m: seq<byte>, x: seq<byte>)
    ensures Wrapped(body) == Some((m, x)) <==> EncodesInfo(body, m, x)
  {
    if Wrapped(body) == Some((m, x)) {
      WrappedIsInfo(body, m, x);
    }
    if EncodesInfo(body, m, x) {
      var k, algorithm: seq<byte>, nested: seq<byte>, inner: seq<byte> :|
        && 0 <= k <= |body|
        && Encodes(body[..k], SEQUENCE, algorithm)
        && Encodes(body[k..], BIT_STRING, [0] + nested)
        && Encodes(nested, SEQUENCE, inner)
        && EncodesPair(inner, m, x);
      InfoIsWrapped(body, k, algorithm, nested, inner, m, x);
    }
  }

  lemma WrappedIsInfo(body: seq<byte>, m: seq<byte>, x: seq<byte>)
    requires Wrapped(body) == Some((m, x))
    ensures EncodesInfo(body, m, x)
  {
    var (algorithm, k) := DerValue(body, 0, SEQUENCE).value;
    var bits := DerValue(body, k, BIT_STRING).value.0;
    var nested := bits[1..];
    var inner := DerValue(nested, 0, SEQUENCE).value.0;
    ReadIsEncoding(body, 0, SEQUENCE);
    ReadIsEncoding(body, k, BIT_STRING);
    ReadIsEncoding(nested, 0, SEQUENCE);
    PairExactly(inner, m, x);
    assert body[0..k] == body[..k] && body[k..|body|] == body[k..];
    assert nested[0..|nested|] == nested && bits == [0] + nested;
  }

  lemma InfoIsWrapped(body: seq<byte>, k: nat, algorithm: seq<byte>, nested: seq<byte>, inner: seq<byte>, m: seq<byte>,
                      x: seq<byte>)
    requires k <= |body| && Encodes(body[..k], SEQUENCE, algorithm) && Encodes(body[k..], BIT_STRING, [0] + nested)
    requires Encodes(nested, SEQUENCE, inner) && EncodesPair(inner, m, x)
    ensures Wrapped(body) == Some((m, x))
  {
    assert body[0..k] == body[..k] && body[k..|body|] == body[k..] && nested[0..|nested|] == nested;
    DerValueExactly(body, 0, SEQUENCE, algorithm, k);
    DerValueExactly(body, k, BIT_STRING, [0] + nested, |body|);
    assert ([0] + nested)[1..] == nested;
    DerValueExactly(nested, 0, SEQUENCE, inner, |nested|);
    PairExactly(inner, m, x);
  }

  /** The two forms begin with different tags, so they are never confused. */
  lemma FormsDiffer(body: seq<byte>, m: seq<byte>, x: seq<byte>)
    requires EncodesInfo(body, m, x)
    ensures TwoIntegers(body).None?
  {
    InfoExactly(body, m, x);
    assert DerValue(body, 0, SEQUENCE).Some?;
  }

  /** A key is accepted, with this modulus and exponent, exactly when the whole input encodes it in one of two forms. */
  lemma AcceptsExactlyKeys(data: seq<byte>, m: seq<byte>, x: seq<byte>)
    ensures KeyBytes(data) == Some((m, x)) <==> EncodesKey(data, m, x) || EncodesWrappedKey(data, m, x)
  {
    assert data[0..|data|] == data;
    if KeyBytes(data) == Some((m, x)) {
      var body := DerValue(data, 0, SEQUENCE).value.0;
      ReadIsEncoding(data, 0, SEQUENCE);
      PairExactly(body, m, x);
      InfoExactly(body, m, x);
    }
    if EncodesKey(data, m, x) {
      var body :| Encodes(data, SEQUENCE, body) && EncodesPair(body, m, x);
      DerValueExactly(data, 0, SEQUENCE, body, |data|);
      PairExactly(body, m, x);
    }
    if EncodesWrappedKey(data, m, x) {
      var body :| Encodes(data, SEQUENCE, body) && EncodesInfo(body, m, x);
      DerValueExactly(data, 0, SEQUENCE, body, |data|);
      FormsDiffer(body, m, x);
      InfoExactly(body, m, x);
    }
  }

  // ----- Round trip

  /** What four length bytes can express. */
  const LIMIT: nat := 0x1_0000_0000

  /** The shortest length encoding. */
  function Length(n: nat): (l: seq<byte>)
    requires n < LIMIT
    ensures 1 <= |l| <= 5
  {
    if n < 0x80 then [n]
    else if n < 0x100 then [0x81] + BigEndian(n, 1)
    else if n < 0x1_0000 then [0x82] + BigEndian(n, 2)
    else if n < 0x100_0000 then [0x83] + BigEndian(n, 3)
    else [0x84] + BigEndian(n, 4)
  }

  lemma LongLength(n: nat, width: nat)
    requires 1 <= width <= 4 && n < Pow256(width)
    ensures IsLength([0x80 + width] + BigEndian(n, width), n)
  {
    ValueOfBigEndian(n, width);
    assert ([0x80 + width] + BigEndian(n, width))[1..] == BigEndian(n, width);
  }

  lemma LengthIsLength(n: nat)
    requires n < LIMIT
    ensures IsLength(Length(n), n)
  {
    assert Pow256(1) == 0x100 && Pow256(2) == 0x1_0000 && Pow256(3) == 0x100_0000 && Pow256(4) == LIMIT;
    if n >= 0x80 {
      LongLength(n, if n < 0x100 then 1 else if n < 0x1_0000 then 2 else if n < 0x100_0000 then 3 else 4);
    }
  }

  function Encode(tag: byte, v: seq<byte>): (s: seq<byte>)
    requires |v| < LIMIT
    ensures |v| < |s| <= |v| + 6
  {
    Tlv(tag, Length(|v|), v)
  }

  lemma EncodeEncodes(tag: byte, v: seq<byte>)
    requires |v| < LIMIT
    ensures Encodes(Encode(tag, v), tag, v)
  {
    LengthIsLength(|v|);
  }

  lemma PairEncodes(m: seq<byte>, x: seq<byte>)
    requires |m| < LIMIT && |x| < LIMIT
    ensures EncodesPair(Encode(INTEGER, m) + Encode(INTEGER, x), m, x)
  {
    var a, b := Encode(INTEGER, m), Encode(INTEGER, x);
    EncodeEncodes(INTEGER, m);
    EncodeEncodes(INTEGER, x);
    assert (a + b)[..|a|] == a && (a + b)[|a|..] == b;
  }

  /** A plain key, however long its lengths may need to be, decodes to its modulus and exponent. */
  lemma KeyRoundTrip(m: seq<byte>, x: seq<byte>)
    requires |m| < LIMIT && |x| < LIMIT && |Encode(INTEGER, m) + Encode(INTEGER, x)| < LIMIT
    ensures ParseRsaPublicKey(Encode(SEQUENCE, Encode(INTEGER, m) + Encode(INTEGER, x))) == Some((Value(m), Value(x)))
  {
    var pair := Encode(INTEGER, m) + Encode(INTEGER, x);
    PairEncodes(m, x);
    EncodeEncodes(SEQUENCE, pair);
    AcceptsExactlyKeys(Encode(SEQUENCE, pair), m, x);
  }

  function InfoOf(m: seq<byte>, x: seq<byte>, algorithm: seq<byte>): seq<byte>
    requires |m| < LIMIT && |x| < LIMIT && |algorithm| < LIMIT && |m| + |x| + 20 < LIMIT
  {
    Encode(SEQUENCE, algorithm) + Encode(BIT_STRING, [0] + Encode(SEQUENCE, Encode(INTEGER, m) + Encode(INTEGER, x)))
  }

  lemma InfoEncodes(m: seq<byte>, x: seq<byte>, algorithm: seq<byte>)
    requires |m| < LIMIT && |x| < LIMIT && |algorithm| < LIMIT && |m| + |x| + 20 < LIMIT
    ensures EncodesInfo(InfoOf(m, x, algorithm), m, x)
  {
    var pair := Encode(INTEGER, m) + Encode(INTEGER, x);
    var nested := Encode(SEQUENCE, pair);
    var a, b := Encode(SEQUENCE, algorithm), Encode(BIT_STRING, [0] + nested);
    PairEncodes(m, x);
    EncodeEncodes(SEQUENCE, pair);
    EncodeEncodes(SEQUENCE, algorithm);
    EncodeEncodes(BIT_STRING, [0] + nested);
    assert (a + b)[..|a|] == a && (a + b)[|a|..] == b;
  }

  /** A wrapped key decodes to the same modulus and exponent, whatever algorithm it names. */
  lemma WrappedKeyRoundTrip(m: seq<byte>, x: seq<byte>, algorithm: seq<byte>)
    requires |m| < LIMIT && |x| < LIMIT && |algorithm| < LIMIT && |m| + |x| + 20 < LIMIT
    requires |InfoOf(m, x, algorithm)| < LIMIT
    ensures ParseRsaPublicKey(Encode(SEQUENCE, InfoOf(m, x, algorithm))) == Some((Value(m), Value(x)))
  {
    var info := InfoOf(m, x, algorithm);
    InfoEncodes(m, x, algorithm);
    EncodeEncodes(SEQUENCE, info);
    AcceptsExactlyKeys(Encode(SEQUENCE, info), m, x);
  }
}
