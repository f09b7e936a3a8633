/** The length-prefixed message that a consent decision signs, and its unique decoding. */
module Messages {
  import opened Wrappers
  import opened Bytes

  /** The signed fields, in their order in the message, as encoded text. */
  datatype Fields = Fields(
    consentId: seq<byte>, requestId: seq<byte>, caller: seq<byte>, session: seq<byte>,
    decision: seq<byte>, nonce: seq<byte>)

  /** `jl-agent-consent-v1`, ended by a zero byte. */
  const PREFIX: seq<byte> :=
    [106, 108, 45, 97, 103, 101, 110, 116, 45, 99, 111, 110, 115, 101, 110, 116, 45, 118, 49, 0]

  function Listed(f: Fields): seq<seq<byte>> {
    [f.consentId, f.requestId, f.caller, f.session, f.decision, f.nonce]
  }

  /** Lengths are written in eight bytes. */
  predicate Fits(fields: seq<seq<byte>>) {
    forall i :: 0 <= i < |fields| ==> |fields[i]| < Pow256(8)
  }

  function Framed(field: seq<byte>): seq<byte> {
    BigEndian(|field|, 8) + field
  }

  function Body(fields: seq<seq<byte>>): seq<byte> {
    if fields == [] then [] else Framed(fields[0]) + Body(fields[1..])
  }

  function Message(f: Fields): seq<byte> {
    PREFIX + Body(Listed(f))
  }

  lemma {:induction false} BodyAppends(fields: seq<seq<byte>>, last: seq<byte>)
    ensures Body(fields + [last]) == Body(fields) + Framed(last)
  {
    if fields == [] {
      assert [last][1..] == [];
    } else {
      BodyAppends(fields[1..], last);
      assert (fields + [last])[1..] == fields[1..] + [last];
    }
  }

  lemma NextField(fields: seq<seq<byte>>, i: nat)
    requires i < |fields|
    ensures Body(fields[..i + 1]) == Body(fields[..i]) + Framed(fields[i])
  {
    BodyAppends(fields[..i], fields[i]);
    assert fields[..i + 1] == fields[..i] + [fields[i]];
  }

  /** The runtime's builder. A length of 2^64 or more does not convert. */
  method ConsentSignatureMessage(f: Fields) returns (r: Option<seq<byte>>)
    ensures r == if Fits(Listed(f)) then Some(Message(f)) else None
  {
    var fields := Listed(f);
    var message := PREFIX;
    for i := 0 to |fields|
      invariant Fits(fields[..i])
      invariant message == PREFIX + Body(fields[..i])
    {
      var encoded := fields[i];
      if |encoded| >= Pow256(8) {
        return None;
      }
      NextField(fields, i);
      message := message + BigEndian(|encoded|, 8);
      message := message + encoded;
    }
    assert fields[..|fields|] == fields;
    return Some(message);
  }

  /** How a 64-bit word lies in memory. */
  function Memory(word: nat, littleEndian: bool): seq<byte> {
    if littleEndian then Reversed(BigEndian(word, 8)) else BigEndian(word, 8)
  }

  /** The word whose memory holds the big-endian bytes of `word`. */
  function BigEndianWord(word: nat, littleEndian: bool): nat {
    if littleEndian then Value(Reversed(BigEndian(word, 8))) else word
  }

  /** On either kind of processor, a byte-swapped word is laid out in big-endian order. */
  lemma SwappedMemory(word: nat, littleEndian: bool)
    ensures Memory(BigEndianWord(word, littleEndian), littleEndian) == BigEndian(word, 8)
  {
    if littleEndian {
      BigEndianOfValue(Reversed(BigEndian(word, 8)));
      ReversedTwice(BigEndian(word, 8));
    }
  }

  /** The native app's builder, which appends the memory of a swapped length word. */
  method CanonicalConsentMessage(f: Fields, littleEndian: bool) returns (message: seq<byte>)
    requires Fits(Listed(f))
    ensures message == Message(f)
  {
    var fields := Listed(f);
    message := PREFIX;
    for i := 0 to |fields|
      invariant message == PREFIX + Body(fields[..i])
    {
      var encoded := fields[i];
      var length := Memory(BigEndianWord(|encoded|, littleEndian), littleEndian);
      SwappedMemory(|encoded|, littleEndian);
      NextField(fields, i);
      assert length == BigEndian(|encoded|, 8);
      message := message + length;
      message := message + encoded;
    }
    assert fields[..|fields|] == fields;
  }

  // ----- Decoding

  function ParseFields(s: seq<byte>, count: nat): Option<seq<seq<byte>>> {
    if count == 0 then (if s == [] then Some([]) else None)
    else if |s| < 8 || |s| < 8 + Value(s[..8]) then None
    else
      var n := Value(s[..8]);
      match ParseFields(s[8 + n..], count - 1)
      case None => None
      case Some(rest) => Some([s[8..8 + n]] + rest)
  }

  function Parse(message: seq<byte>): Option<Fields> {
    if |message| < |PREFIX| || message[..|PREFIX|] != PREFIX then None
    else match ParseFields(message[|PREFIX|..], 6)
      case None => None
      case Some(x) => if |x| == 6 then Some(Fields(x[0], x[1], x[2], x[3], x[4], x[5])) else None
  }

  lemma {:induction false} ParseRecovers(fields: seq<seq<byte>>)
    requires Fits(fields)
    ensures ParseFields(Body(fields), |fields|) == Some(fields)
  {
    if fields != [] {
      var s, field := Body(fields), fields[0];
      ValueOfBigEndian(|field|, 8);
      ParseRecovers(fields[1..]);
      assert s[..8] == BigEndian(|field|, 8);
      assert s[8..8 + |field|] == field;
      assert s[8 + |field|..] == Body(fields[1..]);
      assert fields == [field] + fields[1..];
    }
  }

  lemma {:induction false} ParsedIsBody(s: seq<byte>, count: nat)
    ensures var x := ParseFields(s, count);
      x.Some? ==> |x.value| == count && Fits(x.value) && s == Body(x.value)
  {
    var x := ParseFields(s, count);
    if count > 0 && x.Some? {
      var n := Value(s[..8]);
      ParsedIsBody(s[8 + n..], count - 1);
      ValueBound(s[..8]);
      BigEndianOfValue(s[..8]);
      assert x.value[1..] == ParseFields(s[8 + n..], count - 1).value;
      assert s == s[..8] + s[8..8 + n] + s[8 + n..];
    }
  }

  lemma ListedBack(x: seq<seq<byte>>)
    requires |x| == 6
    ensures Listed(Fields(x[0], x[1], x[2], x[3], x[4], x[5])) == x
  {
  }

  /** A byte string decodes to six fields exactly when it is the message of those fields. */
  lemma ParsesExactly(message: seq<byte>, f: Fields)
    ensures Parse(message) == Some(f) <==> Fits(Listed(f)) && message == Message(f)
  {
    if Fits(Listed(f)) && message == Message(f) {
      ParseRecovers(Listed(f));
      assert message[..|PREFIX|] == PREFIX && message[|PREFIX|..] == Body(Listed(f));
    }
    if Parse(message) == Some(f) {
      ParsedIsBody(message[|PREFIX|..], 6);
      ListedBack(ParseFields(message[|PREFIX|..], 6).value);
      assert message == message[..|PREFIX|] + message[|PREFIX|..];
    }
  }

  lemma BodyCons(field: seq<byte>, rest: seq<seq<byte>>)
    ensures Body([field] + rest) == BigEndian(|field|, 8) + field + Body(rest)
  {
    assert ([field] + rest)[1..] == rest;
  }

  /** The message is the purpose string with its zero byte, then each field in order behind its length. */
  lemma MessageSpelledOut(f: Fields)
    ensures |PREFIX| == 20 && PREFIX[19] == 0
    ensures forall i :: 0 <= i < 19 ==> PREFIX[i] == "jl-agent-consent-v1"[i] as int
    ensures Message(f) == PREFIX
      + (BigEndian(|f.consentId|, 8) + f.consentId + (BigEndian(|f.requestId|, 8) + f.requestId
      + (BigEndian(|f.caller|, 8) + f.caller + (BigEndian(|f.session|, 8) + f.session
      + (BigEndian(|f.decision|, 8) + f.decision + (BigEndian(|f.nonce|, 8) + f.nonce + []))))))
  {
    hide Body, Framed, BigEndian;
    PrefixSpellsPurpose();
    BodyCons(f.consentId, [f.requestId, f.caller, f.session, f.decision, f.nonce]);
    BodyCons(f.requestId, [f.caller, f.session, f.decision, f.nonce]);
    BodyCons(f.caller, [f.session, f.decision, f.nonce]);
    BodyCons(f.session, [f.decision, f.nonce]);
    BodyCons(f.decision, [f.nonce]);
    BodyCons(f.nonce, []);
    BodyOfNone();
    assert Listed(f) == [f.consentId] + [f.requestId, f.caller, f.session, f.decision, f.nonce];
    assert [f.requestId] + [f.caller, f.session, f.decision, f.nonce]
      == [f.requestId, f.caller, f.session, f.decision, f.nonce];
    assert [f.caller] + [f.session, f.decision, f.nonce] == [f.caller, f.session, f.decision, f.nonce];
    assert [f.session] + [f.decision, f.nonce] == [f.session, f.decision, f.nonce];
    assert [f.decision] + [f.nonce] == [f.decision, f.nonce] && [f.nonce] + [] == [f.nonce];
  }

  lemma BodyOfNone()
    ensures Body([]) == []
  {
  }

  lemma PrefixSpellsPurpose()
    ensures |PREFIX| == 20 && PREFIX[19] == 0
    ensures forall i :: 0 <= i < 19 ==> PREFIX[i] == "jl-agent-consent-v1"[i] as int
  {
    var text := "jl-agent-consent-v1";
    assert text[0] == 'j' && text[1] == 'l' && text[2] == '-' && text[3] == 'a' && text[4] == 'g' && text[5] == 'e';
    assert text[6] == 'n' && text[7] == 't' && text[8] == '-' && text[9] == 'c' && text[10] == 'o' && text[11] == 'n';
    assert text[12] == 's' && text[13] == 'e' && text[14] == 'n' && text[15] == 't' && text[16] == '-';
    assert text[17] == 'v' && text[18] == '1';
  }

  /** No two decisions share a message, so a signature never stands for another consent or answer. */
  lemma MessagesAreDistinct(f: Fields, g: Fields)
    requires Fits(Listed(f)) && Fits(Listed(g)) && Message(f) == Message(g)
    ensures f == g
  {
    ParsesExactly(Message(f), f);
    ParsesExactly(Message(g), g);
  }
}
