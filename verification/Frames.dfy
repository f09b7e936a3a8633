/** One newline-terminated frame per connection, read from whatever chunks the socket delivers. */
module Frames {
  import opened Wrappers
  import opened Bytes

  const NEWLINE: byte := 10

  datatype Frame = Payload(bytes: seq<byte>) | TooLarge | Malformed

  /** The first newline, or the length when there is none. */
  function FirstNewline(s: seq<byte>): (n: nat)
    ensures n <= |s|
    ensures n < |s| ==> s[n] == NEWLINE
    ensures forall k :: 0 <= k < n ==> s[k] != NEWLINE
  {
    if s == [] || s[0] == NEWLINE then 0 else 1 + FirstNewline(s[1..])
  }

  lemma FirstNewlineIs(s: seq<byte>, n: nat)
    requires n <= |s| && (n < |s| ==> s[n] == NEWLINE) && forall k :: 0 <= k < n ==> s[k] != NEWLINE
    ensures FirstNewline(s) == n
  {
  }

  /**
   What one `recv` returns when `at` bytes were read before: at least one byte
   unless the peer has closed, at most what was asked for, and otherwise as many
   as `arrives` makes available.
   */
  function Received(stream: seq<byte>, at: nat, wanted: nat, arrives: nat -> nat): (n: nat)
    requires at <= |stream|
    ensures n <= wanted && at + n <= |stream|
    ensures n == 0 <==> wanted == 0 || at == |stream|
  {
    Min(wanted, Min(|stream| - at, if arrives(at) == 0 then 1 else arrives(at)))
  }

  /** Where reading stops: at the end of the chunk with the first newline, at the bound, or at the end. */
  function Reach(stream: seq<byte>, maximum: nat, at: nat, arrives: nat -> nat): (end: nat)
    requires at <= |stream| && at <= maximum + 1
    ensures at <= end <= |stream| && end <= maximum + 1
    decreases |stream| - at
  {
    var n := Received(stream, at, Min(4096, maximum + 1 - at), arrives);
    if n == 0 || NEWLINE in stream[..at + n] then at + n else Reach(stream, maximum, at + n, arrives)
  }

  /** What a reader that read `data` makes of it. */
  function Judged(data: seq<byte>, maximum: nat): Frame {
    var n := FirstNewline(data);
    if n + 1 < |data| then Malformed
    else if n > maximum then TooLarge
    else if n == 0 then Malformed
    else Payload(data[..n])
  }

  lemma ReachStep(stream: seq<byte>, maximum: nat, at: nat, arrives: nat -> nat)
    requires at <= |stream| && at <= maximum
    ensures var n := Received(stream, at, Min(4096, maximum + 1 - at), arrives);
      && at + n <= maximum + 1
      && stream[..at] + stream[at..at + n] == stream[..at + n]
      && Reach(stream, maximum, at, arrives)
         == if n == 0 || NEWLINE in stream[..at + n] then at + n else Reach(stream, maximum, at + n, arrives)
  {
  }

  /** The end of input and the bound both judge what was read as it stands. */
  lemma JudgedWithoutNewline(data: seq<byte>, maximum: nat)
    requires NEWLINE !in data
    ensures Judged(data, maximum)
      == if |data| > maximum then TooLarge else if data == [] then Malformed else Payload(data)
  {
    FirstNewlineIs(data, |data|);
    assert data[..|data|] == data;
  }

  lemma JudgedAtNewline(data: seq<byte>, maximum: nat)
    requires |data| <= maximum + 1
    ensures var n := FirstNewline(data);
      && (n < |data| <==> NEWLINE in data)
      && (n < |data| ==>
            (Judged(data, maximum) == if data[n + 1..] != [] || data[..n] == [] then Malformed else Payload(data[..n])))
  {
  }

  method ReadFrame(stream: seq<byte>, maximum: nat, arrives: nat -> nat) returns (r: Frame)
    ensures r == Judged(stream[..Reach(stream, maximum, 0, arrives)], maximum)
  {
    var data: seq<byte> := [];
    while |data| <= maximum
      invariant |data| <= |stream| && |data| <= maximum + 1 && data == stream[..|data|]
      invariant NEWLINE !in data
      invariant Reach(stream, maximum, 0, arrives) == Reach(stream, maximum, |data|, arrives)
      decreases |stream| - |data|
    {
      var at := |data|;
      ReachStep(stream, maximum, at, arrives);
      var chunk := stream[at..at + Received(stream, at, Min(4096, maximum + 1 - at), arrives)];
      if chunk == [] {
        break;
      }
      data := data + chunk;
      var newline := FirstNewline(data);
      JudgedAtNewline(data, maximum);
      if newline < |data| {
        if data[newline + 1..] != [] {
          return Malformed;
        }
        data := data[..newline];
        return if data == [] then Malformed else Payload(data);
      }
    }
    JudgedWithoutNewline(data, maximum);
    if |data| > maximum {
      return TooLarge;
    }
    return if data == [] then Malformed else Payload(data);
  }

  function EncodeFrame(payload: seq<byte>): seq<byte> {
    payload + [NEWLINE]
  }

  /** Reading goes on until a newline was read, the bound was passed, or the stream ended. */
  lemma {:induction false} ReachExactly(stream: seq<byte>, maximum: nat, at: nat, arrives: nat -> nat)
    requires at <= |stream| && at <= maximum + 1 && NEWLINE !in stream[..at]
    ensures var end := Reach(stream, maximum, at, arrives);
      FirstNewline(stream) < end || end == maximum + 1 || end == |stream|
    decreases |stream| - at
  {
    var n := Received(stream, at, Min(4096, maximum + 1 - at), arrives);
    if n != 0 {
      if NEWLINE in stream[..at + n] {
        var k :| 0 <= k < at + n && stream[k] == NEWLINE;
        assert FirstNewline(stream) <= k;
      } else {
        ReachExactly(stream, maximum, at + n, arrives);
      }
    }
  }

  /** The first newline of a prefix is that of the whole, if it lies inside the prefix. */
  lemma NewlineOfPrefix(s: seq<byte>, end: nat)
    requires end <= |s|
    ensures FirstNewline(s[..end]) == Min(FirstNewline(s), end)
  {
    FirstNewlineIs(s[..end], Min(FirstNewline(s), end));
  }

  /**
   The outcome of any read, for any stream and any chunking: too large exactly
   when more than the maximum arrives without a newline; otherwise what precedes
   the newline, or the end, unless it is empty or more bytes came along in the
   newline's own chunk.
   */
  lemma ReadsExactly(stream: seq<byte>, maximum: nat, arrives: nat -> nat)
    ensures var end := Reach(stream, maximum, 0, arrives);
      var n := FirstNewline(stream);
      && end <= maximum + 1
      && Judged(stream[..end], maximum)
         == if n > maximum then TooLarge
            else if n == 0 || n + 1 < end then Malformed
            else Payload(stream[..n])
  {
    ReachExactly(stream, maximum, 0, arrives);
    var end := Reach(stream, maximum, 0, arrives);
    NewlineOfPrefix(stream, end);
    if FirstNewline(stream) <= end {
      assert stream[..end][..FirstNewline(stream)] == stream[..FirstNewline(stream)];
    }
  }

  /** An encoded frame is read back whole, however it is cut, exactly when its length is within the bound. */
  lemma FrameRoundTrip(payload: seq<byte>, maximum: nat, arrives: nat -> nat)
    requires NEWLINE !in payload
    ensures var r := Judged(EncodeFrame(payload)[..Reach(EncodeFrame(payload), maximum, 0, arrives)], maximum);
      r == if |payload| > maximum then TooLarge else if payload == [] then Malformed else Payload(payload)
  {
    var stream := EncodeFrame(payload);
    FirstNewlineIs(stream, |payload|);
    ReadsExactly(stream, maximum, arrives);
    assert stream[..|payload|] == payload;
  }

  /** A peer that sends byte by byte, except that `burst` bytes come at once from the newline on. */
  function Trickle(newline: nat, burst: nat): nat -> nat {
    at => if at == newline then burst else 1
  }

  lemma {:induction false} TrickleReach(stream: seq<byte>, maximum: nat, at: nat, burst: nat)
    requires at <= FirstNewline(stream) && FirstNewline(stream) + burst <= |stream|
      && FirstNewline(stream) + burst <= maximum + 1
    requires 1 <= burst <= 2
    ensures Reach(stream, maximum, at, Trickle(FirstNewline(stream), burst)) == FirstNewline(stream) + burst
    decreases |stream| - at
  {
    var p := FirstNewline(stream);
    if at < p {
      TrickleReach(stream, maximum, at + 1, burst);
    } else {
      assert stream[..p + burst][p] == NEWLINE;
    }
  }

  /** Bytes after the newline are noticed in one chunking and never seen in another. */
  lemma TrailingBytesDependOnChunks(payload: seq<byte>, rest: seq<byte>, maximum: nat)
    requires NEWLINE !in payload && 0 < |payload| < maximum && rest != []
    ensures var stream := EncodeFrame(payload) + rest;
      && Judged(stream[..Reach(stream, maximum, 0, Trickle(|payload|, 1))], maximum) == Payload(payload)
      && Judged(stream[..Reach(stream, maximum, 0, Trickle(|payload|, 2))], maximum) == Malformed
  {
    var stream := EncodeFrame(payload) + rest;
    FirstNewlineIs(stream, |payload|);
    assert stream[..|payload|] == payload;
    forall burst | 1 <= burst <= 2
      ensures Reach(stream, maximum, 0, Trickle(|payload|, burst)) == |payload| + burst
    {
      TrickleReach(stream, maximum, 0, burst);
      ReadsExactly(stream, maximum, Trickle(|payload|, burst));
    }
    ReadsExactly(stream, maximum, Trickle(|payload|, 1));
    ReadsExactly(stream, maximum, Trickle(|payload|, 2));
  }
}
