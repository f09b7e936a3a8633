/** The bounded audit ledger: append, then drop the oldest lines that do not fit. */
module Audit {
  import opened Wrappers
  import opened Digests
  import opened Bytes

  type Line = seq<byte>

  const LF: byte := 10
  const CR: byte := 13

  datatype Bounds = Bounds(events: nat, bytes: nat)

  predicate ValidBounds(b: Bounds) {
    b.events >= 1 && b.bytes >= 1024
  }

  // ----- Lines of a file

  /** Where the first line ends, its terminator included: a line feed, a return, or both. */
  function LineEnd(s: seq<byte>): (n: nat)
    requires s != []
    ensures 1 <= n <= |s|
  {
    if s[0] == LF || |s| == 1 then 1
    else if s[0] == CR then (if s[1] == LF then 2 else 1)
    else 1 + LineEnd(s[1..])
  }

  function SplitLines(s: seq<byte>): seq<Line> {
    if s == [] then [] else [s[..LineEnd(s)]] + SplitLines(s[LineEnd(s)..])
  }

  function Join(lines: seq<Line>): seq<byte> {
    if lines == [] then [] else lines[0] + Join(lines[1..])
  }

  /** An encoded event contains no raw line break, so it is a line of its own once terminated. */
  predicate Plain(payload: seq<byte>) {
    payload != [] && LF !in payload && CR !in payload
  }

  predicate Whole(l: Line) {
    |l| >= 2 && l[|l| - 1] == LF && Plain(l[..|l| - 1])
  }

  ghost predicate AllWhole(lines: seq<Line>) {
    forall i :: 0 <= i < |lines| ==> Whole(lines[i])
  }

  /** A line ends here: after a line feed, after a carriage return without one, or with the text. */
  predicate EndsLine(s: seq<byte>, n: nat) {
    && 1 <= n <= |s|
    && (n == |s| || s[n - 1] == LF || (s[n - 1] == CR && s[n] != LF))
  }

  /** The first line is the shortest that ends, so a carriage return with its line feed ends one line. */
  lemma {:induction false} LineEndsFirst(s: seq<byte>, n: nat)
    requires s != []
    ensures n == LineEnd(s) <==> EndsLine(s, n) && forall k :: 1 <= k < n ==> !EndsLine(s, k)
  {
    LineEndIsFirst(s);
    if EndsLine(s, n) && n > LineEnd(s) {
      assert EndsLine(s, LineEnd(s));
    }
  }

  lemma {:induction false} LineEndIsFirst(s: seq<byte>)
    requires s != []
    ensures EndsLine(s, LineEnd(s)) && forall k :: 1 <= k < LineEnd(s) ==> !EndsLine(s, k)
  {
    if s[0] != LF && |s| > 1 && s[0] != CR {
      LineEndIsFirst(s[1..]);
      forall k | 1 <= k < LineEnd(s) ensures !EndsLine(s, k) {
        assert k > 1 ==> (EndsLine(s, k) <==> EndsLine(s[1..], k - 1));
      }
    }
  }

  lemma {:induction false} JoinOfSplit(s: seq<byte>)
    ensures Join(SplitLines(s)) == s
    decreases |s|
  {
    if s != [] {
      JoinOfSplit(s[LineEnd(s)..]);
      assert SplitLines(s)[1..] == SplitLines(s[LineEnd(s)..]);
    }
  }

  lemma {:induction false} EndOfWhole(l: Line, rest: seq<byte>)
    requires |l| >= 1 && l[|l| - 1] == LF && LF !in l[..|l| - 1] && CR !in l[..|l| - 1]
    ensures LineEnd(l + rest) == |l|
    decreases |l|
  {
    var s := l + rest;
    if |l| > 1 {
      assert l[0] in l[..|l| - 1];
      assert s[1..] == l[1..] + rest;
      assert l[1..][..|l| - 2] == l[..|l| - 1][1..];
      EndOfWhole(l[1..], rest);
    }
  }

  lemma {:induction false} SplitOfJoin(lines: seq<Line>)
    requires AllWhole(lines)
    ensures SplitLines(Join(lines)) == lines
    decreases |lines|
  {
    if lines != [] {
      var l, rest := lines[0], Join(lines[1..]);
      assert Whole(l);
      EndOfWhole(l, rest);
      SplitOfJoin(lines[1..]);
      assert (l + rest)[..|l|] == l && (l + rest)[|l|..] == rest;
    }
  }

  lemma {:induction false} JoinAppends(lines: seq<Line>, more: seq<Line>)
    ensures Join(lines + more) == Join(lines) + Join(more)
    decreases |lines|
  {
    if lines == [] {
      assert lines + more == more;
    } else {
      JoinAppends(lines[1..], more);
      assert (lines + more)[1..] == lines[1..] + more;
    }
  }

  // ----- Trimming

  function Total(lines: seq<Line>): nat {
    if lines == [] then 0 else |lines[0]| + Total(lines[1..])
  }

  predicate Fits(lines: seq<Line>, b: Bounds) {
    |lines| <= b.events && Total(lines) <= b.bytes
  }

  function Trim(lines: seq<Line>, b: Bounds): (r: seq<Line>)
    decreases |lines|
  {
    if lines == [] || Fits(lines, b) then lines else Trim(lines[1..], b)
  }

  lemma {:induction false} TotalOfSuffix(lines: seq<Line>, k: nat)
    requires k <= |lines|
    ensures Total(lines[k..]) <= Total(lines)
  {
    if k > 0 {
      assert lines[k..] == lines[1..][k - 1..];
      TotalOfSuffix(lines[1..], k - 1);
    }
  }

  /** How many lines trimming drops. */
  function Dropped(lines: seq<Line>, b: Bounds): nat
    decreases |lines|
  {
    if lines == [] || Fits(lines, b) then 0 else 1 + Dropped(lines[1..], b)
  }

  lemma {:induction false} TrimDrops(lines: seq<Line>, b: Bounds)
    ensures Dropped(lines, b) <= |lines| && Trim(lines, b) == lines[Dropped(lines, b)..]
    decreases |lines|
  {
    if lines != [] && !Fits(lines, b) {
      TrimDrops(lines[1..], b);
    }
  }

  lemma {:induction false} DropsLeast(lines: seq<Line>, b: Bounds, k: nat)
    requires k <= |lines|
    ensures Fits(lines[k..], b) <==> Dropped(lines, b) <= k
    decreases |lines|
  {
    if lines == [] || Fits(lines, b) {
      TotalOfSuffix(lines, k);
    } else if k == 0 {
      assert lines[0..] == lines;
    } else {
      DropsLeast(lines[1..], b, k - 1);
      assert lines[k..] == lines[1..][k - 1..];
    }
  }

  /** Trimming keeps the longest suffix that fits both bounds: a suffix fits exactly when it is no longer. */
  lemma TrimIsLongestSuffix(lines: seq<Line>, b: Bounds, k: nat)
    requires k <= |lines|
    ensures |Trim(lines, b)| <= |lines| && Trim(lines, b) == lines[|lines| - |Trim(lines, b)|..]
    ensures Fits(Trim(lines, b), b)
    ensures Fits(lines[k..], b) <==> |lines| - |Trim(lines, b)| <= k
  {
    TrimDrops(lines, b);
    DropsLeast(lines, b, k);
    DropsLeast(lines, b, Dropped(lines, b));
  }

  /** Only the longest fitting suffix is left by trimming. */
  lemma LongestSuffixIsTrim(lines: seq<Line>, b: Bounds, k: nat)
    requires k <= |lines| && Fits(lines[k..], b) && forall j :: 0 <= j < k ==> !Fits(lines[j..], b)
    ensures Trim(lines, b) == lines[k..]
  {
    TrimIsLongestSuffix(lines, b, k);
    TrimIsLongestSuffix(lines, b, |lines| - |Trim(lines, b)|);
  }

  /** Trimming before an append loses nothing that trimming once after it would keep. */
  lemma {:induction false} TrimIncrementally(lines: seq<Line>, more: seq<Line>, b: Bounds)
    ensures Trim(Trim(lines, b) + more, b) == Trim(lines + more, b)
    decreases |lines|
  {
    if lines != [] && !Fits(lines, b) {
      TrimIncrementally(lines[1..], more, b);
      assert (lines + more)[1..] == lines[1..] + more;
      TotalAppends(lines, more);
    }
  }

  lemma {:induction false} TotalAppends(lines: seq<Line>, more: seq<Line>)
    ensures Total(lines + more) == Total(lines) + Total(more)
    decreases |lines|
  {
    if lines == [] {
      assert lines + more == more;
    } else {
      TotalAppends(lines[1..], more);
      assert (lines + more)[1..] == lines[1..] + more;
    }
  }

  lemma SuffixIsWhole(lines: seq<Line>, b: Bounds)
    requires AllWhole(lines)
    ensures AllWhole(Trim(lines, b))
  {
    TrimIsLongestSuffix(lines, b, 0);
    var d := |lines| - |Trim(lines, b)|;
    forall i | 0 <= i < |Trim(lines, b)| ensures Whole(Trim(lines, b)[i]) {
      assert Trim(lines, b)[i] == lines[d + i];
    }
  }

  // ----- Whole runs

  function Terminated(payload: seq<byte>): Line {
    payload + [LF]
  }

  /** One `record`: refused when the line alone is over the bound, otherwise appended and trimmed. */
  function Recorded(content: seq<byte>, payload: seq<byte>, b: Bounds): seq<byte> {
    if |Terminated(payload)| > b.bytes then content
    else Join(Trim(SplitLines(content + Terminated(payload)), b))
  }

  function RecordAll(content: seq<byte>, payloads: seq<seq<byte>>, b: Bounds): seq<byte>
    decreases |payloads|
  {
    if payloads == [] then content else RecordAll(Recorded(content, payloads[0], b), payloads[1..], b)
  }

  /** The lines that a sequence of records writes. */
  function Written(payloads: seq<seq<byte>>, b: Bounds): seq<Line> {
    if payloads == [] then []
    else (if |Terminated(payloads[0])| > b.bytes then [] else [Terminated(payloads[0])]) + Written(payloads[1..], b)
  }

  lemma TerminatedIsWhole(payload: seq<byte>)
    requires Plain(payload)
    ensures Whole(Terminated(payload))
  {
    assert Terminated(payload)[..|payload|] == payload;
  }

  lemma RecordedLines(lines: seq<Line>, payload: seq<byte>, b: Bounds)
    requires AllWhole(lines) && Plain(payload) && |Terminated(payload)| <= b.bytes
    ensures Recorded(Join(lines), payload, b) == Join(Trim(lines + [Terminated(payload)], b))
    ensures AllWhole(lines + [Terminated(payload)])
  {
    var l := Terminated(payload);
    var one: seq<Line> := [l];
    TerminatedIsWhole(payload);
    JoinAppends(lines, one);
    assert one[1..] == [] && Join(one) == l;
    SplitOfJoin(lines + [l]);
  }

  /**
   After any number of records the ledger holds the longest suffix of all lines
   ever written that fits both bounds: trimming each time equals trimming once.
   */
  lemma {:induction false} LedgerIsLongestSuffix(lines: seq<Line>, payloads: seq<seq<byte>>, b: Bounds)
    requires AllWhole(lines) && forall i :: 0 <= i < |payloads| ==> Plain(payloads[i])
    ensures RecordAll(Join(Trim(lines, b)), payloads, b) == Join(Trim(lines + Written(payloads, b), b))
    decreases |payloads|
  {
    if payloads == [] {
      assert lines + [] == lines;
    } else if |Terminated(payloads[0])| > b.bytes {
      assert Written(payloads, b) == Written(payloads[1..], b);
      LedgerIsLongestSuffix(lines, payloads[1..], b);
    } else {
      RecordOne(lines, payloads[0], b);
      LedgerIsLongestSuffix(lines + [Terminated(payloads[0])], payloads[1..], b);
      WrittenMore(lines, payloads, b);
    }
  }

  lemma RecordOne(lines: seq<Line>, payload: seq<byte>, b: Bounds)
    requires AllWhole(lines) && Plain(payload) && |Terminated(payload)| <= b.bytes
    ensures Recorded(Join(Trim(lines, b)), payload, b) == Join(Trim(lines + [Terminated(payload)], b))
    ensures AllWhole(lines + [Terminated(payload)])
  {
    SuffixIsWhole(lines, b);
    RecordedLines(Trim(lines, b), payload, b);
    RecordedLines(lines, payload, b);
    TrimIncrementally(lines, [Terminated(payload)], b);
  }

  lemma WrittenMore(lines: seq<Line>, payloads: seq<seq<byte>>, b: Bounds)
    requires payloads != [] && |Terminated(payloads[0])| <= b.bytes
    ensures lines + [Terminated(payloads[0])] + Written(payloads[1..], b) == lines + Written(payloads, b)
  {
  }

  /** A line without its terminator. */
  function Strip(l: Line): seq<byte> {
    if l != [] && l[|l| - 1] == LF then
      (if |l| > 1 && l[|l| - 2] == CR then l[..|l| - 2] else l[..|l| - 1])
    else if l != [] && l[|l| - 1] == CR then l[..|l| - 1]
    else l
  }

  /** The events of a file: its lines, blank ones left out. */
  function Events(lines: seq<Line>): seq<seq<byte>> {
    if lines == [] then []
    else (if Strip(lines[0]) == [] then [] else [Strip(lines[0])]) + Events(lines[1..])
  }

  /** The byte does not end the line: at most it is a carriage return that the closing line feed follows. */
  predicate Inner(l: Line, k: nat) {
    k + 1 < |l| ==> l[k] != LF && (l[k] == CR ==> k + 2 == |l| && l[k + 1] == LF)
  }

  lemma FirstIsOneLine(s: seq<byte>, k: nat)
    requires s != []
    ensures Inner(s[..LineEnd(s)], k)
  {
    LineEndIsFirst(s);
    if k + 1 < LineEnd(s) {
      assert !EndsLine(s, k + 1);
      assert k + 2 < LineEnd(s) ==> !EndsLine(s, k + 2);
    }
  }

  /** How the line ends. */
  function Ending(l: Line): seq<byte> {
    l[|Strip(l)|..]
  }

  lemma StripSplits(l: Line)
    requires l != [] && forall k: nat :: Inner(l, k)
    ensures l == Strip(l) + Ending(l) && Ending(l) in {[], [LF], [CR], [CR, LF]}
    ensures LF !in Strip(l) && CR !in Strip(l)
  {
    var n := |Strip(l)|;
    assert n == |l| ==> Ending(l) == [];
    assert n == |l| - 1 ==> Ending(l) == [l[n]];
    assert n == |l| - 2 ==> Ending(l) == [l[n], l[n + 1]];
    forall k | 0 <= k < n ensures Strip(l)[k] != LF && Strip(l)[k] != CR {
      assert Inner(l, k);
    }
  }

  lemma OneSplit(l: Line, a: seq<byte>, x: seq<byte>, b: seq<byte>, y: seq<byte>)
    requires LF !in a && CR !in a && LF !in b && CR !in b
    requires l == a + x == b + y && (x == [] || x[0] in {LF, CR}) && (y == [] || y[0] in {LF, CR})
    ensures a == b
  {
    assert a == l[..|a|] && b == l[..|b|];
  }

  /** What the first line carries is all of it but what ended it. */
  lemma StripExactly(s: seq<byte>, payload: seq<byte>, ending: seq<byte>)
    requires s != [] && s[..LineEnd(s)] == payload + ending
    ensures payload == Strip(s[..LineEnd(s)]) <==>
      LF !in payload && CR !in payload && ending in {[], [LF], [CR], [CR, LF]}
  {
    hide Strip;
    var l := s[..LineEnd(s)];
    forall k: nat ensures Inner(l, k) {
      FirstIsOneLine(s, k);
    }
    StripSplits(l);
    if payload == Strip(l) {
      assert ending == l[|payload|..];
    } else if LF !in payload && CR !in payload && ending in {[], [LF], [CR], [CR, LF]} {
      OneSplit(l, payload, ending, Strip(l), Ending(l));
    }
  }

  lemma StripTerminated(payload: seq<byte>)
    requires Plain(payload)
    ensures Strip(Terminated(payload)) == payload
  {
    assert payload[|payload| - 1] in payload && Terminated(payload)[..|payload|] == payload;
  }

  predicate Stored(payloads: seq<seq<byte>>, lines: seq<Line>) {
    && |lines| == |payloads|
    && forall i :: 0 <= i < |payloads| ==> Plain(payloads[i]) && lines[i] == Terminated(payloads[i])
  }

  lemma {:induction false} EventsOfStored(payloads: seq<seq<byte>>, lines: seq<Line>)
    requires Stored(payloads, lines)
    ensures Events(lines) == payloads
    decreases |payloads|
  {
    if payloads != [] {
      StripTerminated(payloads[0]);
      EventsOfStored(payloads[1..], lines[1..]);
      assert payloads == [payloads[0]] + payloads[1..];
    }
  }

  /** Every event that is kept reads back as it was recorded, in order. */
  lemma EventsReadBack(payloads: seq<seq<byte>>, lines: seq<Line>)
    requires Stored(payloads, lines)
    ensures Events(SplitLines(Join(lines))) == payloads
  {
    forall i | 0 <= i < |lines| ensures Whole(lines[i]) {
      TerminatedIsWhole(payloads[i]);
    }
    SplitOfJoin(lines);
    EventsOfStored(payloads, lines);
  }

  /** The newest event is always kept. */
  lemma NewestIsKept(lines: seq<Line>, l: Line, b: Bounds)
    requires b.events >= 1 && |l| <= b.bytes
    ensures Trim(lines + [l], b) != [] && Trim(lines + [l], b)[|Trim(lines + [l], b)| - 1] == l
  {
    var all, one: seq<Line> := lines + [l], [l];
    assert all[|lines|..] == one && one[1..] == [];
    assert Total(one) == |l|;
    TrimIsLongestSuffix(all, b, |lines|);
  }

  // ----- What the user interface is shown

  /** One line of activity as shown: nothing in it names a person, a session or a secret. */
  datatype Activity = Activity(
    timestamp: string, capabilityId: string, actionClass: seq<string>, policyDecision: string, executionStatus: string)

  type Item = map<string, Json>

  function Field(item: Item, key: string): Json {
    if key in item then item[key] else JNull
  }

  function Text(v: Json): string {
    if v.JStr? then v.s else ""
  }

  /** The strings among these values, in order. */
  function Strings(items: seq<Json>): seq<string> {
    if items == [] then []
    else (if items[0].JStr? then [items[0].s] else []) + Strings(items[1..])
  }

  function FirstStrings(v: Json): seq<string> {
    var all := if v.JList? then Strings(v.items) else [];
    if |all| > 8 then all[..8] else all
  }

  function ExecutionStatus(event: string): string {
    if event == "execution_prepared" then "prepared"
    else if event == "execution_started" then "executing"
    else if event == "execution_completed" then "completed"
    else if event == "execution_denied" || event == "request_denied" then "denied"
    else if event == "execution_failed" then "failed"
    else "unknown"
  }

  function Projected(item: Item): Activity {
    Activity(Text(Field(item, "timestamp")), Text(Field(item, "capability_id")),
             FirstStrings(Field(item, "action_class")),
             Text(Field(item, "policy_decision")), ExecutionStatus(Text(Field(item, "event"))))
  }

  /** The only fields of a stored event that can influence what is shown. */
  const SHOWN_FIELDS: set<string> := {"timestamp", "capability_id", "action_class", "policy_decision", "event"}

  lemma {:induction false} StringsAreItems(items: seq<Json>, s: string)
    ensures s in Strings(items) <==> JStr(s) in items
    decreases |items|
  {
    if items != [] {
      StringsAreItems(items[1..], s);
      assert items == [items[0]] + items[1..];
    }
  }

  /** The text that an event has under this key, or nothing. */
  predicate Shows(shown: string, item: Item, key: string) {
    shown == if key in item && item[key].JStr? then item[key].s else ""
  }

  /** Each field of the activity is that field of the event, and its status says what happened to the request. */
  lemma ShownAsStored(item: Item)
    ensures var a := Projected(item);
      && Shows(a.timestamp, item, "timestamp") && Shows(a.capabilityId, item, "capability_id")
      && Shows(a.policyDecision, item, "policy_decision")
    ensures var status, event := Projected(item).executionStatus, Text(Field(item, "event"));
      && Shows(event, item, "event")
      && (status == "prepared" <==> event == "execution_prepared")
      && (status == "executing" <==> event == "execution_started")
      && (status == "completed" <==> event == "execution_completed")
      && (status == "denied" <==> event == "execution_denied" || event == "request_denied")
      && (status == "failed" <==> event == "execution_failed")
      && status in ["prepared", "executing", "completed", "denied", "failed", "unknown"]
  {
    StatusExactly(Text(Field(item, "event")));
  }

  lemma StatusExactly(event: string)
    ensures var status := ExecutionStatus(event);
      && (status == "prepared" <==> event == "execution_prepared")
      && (status == "executing" <==> event == "execution_started")
      && (status == "completed" <==> event == "execution_completed")
      && (status == "denied" <==> event == "execution_denied" || event == "request_denied")
      && (status == "failed" <==> event == "execution_failed")
      && status in ["prepared", "executing", "completed", "denied", "failed", "unknown"]
  {
  }

  lemma {:induction false} StringsOfTexts(items: seq<Json>, texts: seq<string>)
    requires |items| == |texts| && forall i :: 0 <= i < |items| ==> items[i] == JStr(texts[i])
    ensures Strings(items) == texts
    decreases |items|
  {
    if items != [] {
      StringsOfTexts(items[1..], texts[1..]);
      assert texts == [texts[0]] + texts[1..];
    }
  }

  /** The action classes of an event, as they are recorded, are shown in order, the first eight of them. */
  lemma FirstClassesAreShown(item: Item, texts: seq<string>)
    requires "action_class" in item && item["action_class"].JList? && |item["action_class"].items| == |texts|
    requires forall i :: 0 <= i < |texts| ==> item["action_class"].items[i] == JStr(texts[i])
    ensures Projected(item).actionClass == if |texts| <= 8 then texts else texts[..8]
  {
    StringsOfTexts(item["action_class"].items, texts);
  }

  /**
   Changing or removing any other field, such as the caller, the session or the
   request id, changes nothing that is shown; and what is shown of the action is
   at most eight strings of the event itself.
   */
  lemma IdentityIsNotShown(item: Item, other: Item)
    requires forall k :: k in SHOWN_FIELDS ==> Field(item, k) == Field(other, k)
    ensures Projected(item) == Projected(other)
    ensures |Projected(item).actionClass| <= 8
    ensures forall s :: s in Projected(item).actionClass ==>
      Field(item, "action_class").JList? && JStr(s) in Field(item, "action_class").items
  {
    assert forall k :: k in ["timestamp", "capability_id", "action_class", "policy_decision", "event"] ==>
      k in SHOWN_FIELDS;
    var v := Field(item, "action_class");
    forall s | s in Projected(item).actionClass ensures v.JList? && JStr(s) in v.items {
      if v.JList? {
        StringsAreItems(v.items, s);
      }
    }
  }

  /** The ledger object; `content` is its file. */
  class AuditLedger {
    const bounds: Bounds
    var content: seq<byte>

    constructor (bounds: Bounds, content: seq<byte>)
      requires ValidBounds(bounds)
      ensures this.bounds == bounds && this.content == content
    {
      this.bounds, this.content := bounds, content;
    }

    method TrimLocked()
      modifies this`content
      ensures content == Join(Trim(SplitLines(old(content)), bounds))
    {
      var lines := SplitLines(content);
      JoinOfSplit(content);
      while |lines| > bounds.events || Total(lines) > bounds.bytes
        invariant Trim(lines, bounds) == Trim(SplitLines(content), bounds)
        decreases |lines|
      {
        lines := lines[1..];
      }
      var retained := Join(lines);
      if retained == content {
        return;
      }
      content := retained;
    }

    /** Refuses an oversize event before writing; otherwise appends it and trims. */
    method Record(payload: seq<byte>) returns (ok: bool)
      modifies this`content
      ensures ok == (|payload| + 1 <= bounds.bytes)
      ensures content == Recorded(old(content), payload, bounds)
    {
      var encoded := payload + [LF];
      if |encoded| > bounds.bytes {
        return false;
      }
      content := content + encoded;
      TrimLocked();
      return true;
    }

    /** The newest `limit` events, newest first, each reduced to what may be shown; `decode` reads one line. */
    method SafeActivity(limit: int, decode: seq<byte> -> Item) returns (r: Option<seq<Activity>>)
      ensures r.Some? <==> 1 <= limit <= 100
      ensures r.Some? ==>
        var all := Events(SplitLines(content));
        && |r.value| == (if |all| < limit then |all| else limit)
        && (forall i :: 0 <= i < |r.value| ==> r.value[i] == Projected(decode(all[|all| - 1 - i])))
    {
      hide Projected, Events, SplitLines;
      if !(1 <= limit <= 100) {
        return None;
      }
      var all := Events(SplitLines(content));
      var events := if |all| < limit then all else all[|all| - limit..];
      var projected: seq<Activity> := [];
      var i := |events|;
      while i > 0
        invariant 0 <= i <= |events| && |projected| == |events| - i
        invariant forall k :: 0 <= k < |projected| ==> projected[k] == Projected(decode(events[|events| - 1 - k]))
      {
        i := i - 1;
        projected := projected + [Projected(decode(events[i]))];
      }
      return Some(projected);
    }
  }
}
