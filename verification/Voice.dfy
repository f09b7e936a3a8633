/** Ownership of the voice session and its bounded event buffer. */
module Voice {
  import opened Wrappers

  type Person = (string, string)

  datatype Kind =
    | VoiceStatus(status: string) | Partial(text: string) | Transcript(text: string)
    | VoiceError(code: string) | Reply(text: string) | PlaybackComplete

  datatype Event = Event(sequence: nat, kind: Kind)

  /** `log` and `running` are history: every event ever appended, and the turns started and not yet ended. */
  datatype Session = Session(
    owner: Option<Person>, active: bool, turn: bool, timer: bool,
    sequence: nat, events: seq<Event>, log: seq<Event>, running: nat)

  datatype Settings = Settings(enabled: bool, approved: bool, capacity: nat)

  const SILENT := Session(None, false, false, false, 0, [], [], 0)

  /** What the backend may call, from its own threads or from inside a call to it. Blank text is ignored earlier. */
  datatype Callback =
    | OnPartial(text: string) | OnTranscript(text: string) | OnStatus(status: string)
    | OnSilentLimit | OnStopPhrase

  /** Each step is one section under the lock; `during` is what the backend calls back while it holds. */
  datatype Op =
    | Start(who: Person, during: seq<Callback>, fails: bool)
    | Stop(who: Person, during: seq<Callback>, fails: bool)
    | Shutdown(during: seq<Callback>)
    | Call(callback: Callback)
    | TurnFailed(code: string)
    | TurnReplied(text: string)
    | TurnSpoken
    | TurnEnded
    | FollowUpExpired

  function LastOf<T>(s: seq<T>, n: nat): seq<T> {
    if |s| <= n then s else s[|s| - n..]
  }

  function Append(s: Session, n: nat, kind: Kind): Session {
    var e := Event(s.sequence + 1, kind);
    s.(sequence := s.sequence + 1, events := LastOf(s.events + [e], n), log := s.log + [e])
  }

  function ReleaseIfIdle(s: Session): Session {
    if s.active then s else s.(owner := None)
  }

  /** A transcript starts a turn unless one is thought to be running. */
  function Heard(s: Session, n: nat, text: string): Session {
    if text == "" || !s.active then s
    else
      var t := Append(s.(timer := false), n, Transcript(text));
      if t.turn then Append(t, n, VoiceError("voice_turn_busy"))
      else if t.owner.None? then Append(t, n, VoiceError("voice_session_mismatch"))
      else t.(turn := true, running := t.running + 1)
  }

  function Called(s: Session, n: nat, c: Callback): Session {
    match c
    case OnPartial(text) => if text != "" && s.active && !s.turn then Append(s, n, Partial(text)) else s
    case OnTranscript(text) => Heard(s, n, text)
    case OnStatus(status) =>
      Append(if status == "idle" then s.(timer := false) else s, n, VoiceStatus(status))
    case OnStopPhrase => ReleaseIfIdle(Append(s.(active := false), n, VoiceStatus("stopped_by_phrase")))
    case OnSilentLimit =>
      if !s.active then s.(timer := false)
      else ReleaseIfIdle(Append(s.(timer := false, active := false), n, VoiceStatus("idle")))
  }

  function CalledAll(s: Session, n: nat, during: seq<Callback>): Session
    decreases |during|
  {
    if during == [] then s else CalledAll(Called(s, n, during[0]), n, during[1..])
  }

  function Started(s: Session, c: Settings, who: Person, during: seq<Callback>, fails: bool): (Session, Result<()>) {
    if !c.enabled then (s, Err("voice_disabled"))
    else if !c.approved then (s, Err("voice_activation_not_approved"))
    else if s.owner.Some? && s.owner != Some(who) then (s, Err("voice_session_mismatch"))
    else
      var claimed := s.(owner := Some(who));
      if claimed.active then (claimed, Ok(()))
      else
        var t := CalledAll(claimed, c.capacity, during);
        if fails then (ReleaseIfIdle(t), Err("voice_start_failed"))
        else (Append(t.(active := true), c.capacity, VoiceStatus("listening")), Ok(()))
  }

  function Stopped(s: Session, c: Settings, who: Person, during: seq<Callback>, fails: bool): (Session, Result<()>) {
    if s.owner != Some(who) then (s, Err("voice_session_mismatch"))
    else
      var t := if s.active then CalledAll(s, c.capacity, during) else s;
      if s.active && fails then (t, Err("voice_stop_failed"))
      else (ReleaseIfIdle(Append(t.(active := false, turn := false, timer := false), c.capacity, VoiceStatus("idle"))),
            Ok(()))
  }

  function ShutDown(s: Session, c: Settings, during: seq<Callback>): Session {
    (if s.active then CalledAll(s, c.capacity, during)
     else s).(active := false, turn := false, timer := false, owner := None)
  }

  function Expired(s: Session, n: nat): Session {
    if !s.active || s.turn then s
    else ReleaseIfIdle(Append(s.(active := false), n, VoiceStatus("idle"))).(timer := false)
  }

  function Step(s: Session, c: Settings, op: Op): Session {
    match op
    case Start(who, during, fails) => Started(s, c, who, during, fails).0
    case Stop(who, during, fails) => Stopped(s, c, who, during, fails).0
    case Shutdown(during) => ShutDown(s, c, during)
    case Call(callback) => Called(s, c.capacity, callback)
    case TurnFailed(code) => if s.running == 0 then s else Append(s, c.capacity, VoiceError(code))
    case TurnReplied(text) => if s.running == 0 || !s.active then s else Append(s, c.capacity, Reply(text))
    case TurnSpoken => if s.running == 0 || !s.active then s
      else Append(s, c.capacity, PlaybackComplete).(timer := true)
    case TurnEnded => if s.running == 0 then s else s.(turn := false, running := s.running - 1)
    case FollowUpExpired => Expired(s, c.capacity)
  }

  function Run(s: Session, c: Settings, ops: seq<Op>): Session
    decreases |ops|
  {
    if ops == [] then s else Run(Step(s, c, ops[0]), c, ops[1..])
  }

  // ----- Ownership

  predicate Owned(s: Session) {
    s.owner.Some? <==> s.active
  }

  /** Starting a silent session while the backend itself reports a stop phrase. */
  predicate StopsItself(s: Session, c: Settings, op: Op) {
    && op.Start? && c.enabled && c.approved && (s.owner.None? || s.owner == Some(op.who))
    && !s.active && !op.fails && OnStopPhrase in op.during
  }

  lemma {:induction false} CallbacksKeepOwned(s: Session, n: nat, during: seq<Callback>)
    requires Owned(s)
    ensures Owned(CalledAll(s, n, during))
    decreases |during|
  {
    if during != [] {
      CallbacksKeepOwned(Called(s, n, during[0]), n, during[1..]);
    }
  }

  /** While a start is under way, voice stays inactive, and only a stop phrase gives the claim away. */
  lemma {:induction false} CallbacksDuringStart(s: Session, n: nat, during: seq<Callback>)
    requires !s.active
    ensures !CalledAll(s, n, during).active
    ensures CalledAll(s, n, during).owner == if OnStopPhrase in during then None else s.owner
    decreases |during|
  {
    if during != [] {
      CallbacksDuringStart(Called(s, n, during[0]), n, during[1..]);
    }
  }

  /** A step keeps "there is an owner exactly when voice is active", except exactly when a start stops itself. */
  lemma StepKeepsOwned(s: Session, c: Settings, op: Op)
    requires Owned(s)
    ensures Owned(Step(s, c, op)) <==> !StopsItself(s, c, op)
  {
    match op
    case Start(who, during, fails) =>
      if !s.active {
        CallbacksDuringStart(s.(owner := Some(who)), c.capacity, during);
      }
    case Stop(who, during, fails) => CallbacksKeepOwned(s, c.capacity, during);
    case Shutdown(during) => CallbacksKeepOwned(s, c.capacity, during);
    case _ =>
  }

  predicate StopsNever(s: Session, c: Settings, ops: seq<Op>)
    decreases |ops|
  {
    ops == [] || (!StopsItself(s, c, ops[0]) && StopsNever(Step(s, c, ops[0]), c, ops[1..]))
  }

  lemma {:induction false} RunKeepsOwned(s: Session, c: Settings, ops: seq<Op>)
    requires Owned(s) && StopsNever(s, c, ops)
    ensures Owned(Run(s, c, ops))
    decreases |ops|
  {
    if ops != [] {
      StepKeepsOwned(s, c, ops[0]);
      RunKeepsOwned(Step(s, c, ops[0]), c, ops[1..]);
    }
  }

  /** While there is an owner, nobody else's start or stop succeeds, or changes anything. */
  lemma OthersAreRefused(s: Session, c: Settings, who: Person, during: seq<Callback>, fails: bool)
    requires s.owner.Some? && s.owner != Some(who)
    ensures Started(s, c, who, during, fails).0 == s && Started(s, c, who, during, fails).1.Err?
    ensures Stopped(s, c, who, during, fails) == (s, Err("voice_session_mismatch"))
  {
  }

  /** A transcript is only taken up for an owner: the mismatch report is never made in an owned session. */
  lemma TranscriptHasOwner(s: Session, n: nat, text: string)
    requires Owned(s)
    ensures Heard(s, n, text).running > s.running <==> text != "" && s.active && !s.turn
    ensures Heard(s, n, text).running > s.running ==> s.owner.Some? && Heard(s, n, text).turn
    ensures forall e :: e in Heard(s, n, text).log && e !in s.log ==> e.kind != VoiceError("voice_session_mismatch")
  {
  }

  // ----- Turns

  lemma {:induction false} CallbacksKeepTurns(s: Session, n: nat, during: seq<Callback>)
    requires s.turn ==> s.running >= 1
    ensures CalledAll(s, n, during).turn ==> CalledAll(s, n, during).running >= 1
    decreases |during|
  {
    if during != [] {
      CallbacksKeepTurns(Called(s, n, during[0]), n, during[1..]);
    }
  }

  /** The turn flag never outlives the turns. */
  lemma StepKeepsTurns(s: Session, c: Settings, op: Op)
    requires s.turn ==> s.running >= 1
    ensures Step(s, c, op).turn ==> Step(s, c, op).running >= 1
  {
    match op
    case Start(who, during, fails) => CallbacksKeepTurns(s.(owner := Some(who)), c.capacity, during);
    case Stop(_, during, _) => CallbacksKeepTurns(s, c.capacity, during);
    case _ =>
  }

  /** The flag is set exactly while one turn runs, and no other turn does. */
  predicate OneTurn(s: Session) {
    s.running == if s.turn then 1 else 0
  }

  /** A stop that succeeds, or a shutdown, while the backend's callbacks have left a turn running. */
  predicate Abandons(s: Session, c: Settings, op: Op) {
    match op
    case Stop(who, during, fails) =>
      s.owner == Some(who) && (if s.active then !fails && CalledAll(s, c.capacity, during).turn else s.turn)
    case Shutdown(during) => if s.active then CalledAll(s, c.capacity, during).turn else s.turn
    case _ => false
  }

  lemma {:induction false} CallbacksKeepOneTurn(s: Session, n: nat, during: seq<Callback>)
    requires OneTurn(s)
    ensures OneTurn(CalledAll(s, n, during))
    decreases |during|
  {
    if during != [] {
      CallbacksKeepOneTurn(Called(s, n, during[0]), n, during[1..]);
    }
  }

  /** One step leaves at most one turn running, marked as such, exactly unless it abandons a running one. */
  lemma StepKeepsOneTurn(s: Session, c: Settings, op: Op)
    requires OneTurn(s)
    ensures OneTurn(Step(s, c, op)) <==> !Abandons(s, c, op)
  {
    match op
    case Start(who, during, _) => CallbacksKeepOneTurn(s.(owner := Some(who)), c.capacity, during);
    case Stop(_, during, _) => CallbacksKeepOneTurn(s, c.capacity, during);
    case Shutdown(during) => CallbacksKeepOneTurn(s, c.capacity, during);
    case _ =>
  }

  /** The run, cut off just before the first step that abandons a turn. */
  function UntilAbandoned(s: Session, c: Settings, ops: seq<Op>): (k: nat)
    ensures k <= |ops|
    decreases |ops|
  {
    if ops == [] || Abandons(s, c, ops[0]) then 0 else 1 + UntilAbandoned(Step(s, c, ops[0]), c, ops[1..])
  }

  /** Along any run turns stay one at a time up to the first step that abandons one, and that step ends it. */
  lemma {:induction false} TurnsOverlapOnlyAfterAbandoning(s: Session, c: Settings, ops: seq<Op>, k: nat)
    requires OneTurn(s) && k <= |ops| && k <= UntilAbandoned(s, c, ops) + 1
    ensures OneTurn(Run(s, c, ops[..k])) <==> k <= UntilAbandoned(s, c, ops)
    decreases |ops|
  {
    if k > 0 {
      StepKeepsOneTurn(s, c, ops[0]);
      assert ops[..k][0] == ops[0] && ops[..k][1..] == ops[1..][..k - 1];
      if Abandons(s, c, ops[0]) {
        assert k == 1;
      } else {
        TurnsOverlapOnlyAfterAbandoning(Step(s, c, ops[0]), c, ops[1..], k - 1);
      }
    }
  }

  /** After a stop that abandons a turn, a second turn can indeed start while the first still runs. */
  lemma TurnsMayOverlap(c: Settings, who: Person)
    requires c.enabled && c.approved
    ensures exists ops: seq<Op> :: StopsNever(SILENT, c, ops) && Run(SILENT, c, ops).running == 2
  {
    var one := [Start(who, [], false), Call(OnTranscript("a"))];
    var two := [Start(who, [], false), Call(OnTranscript("b"))];
    var s1 := Step(SILENT, c, one[0]);
    var s2 := Step(s1, c, one[1]);
    var s3 := Step(s2, c, Stop(who, [], false));
    var s4 := Step(s3, c, two[0]);
    var s5 := Step(s4, c, two[1]);
    assert s2.running == 1 && s3.running == 1 && !s3.turn && s5.running == 2;
    var ops := [one[0], one[1], Stop(who, [], false), two[0], two[1]];
    RunFive(SILENT, c, ops);
  }

  lemma RunFive(s: Session, c: Settings, ops: seq<Op>)
    requires |ops| == 5
    ensures var s1 := Step(s, c, ops[0]);
      var s2 := Step(s1, c, ops[1]);
      var s3 := Step(s2, c, ops[2]);
      var s4 := Step(s3, c, ops[3]);
      && Run(s, c, ops) == Step(s4, c, ops[4])
      && (StopsNever(s, c, ops) <==>
            !StopsItself(s, c, ops[0]) && !StopsItself(s1, c, ops[1]) && !StopsItself(s2, c, ops[2])
            && !StopsItself(s3, c, ops[3]) && !StopsItself(s4, c, ops[4]))
  {
    var r1 := ops[1..];
    var r2 := r1[1..];
    var r3 := r2[1..];
    var r4 := r3[1..];
    assert r1[0] == ops[1] && r2[0] == ops[2] && r3[0] == ops[3] && r4[0] == ops[4] && r4[1..] == [];
    var s1 := Step(s, c, ops[0]);
    var s2 := Step(s1, c, r1[0]);
    var s3 := Step(s2, c, r2[0]);
    var s4 := Step(s3, c, r3[0]);
    assert Run(s, c, ops) == Run(s1, c, r1) && Run(s1, c, r1) == Run(s2, c, r2);
    assert Run(s2, c, r2) == Run(s3, c, r3) && Run(s3, c, r3) == Run(s4, c, r4);
    assert Run(s4, c, r4) == Step(s4, c, r4[0]);
    assert StopsNever(s4, c, r4) <==> !StopsItself(s4, c, r4[0]);
    assert StopsNever(s2, c, r2) <==> !StopsItself(s2, c, r2[0]) && !StopsItself(s3, c, r3[0]) && StopsNever(s4, c, r4);
  }

  // ----- The event buffer

  /** Events are numbered from one without gaps, and the buffer holds the last of them. */
  ghost predicate Buffered(s: Session, n: nat) {
    && s.sequence == |s.log|
    && (forall i :: 0 <= i < |s.log| ==> s.log[i].sequence == i + 1)
    && s.events == LastOf(s.log, n)
  }

  lemma AppendKeepsBuffered(s: Session, n: nat, kind: Kind)
    requires Buffered(s, n)
    ensures Buffered(Append(s, n, kind), n)
  {
    var e := Event(s.sequence + 1, kind);
    assert LastOf(LastOf(s.log, n) + [e], n) == LastOf(s.log + [e], n);
  }

  lemma HeardKeepsBuffered(s: Session, n: nat, text: string)
    requires Buffered(s, n)
    ensures Buffered(Heard(s, n, text), n)
  {
    var t := Append(s.(timer := false), n, Transcript(text));
    AppendKeepsBuffered(s.(timer := false), n, Transcript(text));
    if t.turn {
      AppendKeepsBuffered(t, n, VoiceError("voice_turn_busy"));
    } else if t.owner.None? {
      AppendKeepsBuffered(t, n, VoiceError("voice_session_mismatch"));
    }
  }

  lemma CalledKeepsBuffered(s: Session, n: nat, c: Callback)
    requires Buffered(s, n)
    ensures Buffered(Called(s, n, c), n)
  {
    match c
    case OnPartial(text) => AppendKeepsBuffered(s, n, Partial(text));
    case OnTranscript(text) => HeardKeepsBuffered(s, n, text);
    case OnStatus(status) =>
      AppendKeepsBuffered(if status == "idle" then s.(timer := false) else s, n, VoiceStatus(status));
    case OnStopPhrase => AppendKeepsBuffered(s.(active := false), n, VoiceStatus("stopped_by_phrase"));
    case OnSilentLimit => AppendKeepsBuffered(s.(timer := false, active := false), n, VoiceStatus("idle"));
  }

  lemma {:induction false} CallbacksKeepBuffered(s: Session, n: nat, during: seq<Callback>)
    requires Buffered(s, n)
    ensures Buffered(CalledAll(s, n, during), n)
    decreases |during|
  {
    if during != [] {
      CalledKeepsBuffered(s, n, during[0]);
      CallbacksKeepBuffered(Called(s, n, during[0]), n, during[1..]);
    }
  }

  lemma StepKeepsBuffered(s: Session, c: Settings, op: Op)
    requires Buffered(s, c.capacity)
    ensures Buffered(Step(s, c, op), c.capacity)
  {
    var n := c.capacity;
    match op
    case Start(who, during, fails) =>
      var claimed := s.(owner := Some(who));
      CallbacksKeepBuffered(claimed, n, during);
      AppendKeepsBuffered(CalledAll(claimed, n, during).(active := true), n, VoiceStatus("listening"));
    case Stop(who, during, fails) =>
      CallbacksKeepBuffered(s, n, during);
      var t := if s.active then CalledAll(s, n, during) else s;
      AppendKeepsBuffered(t.(active := false, turn := false, timer := false), n, VoiceStatus("idle"));
    case Shutdown(during) => CallbacksKeepBuffered(s, n, during);
    case Call(callback) => CalledKeepsBuffered(s, n, callback);
    case TurnFailed(code) => AppendKeepsBuffered(s, n, VoiceError(code));
    case TurnReplied(text) => AppendKeepsBuffered(s, n, Reply(text));
    case TurnSpoken => AppendKeepsBuffered(s, n, PlaybackComplete);
    case TurnEnded =>
    case FollowUpExpired => AppendKeepsBuffered(s.(active := false), n, VoiceStatus("idle"));
  }

  /** In every run the buffer is exactly the last `capacity` events, numbered consecutively. */
  lemma {:induction false} RunKeepsBuffered(s: Session, c: Settings, ops: seq<Op>)
    requires Buffered(s, c.capacity)
    ensures Buffered(Run(s, c, ops), c.capacity)
    decreases |ops|
  {
    if ops != [] {
      StepKeepsBuffered(s, c, ops[0]);
      RunKeepsBuffered(Step(s, c, ops[0]), c, ops[1..]);
    }
  }

  function Newer(events: seq<Event>, after: nat): seq<Event> {
    if events == [] then []
    else (if events[0].sequence > after then [events[0]] else []) + Newer(events[1..], after)
  }

  function Poll(s: Session, after: nat, limit: nat): seq<Event> {
    var newer := Newer(s.events, after);
    if |newer| <= limit then newer else newer[..limit]
  }

  lemma {:induction false} NewerIsSuffix(events: seq<Event>, first: nat, after: nat)
    requires forall i :: 0 <= i < |events| ==> events[i].sequence == first + i + 1
    ensures Newer(events, after) == events[Min(Max(after, first) - first, |events|)..]
    decreases |events|
  {
    if events != [] {
      NewerIsSuffix(events[1..], first + 1, after);
    }
  }

  function FirstOf(s: Session, after: nat): (start: nat)
    requires |s.events| <= |s.log|
    ensures start <= |s.log|
  {
    Min(Max(after, |s.log| - |s.events|), |s.log|)
  }

  lemma BufferIsTail(s: Session, n: nat)
    requires Buffered(s, n)
    ensures |s.events| <= |s.log| && s.events == s.log[|s.log| - |s.events|..]
  {
  }

  lemma BufferIsNumbered(s: Session, n: nat)
    requires Buffered(s, n)
    ensures |s.events| <= |s.log|
    ensures forall i :: 0 <= i < |s.events| ==> s.events[i].sequence == |s.log| - |s.events| + i + 1
  {
  }

  lemma NewerOfBuffer(s: Session, n: nat, after: nat)
    requires Buffered(s, n)
    ensures |s.events| <= |s.log|
    ensures Newer(s.events, after) == s.events[FirstOf(s, after) - (|s.log| - |s.events|)..]
  {
    BufferIsNumbered(s, n);
    NewerIsSuffix(s.events, |s.log| - |s.events|, after);
  }

  lemma TailOfTail(log: seq<Event>, dropped: nat, k: nat)
    requires dropped <= |log| && k <= |log| - dropped
    ensures log[dropped..][k..] == log[dropped + k..]
  {
  }

  lemma FrontOfTail(log: seq<Event>, k: nat, limit: nat)
    requires k <= |log| && limit <= |log| - k
    ensures log[k..][..limit] == log[k..k + limit]
  {
  }

  lemma SliceOfPrefix(log: seq<Event>, later: seq<Event>, i: nat, j: nat)
    requires log <= later && i <= j <= |log|
    ensures log[i..j] == later[i..j]
  {
  }

  lemma NewerIsTail(s: Session, n: nat, after: nat)
    requires Buffered(s, n)
    ensures |s.events| <= |s.log| && Newer(s.events, after) == s.log[FirstOf(s, after)..]
  {
    NewerOfBuffer(s, n, after);
    BufferIsTail(s, n);
    TailOfTail(s.log, |s.log| - |s.events|, FirstOf(s, after) - (|s.log| - |s.events|));
  }

  /**
   A poll returns a slice of everything that ever happened: it begins right after
   the cursor, or after what the buffer has dropped, and has no gaps.
   */
  lemma PollIsSlice(s: Session, n: nat, after: nat, limit: nat)
    requires Buffered(s, n)
    ensures |s.events| <= |s.log|
    ensures Poll(s, after, limit) == s.log[FirstOf(s, after)..Min(FirstOf(s, after) + limit, |s.log|)]
  {
    NewerIsTail(s, n, after);
    FrontOfTail(s.log, FirstOf(s, after), Min(limit, |s.log| - FirstOf(s, after)));
  }

  /** Where a reader continues after a poll. */
  function Cursor(after: nat, page: seq<Event>): nat {
    if page == [] then after else page[|page| - 1].sequence
  }

  lemma {:induction false} CallbacksGrowLog(s: Session, n: nat, during: seq<Callback>)
    ensures s.log <= CalledAll(s, n, during).log
    decreases |during|
  {
    if during != [] {
      CallbacksGrowLog(Called(s, n, during[0]), n, during[1..]);
    }
  }

  lemma StepGrowsLog(s: Session, c: Settings, op: Op)
    ensures s.log <= Step(s, c, op).log
  {
    match op
    case Start(who, during, _) => CallbacksGrowLog(s.(owner := Some(who)), c.capacity, during);
    case Stop(_, during, _) => CallbacksGrowLog(s, c.capacity, during);
    case Shutdown(during) => CallbacksGrowLog(s, c.capacity, during);
    case _ =>
  }

  /** Nothing that happened is ever taken back. */
  lemma {:induction false} RunGrowsLog(s: Session, c: Settings, ops: seq<Op>)
    ensures s.log <= Run(s, c, ops).log
    decreases |ops|
  {
    if ops != [] {
      StepGrowsLog(s, c, ops[0]);
      RunGrowsLog(Step(s, c, ops[0]), c, ops[1..]);
    }
  }

  /** How many of the oldest events the buffer no longer holds. */
  function DroppedOf(s: Session): nat {
    if |s.events| <= |s.log| then |s.log| - |s.events| else 0
  }

  /** `page` is a gapless slice of `log` from `start` on. */
  predicate IsSlice(page: seq<Event>, log: seq<Event>, start: nat) {
    start + |page| <= |log| && page == log[start..start + |page|]
  }

  lemma PageIs(s: Session, n: nat, after: nat, limit: nat)
    requires Buffered(s, n) && after <= |s.log|
    ensures var page, start := Poll(s, after, limit), Max(after, DroppedOf(s));
      && IsSlice(page, s.log, start) && |page| == Min(limit, |s.log| - start)
      && Cursor(after, page) == if page == [] then after else start + |page|
  {
    PollIsSlice(s, n, after, limit);
    var page := Poll(s, after, limit);
    if page != [] {
      assert page[|page| - 1] == s.log[FirstOf(s, after) + |page| - 1];
    }
  }

  /** Where a page begins, how long it is, and where the reader stands after it, seen from any later state. */
  ghost predicate IsPage(page: seq<Event>, s: Session, later: Session, after: nat, limit: nat) {
    var start := Max(after, DroppedOf(s));
    && start <= |s.log| && |page| == Min(limit, |s.log| - start)
    && IsSlice(page, later.log, start)
    && Cursor(after, page) == if page == [] then after else start + |page|
  }

  lemma PageStays(s: Session, later: Session, n: nat, after: nat, limit: nat)
    requires Buffered(s, n) && after <= |s.log| && s.log <= later.log
    ensures IsPage(Poll(s, after, limit), s, later, after, limit)
  {
    PageIs(s, n, after, limit);
    var page, start := Poll(s, after, limit), Max(after, DroppedOf(s));
    SliceOfPrefix(s.log, later.log, start, start + |page|);
  }

  /**
   Two pages of a reader who polls on from the last event seen, with any run in
   between: both are gapless slices of everything that happened, and the second
   begins where the first ended, or at the oldest event still held if the buffer
   has dropped past it. So no event comes twice, and only dropped ones are missed.
   */
  lemma NextPageContinues(s: Session, c: Settings, ops: seq<Op>, after: nat, limit: nat, limit': nat)
    requires Buffered(s, c.capacity) && after <= |s.log|
    ensures var later, page := Run(s, c, ops), Poll(s, after, limit);
      && IsPage(page, s, later, after, limit)
      && IsPage(Poll(later, Cursor(after, page), limit'), later, later, Cursor(after, page), limit')
  {
    var later, page := Run(s, c, ops), Poll(s, after, limit);
    RunGrowsLog(s, c, ops);
    RunKeepsBuffered(s, c, ops);
    PageStays(s, later, c.capacity, after, limit);
    PageStays(later, later, c.capacity, Cursor(after, page), limit');
  }

  /** The coordinator object; each method is one section under its lock. */
  class VoiceCoordinator {
    const settings: Settings
    var owner: Option<Person>
    var active: bool
    var turn: bool
    var timer: bool
    var sequence: nat
    var events: seq<Event>
    ghost var log: seq<Event>
    ghost var running: nat

    ghost function View(): Session
      reads this
    {
      Session(owner, active, turn, timer, sequence, events, log, running)
    }

    constructor (settings: Settings)
      ensures View() == SILENT && this.settings == settings
    {
      this.settings := settings;
      owner, active, turn, timer, sequence, events := None, false, false, false, 0, [];
      log, running := [], 0;
    }

    method AppendEvent(kind: Kind)
      modifies this
      ensures View() == Append(old(View()), settings.capacity, kind)
    {
      sequence := sequence + 1;
      events := events + [Event(sequence, kind)];
      if |events| > settings.capacity {
        events := events[|events| - settings.capacity..];
      }
      log := log + [Event(sequence, kind)];
    }

    method Release()
      modifies this`owner
      ensures View() == ReleaseIfIdle(old(View()))
    {
      if !active {
        owner := None;
      }
    }

    method Hear(text: string)
      modifies this
      ensures View() == Heard(old(View()), settings.capacity, text)
    {
      if text == "" || !active {
        return;
      }
      timer := false;
      AppendEvent(Transcript(text));
      if turn {
        AppendEvent(VoiceError("voice_turn_busy"));
        return;
      }
      if owner.None? {
        AppendEvent(VoiceError("voice_session_mismatch"));
        return;
      }
      turn := true;
      running := running + 1;
    }

    method Take(c: Callback)
      modifies this
      ensures View() == Called(old(View()), settings.capacity, c)
    {
      match c
      case OnPartial(text) =>
        if text != "" && active && !turn {
          AppendEvent(Partial(text));
        }
      case OnTranscript(text) => Hear(text);
      case OnStatus(status) =>
        if status == "idle" {
          timer := false;
        }
        AppendEvent(VoiceStatus(status));
      case OnStopPhrase =>
        active := false;
        AppendEvent(VoiceStatus("stopped_by_phrase"));
        Release();
      case OnSilentLimit =>
        timer := false;
        if active {
          active := false;
          AppendEvent(VoiceStatus("idle"));
          Release();
        }
    }

    /** What a call into the backend triggers before it returns. */
    method TakeAll(during: seq<Callback>)
      modifies this
      ensures View() == CalledAll(old(View()), settings.capacity, during)
    {
      ghost var before := View();
      for i := 0 to |during|
        invariant CalledAll(View(), settings.capacity, during[i..]) == CalledAll(before, settings.capacity, during)
      {
        assert during[i..][1..] == during[i + 1..];
        Take(during[i]);
      }
      assert during[|during|..] == [];
    }

    method StartVoice(who: Person, during: seq<Callback>, fails: bool) returns (r: Result<()>)
      modifies this
      ensures (View(), r) == Started(old(View()), settings, who, during, fails)
    {
      if !settings.enabled {
        return Err("voice_disabled");
      }
      if !settings.approved {
        return Err("voice_activation_not_approved");
      }
      if owner.Some? && owner != Some(who) {
        return Err("voice_session_mismatch");
      }
      owner := Some(who);
      if active {
        return Ok(());
      }
      TakeAll(during);
      if fails {
        Release();
        return Err("voice_start_failed");
      }
      active := true;
      AppendEvent(VoiceStatus("listening"));
      return Ok(());
    }

    method StopVoice(who: Person, during: seq<Callback>, fails: bool) returns (r: Result<()>)
      modifies this
      ensures (View(), r) == Stopped(old(View()), settings, who, during, fails)
    {
      if owner != Some(who) {
        return Err("voice_session_mismatch");
      }
      if active {
        TakeAll(during);
        if fails {
          return Err("voice_stop_failed");
        }
      }
      active, turn, timer := false, false, false;
      AppendEvent(VoiceStatus("idle"));
      Release();
      return Ok(());
    }

    method DoShutdown(during: seq<Callback>)
      modifies this
      ensures View() == ShutDown(old(View()), settings, during)
    {
      if active {
        TakeAll(during);
      }
      active, turn, timer := false, false, false;
      owner := None;
    }

    method ExpireFollowUp()
      modifies this
      ensures View() == Expired(old(View()), settings.capacity)
    {
      if !active || turn {
        return;
      }
      active := false;
      AppendEvent(VoiceStatus("idle"));
      Release();
      timer := false;
    }

    /** A page of events for the owner, or for anyone while nobody owns the session. */
    method Events(who: Person, after: int, limit: int) returns (r: Result<seq<Event>>)
      ensures r == if after < 0 || !(1 <= limit <= 100) then Err("malformed_payload")
                   else if owner.Some? && owner != Some(who) then Err("voice_session_mismatch")
                   else Ok(Poll(View(), after, limit))
    {
      if after < 0 || !(1 <= limit <= 100) {
        return Err("malformed_payload");
      }
      if owner.Some? && owner != Some(who) {
        return Err("voice_session_mismatch");
      }
      var page := Newer(events, after);
      return Ok(if |page| <= limit then page else page[..limit]);
    }
  }
}
