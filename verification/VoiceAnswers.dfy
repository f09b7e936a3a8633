/** What each voice call and callback leaves: who owns the session, whether it is active, and what is recorded. */
module VoiceAnswers {
  import opened Wrappers
  import opened Voice

  /** Exactly these kinds of events were recorded on top of what was there. */
  predicate Records(s: Session, t: Session, kinds: seq<Kind>) {
    && |t.log| == |s.log| + |kinds| && t.log[..|s.log|] == s.log
    && forall i :: 0 <= i < |kinds| ==> t.log[|s.log| + i].kind == kinds[i]
  }

  /** Apart from the events, only these parts of the session may differ. */
  predicate Rests(s: Session, t: Session) {
    t.owner == s.owner && t.active == s.active && t.turn == s.turn && t.timer == s.timer && t.running == s.running
  }

  predicate LastIs(t: Session, kind: Kind) {
    t.log != [] && t.log[|t.log| - 1].kind == kind
  }

  /** Starting succeeds exactly when voice is enabled and approved, free or one's own, and the backend starts. */
  lemma StartExactly(s: Session, c: Settings, who: Person, during: seq<Callback>, fails: bool)
    ensures var (t, r) := Started(s, c, who, during, fails);
      && (r.Ok? <==> c.enabled && c.approved && (s.owner.None? || s.owner.value == who) && (s.active || !fails))
      && (r.Ok? ==> t.active && (s.active ==> t.owner == Some(who)) && (during == [] ==> t.owner == Some(who)))
      && (r.Ok? && !s.active ==> LastIs(t, VoiceStatus("listening")))
      && (r.Ok? && s.active ==> t == s.(owner := Some(who)))
      && (r.Ok? && !s.active && during == [] ==>
            Records(s, t, [VoiceStatus("listening")]) && t.turn == s.turn && t.timer == s.timer
              && t.running == s.running)
      && (r.Err? ==>
            r.code == if !c.enabled then "voice_disabled"
                      else if !c.approved then "voice_activation_not_approved"
                      else if s.owner.Some? && s.owner.value != who then "voice_session_mismatch"
                      else "voice_start_failed")
      && (r.Err? && r.code != "voice_start_failed" ==> t == s)
      && (r.Err? && r.code == "voice_start_failed" && during == [] ==> Rests(s.(owner := None), t) && t.log == s.log)
  {
  }

  /** Stopping succeeds exactly for the owner if the backend stops, and silences everything. */
  lemma StopExactly(s: Session, c: Settings, who: Person, during: seq<Callback>, fails: bool)
    ensures var (t, r) := Stopped(s, c, who, during, fails);
      && (r.Ok? <==> s.owner == Some(who) && (s.active ==> !fails))
      && (r.Ok? ==> t.owner.None? && !t.active && !t.turn && !t.timer && LastIs(t, VoiceStatus("idle")))
      && (r.Ok? && (during == [] || !s.active) ==> Records(s, t, [VoiceStatus("idle")]) && t.running == s.running)
      && (r.Err? ==> r.code == if s.owner != Some(who) then "voice_session_mismatch" else "voice_stop_failed")
      && (r.Err? && (s.owner != Some(who) || during == []) ==> t == s)
  {
  }

  /** Shutting down silences everything without an event of its own. */
  lemma ShutdownExactly(s: Session, c: Settings, during: seq<Callback>)
    ensures var t := ShutDown(s, c, during);
      && t.owner.None? && !t.active && !t.turn && !t.timer
      && (during == [] || !s.active ==> t.log == s.log && t.running == s.running)
  {
  }

  /** A partial transcript is recorded exactly while voice is active without a turn, and does nothing else. */
  lemma PartialExactly(s: Session, n: nat, text: string)
    ensures var t := Called(s, n, OnPartial(text));
      Rests(s, t) && Records(s, t, if text != "" && s.active && !s.turn then [Partial(text)] else [])
  {
  }

  /** A transcript is recorded while voice is active; it starts a turn, or is told that one is running. */
  lemma TranscriptExactly(s: Session, n: nat, text: string)
    requires text != "" && s.active && s.owner.Some?
    ensures var t := Called(s, n, OnTranscript(text));
      && t.owner == s.owner && t.active && t.turn && !t.timer
      && Records(s, t, if s.turn then [Transcript(text), VoiceError("voice_turn_busy")] else [Transcript(text)])
      && t.running == s.running + (if s.turn then 0 else 1)
  {
  }

  lemma SilentTranscript(s: Session, n: nat, text: string)
    requires text == "" || !s.active
    ensures Called(s, n, OnTranscript(text)) == s
  {
  }

  /** A status is passed on; an idle one also stops waiting for a follow-up. */
  lemma StatusExactly(s: Session, n: nat, status: string)
    ensures var t := Called(s, n, OnStatus(status));
      Rests(if status == "idle" then s.(timer := false) else s, t) && Records(s, t, [VoiceStatus(status)])
  {
  }

  /** The stop phrase ends the session, whether or not it was active; a running turn keeps its flag. */
  lemma PhraseExactly(s: Session, n: nat)
    ensures var t := Called(s, n, OnStopPhrase);
      Rests(s.(active := false, owner := None), t) && Records(s, t, [VoiceStatus("stopped_by_phrase")])
  {
  }

  /** Too long a silence ends an active session. */
  lemma SilenceExactly(s: Session, n: nat)
    ensures var t := Called(s, n, OnSilentLimit);
      if s.active then
        Rests(s.(active := false, owner := None, timer := false), t) && Records(s, t, [VoiceStatus("idle")])
      else t == s.(timer := false)
  {
  }

  /** What a turn reports: its reply and that it was spoken while voice is active, its failure always, and its end. */
  lemma TurnExactly(s: Session, c: Settings, text: string)
    requires s.running > 0
    ensures var replied, spoken := Step(s, c, TurnReplied(text)), Step(s, c, TurnSpoken);
      && Rests(s, replied) && Records(s, replied, if s.active then [Reply(text)] else [])
      && Rests(if s.active then s.(timer := true) else s, spoken)
      && Records(s, spoken, if s.active then [PlaybackComplete] else [])
    ensures var failed, ended := Step(s, c, TurnFailed(text)), Step(s, c, TurnEnded);
      && Rests(s, failed) && Records(s, failed, [VoiceError(text)])
      && ended == s.(turn := false, running := s.running - 1)
  {
  }

  /** A follow-up that does not come ends an active session, unless a turn is running. */
  lemma TimeoutExactly(s: Session, c: Settings)
    ensures var t := Step(s, c, FollowUpExpired);
      if s.active && !s.turn then
        Rests(s.(active := false, owner := None, timer := false), t) && Records(s, t, [VoiceStatus("idle")])
      else t == s
  {
  }
}
