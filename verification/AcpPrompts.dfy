/**
 * What one prompt comes to when nothing disturbs it: the whole state its call leaves behind, from any
 * state it is accepted in, when it succeeds and when the provider fails it.
 */
module AcpPrompts {
  import opened Durations
  import opened Text
  import opened AcpSession
  import opened AcpWorld

  /** `w` with this state of the session and this one of the call. */
  function Put(w: World, sid: string, s: Session, turn: string, c: Call): World {
    w.(sessions := w.sessions[sid := s], calls := w.calls[turn := c])
  }

  lemma PutAgain(w: World, sid: string, s: Session, t: Session, turn: string, c: Call, d: Call)
    ensures Put(Put(w, sid, s, turn, c), sid, t, turn, d) == Put(w, sid, t, turn, d)
  {
    assert w.sessions[sid := s][sid := t] == w.sessions[sid := t];
    assert w.calls[turn := c][turn := d] == w.calls[turn := d];
  }

  // ---- One step of the call ----

  lemma TellStep(w: World, sid: string, s: Session, turn: string, c: Call)
    requires c.sid == sid
    ensures Publishes(c.phase) ==>
      Next(Put(w, sid, s, turn, c), Tell(turn))
      == Put(w, sid, s.(trace := s.trace + [Event(Published(c).0, turn)]), turn, c.(phase := Published(c).1))
    ensures !Publishes(c.phase) ==> Next(Put(w, sid, s, turn, c), Tell(turn)) == Put(w, sid, s, turn, c)
  {
    hide Publishes;
    if Publishes(c.phase) {
      PutAgain(w, sid, s, AcpSession.Publish(s, Event(Published(c).0, turn)), turn, c, c.(phase := Published(c).1));
    }
  }

  lemma ChooseStep(w: World, sid: string, s: Session, turn: string, c: Call)
    requires c.sid == sid && c.phase.Choosing?
    ensures Next(Put(w, sid, s, turn, c), Choose(turn, s.mode))
         == Put(w, sid, s, turn,
                c.(phase := if c.plan then Switching(Plan) else if s.mode == Plan then Switching(Build) else Prompting))
  {
    var phase := if c.plan then Switching(Plan) else if s.mode == Plan then Switching(Build) else Prompting;
    PutAgain(w, sid, s, s, turn, c, c.(phase := phase));
  }

  lemma SwitchStep(w: World, sid: string, s: Session, turn: string, c: Call, ok: bool)
    requires c.sid == sid && (c.phase.Switching? || c.phase.Prompting?)
    ensures Next(Put(w, sid, s, turn, c), SwitchAnswer(turn, ok))
         == if c.phase.Prompting? then Put(w, sid, s, turn, c)
            else if ok then Put(w, sid, s.(mode := c.phase.to), turn, c.(phase := Prompting))
            else Put(w, sid, FailTurn(s, c.captured), turn, c.(phase := Failing))
  {
    hide FailTurn;
    if c.phase.Switching? {
      PutAgain(w, sid, s, s.(mode := c.phase.to), turn, c, c.(phase := Prompting));
      PutAgain(w, sid, s, FailTurn(s, c.captured), turn, c, c.(phase := Failing));
    }
  }

  lemma PromptStep(w: World, sid: string, s: Session, turn: string, c: Call, ok: bool)
    requires c.sid == sid && (c.phase.Prompting? || c.phase.Failing?)
    ensures Next(Put(w, sid, s, turn, c), PromptAnswer(turn, ok))
         == if c.phase.Failing? then Put(w, sid, s, turn, c)
            else if !ok then Put(w, sid, FailTurn(s, c.captured), turn, c.(phase := Failing))
            else if c.captured.setId == "" then Put(w, sid, s, turn, c.(phase := Finishing))
            else Put(w, sid, s.(pending := Pending([], "", "")), turn, c.(phase := Resolving))
  {
    hide FailTurn;
    PutAgain(w, sid, s, s, turn, c, c.(phase := Finishing));
    PutAgain(w, sid, s, s.(pending := NOTHING), turn, c, c.(phase := Resolving));
    PutAgain(w, sid, s, FailTurn(s, c.captured), turn, c, c.(phase := Failing));
  }

  lemma FinishStep(w: World, sid: string, s: Session, turn: string, c: Call, d: Derived, setId: string)
    requires c.sid == sid && c.phase.Finishing? && Derivable(d) && Fresh(w, setId)
    ensures Next(Put(w, sid, s, turn, c), Finish(turn, d, setId))
         == Put(w.(used := w.used + {setId}), sid,
                if d.Questions?
                then s.(inTurn := false, turn := "", status := AwaitingInput,
                        pending := Pending(d.questions, setId, d.kind))
                else s.(inTurn := false, turn := "", status := Ready),
                turn, c.(phase := if d.Questions? then Asking(setId) else Completing("")))
  {
    hide FinishTurn;
    PutAgain(w.(used := w.used + {setId}), sid, s, FinishTurn(s, d, setId), turn, c,
             c.(phase := if d.Questions? then Asking(setId) else Completing("")));
    FinishTurnMeaning(s, d, setId);
  }

  lemma FinishTurnMeaning(s: Session, d: Derived, setId: string)
    ensures FinishTurn(s, d, setId)
         == if d.Questions?
            then s.(inTurn := false, turn := "", status := AwaitingInput,
                    pending := Pending(d.questions, setId, d.kind))
            else s.(inTurn := false, turn := "", status := Ready)
  {
  }

  // ---- Taking the prompt ----

  function Shown(p: PromptRequest): string {
    if TrimSpace(p.display) == "" then TrimSpace(p.content) else TrimSpace(p.display)
  }

  /** The request ids on record once the prompt is taken: those of the last ten minutes and its own. */
  function OnRecord(recent: map<string, int>, id: string, now: int): map<string, int> {
    if id == "" then recent
    else (map r | r in recent && now - recent[r] <= 10 * MINUTE :: recent[r])[id := now]
  }

  /** The session with the prompt taken. */
  function Opened(s: Session, turn: string, p: PromptRequest, clock: Clock): Session {
    s.(inTurn := true, turn := turn, status := Running,
       messages := s.messages + [Message(User, Shown(p), clock.stamp, turn, TrimSpace(p.request))],
       recent := OnRecord(s.recent, TrimSpace(p.request), clock.record))
  }

  lemma AcceptIsOpened(s: Session, turn: string, p: PromptRequest, clock: Clock)
    requires clock.check <= clock.record
    ensures Accept(s, turn, p, clock) == Opened(s, turn, p, clock)
  {
    hide TrimSpace;
    var id := TrimSpace(p.request);
    assert Recorded(Checked(s, id, clock.check).recent, id, clock.record) == OnRecord(s.recent, id, clock.record);
  }

  /** The call as it begins: the plan it wants, and the questions it found. */
  function Begun(s: Session, sid: string, p: PromptRequest): Call {
    var found := if s.pending.setId != "" || s.pending.questions != [] then s.pending else Pending([], "", "");
    Call(sid, WantsPlan(p), found, Announcing)
  }

  predicate Accepted(w: World, sid: string, turn: string, p: PromptRequest, clock: Clock) {
    && sid in w.sessions && sid in w.runtimes && !Duplicate(w.sessions[sid], p, clock)
    && turn != "" && turn !in w.used && TrimSpace(p.content) != "" && Ticks(w.now, clock)
  }

  function Taken(w: World, turn: string, clock: Clock): World {
    w.(used := w.used + {turn}, now := clock.record)
  }

  lemma BeginStep(w: World, sid: string, turn: string, p: PromptRequest, clock: Clock)
    requires Accepted(w, sid, turn, p, clock)
    ensures var s := w.sessions[sid];
      Next(w, Begin(sid, turn, p, clock))
      == Put(Taken(w, turn, clock), sid, Opened(s, turn, p, clock), turn, Begun(s, sid, p))
  {
    hide TrimSpace, Duplicate, Accept, WantsPlan, Opened;
    AcceptIsOpened(w.sessions[sid], turn, p, clock);
  }

  // ---- The call up to the provider ----

  /** The prompt is taken and announced, and the mode chosen and, if need be, switched. */
  function Opening(s: Session, sid: string, turn: string, p: PromptRequest, clock: Clock, switched: bool): seq<Step> {
    [Begin(sid, turn, p, clock), Tell(turn), Tell(turn), Choose(turn, s.mode), SwitchAnswer(turn, switched)]
  }

  function Announced(s: Session, turn: string, p: PromptRequest, clock: Clock): Session {
    Opened(s, turn, p, clock).(trace := s.trace + [Event(TurnStarted, turn), Event(UserMessage, turn)])
  }

  /** The mode the prompt is to run in, which must be switched to unless it is `NoMode`. */
  function Wanted(s: Session, p: PromptRequest): Mode {
    if WantsPlan(p) then Plan else if s.mode == Plan then Build else NoMode
  }

  lemma ExecFirst(w: World, step: Step, rest: seq<Step>)
    ensures Exec(w, [step] + rest) == Exec(Next(w, step), rest)
  {
    hide Apply, Enabled;
    assert ([step] + rest)[1..] == rest;
  }

  lemma Exec2(w: World, a: Step, b: Step)
    ensures Exec(w, [a, b]) == Next(Next(w, a), b)
  {
    hide Apply, Enabled, Next;
    assert [a, b] == [a] + [b];
    ExecFirst(w, a, [b]);
    ExecOne(Next(w, a), b);
  }

  lemma Exec3(w: World, a: Step, b: Step, c: Step)
    ensures Exec(w, [a, b, c]) == Next(Next(Next(w, a), b), c)
  {
    hide Apply, Enabled, Next;
    assert [a, b, c] == [a] + [b, c];
    ExecFirst(w, a, [b, c]);
    Exec2(Next(w, a), b, c);
  }

  lemma Announce(w: World, sid: string, turn: string, p: PromptRequest, clock: Clock)
    requires Accepted(w, sid, turn, p, clock)
    ensures var s := w.sessions[sid];
      Exec(w, [Begin(sid, turn, p, clock), Tell(turn), Tell(turn)])
      == Put(Taken(w, turn, clock), sid, Announced(s, turn, p, clock), turn, Begun(s, sid, p).(phase := Choosing))
  {
    var (s, v) := (w.sessions[sid], Taken(w, turn, clock));
    var (t, c) := (Opened(s, turn, p, clock), Begun(s, sid, p));
    assert t.trace == s.trace;
    hide Put, Opened, Next, Exec, Accepted;
    Exec3(w, Begin(sid, turn, p, clock), Tell(turn), Tell(turn));
    BeginStep(w, sid, turn, p, clock);
    TellStep(v, sid, t, turn, c);
    var t' := t.(trace := t.trace + [Event(TurnStarted, turn)]);
    TellStep(v, sid, t', turn, c.(phase := Echoing));
    assert t'.trace + [Event(UserMessage, turn)] == s.trace + [Event(TurnStarted, turn), Event(UserMessage, turn)];
  }

  lemma OpeningRun(w: World, sid: string, turn: string, p: PromptRequest, clock: Clock, switched: bool)
    requires Accepted(w, sid, turn, p, clock)
    ensures var s := w.sessions[sid];
      var (t, c, v) := (Announced(s, turn, p, clock), Begun(s, sid, p), Taken(w, turn, clock));
      Exec(w, Opening(s, sid, turn, p, clock, switched))
      == if Wanted(s, p) == NoMode then Put(v, sid, t, turn, c.(phase := Prompting))
         else if switched then Put(v, sid, t.(mode := Wanted(s, p)), turn, c.(phase := Prompting))
         else Put(v, sid, FailTurn(t, c.captured), turn, c.(phase := Failing))
  {
    var (s, v) := (w.sessions[sid], Taken(w, turn, clock));
    var (t, c) := (Announced(s, turn, p, clock), Begun(s, sid, p));
    assert t.mode == s.mode;
    hide Put, Announced, Next, Exec, Accepted, FailTurn, WantsPlan, Taken;
    var first := [Begin(sid, turn, p, clock), Tell(turn), Tell(turn)];
    var second := [Choose(turn, s.mode), SwitchAnswer(turn, switched)];
    assert Opening(s, sid, turn, p, clock, switched) == first + second;
    ExecConcat(w, first, second);
    Announce(w, sid, turn, p, clock);
    Exec2(Exec(w, first), Choose(turn, s.mode), SwitchAnswer(turn, switched));
    ChooseStep(v, sid, t, turn, c.(phase := Choosing));
    SwitchStep(v, sid, t, turn,
               c.(phase := if Wanted(s, p) == NoMode then Prompting else Switching(Wanted(s, p))), switched);
  }

  // ---- The call from the provider's answer on ----

  /** The turn's events after the provider has taken the prompt. */
  function LastEvents(turn: string, found: Pending, d: Derived, setId: string): seq<Event> {
    (if found.setId != "" then [Event(Resolved(found.setId), turn)] else [])
    + (if d.Questions? then [Event(Requested(setId), turn)] else [])
    + [Event(TurnCompleted, turn)]
  }

  /** The session when the turn is over. */
  function Closed(s: Session, turn: string, found: Pending, d: Derived, setId: string): Session {
    s.(inTurn := false, turn := "",
       status := if d.Questions? then AwaitingInput else Ready,
       pending := if d.Questions? then Pending(d.questions, setId, d.kind)
                  else if found.setId != "" then Pending([], "", "") else s.pending,
       trace := s.trace + LastEvents(turn, found, d, setId))
  }

  function Resolution(s: Session, turn: string, found: Pending): Session {
    if found.setId == "" then s
    else s.(pending := Pending([], "", ""), trace := s.trace + [Event(Resolved(found.setId), turn)])
  }

  lemma ResolveRun(w: World, sid: string, s: Session, turn: string, c: Call)
    requires c.sid == sid && c.phase.Prompting?
    ensures Exec(Put(w, sid, s, turn, c), [PromptAnswer(turn, true), Tell(turn)])
         == Put(w, sid, Resolution(s, turn, c.captured), turn, c.(phase := Finishing))
  {
    hide Put, Next, Exec;
    Exec2(Put(w, sid, s, turn, c), PromptAnswer(turn, true), Tell(turn));
    PromptStep(w, sid, s, turn, c, true);
    TellStep(w, sid, s, turn, c.(phase := Finishing));
    TellStep(w, sid, s.(pending := Pending([], "", "")), turn, c.(phase := Resolving));
  }

  lemma FinishRun(w: World, sid: string, s: Session, turn: string, c: Call, d: Derived, setId: string)
    requires c.sid == sid && c.phase.Finishing? && Derivable(d) && Fresh(w, setId)
    ensures Exec(Put(w, sid, s, turn, c), [Finish(turn, d, setId), Tell(turn), Tell(turn)])
         == Put(w.(used := w.used + {setId}), sid, Closed(s, turn, Pending([], "", ""), d, setId), turn,
                c.(phase := Done(Completed(if d.Questions? then setId else ""))))
  {
    hide Put, Next, Exec;
    var v := w.(used := w.used + {setId});
    Exec3(Put(w, sid, s, turn, c), Finish(turn, d, setId), Tell(turn), Tell(turn));
    FinishStep(w, sid, s, turn, c, d, setId);
    var idle := s.(inTurn := false, turn := "");
    assert LastEvents(turn, Pending([], "", ""), d, setId)
        == if d.Questions? then [Event(Requested(setId), turn), Event(TurnCompleted, turn)]
           else [Event(TurnCompleted, turn)];
    if d.Questions? {
      var asked := idle.(status := AwaitingInput, pending := Pending(d.questions, setId, d.kind));
      TellStep(v, sid, asked, turn, c.(phase := Asking(setId)));
      TellStep(v, sid, asked.(trace := s.trace + [Event(Requested(setId), turn)]), turn,
               c.(phase := Completing(setId)));
      assert s.trace + [Event(Requested(setId), turn)] + [Event(TurnCompleted, turn)]
          == s.trace + [Event(Requested(setId), turn), Event(TurnCompleted, turn)];
    } else {
      TellStep(v, sid, idle.(status := Ready), turn, c.(phase := Completing("")));
      TellStep(v, sid, idle.(status := Ready, trace := s.trace + [Event(TurnCompleted, turn)]), turn,
               c.(phase := Done(Completed(""))));
    }
  }

  lemma ResolutionThenEnd(s: Session, turn: string, found: Pending, d: Derived, setId: string)
    ensures Closed(Resolution(s, turn, found), turn, Pending([], "", ""), d, setId) == Closed(s, turn, found, d, setId)
  {
    var rest := LastEvents(turn, Pending([], "", ""), d, setId);
    assert LastEvents(turn, found, d, setId)
        == (if found.setId != "" then [Event(Resolved(found.setId), turn)] else []) + rest;
    if found.setId != "" {
      assert s.trace + [Event(Resolved(found.setId), turn)] + rest
          == s.trace + ([Event(Resolved(found.setId), turn)] + rest);
    } else {
      assert [] + rest == rest;
    }
  }

  lemma ClosingRun(w: World, sid: string, s: Session, turn: string, c: Call, d: Derived, setId: string)
    requires c.sid == sid && c.phase.Prompting? && Derivable(d) && Fresh(w, setId)
    ensures Exec(Put(w, sid, s, turn, c),
                 [PromptAnswer(turn, true), Tell(turn), Finish(turn, d, setId), Tell(turn), Tell(turn)])
         == Put(w.(used := w.used + {setId}), sid, Closed(s, turn, c.captured, d, setId), turn,
                c.(phase := Done(Completed(if d.Questions? then setId else ""))))
  {
    hide *;
    var first, second := [PromptAnswer(turn, true), Tell(turn)], [Finish(turn, d, setId), Tell(turn), Tell(turn)];
    assert first + second == [PromptAnswer(turn, true), Tell(turn), Finish(turn, d, setId), Tell(turn), Tell(turn)];
    ExecConcat(Put(w, sid, s, turn, c), first, second);
    ResolveRun(w, sid, s, turn, c);
    FinishRun(w, sid, Resolution(s, turn, c.captured), turn, c.(phase := Finishing), d, setId);
    ResolutionThenEnd(s, turn, c.captured, d, setId);
  }

  /** A call whose turn fails at the provider, or has failed before, publishes that and returns. */
  lemma BreakRun(w: World, sid: string, s: Session, turn: string, c: Call)
    requires c.sid == sid && (c.phase.Prompting? || c.phase.Failing?)
    ensures var t := if c.phase.Failing? then s else FailTurn(s, c.captured);
      Exec(Put(w, sid, s, turn, c), [PromptAnswer(turn, false), Tell(turn)])
      == Put(w, sid, t.(trace := t.trace + [Event(TurnFailed, turn)]), turn, c.(phase := Done(Broken)))
  {
    hide Put, Next, Exec, FailTurn;
    var t := if c.phase.Failing? then s else FailTurn(s, c.captured);
    Exec2(Put(w, sid, s, turn, c), PromptAnswer(turn, false), Tell(turn));
    PromptStep(w, sid, s, turn, c, false);
    TellStep(w, sid, t, turn, c.(phase := Failing));
  }

  /** A turn that fails puts back the questions it found. */
  lemma BrokenMeaning(s: Session, t: Session, sid: string, p: PromptRequest, turn: string)
    requires t.pending == s.pending
    ensures FailTurn(t, Begun(s, sid, p).captured)
         == t.(inTurn := false, turn := "",
               status := if s.pending.setId != "" || s.pending.questions != [] then AwaitingInput
                         else AcpSession.Failed)
  {
  }

  /** A prompt asks for a plan when its mode is that word in any letter case, with white space around. */
  lemma WantsPlanExactly(p: PromptRequest)
    ensures WantsPlan(p)
       <==> exists word :: Inside(p.mode, word) && |word| == 4
              && word[0] in "pP" && word[1] in "lL" && word[2] in "aA" && word[3] in "nN"
  {
    hide TrimSpace, Inside, ToLower;
    var word := TrimSpace(p.mode);
    TrimSpaceExactly(p.mode, word);
    TrimLower(p.mode);
    if w :| Inside(p.mode, w) && |w| == 4 && w[0] in "pP" && w[1] in "lL" && w[2] in "aA" && w[3] in "nN" {
      TrimSpaceExactly(p.mode, w);
    }
    assert ToLower(word) == "plan"
      <==> |word| == 4 && word[0] in "pP" && word[1] in "lL" && word[2] in "aA" && word[3] in "nN" by {
      LowersToPlan(word);
    }
  }

  lemma LowersToPlan(word: string)
    ensures ToLower(word) == "plan"
       <==> |word| == 4 && word[0] in "pP" && word[1] in "lL" && word[2] in "aA" && word[3] in "nN"
  {
    if |word| == 4 {
      assert ToLower(word)
          == [LowerChar(word[0]), LowerChar(word[1]), LowerChar(word[2]), LowerChar(word[3])];
    }
  }

  // ---- Main results ----

  /**
   * A prompt that is accepted and whose provider answers well, with nothing else going on: its message
   * is stored, the mode it wants is set, the set it found is resolved, and the session ends ready, or
   * waiting with the questions the turn asked; the trace has the turn's events, and the call returns.
   */
  lemma PromptCompletes(w: World, sid: string, turn: string, p: PromptRequest, clock: Clock, d: Derived, setId: string)
    requires Accepted(w, sid, turn, p, clock) && Derivable(d) && setId != "" && setId !in w.used && setId != turn
    ensures var s := w.sessions[sid];
      var found := Begun(s, sid, p).captured;
      Exec(w, Opening(s, sid, turn, p, clock, true)
              + [PromptAnswer(turn, true), Tell(turn), Finish(turn, d, setId), Tell(turn), Tell(turn)])
      == w.(sessions := w.sessions[sid := s.(
              inTurn := false, turn := "",
              status := if d.Questions? then AwaitingInput else Ready,
              pending := if d.Questions? then Pending(d.questions, setId, d.kind)
                         else if found.setId != "" then Pending([], "", "") else s.pending,
              mode := if WantsPlan(p) then Plan else if s.mode == Plan then Build else s.mode,
              messages := s.messages + [Message(User, Shown(p), clock.stamp, turn, TrimSpace(p.request))],
              trace := s.trace + [Event(TurnStarted, turn), Event(UserMessage, turn)]
                         + LastEvents(turn, found, d, setId),
              recent := OnRecord(s.recent, TrimSpace(p.request), clock.record))],
            calls := w.calls[turn := Call(sid, WantsPlan(p), found,
                                          Done(Completed(if d.Questions? then setId else "")))],
            used := w.used + {turn, setId},
            now := clock.record)
  {
    var (s, v) := (w.sessions[sid], Taken(w, turn, clock));
    var c := Begun(s, sid, p);
    var t := Announced(s, turn, p, clock).(mode := if Wanted(s, p) == NoMode then s.mode else Wanted(s, p));
    hide Exec, Accepted, WantsPlan, TrimSpace, LastEvents, OnRecord;
    ExecConcat(w, Opening(s, sid, turn, p, clock, true),
               [PromptAnswer(turn, true), Tell(turn), Finish(turn, d, setId), Tell(turn), Tell(turn)]);
    OpeningRun(w, sid, turn, p, clock, true);
    assert Exec(w, Opening(s, sid, turn, p, clock, true)) == Put(v, sid, t, turn, c.(phase := Prompting));
    ClosingRun(v, sid, t, turn, c.(phase := Prompting), d, setId);
    assert w.used + {turn} + {setId} == w.used + {turn, setId};
  }

  /**
   * When the provider refuses the mode, or the prompt, the message stays, the questions found are there
   * again, the session waits for an answer to them or is in error, and the call returns an error.
   */
  lemma PromptBreaks(w: World, sid: string, turn: string, p: PromptRequest, clock: Clock, switched: bool)
    requires Accepted(w, sid, turn, p, clock)
    ensures var s := w.sessions[sid];
      var found := Begun(s, sid, p).captured;
      Exec(w, Opening(s, sid, turn, p, clock, switched) + [PromptAnswer(turn, false), Tell(turn)])
      == w.(sessions := w.sessions[sid := s.(
              inTurn := false, turn := "",
              status := if s.pending.setId != "" || s.pending.questions != [] then AwaitingInput else AcpSession.Failed,
              mode := if !switched then s.mode
                      else if WantsPlan(p) then Plan else if s.mode == Plan then Build else s.mode,
              messages := s.messages + [Message(User, Shown(p), clock.stamp, turn, TrimSpace(p.request))],
              trace := s.trace + [Event(TurnStarted, turn), Event(UserMessage, turn), Event(TurnFailed, turn)],
              recent := OnRecord(s.recent, TrimSpace(p.request), clock.record))],
            calls := w.calls[turn := Call(sid, WantsPlan(p), found, Done(Broken))],
            used := w.used + {turn},
            now := clock.record)
  {
    var (s, v) := (w.sessions[sid], Taken(w, turn, clock));
    var c := Begun(s, sid, p);
    var t := Announced(s, turn, p, clock)
      .(mode := if switched && Wanted(s, p) != NoMode then Wanted(s, p) else s.mode);
    assert t.trace + [Event(TurnFailed, turn)]
        == s.trace + [Event(TurnStarted, turn), Event(UserMessage, turn), Event(TurnFailed, turn)];
    BrokenMeaning(s, t, sid, p, turn);
    hide Exec, Accepted, WantsPlan, TrimSpace, OnRecord, FailTurn;
    ExecConcat(w, Opening(s, sid, turn, p, clock, switched), [PromptAnswer(turn, false), Tell(turn)]);
    OpeningRun(w, sid, turn, p, clock, switched);
    if Wanted(s, p) == NoMode || switched {
      BreakRun(v, sid, t, turn, c.(phase := Prompting));
    } else {
      BreakRun(v, sid, FailTurn(t, c.captured), turn, c.(phase := Failing));
    }
  }
}
