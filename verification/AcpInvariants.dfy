/**
 * What holds of the service at every release of its mutex, with any number of prompts in flight and
 * sessions deleted or the service closed under them.
 */
module AcpInvariants {
  import opened Text
  import opened AcpSession
  import opened AcpWorld

  // ---- Sessions and calls ----


  /** A call whose turn may still be the session's current one. */
  predicate Active(phase: Phase) {
    phase.Announcing? || phase.Echoing? || phase.Choosing? || phase.Switching? || phase.Prompting? || phase.Resolving?
    || phase.Finishing?
  }

  /** The question list, the set id and the kind are all there or all missing. */
  predicate AllOrNothing(p: Pending) {
    p == NOTHING || (p.questions != [] && p.setId != "" && p.kind != "")
  }

  predicate SessionOk(w: World, sid: string, s: Session) {
    && (s.inTurn <==> s.turn != "")
    && (s.inTurn <==> s.status == Running)
    && AllOrNothing(s.pending)
    && (s.turn != "" ==> s.turn in w.calls && w.calls[s.turn].sid == sid && Active(w.calls[s.turn].phase))
  }

  /** A call that publishes word of a question set has one to tell of. */
  predicate HasSet(c: Call) {
    (c.phase.Resolving? ==> c.captured.setId != "") && (c.phase.Asking? ==> c.phase.setId != "")
  }

  predicate CallOk(c: Call, used: set<string>) {
    && (c.sid !in used ==> c.phase == Done(NotFound))
    && AllOrNothing(c.captured)
    && HasSet(c)
  }

  predicate Keys(w: World) {
    && w.sessions.Keys == w.runtimes <= w.used
    && w.calls.Keys <= w.used
  }

  predicate Sessions(w: World) {
    forall sid <- w.sessions :: SessionOk(w, sid, w.sessions[sid])
  }

  predicate Calls(w: World) {
    forall turn <- w.calls :: CallOk(w.calls[turn], w.used)
  }

  // ---- The trace ----

  /** The lifecycle events of one turn, in order. */
  function TurnEvents(trace: seq<Event>, turn: string): seq<Kind> {
    if trace == [] then []
    else
      var last := trace[|trace| - 1];
      TurnEvents(trace[..|trace| - 1], turn) + (if last.turn == turn && !last.kind.Other? then [last.kind] else [])
  }

  function Optional(setId: string, kind: Kind): seq<Kind> {
    if setId == "" then [] else [kind]
  }

  /** What a call has published when it stands at its phase. */
  function PublishedBy(c: Call): seq<Kind> {
    var started := [TurnStarted, UserMessage];
    var resolved := Optional(c.captured.setId, Resolved(c.captured.setId));
    match c.phase
    case Announcing => []
    case Echoing => [TurnStarted]
    case Finishing => started + resolved
    case Asking(_) => started + resolved
    case Completing(asked) => started + resolved + Optional(asked, Requested(asked))
    case Done(NotFound) => []
    case Done(Ignored) => []
    case Done(Broken) => started + [TurnFailed]
    case Done(Completed(asked)) => started + resolved + Optional(asked, Requested(asked)) + [TurnCompleted]
    case _ => started
  }

  predicate Owned(w: World, sid: string, e: Event) {
    e.kind.Other? || (e.turn in w.calls && w.calls[e.turn].sid == sid)
  }

  predicate TraceOk(w: World, sid: string, trace: seq<Event>) {
    && (forall e <- trace :: Owned(w, sid, e))
    && (forall turn <- w.calls :: w.calls[turn].sid == sid ==> TurnEvents(trace, turn) == PublishedBy(w.calls[turn]))
  }

  predicate Traces(w: World) {
    forall sid <- w.sessions :: TraceOk(w, sid, w.sessions[sid].trace)
  }

  predicate Inv(w: World) {
    Keys(w) && Sessions(w) && Calls(w) && Traces(w)
  }

  // ---- Lemmas on traces ----

  lemma EventsMore(trace: seq<Event>, e: Event, turn: string)
    ensures TurnEvents(trace + [e], turn)
         == TurnEvents(trace, turn) + (if e.turn == turn && !e.kind.Other? then [e.kind] else [])
  {
    assert (trace + [e])[..|trace|] == trace;
  }

  lemma {:induction false} NoEvents(trace: seq<Event>, turn: string)
    requires forall e <- trace :: e.turn != turn || e.kind.Other?
    ensures TurnEvents(trace, turn) == []
    decreases |trace|
  {
    if trace != [] {
      NoEvents(trace[..|trace| - 1], turn);
    }
  }

  // ---- Keys, sessions and calls ----

  lemma StepKeepsKeys(w: World, step: Step)
    requires Keys(w) && Enabled(w, step)
    ensures Keys(Apply(w, step))
  {
    hide Do, Duplicate, Flows, Ticks, Content, TrimSpace;
  }

  lemma OldCallOk(w: World, step: Step, turn: string)
    requires Keys(w) && Calls(w) && Enabled(w, step) && turn in w.calls
    ensures turn in Apply(w, step).calls && CallOk(Apply(w, step).calls[turn], Apply(w, step).used)
  {
    CallsStay(w, step);
    StepOnCall(w, step, turn);
    assert CallOk(w.calls[turn], w.used);
    assert w.used <= Apply(w, step).used by { UsedStays(w, step); }
    hide Apply, Do, Duplicate, Flows, Ticks, Content, TrimSpace;
  }

  lemma UsedStays(w: World, step: Step)
    requires Enabled(w, step)
    ensures w.used <= Apply(w, step).used
  {
    hide Do, Duplicate, Flows, Ticks, Content, TrimSpace;
  }

  lemma NewCallOk(w: World, step: Step, turn: string)
    requires Keys(w) && Sessions(w) && Enabled(w, step) && turn in Apply(w, step).calls && turn !in w.calls
    ensures CallOk(Apply(w, step).calls[turn], Apply(w, step).used)
  {
    hide Do, Duplicate, Flows, Ticks, Content, TrimSpace, WantsPlan;
    if step.Begin? && step.sid in w.sessions {
      assert SessionOk(w, step.sid, w.sessions[step.sid]);
    }
  }

  lemma StepKeepsCalls(w: World, step: Step)
    requires Keys(w) && Calls(w) && Sessions(w) && Enabled(w, step)
    ensures Calls(Apply(w, step))
  {
    hide Apply, Enabled, CallOk, Keys, Sessions;
    forall turn | turn in Apply(w, step).calls ensures CallOk(Apply(w, step).calls[turn], Apply(w, step).used) {
      if turn in w.calls {
        OldCallOk(w, step, turn);
      } else {
        NewCallOk(w, step, turn);
      }
    }
  }

  /** What a change does to the turn and to the pending questions. */
  lemma DoOnTurn(s: Session, op: Op)
    ensures var t := Do(s, op);
      match op
      case Took(turn, _, _) => t.inTurn && t.turn == turn && t.status == Running && t.pending == s.pending
      case Lost(captured) =>
        && !t.inTurn && t.turn == "" && t.status != Running
        && t.pending == (if captured != NOTHING then captured else s.pending)
      case Finished(d, setId) =>
        && !t.inTurn && t.turn == "" && t.status != Running
        && t.pending == (if d.Questions? then Pending(d.questions, setId, d.kind) else s.pending)
      case Cleared => t.inTurn == s.inTurn && t.turn == s.turn && t.status == s.status && t.pending == NOTHING
      case _ => t.inTurn == s.inTurn && t.turn == s.turn && t.status == s.status && t.pending == s.pending
  {
    hide AppendChunk, Expire, Recorded, TrimSpace;
  }

  /** A turn that may be current stays so, or the step that ends it ends the session's turn with it. */
  lemma CurrentTurnKept(w: World, step: Step, sid: string, turn: string)
    requires Keys(w) && Enabled(w, step)
    requires turn in w.calls && w.calls[turn].sid == sid && Active(w.calls[turn].phase)
    ensures turn in Apply(w, step).calls && Apply(w, step).calls[turn].sid == sid
    ensures Active(Apply(w, step).calls[turn].phase)
         || (OpOf(w, step).Some? && OpOf(w, step).value.0 == sid
             && (OpOf(w, step).value.1.Lost? || OpOf(w, step).value.1.Finished?))
  {
    CallsStay(w, step);
    StepOnCall(w, step, turn);
    hide Apply, Do, Duplicate, Flows, Ticks, Content, TrimSpace;
  }

  lemma NewTurnIsActive(w: World, step: Step)
    requires Keys(w) && Enabled(w, step) && OpOf(w, step).Some? && OpOf(w, step).value.1.Took?
    ensures var (sid, op) := OpOf(w, step).value;
      var v := Apply(w, step);
      op.turn != "" && op.turn in v.calls && v.calls[op.turn].sid == sid && Active(v.calls[op.turn].phase)
  {
    hide Do, Duplicate, Flows, Ticks, Content, TrimSpace;
  }

  lemma OpIsWhole(w: World, step: Step)
    requires Calls(w) && Enabled(w, step) && OpOf(w, step).Some?
    ensures var op := OpOf(w, step).value.1;
      && (op.Lost? ==> AllOrNothing(op.captured))
      && (op.Finished? && op.derived.Questions? ==>
          AllOrNothing(Pending(op.derived.questions, op.setId, op.derived.kind)))
  {
    hide Apply, Do, Duplicate, Flows, Ticks, Content, TrimSpace;
  }

  lemma SessionKept(w: World, step: Step, sid: string)
    requires Keys(w) && Sessions(w) && Calls(w) && Enabled(w, step)
    requires sid in Apply(w, step).sessions
    ensures SessionOk(Apply(w, step), sid, Apply(w, step).sessions[sid])
  {
    hide Apply, Do, OpOf, Active, AllOrNothing, Enabled, Keys, Calls;
    assert w.sessions.Keys <= w.used && AllOrNothing(NOTHING) by {
      assert Keys(w);
      KeysMeaning(w);
    }
    StepOnSession(w, step, sid);
    if sid in w.sessions {
      var s := w.sessions[sid];
      assert SessionOk(w, sid, s);
      if s.turn != "" {
        CurrentTurnKept(w, step, sid, s.turn);
      }
      var change := OpOf(w, step);
      if change.Some? && change.value.0 == sid {
        DoOnTurn(s, change.value.1);
        OpIsWhole(w, step);
        if change.value.1.Took? {
          NewTurnIsActive(w, step);
        }
      }
    }
  }

  lemma KeysMeaning(w: World)
    requires Keys(w)
    ensures w.sessions.Keys <= w.used && w.calls.Keys <= w.used
    ensures AllOrNothing(NOTHING)
  {
  }

  // ---- The trace, step by step ----

  lemma DoOnTrace(s: Session, op: Op)
    ensures Do(s, op).trace == s.trace + (if op.Told? then [op.event] else [])
  {
    hide AppendChunk, Expire, Recorded, TrimSpace, Duplicate;
    assert s.trace + [] == s.trace;
  }

  lemma TellMove(c: Call)
    requires Publishes(c.phase) && HasSet(c)
    ensures PublishedBy(c.(phase := Published(c).1)) == PublishedBy(c) + [Published(c).0]
  {
  }

  lemma QuietMove(w: World, step: Step)
    requires Calls(w) && Enabled(w, step) && MoveOf(w, step).Some? && !step.Tell?
    ensures var (turn, phase) := MoveOf(w, step).value;
      turn in w.calls && PublishedBy(w.calls[turn].(phase := phase)) == PublishedBy(w.calls[turn])
  {
    hide Apply, Do, Duplicate, Flows, Ticks, Content, TrimSpace;
  }

  /** A call that moves has published just what the step puts on its session's trace. */
  lemma MovePublishes(w: World, step: Step, turn: string)
    requires Calls(w) && Keys(w) && Enabled(w, step) && turn in w.calls && w.calls[turn].sid in w.sessions
    ensures turn in Apply(w, step).calls
    ensures PublishedBy(Apply(w, step).calls[turn])
         == PublishedBy(w.calls[turn])
            + (if step.Tell? && step.turn == turn then [Published(w.calls[turn]).0] else [])
  {
    CallsStay(w, step);
    StepOnCall(w, step, turn);
    hide Apply, Do, Duplicate, Flows, Ticks, Content, TrimSpace, PublishedBy, Published;
    var c := w.calls[turn];
    assert PublishedBy(c) + [] == PublishedBy(c);
    if step.Tell? {
      assert CallOk(w.calls[step.turn], w.used);
      TellMove(w.calls[step.turn]);
    } else if MoveOf(w, step).Some? {
      QuietMove(w, step);
    }
  }

  lemma NewCallPublishedNothing(w: World, step: Step, turn: string)
    requires Keys(w) && Enabled(w, step) && turn in Apply(w, step).calls && turn !in w.calls
    ensures PublishedBy(Apply(w, step).calls[turn]) == []
  {
    hide Do, Duplicate, Flows, Ticks, Content, TrimSpace;
  }

  lemma ToldOf(w: World, step: Step)
    requires Enabled(w, step) && OpOf(w, step).Some? && OpOf(w, step).value.1.Told?
    ensures var e := OpOf(w, step).value.1.event;
      if step.Tell? then e == Event(Published(w.calls[step.turn]).0, step.turn) && !e.kind.Other?
      else e.kind.Other?
  {
    hide Apply, Do, Duplicate, Flows, Ticks, Content, TrimSpace;
  }

  lemma NoNewEvents(w: World, sid: string, trace: seq<Event>, turn: string)
    requires turn !in w.calls && forall e <- trace :: Owned(w, sid, e)
    ensures TurnEvents(trace, turn) == []
  {
    NoEvents(trace, turn);
  }

  /** What a step adds to the trace of a session that is there. */
  ghost function AddedTo(w: World, step: Step, sid: string): seq<Event>
    requires Enabled(w, step)
  {
    var change := OpOf(w, step);
    if change.Some? && change.value.0 == sid && change.value.1.Told? then [change.value.1.event] else []
  }

  lemma TraceGrows(w: World, step: Step, sid: string)
    requires Keys(w) && Enabled(w, step) && sid in w.sessions && sid in Apply(w, step).sessions
    ensures Apply(w, step).sessions[sid].trace == w.sessions[sid].trace + AddedTo(w, step, sid)
  {
    StepOnSession(w, step, sid);
    hide Apply, Do, OpOf, Enabled;
    var change := OpOf(w, step);
    if change.Some? {
      DoOnTrace(w.sessions[sid], change.value.1);
    }
  }

  lemma AddedEvents(w: World, step: Step, sid: string, turn: string)
    requires Enabled(w, step) && turn in w.calls && w.calls[turn].sid == sid
    ensures AddedTo(w, step, sid) == []
         || (|AddedTo(w, step, sid)| == 1
             && var e := AddedTo(w, step, sid)[0];
                if step.Tell? && step.turn == turn then e == Event(Published(w.calls[turn]).0, turn) && !e.kind.Other?
                else e.kind.Other? || e.turn != turn)
    ensures step.Tell? && step.turn == turn ==> AddedTo(w, step, sid) != []
  {
    if OpOf(w, step).Some? && OpOf(w, step).value.1.Told? {
      ToldOf(w, step);
    }
  }

  lemma TurnEventsKept(w: World, step: Step, sid: string, turn: string)
    requires Keys(w) && Calls(w) && Traces(w) && Enabled(w, step)
    requires sid in w.sessions && sid in Apply(w, step).sessions
    requires turn in Apply(w, step).calls && Apply(w, step).calls[turn].sid == sid
    ensures TurnEvents(Apply(w, step).sessions[sid].trace, turn) == PublishedBy(Apply(w, step).calls[turn])
  {
    TraceGrows(w, step, sid);
    StepOnCall(w, step, turn);
    hide Apply, Do, OpOf, Enabled, PublishedBy, Published, AddedTo, TurnEvents;
    var trace, added := w.sessions[sid].trace, AddedTo(w, step, sid);
    assert TraceOk(w, sid, trace);
    if turn in w.calls {
      MovePublishes(w, step, turn);
      AddedEvents(w, step, sid, turn);
      if added != [] {
        assert added == [added[0]];
        EventsMore(trace, added[0], turn);
      }
      assert trace + [] == trace && TurnEvents(trace, turn) + [] == TurnEvents(trace, turn);
    } else {
      NewCallPublishedNothing(w, step, turn);
      NoNewEvents(w, sid, trace, turn);
      assert step.Begin?;
      assert added == [] by { BeginTellsNothing(w, step, sid); }
      assert trace + [] == trace;
    }
  }

  lemma BeginTellsNothing(w: World, step: Step, sid: string)
    requires Enabled(w, step) && step.Begin?
    ensures AddedTo(w, step, sid) == []
  {
  }

  lemma OwnersKept(w: World, step: Step, sid: string, e: Event)
    requires Keys(w) && Traces(w) && Enabled(w, step)
    requires sid in w.sessions && sid in Apply(w, step).sessions && e in Apply(w, step).sessions[sid].trace
    ensures Owned(Apply(w, step), sid, e)
  {
    TraceGrows(w, step, sid);
    CallsStay(w, step);
    assert TraceOk(w, sid, w.sessions[sid].trace);
    if e in AddedTo(w, step, sid) {
      ToldOf(w, step);
    }
    if e.turn in w.calls {
      StepOnCall(w, step, e.turn);
    }
    hide Apply, Do, Enabled, Duplicate, Published;
  }

  lemma TraceKept(w: World, step: Step, sid: string)
    requires Inv(w) && Enabled(w, step) && sid in Apply(w, step).sessions
    ensures TraceOk(Apply(w, step), sid, Apply(w, step).sessions[sid].trace)
  {
    StepOnSession(w, step, sid);
    hide Apply, Do, OpOf, Enabled, PublishedBy, TurnEvents, Keys, Calls, Sessions, Owned;
    var v := Apply(w, step);
    if sid in w.sessions {
      forall e | e in v.sessions[sid].trace ensures Owned(v, sid, e) {
        OwnersKept(w, step, sid, e);
      }
      forall turn | turn in v.calls && v.calls[turn].sid == sid
        ensures TurnEvents(v.sessions[sid].trace, turn) == PublishedBy(v.calls[turn])
      {
        TurnEventsKept(w, step, sid, turn);
      }
    } else {
      forall turn | turn in v.calls && v.calls[turn].sid == sid
        ensures TurnEvents([], turn) == PublishedBy(v.calls[turn])
      {
        EarlyCall(w, step, sid, turn);
      }
    }
  }

  /** A call made before its session was there has found none. */
  lemma EarlyCall(w: World, step: Step, sid: string, turn: string)
    requires Calls(w) && Enabled(w, step) && step.Register? && step.sid == sid
    requires turn in Apply(w, step).calls && Apply(w, step).calls[turn].sid == sid
    ensures TurnEvents([], turn) == PublishedBy(Apply(w, step).calls[turn])
  {
    assert CallOk(w.calls[turn], w.used);
  }

  lemma StepKeepsInv(w: World, step: Step)
    requires Inv(w) && Enabled(w, step)
    ensures Inv(Apply(w, step))
  {
    hide Apply, Enabled, SessionOk, TraceOk, Keys, Calls;
    StepKeepsKeys(w, step);
    StepKeepsCalls(w, step);
    forall sid | sid in Apply(w, step).sessions
      ensures SessionOk(Apply(w, step), sid, Apply(w, step).sessions[sid])
      ensures TraceOk(Apply(w, step), sid, Apply(w, step).sessions[sid].trace)
    {
      SessionKept(w, step, sid);
      TraceKept(w, step, sid);
    }
  }

  lemma {:induction false} ExecKeepsInv(w: World, steps: seq<Step>)
    requires Inv(w)
    ensures Inv(Exec(w, steps))
    decreases |steps|
  {
    hide Apply, Enabled, Inv;
    if steps != [] {
      if Enabled(w, steps[0]) {
        StepKeepsInv(w, steps[0]);
        ExecKeepsInv(Apply(w, steps[0]), steps[1..]);
      } else {
        ExecKeepsInv(w, steps[1..]);
      }
    }
  }

  // ---- Main results ----

  /**
   * In every interleaving: sessions and runtimes have the same keys, a session is in a turn exactly
   * when it names one and when its status is running, its questions are all there or all missing, and
   * the turn it names belongs to a call of its own that has yet to end it. So no call leaves a session
   * in a turn when it returns, and none that reports a missing session has touched one.
   */
  lemma SessionsAreCoherent(now: int, steps: seq<Step>)
    ensures var w := Exec(Initial(now), steps);
      && w.sessions.Keys == w.runtimes
      && (forall sid <- w.sessions ::
            var s := w.sessions[sid];
            && (s.inTurn <==> s.turn != "")
            && (s.inTurn <==> s.status == Running)
            && AllOrNothing(s.pending)
            && (s.inTurn ==> s.turn in w.calls && w.calls[s.turn].sid == sid && Active(w.calls[s.turn].phase)))
      && (forall turn <- w.calls :: AllOrNothing(w.calls[turn].captured))
  {
    var w := Exec(Initial(now), steps);
    ExecKeepsInv(Initial(now), steps);
    forall sid | sid in w.sessions ensures SessionOk(w, sid, w.sessions[sid]) {
    }
    forall turn | turn in w.calls ensures CallOk(w.calls[turn], w.used) {
    }
  }

  /** A turn's whole story: it fails, or it resolves and asks at most once each and completes. */
  predicate TurnWord(kinds: seq<Kind>) {
    || kinds == [TurnStarted, UserMessage, TurnFailed]
    || kinds == [TurnStarted, UserMessage, TurnCompleted]
    || (|kinds| == 4 && kinds[0] == TurnStarted && kinds[1] == UserMessage
        && (kinds[2].Resolved? || kinds[2].Requested?) && kinds[3] == TurnCompleted)
    || (|kinds| == 5 && kinds[0] == TurnStarted && kinds[1] == UserMessage
        && kinds[2].Resolved? && kinds[3].Requested? && kinds[4] == TurnCompleted)
  }

  ghost predicate TurnPrefix(kinds: seq<Kind>) {
    exists rest :: TurnWord(kinds + rest)
  }

  /** A call that took its prompt. */
  predicate Ran(phase: Phase) {
    !(phase.Done? && (phase.outcome.NotFound? || phase.outcome.Ignored?))
  }

  lemma PublishedIsPrefix(c: Call)
    requires Ran(c.phase)
    ensures TurnPrefix(PublishedBy(c))
    ensures c.phase.Done? ==> TurnWord(PublishedBy(c))
  {
    var kinds := PublishedBy(c);
    if |kinds| == 0 {
      assert TurnWord(kinds + [TurnStarted, UserMessage, TurnCompleted]);
    } else if |kinds| == 1 {
      assert TurnWord(kinds + [UserMessage, TurnCompleted]);
    } else if c.phase.Done? {
      assert kinds + [] == kinds;
      assert TurnWord(kinds + []);
    } else {
      assert TurnWord(kinds + [TurnCompleted]);
    }
  }

  /**
   * In every interleaving: the lifecycle events of a turn are the beginning of one such story, and a
   * whole one once its call has returned; a call that was turned away leaves none. Every lifecycle
   * event on a session's trace belongs to a turn of that session.
   */
  lemma TurnsFollowTheGrammar(now: int, steps: seq<Step>)
    ensures var w := Exec(Initial(now), steps);
      && (forall turn <- w.calls :: w.calls[turn].sid in w.sessions ==>
            var phase := w.calls[turn].phase;
            var kinds := TurnEvents(w.sessions[w.calls[turn].sid].trace, turn);
            if Ran(phase) then TurnPrefix(kinds) && (phase.Done? ==> TurnWord(kinds)) else kinds == [])
      && (forall sid <- w.sessions :: forall e <- w.sessions[sid].trace ::
            !e.kind.Other? ==> e.turn in w.calls && w.calls[e.turn].sid == sid)
  {
    hide Exec, TurnPrefix, TurnWord, TurnEvents;
    var w := Exec(Initial(now), steps);
    ExecKeepsInv(Initial(now), steps);
    forall turn | turn in w.calls && w.calls[turn].sid in w.sessions
      ensures var kinds := TurnEvents(w.sessions[w.calls[turn].sid].trace, turn);
        if Ran(w.calls[turn].phase) then TurnPrefix(kinds) && (w.calls[turn].phase.Done? ==> TurnWord(kinds))
        else kinds == []
    {
      assert TraceOk(w, w.calls[turn].sid, w.sessions[w.calls[turn].sid].trace);
      if Ran(w.calls[turn].phase) {
        PublishedIsPrefix(w.calls[turn]);
      }
    }
    forall sid | sid in w.sessions ensures TraceOk(w, sid, w.sessions[sid].trace) {
    }
  }
}
