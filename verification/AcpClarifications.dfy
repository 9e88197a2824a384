/**
 * Question sets, when each session has at most one prompt in flight: a turn finds a set, resolves it
 * or puts it back, and may leave a new one.
 */
module AcpClarifications {
  import opened Text
  import opened AcpSession
  import opened AcpWorld
  import opened AcpInvariants

  // ---- The trace as a dialogue ----

  /** The set that is open, "" for none, and every set asked for so far; or a trace out of step. */
  datatype Dialogue = Confused | Dialogue(open: string, seen: set<string>)

  /** Requests and resolutions must alternate, a resolution naming the set just asked for. */
  function Continue(d: Dialogue, kind: Kind): Dialogue {
    if d.Confused? then Confused
    else
      match kind
      case Requested(setId) =>
        if d.open == "" && setId != "" && setId !in d.seen then Dialogue(setId, d.seen + {setId}) else Confused
      case Resolved(setId) => if d.open == setId != "" then Dialogue("", d.seen) else Confused
      case _ => d
  }

  function Follow(trace: seq<Event>): Dialogue {
    if trace == [] then Dialogue("", {}) else Continue(Follow(trace[..|trace| - 1]), trace[|trace| - 1].kind)
  }

  lemma FollowMore(trace: seq<Event>, e: Event)
    ensures Follow(trace + [e]) == Continue(Follow(trace), e.kind)
  {
    assert (trace + [e])[..|trace|] == trace;
  }

  lemma {:induction false} ResolvedBefore(trace: seq<Event>)
    requires Follow(trace).Dialogue?
    ensures Follow(trace).open != "" ==> Follow(trace).open in Follow(trace).seen
    ensures forall e <- trace :: e.kind.Resolved? ==>
              e.kind.setId in Follow(trace).seen && e.kind.setId != Follow(trace).open && e.kind.setId != ""
    decreases |trace|
  {
    if trace != [] {
      ResolvedBefore(trace[..|trace| - 1]);
    }
  }

  /** On a trace in step no set is resolved twice. */
  lemma {:induction false} ResolvedOnce(trace: seq<Event>, i: nat, j: nat)
    requires Follow(trace).Dialogue? && i < j < |trace|
    requires trace[i].kind.Resolved? && trace[j].kind.Resolved?
    ensures trace[i].kind.setId != trace[j].kind.setId
    decreases |trace|
  {
    var init := trace[..|trace| - 1];
    if j < |init| {
      ResolvedOnce(init, i, j);
    } else {
      ResolvedBefore(init);
      assert init[i] in init;
    }
  }

  // ---- One prompt at a time ----

  predicate NoneInFlight(w: World, sid: string) {
    forall turn <- w.calls :: w.calls[turn].sid == sid ==> w.calls[turn].phase.Done?
  }

  predicate OneAtATime(w: World, step: Step) {
    step.Begin? ==> NoneInFlight(w, step.sid)
  }

  ghost predicate OneAtATimeIn(w: World, steps: seq<Step>)
    decreases |steps|
  {
    steps != [] ==>
      if Enabled(w, steps[0]) then OneAtATime(w, steps[0]) && OneAtATimeIn(Apply(w, steps[0]), steps[1..])
      else OneAtATimeIn(w, steps[1..])
  }

  // ---- What holds of a session and the prompt in flight on it ----

  predicate Busy(s: Session, turn: string) {
    s.inTurn && s.turn == turn && s.status == Running
  }

  predicate AtRest(s: Session) {
    !s.inTurn && s.status != Running && (s.status == AwaitingInput <==> s.pending != NOTHING)
  }

  /** The set the trace shows open is `setId`, and no set ran out of step. */
  predicate Shows(s: Session, setId: string) {
    Follow(s.trace).Dialogue? && Follow(s.trace).open == setId
  }

  /** The mode is set only when the prompt wants a plan, or ends one. */
  predicate ModeOk(s: Session, c: Call) {
    && (c.phase.Switching? ==> c.phase.to == if c.plan then Plan else Build)
    && (c.phase.Switching? && !c.plan ==> s.mode == Plan)
    && (c.phase.Prompting? ==> (s.mode == Plan <==> c.plan))
  }

  /** A session while the call `c` of turn `turn` is in flight on it. */
  predicate Talking(s: Session, turn: string, c: Call) {
    match c.phase
    case Resolving => Busy(s, turn) && s.pending == NOTHING && Shows(s, c.captured.setId)
    case Finishing => Busy(s, turn) && s.pending == NOTHING && Shows(s, "")
    case Asking(setId) =>
      && AtRest(s) && s.pending.setId == setId && s.status == AwaitingInput
      && Shows(s, "") && setId !in Follow(s.trace).seen
    case Completing(asked) =>
      && AtRest(s) && s.pending.setId == asked && Shows(s, asked)
      && s.status == (if asked != "" then AwaitingInput else Ready)
    case Failing =>
      && AtRest(s) && s.pending == c.captured && Shows(s, s.pending.setId)
      && s.status == (if c.captured.setId != "" then AwaitingInput else Failed)
    case Done(_) => false
    case _ => Busy(s, turn) && s.pending == c.captured && Shows(s, s.pending.setId)
  }

  /** Whether the last turn that ended, as the trace tells, has failed. */
  predicate FailedLast(trace: seq<Event>) {
    if trace == [] then false
    else
      var last := trace[|trace| - 1].kind;
      if last == TurnFailed then true
      else if last == TurnCompleted then false
      else FailedLast(trace[..|trace| - 1])
  }

  lemma FailedLastMore(trace: seq<Event>, e: Event)
    ensures FailedLast(trace + [e])
        <==> if e.kind == TurnFailed then true else if e.kind == TurnCompleted then false else FailedLast(trace)
  {
    assert (trace + [e])[..|trace|] == trace;
  }

  /** The status between prompts. */
  function StatusAtRest(s: Session): Status {
    if s.pending.setId != "" then AwaitingInput else if FailedLast(s.trace) then Failed else Ready
  }

  predicate Resting(s: Session) {
    AtRest(s) && Shows(s, s.pending.setId) && s.status == StatusAtRest(s)
  }

  /** The prompt in flight, if there is one. */
  datatype Flight = NoFlight | Flight(turn: string, call: Call)

  predicate Known(s: Session, used: set<string>) {
    Follow(s.trace).Dialogue? ==> Follow(s.trace).seen <= used
  }

  predicate Held(s: Session, used: set<string>, f: Flight) {
    && AllOrNothing(s.pending) && Known(s, used)
    && match f
       case NoFlight => Resting(s)
       case Flight(turn, c) =>
         && Talking(s, turn, c) && ModeOk(s, c) && AllOrNothing(c.captured) && HasSet(c)
         && (c.phase.Asking? ==> c.phase.setId in used)
  }

  predicate InFlight(w: World, sid: string, f: Flight) {
    match f
    case NoFlight => NoneInFlight(w, sid)
    case Flight(turn, c) =>
      && turn in w.calls && w.calls[turn] == c && c.sid == sid && !c.phase.Done?
      && forall t <- w.calls :: w.calls[t].sid == sid && t != turn ==> w.calls[t].phase.Done?
  }

  ghost predicate SerialInv(w: World) {
    forall sid <- w.sessions :: Serial(w, sid, w.sessions[sid])
  }

  ghost predicate Serial(w: World, sid: string, s: Session) {
    exists f :: InFlight(w, sid, f) && Held(s, w.used, f)
  }

  // ---- Session by session ----

  function FlightAt(turn: string, c: Call): Flight {
    if c.phase.Done? then NoFlight else Flight(turn, c)
  }

  /** What a publishing call does to the dialogue of the trace. */
  lemma TellFollows(s: Session, used: set<string>, turn: string, c: Call)
    requires Held(s, used, Flight(turn, c)) && Publishes(c.phase)
    ensures var t := Publish(s, Event(Published(c).0, turn));
      var (d, e) := (Follow(s.trace), Follow(t.trace));
      && d.Dialogue? && e.Dialogue? && e.seen <= used
      && e.open == match c.phase
                   case Resolving => ""
                   case Asking(setId) => setId
                   case _ => d.open
  {
    hide Follow, AllOrNothing, ModeOk, Busy, AtRest;
    FollowMore(s.trace, Event(Published(c).0, turn));
  }

  /** A published event changes nothing of a session but its trace. */
  lemma TellsOnly(s: Session, e: Event, turn: string, c: Call)
    ensures var t := Publish(s, e);
      && t.pending == s.pending && t.status == s.status
      && (Busy(t, turn) <==> Busy(s, turn)) && (AtRest(t) <==> AtRest(s))
      && (ModeOk(s, c) ==> ModeOk(t, c))
  {
  }

  lemma TellMode(s: Session, c: Call)
    requires Publishes(c.phase)
    ensures ModeOk(s, c.(phase := Published(c).1))
  {
  }

  /** A turn's first events, and the resolution of the set it found, leave the turn going. */
  lemma TellGoesOn(s: Session, used: set<string>, turn: string, c: Call)
    requires Held(s, used, Flight(turn, c)) && (c.phase.Announcing? || c.phase.Echoing? || c.phase.Resolving?)
    ensures Held(Publish(s, Event(Published(c).0, turn)), used, Flight(turn, c.(phase := Published(c).1)))
  {
    TellFollows(s, used, turn, c);
    TellsOnly(s, Event(Published(c).0, turn), turn, c);
    TellMode(Publish(s, Event(Published(c).0, turn)), c);
    hide Follow, AllOrNothing, Publish, Busy, AtRest, ModeOk;
  }

  /** The questions of a turn are announced. */
  lemma TellAsks(s: Session, used: set<string>, turn: string, c: Call)
    requires Held(s, used, Flight(turn, c)) && c.phase.Asking?
    ensures Held(Publish(s, Event(Published(c).0, turn)), used, Flight(turn, c.(phase := Published(c).1)))
  {
    TellFollows(s, used, turn, c);
    TellsOnly(s, Event(Published(c).0, turn), turn, c);
    TellMode(Publish(s, Event(Published(c).0, turn)), c);
    hide Follow, Publish, Busy, ModeOk;
  }

  /** The last event of a turn leaves its session at rest. */
  lemma TellEnds(s: Session, used: set<string>, turn: string, c: Call)
    requires Held(s, used, Flight(turn, c)) && (c.phase.Failing? || c.phase.Completing?)
    ensures Held(Publish(s, Event(Published(c).0, turn)), used, NoFlight)
  {
    TellFollows(s, used, turn, c);
    TellsOnly(s, Event(Published(c).0, turn), turn, c);
    FailedLastMore(s.trace, Event(Published(c).0, turn));
    hide FailedLast, Follow, AllOrNothing, Publish, Busy, AtRest, ModeOk;
  }

  lemma TellHeld(s: Session, used: set<string>, turn: string, c: Call)
    requires Held(s, used, Flight(turn, c)) && Publishes(c.phase)
    ensures Held(Publish(s, Event(Published(c).0, turn)), used, FlightAt(turn, c.(phase := Published(c).1)))
  {
    hide Held, Publish;
    if c.phase.Asking? {
      TellAsks(s, used, turn, c);
    } else if c.phase.Failing? || c.phase.Completing? {
      TellEnds(s, used, turn, c);
    } else {
      TellGoesOn(s, used, turn, c);
    }
  }

  lemma FailHeld(s: Session, used: set<string>, turn: string, c: Call)
    requires Held(s, used, Flight(turn, c)) && (c.phase.Switching? || c.phase.Prompting?)
    ensures Held(FailTurn(s, c.captured), used, Flight(turn, c.(phase := Failing)))
  {
  }

  lemma PromptHeld(s: Session, used: set<string>, turn: string, c: Call)
    requires Held(s, used, Flight(turn, c)) && c.phase.Prompting?
    ensures c.captured.setId == "" ==> Held(s, used, Flight(turn, c.(phase := Finishing)))
    ensures c.captured.setId != "" ==> Held(ClearPending(s), used, Flight(turn, c.(phase := Resolving)))
  {
  }

  lemma ModeHeld(s: Session, used: set<string>, turn: string, c: Call)
    requires Held(s, used, Flight(turn, c))
    ensures c.phase.Choosing? ==>
      var mode := ModeToApply(c.plan, s.mode);
      Held(s, used, Flight(turn, c.(phase := if mode == NoMode then Prompting else Switching(mode))))
    ensures c.phase.Switching? ==> Held(SwitchMode(s, c.phase.to), used, Flight(turn, c.(phase := Prompting)))
  {
  }

  lemma FinishHeld(s: Session, used: set<string>, turn: string, c: Call, d: Derived, setId: string)
    requires Held(s, used, Flight(turn, c)) && c.phase.Finishing? && Derivable(d) && setId != "" && setId !in used
    ensures Held(FinishTurn(s, d, setId), used + {setId},
                 Flight(turn, c.(phase := if d.Questions? then Asking(setId) else Completing(""))))
  {
  }

  lemma TakeHeld(s: Session, used: set<string>, turn: string, p: PromptRequest, clock: Clock, sid: string)
    requires Held(s, used, NoFlight)
    ensures Held(Accept(s, turn, p, clock), used, Flight(turn, Call(sid, WantsPlan(p), Captured(s), Announcing)))
  {
    hide Expire, Recorded, Display, RequestId, WantsPlan, TrimSpace;
  }

  /** Changes that leave the turn, the questions and the dialogue alone. */
  lemma QuietHeld(s: Session, t: Session, used: set<string>, f: Flight)
    requires Held(s, used, f)
    requires t.status == s.status && t.inTurn == s.inTurn && t.turn == s.turn
    requires t.pending == s.pending && t.mode == s.mode
    requires t.trace == s.trace || (|t.trace| > 0 && t.trace == s.trace + [Event(Other, "")])
    ensures Held(t, used, f)
  {
    FollowMore(s.trace, Event(Other, ""));
    FailedLastMore(s.trace, Event(Other, ""));
  }

  lemma MoreUsed(s: Session, used: set<string>, used': set<string>, f: Flight)
    requires Held(s, used, f) && used <= used'
    ensures Held(s, used', f)
  {
  }

  // ---- Step by step ----

  ghost function NextFlight(w: World, step: Step, sid: string, f: Flight): Flight
    requires Enabled(w, step)
  {
    if step.Begin? && step.sid == sid && step.turn in Apply(w, step).calls
    then FlightAt(step.turn, Apply(w, step).calls[step.turn])
    else if f.Flight? && MoveOf(w, step).Some? && MoveOf(w, step).value.0 == f.turn
    then FlightAt(f.turn, f.call.(phase := MoveOf(w, step).value.1))
    else f
  }

  lemma CallOverStep(w: World, step: Step, turn: string)
    requires Keys(w) && Enabled(w, step) && turn in w.calls && w.calls[turn].phase.Done?
    ensures turn in Apply(w, step).calls && Apply(w, step).calls[turn] == w.calls[turn]
  {
    CallsStay(w, step);
    StepOnCall(w, step, turn);
    hide Apply, Content, TrimSpace, Ticks, Flows;
  }

  lemma NextInFlight(w: World, step: Step, sid: string, f: Flight)
    requires Keys(w) && Enabled(w, step) && OneAtATime(w, step) && InFlight(w, sid, f)
    ensures InFlight(Apply(w, step), sid, NextFlight(w, step, sid, f))
  {
    KeysMeaning(w);
    CallsStay(w, step);
    var v := Apply(w, step);
    assert step.Begin? ==> step.turn in v.calls && v.calls[step.turn].sid == step.sid by {
      hide Do, Duplicate, Content, TrimSpace, Ticks;
    }
    hide Apply, Enabled, Keys, MoveOf;
    forall t | t in v.calls && v.calls[t].sid == sid
      ensures v.calls[t].phase.Done? || NextFlight(w, step, sid, f) == Flight(t, v.calls[t])
    {
      StepOnCall(w, step, t);
      if t in w.calls && w.calls[t].phase.Done? {
        CallOverStep(w, step, t);
      }
    }
    if f.Flight? {
      StepOnCall(w, step, f.turn);
    }
  }

  lemma BeginHeld(w: World, step: Step, s: Session)
    requires Keys(w) && Enabled(w, step) && step.Begin? && step.sid in w.sessions && s == w.sessions[step.sid]
    requires Held(s, w.used, NoFlight)
    ensures var v := Apply(w, step);
      && step.turn in v.calls && step.sid in v.sessions
      && Held(v.sessions[step.sid], w.used, FlightAt(step.turn, v.calls[step.turn]))
  {
    hide Held, Accept, Duplicate, WantsPlan, Content, RequestId, TrimSpace, Ticks, Expire, Recorded, Captured;
    if Duplicate(s, step.p, step.clock) {
      QuietHeld(s, Checked(s, RequestId(step.p), step.clock.check), w.used, NoFlight);
    } else {
      TakeHeld(s, w.used, step.turn, step.p, step.clock, step.sid);
    }
  }

  /** The call in flight takes its next step. */
  lemma MoveHeld(w: World, step: Step, sid: string, turn: string, c: Call)
    requires Keys(w) && Enabled(w, step) && sid in w.sessions
    requires turn in w.calls && w.calls[turn] == c && c.sid == sid
    requires MoveOf(w, step).Some? && MoveOf(w, step).value.0 == turn
    requires Held(w.sessions[sid], w.used, Flight(turn, c))
    ensures Held(After(w.sessions[sid], sid, OpOf(w, step)), Apply(w, step).used,
                 FlightAt(turn, c.(phase := MoveOf(w, step).value.1)))
  {
    hide Held, Accept, Hear, Publish, FailTurn, ClearPending, FinishTurn, SwitchMode, Published, Checked, Duplicate;
    var s := w.sessions[sid];
    match step
    case Tell(_) => TellHeld(s, w.used, turn, c);
    case Choose(_, _) => ModeHeld(s, w.used, turn, c);
    case SwitchAnswer(_, _) =>
      ModeHeld(s, w.used, turn, c);
      FailHeld(s, w.used, turn, c);
    case PromptAnswer(_, _) =>
      PromptHeld(s, w.used, turn, c);
      FailHeld(s, w.used, turn, c);
    case Finish(_, derived, setId) => FinishHeld(s, w.used, turn, c, derived, setId);
  }

  lemma DoIsQuiet(s: Session, op: Op)
    requires op.Heard? || op == Told(Event(Other, ""))
    ensures var t := Do(s, op);
      && t.status == s.status && t.inTurn == s.inTurn && t.turn == s.turn && t.pending == s.pending && t.mode == s.mode
      && (t.trace == s.trace || t.trace == s.trace + [Event(Other, "")])
  {
    hide AppendChunk, TrimSpace;
  }

  /** A step that moves no call of the session's changes nothing that matters here. */
  lemma OtherHeld(w: World, step: Step, sid: string, f: Flight)
    requires Keys(w) && Enabled(w, step) && sid in w.sessions && InFlight(w, sid, f)
    requires !(step.Begin? && step.sid == sid)
    requires MoveOf(w, step).Some? && f.Flight? ==> MoveOf(w, step).value.0 != f.turn
    requires Held(w.sessions[sid], w.used, f)
    ensures Held(After(w.sessions[sid], sid, OpOf(w, step)), w.used, f)
  {
    var change := OpOf(w, step);
    if change.Some? && change.value.0 == sid {
      assert step.Chunk? || step.Note? by {
        hide Held, Do, Duplicate, Flows, Content, TrimSpace, Ticks;
      }
      hide Held, Do, Flows;
      DoIsQuiet(w.sessions[sid], change.value.1);
      QuietHeld(w.sessions[sid], Do(w.sessions[sid], change.value.1), w.used, f);
    }
  }

  lemma HeldOverStep(w: World, step: Step, sid: string, f: Flight)
    requires Keys(w) && Enabled(w, step) && OneAtATime(w, step)
    requires sid in w.sessions && sid in Apply(w, step).sessions
    requires InFlight(w, sid, f) && Held(w.sessions[sid], w.used, f)
    ensures InFlight(Apply(w, step), sid, NextFlight(w, step, sid, f))
    ensures Held(Apply(w, step).sessions[sid], Apply(w, step).used, NextFlight(w, step, sid, f))
  {
    NextInFlight(w, step, sid, f);
    KeysMeaning(w);
    StepOnSession(w, step, sid);
    UsedStays(w, step);
    if step.Begin? && step.sid == sid {
      assert f.NoFlight?;
      hide Apply, Held, Enabled;
      BeginHeld(w, step, w.sessions[sid]);
      MoreUsed(Apply(w, step).sessions[sid], w.used, Apply(w, step).used, NextFlight(w, step, sid, f));
    } else if f.Flight? && MoveOf(w, step).Some? && MoveOf(w, step).value.0 == f.turn {
      hide Apply, Held, Enabled, MoveOf, OpOf;
      MoveHeld(w, step, sid, f.turn, f.call);
    } else {
      hide Apply, Held, Enabled, MoveOf, OpOf;
      OtherHeld(w, step, sid, f);
      MoreUsed(Apply(w, step).sessions[sid], w.used, Apply(w, step).used, f);
    }
  }

  lemma StartedIsHeld(w: World, step: Step, sid: string)
    requires Calls(w) && Enabled(w, step) && step.Register? && step.sid == sid
    ensures InFlight(Apply(w, step), sid, NoFlight) && Held(Started(step.user), Apply(w, step).used, NoFlight)
  {
    var v := Apply(w, step);
    forall turn | turn in v.calls && v.calls[turn].sid == sid ensures v.calls[turn].phase.Done? {
      assert CallOk(w.calls[turn], w.used);
    }
    assert v.calls == w.calls;
  }

  lemma StepKeepsSerial(w: World, step: Step)
    requires Inv(w) && SerialInv(w) && Enabled(w, step) && OneAtATime(w, step)
    ensures SerialInv(Apply(w, step))
  {
    hide Apply, Enabled, OneAtATime, InFlight, Held, Keys, Calls, Sessions, Traces;
    forall sid | sid in Apply(w, step).sessions ensures Serial(Apply(w, step), sid, Apply(w, step).sessions[sid]) {
      assert w.sessions.Keys <= w.used by { KeysMeaning(w); }
      StepOnSession(w, step, sid);
      if sid in w.sessions {
        assert Serial(w, sid, w.sessions[sid]);
        var f :| InFlight(w, sid, f) && Held(w.sessions[sid], w.used, f);
        HeldOverStep(w, step, sid, f);
      } else {
        StartedIsHeld(w, step, sid);
      }
    }
  }

  lemma {:induction false} ExecKeepsSerial(w: World, steps: seq<Step>)
    requires Inv(w) && SerialInv(w) && OneAtATimeIn(w, steps)
    ensures SerialInv(Exec(w, steps))
    decreases |steps|
  {
    hide Apply, Enabled, OneAtATime, Inv, SerialInv;
    if steps != [] {
      if Enabled(w, steps[0]) {
        StepKeepsInv(w, steps[0]);
        StepKeepsSerial(w, steps[0]);
        ExecKeepsSerial(Apply(w, steps[0]), steps[1..]);
      } else {
        ExecKeepsSerial(w, steps[1..]);
      }
    }
  }

  // ---- Main results ----

  /**
   * With one prompt in flight per session: requests and resolutions alternate on the trace with
   * matching ids, no set twice, so each is resolved at most once; the status is running exactly during
   * a turn; and out of turn it is awaiting_input exactly when a set is pending. Between
   * prompts it is otherwise error exactly when the last turn failed, and ready if not.
   */
  lemma ClarificationsAlternate(now: int, steps: seq<Step>, sid: string)
    requires OneAtATimeIn(Initial(now), steps) && sid in Exec(Initial(now), steps).sessions
    ensures var s := Exec(Initial(now), steps).sessions[sid];
      && Follow(s.trace).Dialogue?
      && (forall i, j :: 0 <= i < j < |s.trace| && s.trace[i].kind.Resolved? && s.trace[j].kind.Resolved? ==>
            s.trace[i].kind.setId != s.trace[j].kind.setId)
      && (s.status == Running <==> s.inTurn)
      && (!s.inTurn ==> (s.status == AwaitingInput <==> s.pending.setId != ""))
      && (NoneInFlight(Exec(Initial(now), steps), sid) ==>
            && !s.inTurn && Follow(s.trace).open == s.pending.setId
            && s.status
               == if s.pending.setId != "" then AwaitingInput else if FailedLast(s.trace) then Failed else Ready)
  {
    hide Exec, OneAtATimeIn;
    ExecKeepsSerial(Initial(now), steps);
    var w := Exec(Initial(now), steps);
    assert Serial(w, sid, w.sessions[sid]);
    var f :| InFlight(w, sid, f) && Held(w.sessions[sid], w.used, f);
    var trace := w.sessions[sid].trace;
    forall i, j | 0 <= i < j < |trace| && trace[i].kind.Resolved? && trace[j].kind.Resolved?
      ensures trace[i].kind.setId != trace[j].kind.setId
    {
      ResolvedOnce(trace, i, j);
    }
  }

  /**
   * And a turn that fails leaves exactly the set it found: while its call is in flight the session
   * holds the set the call found when it began, until the provider has taken the prompt; the prompt
   * goes out with the provider in the mode asked for; and when the turn has failed that set is there.
   */
  lemma FailureRestores(now: int, steps: seq<Step>, turn: string)
    requires OneAtATimeIn(Initial(now), steps)
    requires var w := Exec(Initial(now), steps); turn in w.calls && w.calls[turn].sid in w.sessions
    ensures var w := Exec(Initial(now), steps);
      var (c, s) := (w.calls[turn], w.sessions[w.calls[turn].sid]);
      && (c.phase in {Announcing, Echoing, Choosing, Prompting, Failing} || c.phase.Switching? ==>
          s.pending == c.captured)
      && (c.phase.Prompting? ==> (s.mode == Plan <==> c.plan))
      && (c.phase.Switching? && c.phase.to == Build ==> s.mode == Plan)
      && (c.phase.Completing? ==>
            && s.pending.setId == c.phase.asked
            && s.status == if c.phase.asked != "" then AwaitingInput else Ready)
      && (c.phase.Failing? ==> s.status == (if c.captured.setId != "" then AwaitingInput else Failed))
  {
    hide Exec, OneAtATimeIn;
    ExecKeepsSerial(Initial(now), steps);
    var w := Exec(Initial(now), steps);
    var sid := w.calls[turn].sid;
    assert Serial(w, sid, w.sessions[sid]);
    var f :| InFlight(w, sid, f) && Held(w.sessions[sid], w.used, f);
  }
}
