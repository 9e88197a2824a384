/**
 * The service as a state machine. A step is one critical section of the service's mutex, together
 * with the provider's answer that led to it; what a SendPrompt call keeps between its sections is
 * part of the state, so any number of calls interleave with chunks, deletions and Close.
 */
module AcpWorld {
  import opened Text
  import opened AcpSession

  datatype Outcome = NotFound | Ignored | Broken | Completed(asked: string)

  /** Where a SendPrompt call stands, and what it will publish next. */
  datatype Phase =
    | Announcing                 // publish turn_started
    | Echoing                    // publish user_message
    | Choosing                   // look at the session's mode
    | Switching(to: Mode)        // set_mode is on its way
    | Prompting                  // the prompt is on its way
    | Failing                    // publish turn_failed
    | Resolving                  // publish clarification_resolved
    | Finishing
    | Asking(setId: string)      // publish clarification_requested
    | Completing(asked: string)  // publish turn_completed
    | Done(outcome: Outcome)

  datatype Call = Call(sid: string, plan: bool, captured: Pending, phase: Phase)

  datatype World = World(
    sessions: map<string, Session>,
    runtimes: set<string>,
    calls: map<string, Call>,    // by turn id
    used: set<string>,           // ids handed out so far
    now: int)

  function Initial(now: int): World {
    World(map[], {}, map[], {}, now)
  }

  datatype Step =
    | Register(sid: string, user: string)
    | Begin(sid: string, turn: string, p: PromptRequest, clock: Clock)
    | Tell(turn: string)
    | Choose(turn: string, seen: Mode)
    | SwitchAnswer(turn: string, ok: bool)
    | PromptAnswer(turn: string, ok: bool)
    | Finish(turn: string, derived: Derived, setId: string)
    | Chunk(sid: string, role: Role, text: string, own: string, readings: Readings)
    | Note(sid: string)
    | Delete(sid: string, user: string)
    | Close

  predicate Fresh(w: World, id: string) {
    id != "" && id !in w.used
  }


  predicate Publishes(phase: Phase) {
    phase.Announcing? || phase.Echoing? || phase.Failing? || phase.Resolving? || phase.Asking? || phase.Completing?
  }

  ghost predicate Enabled(w: World, step: Step) {
    match step
    case Register(sid, user) => Fresh(w, sid) && TrimSpace(user) != ""
    case Begin(_, turn, p, clock) => Fresh(w, turn) && Content(p) != "" && Ticks(w.now, clock)
    case Tell(turn) => turn in w.calls && Publishes(w.calls[turn].phase)
    case Choose(turn, seen) =>
      && turn in w.calls && w.calls[turn].phase.Choosing?
      && (w.calls[turn].sid in w.sessions ==> seen == w.sessions[w.calls[turn].sid].mode)
    case SwitchAnswer(turn, _) => turn in w.calls && w.calls[turn].phase.Switching?
    case PromptAnswer(turn, _) => turn in w.calls && w.calls[turn].phase.Prompting?
    case Finish(turn, derived, setId) =>
      turn in w.calls && w.calls[turn].phase.Finishing? && Derivable(derived) && Fresh(w, setId)
    case Chunk(_, role, _, _, readings) => role != User && Flows(w.now, readings)
    case Note(_) => true
    case Delete(_, _) => true
    case Close => true
  }

  /** What a publishing call puts on the trace, and where it stands afterwards. */
  function Published(c: Call): (Kind, Phase)
    requires Publishes(c.phase)
  {
    match c.phase
    case Announcing => (TurnStarted, Echoing)
    case Echoing => (UserMessage, Choosing)
    case Failing => (TurnFailed, Done(Broken))
    case Resolving => (Resolved(c.captured.setId), Finishing)
    case Asking(setId) => (Requested(setId), Completing(setId))
    case Completing(asked) => (TurnCompleted, Done(Completed(asked)))
  }

  /** The mode to apply, if any (internal/platform/acp/service.go, lines 346-351). */
  function ModeToApply(plan: bool, seen: Mode): Mode {
    if plan then Plan else if seen == Plan then Build else NoMode
  }

  function With(w: World, sid: string, op: Op): World {
    if sid in w.sessions then w.(sessions := w.sessions[sid := Do(w.sessions[sid], op)]) else w
  }

  function Move(w: World, turn: string, phase: Phase): World
    requires turn in w.calls
  {
    w.(calls := w.calls[turn := w.calls[turn].(phase := phase)])
  }

  function BeginCall(w: World, sid: string, turn: string, p: PromptRequest, clock: Clock): World {
    var v := w.(used := w.used + {turn}, now := clock.record);
    if sid !in w.sessions then
      v.(calls := v.calls[turn := Call(sid, WantsPlan(p), NOTHING, Done(NotFound))])
    else if Duplicate(w.sessions[sid], p, clock) then
      With(v, sid, Refused(p, clock)).(calls := v.calls[turn := Call(sid, WantsPlan(p), NOTHING, Done(Ignored))])
    else
      var phase := if sid in w.runtimes then Announcing else Done(NotFound);
      With(v, sid, Took(turn, p, clock))
        .(calls := v.calls[turn := Call(sid, WantsPlan(p), Captured(w.sessions[sid]), phase)])
  }

  ghost function Apply(w: World, step: Step): World
    requires Enabled(w, step)
  {
    match step
    case Register(sid, user) =>
      w.(sessions := w.sessions[sid := Started(user)], runtimes := w.runtimes + {sid}, used := w.used + {sid})
    case Begin(sid, turn, p, clock) => BeginCall(w, sid, turn, p, clock)
    case Tell(turn) =>
      var (kind, next) := Published(w.calls[turn]);
      Move(With(w, w.calls[turn].sid, Told(Event(kind, turn))), turn, next)
    case Choose(turn, seen) =>
      var mode := ModeToApply(w.calls[turn].plan, seen);
      Move(w, turn, if mode == NoMode then Prompting else Switching(mode))
    case SwitchAnswer(turn, ok) =>
      var c := w.calls[turn];
      if ok then Move(With(w, c.sid, Switched(c.phase.to)), turn, Prompting)
      else Move(With(w, c.sid, Lost(c.captured)), turn, Failing)
    case PromptAnswer(turn, ok) =>
      var c := w.calls[turn];
      if !ok then Move(With(w, c.sid, Lost(c.captured)), turn, Failing)
      else if c.captured.setId == "" then Move(w, turn, Finishing)
      else Move(With(w, c.sid, Cleared), turn, Resolving)
    case Finish(turn, derived, setId) =>
      var c := w.calls[turn];
      Move(With(w, c.sid, Finished(derived, setId)).(used := w.used + {setId}), turn,
           if derived.Questions? && c.sid in w.sessions then Asking(setId) else Completing(""))
    case Chunk(sid, role, text, own, readings) =>
      With(w, sid, Heard(role, text, own, readings)).(now := readings.stamp)
    case Note(sid) => With(w, sid, Told(Event(Other, "")))
    case Delete(sid, user) =>
      if sid in w.sessions && w.sessions[sid].user == user
      then w.(sessions := w.sessions - {sid}, runtimes := w.runtimes - {sid}) else w
    case Close => w.(sessions := map[], runtimes := {})
  }

  /** Any interleaving: a step that cannot happen when its turn comes is passed over. */
  ghost function Exec(w: World, steps: seq<Step>): World
    decreases |steps|
  {
    if steps == [] then w
    else Exec(if Enabled(w, steps[0]) then Apply(w, steps[0]) else w, steps[1..])
  }

  ghost function Next(w: World, step: Step): World {
    if Enabled(w, step) then Apply(w, step) else w
  }

  lemma {:induction false} ExecConcat(w: World, a: seq<Step>, b: seq<Step>)
    ensures Exec(w, a + b) == Exec(Exec(w, a), b)
    decreases |a|
  {
    hide Apply, Enabled;
    if a == [] {
      assert a + b == b;
    } else {
      assert (a + b)[1..] == a[1..] + b;
      ExecConcat(Next(w, a[0]), a[1..], b);
    }
  }

  lemma ExecOne(w: World, step: Step)
    ensures Exec(w, [step]) == Next(w, step)
  {
    hide Apply, Enabled;
    assert [step][1..] == [];
  }

  // ---- What a step does to a session ----

  /** The session a step works on, and the change it makes if that session is there. */
  ghost function OpOf(w: World, step: Step): Option<(string, Op)>
    requires Enabled(w, step)
  {
    match step
    case Begin(sid, turn, p, clock) =>
      if sid !in w.sessions then None
      else if Duplicate(w.sessions[sid], p, clock) then Some((sid, Refused(p, clock)))
      else Some((sid, Took(turn, p, clock)))
    case Tell(turn) => Some((w.calls[turn].sid, Told(Event(Published(w.calls[turn]).0, turn))))
    case SwitchAnswer(turn, ok) =>
      Some((w.calls[turn].sid, if ok then Switched(w.calls[turn].phase.to) else Lost(w.calls[turn].captured)))
    case PromptAnswer(turn, ok) =>
      if !ok then Some((w.calls[turn].sid, Lost(w.calls[turn].captured)))
      else if w.calls[turn].captured.setId == "" then None
      else Some((w.calls[turn].sid, Cleared))
    case Finish(turn, derived, setId) => Some((w.calls[turn].sid, Finished(derived, setId)))
    case Chunk(sid, role, text, own, readings) => Some((sid, Heard(role, text, own, readings)))
    case Note(sid) => Some((sid, Told(Event(Other, ""))))
    case _ => None
  }

  function After(s: Session, sid: string, change: Option<(string, Op)>): Session {
    if change.Some? && change.value.0 == sid then Do(s, change.value.1) else s
  }

  /** A session is new, or it is what it was but for the change of the step. */
  lemma StepOnSession(w: World, step: Step, sid: string)
    requires Enabled(w, step) && sid in Apply(w, step).sessions
    requires w.sessions.Keys <= w.used
    ensures if sid in w.sessions then Apply(w, step).sessions[sid] == After(w.sessions[sid], sid, OpOf(w, step))
            else step.Register? && step.sid == sid && Apply(w, step).sessions[sid] == Started(step.user)
  {
    hide Do, Duplicate, Flows, Ticks, Content, TrimSpace;
  }

  /** The call a step moves, if any: its turn, and where it stands next. */
  ghost function MoveOf(w: World, step: Step): Option<(string, Phase)>
    requires Enabled(w, step)
  {
    match step
    case Tell(turn) => Some((turn, Published(w.calls[turn]).1))
    case Choose(turn, seen) =>
      var mode := ModeToApply(w.calls[turn].plan, seen);
      Some((turn, if mode == NoMode then Prompting else Switching(mode)))
    case SwitchAnswer(turn, ok) => Some((turn, if ok then Prompting else Failing))
    case PromptAnswer(turn, ok) =>
      Some((turn, if !ok then Failing else if w.calls[turn].captured.setId == "" then Finishing else Resolving))
    case Finish(turn, derived, setId) =>
      Some((turn, if derived.Questions? && w.calls[turn].sid in w.sessions then Asking(setId) else Completing("")))
    case _ => None
  }

  /** A call is new, or it is what it was but for its phase. */
  lemma StepOnCall(w: World, step: Step, turn: string)
    requires Enabled(w, step) && turn in Apply(w, step).calls
    requires w.calls.Keys <= w.used
    ensures if turn in w.calls then
              var move := MoveOf(w, step);
              Apply(w, step).calls[turn]
                == if move.Some? && move.value.0 == turn then w.calls[turn].(phase := move.value.1) else w.calls[turn]
            else step.Begin? && step.turn == turn && Apply(w, step).calls[turn].sid == step.sid
  {
    hide Do, Duplicate, Flows, Ticks, Content, TrimSpace;
  }

  lemma CallsStay(w: World, step: Step)
    requires Enabled(w, step)
    ensures w.calls.Keys <= Apply(w, step).calls.Keys
  {
    hide Do, Duplicate, Flows, Ticks, Content, TrimSpace;
  }
}
