/**
 * The service's code: one method for each critical section, on sessions that are changed in place.
 * Each method of `Service` does just what one step of `AcpWorld` does. Line numbers are those of
 * internal/platform/acp/service.go.
 */
module AcpService {
  import opened Durations
  import opened Text
  import opened AcpSession
  import opened AcpWorld
  import opened AcpInvariants

  class SessionRecord {
    const id: string
    const user: string
    var status: Status
    var turnInProgress: bool
    var currentTurn: string
    var pending: Pending
    var mode: Mode
    var messages: seq<Message>
    var trace: seq<Event>
    var recent: map<string, int>

    ghost function State(): Session
      reads this
    {
      Session(user, status, turnInProgress, currentTurn, pending, mode, messages, trace, recent)
    }

    constructor (id: string, user: string)
      ensures this.id == id && State() == Started(user)
    {
      this.id, this.user := id, user;
      status, turnInProgress, currentTurn, pending, mode := Ready, false, "", NOTHING, NoMode;
      messages, trace, recent := [], [], map[];
    }

    /** expirePromptRequestIDs: Go visits the entries in any order. */
    method ExpireRequests(now: int)
      modifies this`recent
      ensures recent == Expire(old(recent), now)
    {
      var left := recent.Keys;
      while left != {}
        invariant left <= old(recent).Keys
        invariant recent == map request | request in old(recent)
                              && (request in left || now - old(recent)[request] <= REQUEST_WINDOW) ::
                                  old(recent)[request]
        decreases |left|
      {
        var request :| request in left;
        left := left - {request};
        if now - recent[request] > REQUEST_WINDOW {
          recent := recent - {request};
        }
      }
    }

    /** duplicatePromptRequestID */
    method KnownRequest(request: string, now: int) returns (known: bool)
      modifies this`recent
      ensures State() == Checked(old(State()), request, now)
      ensures known == (request != "" && request in Expire(old(recent), now))
    {
      if request == "" {
        return false;
      }
      ExpireRequests(now);
      known := request in recent;
    }

    /** recordPromptRequestID */
    method RecordRequest(request: string, now: int)
      modifies this`recent
      ensures recent == Recorded(old(recent), request, now)
    {
      if request == "" {
        return;
      }
      ExpireRequests(now);
      recent := recent[request := now];
    }

    /** duplicatePromptReplay: the scan from the back for the latest user message. */
    method IsReplay(display: string, content: string, now: int) returns (replay: bool)
      ensures replay == Replayed(messages, display, content, now)
    {
      var index := |messages|;
      assert messages[..index] == messages;
      while index > 0
        invariant 0 <= index <= |messages|
        invariant Replayed(messages[..index], display, content, now) == Replayed(messages, display, content, now)
      {
        index := index - 1;
        assert messages[..index + 1][..index] == messages[..index];
        var item := messages[index];
        if item.role != User {
          continue;
        }
        var stored := TrimSpace(item.content);
        if stored != display && stored != content {
          return false;
        }
        return now - item.at <= REPLAY_WINDOW;
      }
      replay := false;
    }

    /** The first section of SendPrompt, on the session it finds. */
    method TakePrompt(turn: string, p: PromptRequest, clock: Clock) returns (duplicate: bool, captured: Pending)
      modifies this
      ensures duplicate == Duplicate(old(State()), p, clock)
      ensures State() == if duplicate then Checked(old(State()), RequestId(p), clock.check)
                         else Accept(old(State()), turn, p, clock)
      ensures !duplicate ==> captured == Captured(old(State()))
    {
      hide TrimSpace, Expire, Replayed, WantsPlan;
      var request := RequestId(p);
      captured := NOTHING;
      duplicate := KnownRequest(request, clock.check);
      if !duplicate {
        duplicate := IsReplay(Display(p), Content(p), clock.replay);
      }
      if duplicate {
        return;
      }
      turnInProgress, currentTurn, status := true, turn, Running;
      if pending.setId != "" || pending.questions != [] {
        captured := pending;
      }
      messages := messages + [Message(User, Display(p), clock.stamp, turn, request)];
      RecordRequest(request, clock.record);
    }

    /** appendChunkMessage */
    method AppendChunkMessage(role: Role, text: string, turn: string, r: Readings)
      modifies this`messages
      ensures messages == AppendChunk(old(messages), role, text, turn, r)
    {
      hide TrimSpace;
      if text == "" {
        return;
      }
      if messages != [] {
        var i := |messages| - 1;
        var last := messages[i];
        if last.role == role && r.first - last.at < MINUTE {
          messages := messages[i := last.(content := last.content + text)];
          return;
        }
      }
      if turn != "" {
        var index := |messages|;
        assert messages[..index] == messages;
        while index > 0
          invariant 0 <= index <= |messages| && messages == old(messages)
          invariant MergeTarget(messages[..index], role, turn, r.probe) == MergeTarget(messages, role, turn, r.probe)
        {
          index := index - 1;
          assert messages[..index + 1][..index] == messages[..index];
          var item := messages[index];
          if item.role != role || item.turn != turn {
            continue;
          }
          if role == User {
            if TrimSpace(item.content) == TrimSpace(text) {
              return;
            }
            messages := messages[index := item.(content := item.content + text)];
            return;
          }
          if role == Assistant && r.probe(index) - item.at < MINUTE {
            messages := messages[index := item.(content := item.content + text, at := r.stamp)];
            return;
          }
        }
      }
      messages := messages + [Message(role, text, r.stamp, turn, "")];
    }

    /** The part of handleSessionUpdate that concerns the messages. */
    method HandleChunk(role: Role, text: string, own: string, r: Readings)
      requires role != User
      modifies this`messages
      ensures State() == Hear(old(State()), role, text, own, r)
    {
      hide TrimSpace, AppendChunk;
      var turn := TrimSpace(own);
      if currentTurn != "" {
        turn := currentTurn;
      }
      AppendChunkMessage(role, TrimSpace(text), turn, r);
    }

    method AddEvent(event: Event)
      modifies this`trace
      ensures State() == AcpSession.Publish(old(State()), event)
    {
      trace := trace + [event];
    }

    method SetMode(to: Mode)
      modifies this`mode
      ensures State() == SwitchMode(old(State()), to)
    {
      mode := to;
    }

    /** Lines 356-367 and 383-394. */
    method Fail(captured: Pending)
      modifies this
      ensures State() == FailTurn(old(State()), captured)
    {
      turnInProgress, currentTurn := false, "";
      if captured != NOTHING {
        status, pending := AwaitingInput, captured;
      } else {
        status := Failed;
      }
    }

    method Clear()
      modifies this`pending
      ensures State() == ClearPending(old(State()))
    {
      pending := NOTHING;
    }

    /** Lines 416-440. */
    method End(derived: Derived, setId: string)
      modifies this
      ensures State() == FinishTurn(old(State()), derived, setId)
    {
      turnInProgress, currentTurn := false, "";
      if derived.Questions? {
        status, pending := AwaitingInput, Pending(derived.questions, setId, derived.kind);
      } else {
        status := Ready;
      }
    }
  }

  /** A change to one session leaves the others as they are. */
  lemma OneChanged(w: World, after: World, sid: string, op: Op)
    requires after == w.(sessions := after.sessions) && after.sessions.Keys == w.sessions.Keys
    requires forall id <- after.sessions ::
               after.sessions[id] == if id == sid then Do(w.sessions[sid], op) else w.sessions[id]
    ensures after == With(w, sid, op)
  {
    hide Do;
    if sid !in w.sessions {
      assert after.sessions == w.sessions;
    }
  }

  /** How the first section turns a prompt away, if it does. */
  function Refusal(w: World, sid: string, p: PromptRequest, clock: Clock): Option<Outcome> {
    if sid !in w.sessions then Some(NotFound)
    else if Duplicate(w.sessions[sid], p, clock) then Some(Ignored)
    else None
  }

  lemma RegisterMeaning(w: World, sid: string, user: string)
    requires Inv(w) && Enabled(w, Register(sid, user))
    ensures sid !in w.sessions
    ensures Apply(w, Register(sid, user))
         == w.(sessions := w.sessions[sid := Started(user)], runtimes := w.runtimes + {sid}, used := w.used + {sid})
  {
    hide TrimSpace;
  }

  lemma BeginMeaning(w: World, sid: string, turn: string, p: PromptRequest, clock: Clock)
    requires Inv(w) && Enabled(w, Begin(sid, turn, p, clock))
    ensures w.sessions.Keys == w.runtimes
    ensures var refusal := Refusal(w, sid, p, clock);
      var found := if refusal.None? then Captured(w.sessions[sid]) else NOTHING;
      var call := Call(sid, WantsPlan(p), found, if refusal.Some? then Done(refusal.value) else Announcing);
      var v := if sid !in w.sessions then w
               else With(w, sid, if refusal.Some? then Refused(p, clock) else Took(turn, p, clock));
      Apply(w, Begin(sid, turn, p, clock)) ==
          v.(calls := v.calls[turn := call], used := v.used + {turn}, now := clock.record)
  {
    hide Do, Duplicate, Content, TrimSpace, WantsPlan, Ticks, Captured;
  }

  class Service {
    var sessions: map<string, SessionRecord>
    var runtimes: set<string>
    var calls: map<string, Call>     // the variables of the SendPrompt calls under way
    ghost var used: set<string>
    ghost var now: int

    ghost function View(): World
      reads this, sessions.Values
    {
      World(map id | id in sessions :: sessions[id].State(), runtimes, calls, used, now)
    }

    /** Each session is filed under its own id, so no two keys share a record. */
    ghost predicate Filed()
      reads this, sessions.Values
    {
      forall id <- sessions :: sessions[id].id == id
    }

    ghost predicate Valid()
      reads this, sessions.Values
    {
      Filed() && Inv(View())
    }

    constructor (now: int)
      ensures Valid() && View() == Initial(now)
    {
      sessions, runtimes, calls, used := map[], {}, map[], {};
      this.now := now;
    }

    // ---- Changes to one part ----

    method PutSession(record: SessionRecord)
      requires Filed() && record.id !in sessions
      modifies this`sessions, this`runtimes
      ensures Filed() && sessions == old(sessions)[record.id := record]
      ensures View() == old(View()).(sessions := old(View()).sessions[record.id := record.State()],
                                     runtimes := old(View()).runtimes + {record.id})
    {
      sessions, runtimes := sessions[record.id := record], runtimes + {record.id};
      assert View().sessions == old(View()).sessions[record.id := record.State()];
    }

    method PutCall(turn: string, call: Call)
      requires Filed()
      modifies this`calls
      ensures Filed() && View() == old(View()).(calls := old(View()).calls[turn := call])
    {
      calls := calls[turn := call];
    }

    method MoveCall(turn: string, phase: Phase)
      requires Filed() && turn in calls
      modifies this`calls
      ensures Filed() && View() == Move(old(View()), turn, phase)
    {
      calls := calls[turn := calls[turn].(phase := phase)];
    }

    ghost method Pass(ids: set<string>, end: int)
      requires Filed()
      modifies this`used, this`now
      ensures Filed() && View() == old(View()).(used := old(View()).used + ids, now := end)
    {
      used, now := used + ids, end;
    }

    /** publish, as far as the trace goes: nothing happens when the session is gone. */
    method Publish(sid: string, event: Event)
      requires Filed()
      modifies sessions.Values
      ensures Filed() && View() == With(old(View()), sid, Told(event))
    {
      if sid in sessions {
        sessions[sid].AddEvent(event);
      }
      OneChanged(old(View()), View(), sid, Told(event));
    }

    method TakePromptOn(sid: string, turn: string, p: PromptRequest, clock: Clock) returns (duplicate: bool,
                        captured: Pending)
      requires Filed() && sid in sessions
      modifies sessions.Values
      ensures duplicate == Duplicate(old(View()).sessions[sid], p, clock)
      ensures Filed() && View() == With(old(View()), sid, if duplicate then Refused(p, clock) else Took(turn, p, clock))
      ensures !duplicate ==> captured == Captured(old(View()).sessions[sid])
    {
      hide Accept, Checked, Duplicate, Captured;
      duplicate, captured := sessions[sid].TakePrompt(turn, p, clock);
      OneChanged(old(View()), View(), sid, if duplicate then Refused(p, clock) else Took(turn, p, clock));
    }

    method SetModeOn(sid: string, to: Mode)
      requires Filed()
      modifies sessions.Values
      ensures Filed() && View() == With(old(View()), sid, Switched(to))
    {
      if sid in sessions {
        sessions[sid].SetMode(to);
      }
      OneChanged(old(View()), View(), sid, Switched(to));
    }

    method FailOn(sid: string, captured: Pending)
      requires Filed()
      modifies sessions.Values
      ensures Filed() && View() == With(old(View()), sid, Lost(captured))
    {
      if sid in sessions {
        sessions[sid].Fail(captured);
      }
      OneChanged(old(View()), View(), sid, Lost(captured));
    }

    method ClearOn(sid: string)
      requires Filed()
      modifies sessions.Values
      ensures Filed() && View() == With(old(View()), sid, Cleared)
    {
      if sid in sessions {
        sessions[sid].Clear();
      }
      OneChanged(old(View()), View(), sid, Cleared);
    }

    method EndOn(sid: string, derived: Derived, setId: string)
      requires Filed()
      modifies sessions.Values
      ensures Filed() && View() == With(old(View()), sid, Finished(derived, setId))
    {
      if sid in sessions {
        sessions[sid].End(derived, setId);
      }
      OneChanged(old(View()), View(), sid, Finished(derived, setId));
    }

    method ChunkOn(sid: string, role: Role, text: string, own: string, r: Readings)
      requires Filed() && role != User
      modifies sessions.Values
      ensures Filed() && View() == With(old(View()), sid, Heard(role, text, own, r))
    {
      hide Hear;
      if sid in sessions {
        sessions[sid].HandleChunk(role, text, own, r);
      }
      OneChanged(old(View()), View(), sid, Heard(role, text, own, r));
    }

    // ---- The critical sections ----

    /** The end of StartSession. */
    method AddSession(sid: string, user: string)
      requires Valid() && Enabled(View(), Register(sid, user))
      modifies this
      ensures Valid() && View() == Apply(old(View()), Register(sid, user))
      ensures sid in sessions && fresh(sessions[sid]) && sid in runtimes
      ensures sessions[sid].State() == Session(user, Ready, false, "", Pending([], "", ""), NoMode, [], [], map[])
    {
      hide Inv, Apply, Enabled, Do;
      ghost var w := View();
      StepKeepsInv(w, Register(sid, user));
      RegisterMeaning(w, sid, user);
      var record := new SessionRecord(sid, user);
      PutSession(record);
      Pass({sid}, now);
    }

    /** Lines 304-343 of SendPrompt. */
    method BeginPrompt(sid: string, turn: string, p: PromptRequest, clock: Clock) returns (outcome: Option<Outcome>)
      requires Valid() && Enabled(View(), Begin(sid, turn, p, clock))
      modifies this`calls, this`used, this`now, sessions.Values
      ensures Valid() && View() == Apply(old(View()), Begin(sid, turn, p, clock))
      ensures outcome == Refusal(old(View()), sid, p, clock)
    {
      hide Duplicate, Inv, Do, WantsPlan, Captured, Apply, Enabled;
      ghost var w := View();
      StepKeepsInv(w, Begin(sid, turn, p, clock));
      BeginMeaning(w, sid, turn, p, clock);
      var found := NOTHING;
      outcome := None;
      if sid in sessions {
        var duplicate, captured := TakePromptOn(sid, turn, p, clock);
        if duplicate {
          outcome := Some(Ignored);
        } else {
          found := captured;
        }
      }
      if outcome.None? && (sid !in sessions || sid !in runtimes) {
        outcome := Some(NotFound);
      }
      PutCall(turn, Call(sid, WantsPlan(p), found, if outcome.Some? then Done(outcome.value) else Announcing));
      Pass({turn}, clock.record);
    }

    /** Lines 344, 345, 370, 397, 409, 433, 434 and 443: the call publishes what is due. */
    method TellNext(turn: string)
      requires Valid() && Enabled(View(), Tell(turn))
      modifies this`calls, sessions.Values
      ensures Valid() && View() == Apply(old(View()), Tell(turn))
    {
      hide Inv, Do;
      StepKeepsInv(View(), Tell(turn));
      var (kind, next) := Published(calls[turn]);
      Publish(calls[turn].sid, Event(kind, turn));
      MoveCall(turn, next);
    }

    /** Lines 346-351. A session that is gone may have had any mode. */
    method ChooseMode(turn: string, last: Mode)
      requires Valid() && turn in calls
      requires Enabled(View(), Choose(turn,
                 if calls[turn].sid in sessions then sessions[calls[turn].sid].mode else last))
      modifies this`calls
      ensures Valid()
      ensures View() == Apply(old(View()),
                Choose(turn, if old(calls)[turn].sid in sessions then sessions[old(calls)[turn].sid].mode else last))
    {
      hide Inv, Do;
      var seen := if calls[turn].sid in sessions then sessions[calls[turn].sid].mode else last;
      StepKeepsInv(View(), Choose(turn, seen));
      var to := ModeToApply(calls[turn].plan, seen);
      MoveCall(turn, if to == NoMode then Prompting else Switching(to));
    }

    /** Lines 353-378. */
    method ModeAnswered(turn: string, ok: bool)
      requires Valid() && Enabled(View(), SwitchAnswer(turn, ok))
      modifies this`calls, sessions.Values
      ensures Valid() && View() == Apply(old(View()), SwitchAnswer(turn, ok))
    {
      hide Inv, Do;
      StepKeepsInv(View(), SwitchAnswer(turn, ok));
      var c := calls[turn];
      if !ok {
        FailOn(c.sid, c.captured);
        MoveCall(turn, Failing);
        return;
      }
      SetModeOn(c.sid, c.phase.to);
      MoveCall(turn, Prompting);
    }

    /** Lines 380-408. */
    method PromptAnswered(turn: string, ok: bool)
      requires Valid() && Enabled(View(), PromptAnswer(turn, ok))
      modifies this`calls, sessions.Values
      ensures Valid() && View() == Apply(old(View()), PromptAnswer(turn, ok))
    {
      hide Inv, Do;
      StepKeepsInv(View(), PromptAnswer(turn, ok));
      var c := calls[turn];
      if !ok {
        FailOn(c.sid, c.captured);
        MoveCall(turn, Failing);
      } else if c.captured.setId != "" {
        ClearOn(c.sid);
        MoveCall(turn, Resolving);
      } else {
        MoveCall(turn, Finishing);
      }
    }

    /** Lines 414-442. */
    method FinishPrompt(turn: string, derived: Derived, setId: string)
      requires Valid() && Enabled(View(), Finish(turn, derived, setId))
      modifies this`calls, this`used, this`now, sessions.Values
      ensures Valid() && View() == Apply(old(View()), Finish(turn, derived, setId))
    {
      hide Inv, Do;
      StepKeepsInv(View(), Finish(turn, derived, setId));
      var sid := calls[turn].sid;
      EndOn(sid, derived, setId);
      Pass({setId}, now);
      MoveCall(turn, if derived.Questions? && sid in sessions then Asking(setId) else Completing(""));
    }

    /** handleSessionUpdate, up to where it releases the mutex. */
    method HandleUpdate(sid: string, role: Role, text: string, own: string, r: Readings)
      requires Valid() && Enabled(View(), Chunk(sid, role, text, own, r))
      modifies this`used, this`now, sessions.Values
      ensures Valid() && View() == Apply(old(View()), Chunk(sid, role, text, own, r))
    {
      hide Inv, Do;
      StepKeepsInv(View(), Chunk(sid, role, text, own, r));
      ChunkOn(sid, role, text, own, r);
      assert used + {} == used;
      Pass({}, r.stamp);
    }

    /** Any other event: approvals, notifications, tool activity. */
    method PublishOther(sid: string)
      requires Valid()
      modifies sessions.Values
      ensures Valid() && View() == Apply(old(View()), Note(sid))
    {
      hide Inv, Do;
      StepKeepsInv(View(), Note(sid));
      Publish(sid, Event(Other, ""));
    }

    /** DeleteSession, up to where it releases the mutex. */
    method DeleteSession(sid: string, userId: string) returns (ok: bool)
      requires Valid()
      modifies this`sessions, this`runtimes
      ensures Valid() && View() == Apply(old(View()), Delete(sid, userId))
      ensures ok <==> sid in old(sessions) && old(sessions)[sid].user == userId
      ensures ok ==>
        && sid !in sessions && sid !in runtimes
        && runtimes == old(runtimes) - {sid} && sessions.Keys == old(sessions.Keys) - {sid}
      ensures !ok ==> sessions == old(sessions) && runtimes == old(runtimes)
      ensures forall id <- sessions :: id in old(sessions) && sessions[id] == old(sessions)[id]
    {
      hide Inv;
      StepKeepsInv(View(), Delete(sid, userId));
      if sid !in sessions || sessions[sid].user != userId {
        return false;
      }
      sessions, runtimes := sessions - {sid}, runtimes - {sid};
      ok := true;
      assert View() == Apply(old(View()), Delete(sid, userId));
    }

    /** Close, up to where it releases the mutex. */
    method CloseAll()
      requires Valid()
      modifies this`sessions, this`runtimes
      ensures Valid() && View() == Apply(old(View()), Close)
      ensures sessions == map[] && runtimes == {}
    {
      hide Inv;
      StepKeepsInv(View(), Close);
      runtimes, sessions := {}, map[];
      assert View() == Apply(old(View()), Close);
    }
  }
}
