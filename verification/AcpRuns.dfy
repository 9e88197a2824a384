/** What whole runs of the service do to the messages of a session. */
module AcpRuns {
  import opened Durations
  import opened Text
  import opened AcpSession
  import opened AcpWorld
  import opened AcpInvariants
  import opened AcpMessages
  import opened AcpDuplicates

  lemma StepFits(w: World, step: Step)
    requires Keys(w) && Enabled(w, step)
    ensures w.used <= Apply(w, step).used && w.now <= Apply(w, step).now
    ensures var change := OpOf(w, step);
      change.Some? ==>
        && Fits(change.value.1, w.used, w.now, Apply(w, step).used, Apply(w, step).now)
        && (change.value.0 in w.sessions ==> Admits(w.sessions[change.value.0], change.value.1))
  {
    hide Do, Duplicate, Content, TrimSpace;
  }

  // ---- What a step adds to a session's messages ----

  /** What the provider says to a session in a step. */
  function Spoken(w: World, step: Step, sid: string): string {
    if step.Chunk? && step.sid == sid && sid in w.sessions && step.role == Assistant then TrimSpace(step.text) else ""
  }

  /** The prompt a session takes in a step. */
  function Taken(w: World, step: Step, sid: string): seq<Message> {
    if step.Begin? && step.sid == sid && sid in w.sessions && !Duplicate(w.sessions[sid], step.p, step.clock)
    then
      var shown := if TrimSpace(step.p.display) == "" then TrimSpace(step.p.content) else TrimSpace(step.p.display);
      [Message(User, shown, step.clock.stamp, step.turn, TrimSpace(step.p.request))]
    else []
  }

  /** The provider leaves turns to the session: a chunk that comes out of turn names none. */
  predicate LeavesTurns(w: World, step: Step) {
    step.Chunk? && step.sid in w.sessions ==> w.sessions[step.sid].turn != "" || TrimSpace(step.own) == ""
  }

  lemma SpokenIsSaid(w: World, step: Step, sid: string)
    requires Enabled(w, step) && sid in w.sessions
    ensures var change := OpOf(w, step);
      && Spoken(w, step, sid) == (if change.Some? && change.value.0 == sid then Said(change.value.1) else "")
      && (LeavesTurns(w, step) && change.Some? && change.value.0 == sid ==> Unmarked(w.sessions[sid], change.value.1))
  {
    hide Duplicate, Content, TrimSpace, Flows, Ticks;
  }

  lemma TakenIsTook(w: World, step: Step, sid: string)
    requires Enabled(w, step) && sid in w.sessions
    ensures var change := OpOf(w, step);
      Taken(w, step, sid)
        == if change.Some? && change.value.0 == sid && change.value.1.Took?
           then var op := change.value.1; [Message(User, Display(op.p), op.clock.stamp, op.turn, RequestId(op.p))]
           else []
  {
    hide Duplicate, TrimSpace, Flows, Ticks;
  }

  // ---- The invariants, session by session ----

  predicate Windows(w: World) {
    forall sid <- w.sessions :: Past(w.sessions[sid].messages, w.now) && DedupInv(w.sessions[sid], w.now)
  }

  ghost predicate Blocks(w: World) {
    forall sid <- w.sessions :: TextInv(w.sessions[sid], w.used, w.now)
  }

  lemma StartedIsEmpty(user: string, used: set<string>, now: int)
    ensures Past(Started(user).messages, now) && DedupInv(Started(user), now) && TextInv(Started(user), used, now)
    ensures Users(Started(user).messages) == [] && AssistantText(Started(user).messages) == ""
  {
  }

  lemma StepKeepsWindows(w: World, step: Step)
    requires Keys(w) && Windows(w) && Enabled(w, step)
    ensures Windows(Apply(w, step))
  {
    hide Apply, Enabled, OpOf, Do, DedupInv, Past, Fits, Admits;
    StepFits(w, step);
    var v := Apply(w, step);
    forall sid | sid in v.sessions ensures Past(v.sessions[sid].messages, v.now) && DedupInv(v.sessions[sid], v.now) {
      KeysMeaning(w);
      StepOnSession(w, step, sid);
      if sid !in w.sessions {
        StartedIsEmpty(step.user, {}, v.now);
      } else if OpOf(w, step).Some? && OpOf(w, step).value.0 == sid {
        DoKeepsPast(w.sessions[sid], OpOf(w, step).value.1, w.used, w.now, v.used, v.now);
        DoKeepsDedup(w.sessions[sid], OpOf(w, step).value.1, w.used, w.now, v.used, v.now);
      } else {
        PastLater(w.sessions[sid].messages, w.now, v.now);
        DedupLater(w.sessions[sid], w.now, v.now);
      }
    }
  }

  lemma StepKeepsBlocks(w: World, step: Step)
    requires Keys(w) && Blocks(w) && Enabled(w, step) && LeavesTurns(w, step)
    ensures Blocks(Apply(w, step))
  {
    hide Apply, Enabled, OpOf, Do, TextInv, Fits, LeavesTurns, Unmarked, Spoken, Said;
    StepFits(w, step);
    var v := Apply(w, step);
    forall sid | sid in v.sessions ensures TextInv(v.sessions[sid], v.used, v.now) {
      KeysMeaning(w);
      StepOnSession(w, step, sid);
      if sid !in w.sessions {
        StartedIsEmpty(step.user, v.used, v.now);
      } else if OpOf(w, step).Some? && OpOf(w, step).value.0 == sid {
        SpokenIsSaid(w, step, sid);
        DoKeepsText(w.sessions[sid], OpOf(w, step).value.1, w.used, w.now, v.used, v.now);
      } else {
        TextLater(w.sessions[sid], w.used, w.now, v.used, v.now);
      }
    }
  }

  /** No assistant chunk comes where the assistant has said something after the message it joins. */
  predicate InOrder(w: World, step: Step) {
    step.Chunk? && step.sid in w.sessions && step.role == Assistant ==>
      NothingAfter(w.sessions[step.sid].messages, ChunkTurn(w.sessions[step.sid], step.own), step.readings)
  }

  lemma ChunkOf(w: World, step: Step)
    requires Enabled(w, step) && OpOf(w, step).Some? && OpOf(w, step).value.1.Heard?
    ensures var op := OpOf(w, step).value.1;
      step == Chunk(OpOf(w, step).value.0, op.role, op.text, op.own, op.readings) && op.role != User
  {
    hide Duplicate, Content, TrimSpace, Ticks;
  }

  lemma StepAddsText(w: World, step: Step, sid: string)
    requires Keys(w) && Enabled(w, step) && InOrder(w, step)
    requires sid in w.sessions && sid in Apply(w, step).sessions
    ensures AssistantText(Apply(w, step).sessions[sid].messages)
         == AssistantText(w.sessions[sid].messages) + Spoken(w, step, sid)
  {
    hide Apply, Enabled, OpOf, Do, LeavesTurns, Unmarked, Spoken, Said, AssistantText, KeepsOrder, NothingAfter,
      ChunkTurn;
    KeysMeaning(w);
    StepOnSession(w, step, sid);
    SpokenIsSaid(w, step, sid);
    var text := AssistantText(w.sessions[sid].messages);
    assert text + "" == text;
    if OpOf(w, step).Some? && OpOf(w, step).value.0 == sid {
      if OpOf(w, step).value.1.Heard? {
        ChunkOf(w, step);
        KeepsOrderExactly(w.sessions[sid].messages, ChunkTurn(w.sessions[sid], step.own), step.readings);
      }
      DoAddsText(w.sessions[sid], OpOf(w, step).value.1);
    }
  }

  /** A provider that leaves turns to the session sends every chunk in order, while turns are blocks. */
  lemma LeavingTurnsIsInOrder(w: World, step: Step)
    requires Blocks(w) && Enabled(w, step) && LeavesTurns(w, step)
    ensures InOrder(w, step)
  {
    hide SaidAfter, Place, Flows, TrimSpace;
    if step.Chunk? && step.sid in w.sessions && step.role == Assistant {
      var s := w.sessions[step.sid];
      assert TextInv(s, w.used, w.now);
      BlockKeepsOrder(s.messages, "a", ChunkTurn(s, step.own), w.now, step.readings);
    }
  }

  lemma StepAddsUsers(w: World, step: Step, sid: string)
    requires Keys(w) && Enabled(w, step) && sid in w.sessions && sid in Apply(w, step).sessions
    ensures Users(Apply(w, step).sessions[sid].messages) == Users(w.sessions[sid].messages) + Taken(w, step, sid)
  {
    hide Apply, Enabled, OpOf, Do, Fits, Taken, Users;
    StepFits(w, step);
    KeysMeaning(w);
    StepOnSession(w, step, sid);
    TakenIsTook(w, step, sid);
    var users := Users(w.sessions[sid].messages);
    assert users + [] == users;
    if OpOf(w, step).Some? && OpOf(w, step).value.0 == sid {
      DoKeepsUsers(w.sessions[sid], OpOf(w, step).value.1, w.used, w.now, Apply(w, step).used, Apply(w, step).now);
    }
  }

  // ---- Whole runs ----

  ghost function SpokenIn(w: World, steps: seq<Step>, sid: string): string
    decreases |steps|
  {
    if steps == [] then ""
    else (if Enabled(w, steps[0]) then Spoken(w, steps[0], sid) else "") + SpokenIn(Next(w, steps[0]), steps[1..], sid)
  }

  ghost function TakenIn(w: World, steps: seq<Step>, sid: string): seq<Message>
    decreases |steps|
  {
    if steps == [] then []
    else (if Enabled(w, steps[0]) then Taken(w, steps[0], sid) else []) + TakenIn(Next(w, steps[0]), steps[1..], sid)
  }

  ghost predicate LeavesTurnsIn(w: World, steps: seq<Step>)
    decreases |steps|
  {
    steps != [] ==>
      (Enabled(w, steps[0]) ==> LeavesTurns(w, steps[0])) && LeavesTurnsIn(Next(w, steps[0]), steps[1..])
  }

  ghost predicate InOrderIn(w: World, steps: seq<Step>)
    decreases |steps|
  {
    steps != [] ==> (Enabled(w, steps[0]) ==> InOrder(w, steps[0])) && InOrderIn(Next(w, steps[0]), steps[1..])
  }

  lemma NextKeepsKeys(w: World, step: Step, sid: string)
    requires Keys(w)
    ensures Keys(Next(w, step))
    ensures sid in w.used && sid !in w.sessions ==> sid in Next(w, step).used && sid !in Next(w, step).sessions
  {
    if Enabled(w, step) {
      StepKeepsKeys(w, step);
      StepFits(w, step);
      KeysMeaning(w);
      if sid in Apply(w, step).sessions {
        StepOnSession(w, step, sid);
      }
      hide Apply, OpOf;
    }
  }

  /** An id that has been given away never names another session. */
  lemma {:induction false} GoneStaysGone(w: World, steps: seq<Step>, sid: string)
    requires Keys(w) && sid in w.used && sid !in w.sessions
    ensures sid !in Exec(w, steps).sessions
    decreases |steps|
  {
    hide Apply, Enabled, Keys;
    if steps != [] {
      NextKeepsKeys(w, steps[0], sid);
      GoneStaysGone(Next(w, steps[0]), steps[1..], sid);
    }
  }

  function TextOf(w: World, sid: string): string {
    if sid in w.sessions then AssistantText(w.sessions[sid].messages) else ""
  }

  function UsersOf(w: World, sid: string): seq<Message> {
    if sid in w.sessions then Users(w.sessions[sid].messages) else []
  }

  lemma NextText(w: World, step: Step, sid: string)
    requires Keys(w) && (Enabled(w, step) ==> InOrder(w, step))
    requires sid in w.sessions ==> sid in Next(w, step).sessions
    ensures TextOf(Next(w, step), sid) == TextOf(w, sid) + (if Enabled(w, step) then Spoken(w, step, sid) else "")
  {
    hide Apply, Enabled, OpOf, Keys, InOrder, AssistantText;
    assert TextOf(w, sid) + "" == TextOf(w, sid);
    if Enabled(w, step) {
      if sid in w.sessions {
        StepAddsText(w, step, sid);
      } else if sid in Apply(w, step).sessions {
        assert w.sessions.Keys <= w.used by { KeysMeaning(w); }
        StepOnSession(w, step, sid);
        StartedIsEmpty(step.user, {}, 0);
      }
    }
  }

  /** From any state on, a run whose chunks all come in order adds what was said to what was there. */
  lemma {:induction false} TextOverRun(w: World, steps: seq<Step>, sid: string)
    requires Keys(w) && InOrderIn(w, steps) && sid in Exec(w, steps).sessions
    ensures TextOf(Exec(w, steps), sid) == TextOf(w, sid) + SpokenIn(w, steps, sid)
    decreases |steps|
  {
    hide Apply, Enabled, Keys, InOrder, TextOf, Spoken;
    if steps == [] {
      assert TextOf(w, sid) + "" == TextOf(w, sid);
    } else {
      var v := Next(w, steps[0]);
      NextKeepsKeys(w, steps[0], sid);
      if sid in w.sessions && sid !in v.sessions {
        KeysMeaning(w);
        IdStaysUsed(w, steps[0], sid);
        GoneStaysGone(v, steps[1..], sid);
      } else {
        NextText(w, steps[0], sid);
        TextOverRun(v, steps[1..], sid);
        var now := if Enabled(w, steps[0]) then Spoken(w, steps[0], sid) else "";
        var later := SpokenIn(v, steps[1..], sid);
        assert (TextOf(w, sid) + now) + later == TextOf(w, sid) + (now + later);
      }
    }
  }

  lemma {:induction false} LeavingTurnsKeepsOrder(w: World, steps: seq<Step>)
    requires Keys(w) && Blocks(w) && LeavesTurnsIn(w, steps)
    ensures InOrderIn(w, steps)
    decreases |steps|
  {
    hide Apply, Enabled, Keys, Blocks, InOrder, LeavesTurns;
    if steps != [] {
      NextKeepsKeys(w, steps[0], "");
      if Enabled(w, steps[0]) {
        StepKeepsBlocks(w, steps[0]);
        LeavingTurnsIsInOrder(w, steps[0]);
      }
      LeavingTurnsKeepsOrder(Next(w, steps[0]), steps[1..]);
    }
  }

  lemma IdStaysUsed(w: World, step: Step, sid: string)
    requires Keys(w) && sid in w.used
    ensures sid in Next(w, step).used
  {
    if Enabled(w, step) {
      StepFits(w, step);
    }
    hide Apply;
  }

  lemma NextUsers(w: World, step: Step, sid: string)
    requires Keys(w)
    requires sid in w.sessions ==> sid in Next(w, step).sessions
    ensures UsersOf(Next(w, step), sid) == UsersOf(w, sid) + (if Enabled(w, step) then Taken(w, step, sid) else [])
  {
    hide Apply, Enabled, OpOf, Keys, Users, Duplicate, Display, RequestId;
    assert UsersOf(w, sid) + [] == UsersOf(w, sid);
    if Enabled(w, step) {
      if sid in w.sessions {
        StepAddsUsers(w, step, sid);
      } else if sid in Apply(w, step).sessions {
        assert w.sessions.Keys <= w.used by { KeysMeaning(w); }
        StepOnSession(w, step, sid);
        StartedIsEmpty(step.user, {}, 0);
      }
    }
  }

  /** What the user said is what the session took, as it was taken, from any state on. */
  lemma {:induction false} UsersOverRun(w: World, steps: seq<Step>, sid: string)
    requires Keys(w) && sid in Exec(w, steps).sessions
    ensures UsersOf(Exec(w, steps), sid) == UsersOf(w, sid) + TakenIn(w, steps, sid)
    decreases |steps|
  {
    hide Apply, Enabled, Keys, UsersOf, Taken;
    if steps == [] {
      assert UsersOf(w, sid) + [] == UsersOf(w, sid);
    } else {
      var v := Next(w, steps[0]);
      NextKeepsKeys(w, steps[0], sid);
      if sid in w.sessions && sid !in v.sessions {
        KeysMeaning(w);
        IdStaysUsed(w, steps[0], sid);
        GoneStaysGone(v, steps[1..], sid);
      } else {
        NextUsers(w, steps[0], sid);
        UsersOverRun(v, steps[1..], sid);
        var now := if Enabled(w, steps[0]) then Taken(w, steps[0], sid) else [];
        assert (UsersOf(w, sid) + now) + TakenIn(v, steps[1..], sid) ==
            UsersOf(w, sid) + (now + TakenIn(v, steps[1..], sid));
      }
    }
  }

  lemma {:induction false} WindowsOverRun(w: World, steps: seq<Step>)
    requires Keys(w) && Windows(w)
    ensures Windows(Exec(w, steps))
    decreases |steps|
  {
    hide Apply, Enabled, Keys, Windows;
    if steps != [] {
      NextKeepsKeys(w, steps[0], "");
      if Enabled(w, steps[0]) {
        StepKeepsWindows(w, steps[0]);
      }
      WindowsOverRun(Next(w, steps[0]), steps[1..]);
    }
  }

  // ---- Main results ----

  /**
   * Assistant text is conserved: in every interleaving in which the provider leaves turns to the
   * session, what the assistant's messages hold, in list order, is all it said to the session, in the
   * order it came.
   */
  lemma AssistantTextIsConserved(now: int, steps: seq<Step>, sid: string)
    requires LeavesTurnsIn(Initial(now), steps) && sid in Exec(Initial(now), steps).sessions
    ensures AssistantText(Exec(Initial(now), steps).sessions[sid].messages) == SpokenIn(Initial(now), steps, sid)
  {
    hide Exec, LeavesTurnsIn, SpokenIn, AssistantText, InOrderIn;
    LeavingTurnsKeepsOrder(Initial(now), steps);
    TextOverRun(Initial(now), steps, sid);
    assert "" + SpokenIn(Initial(now), steps, sid) == SpokenIn(Initial(now), steps, sid);
  }

  /**
   * The user's messages are the prompts the session took, in that order and as they were taken; and
   * from any point of a run on they only grow.
   */
  lemma UserMessagesNeverChange(now: int, before: seq<Step>, after: seq<Step>, sid: string)
    requires sid in Exec(Exec(Initial(now), before), after).sessions
    ensures UsersOf(Exec(Exec(Initial(now), before), after), sid)
         == UsersOf(Exec(Initial(now), before), sid) + TakenIn(Exec(Initial(now), before), after, sid)
    ensures sid in Exec(Initial(now), before).sessions ==>
      UsersOf(Exec(Initial(now), before), sid) == TakenIn(Initial(now), before, sid)
  {
    hide Exec, TakenIn, Users;
    var w := Exec(Initial(now), before);
    ExecKeepsInv(Initial(now), before);
    UsersOverRun(w, after, sid);
    if sid in w.sessions {
      UsersOverRun(Initial(now), before, sid);
      assert [] + TakenIn(Initial(now), before, sid) == TakenIn(Initial(now), before, sid);
    }
  }

  /**
   * In every interleaving, two prompts of a session with the same request id are more than ten minutes
   * apart, and two user messages in a row that say the same are more than ninety seconds apart.
   */
  lemma DuplicatesStayOut(now: int, steps: seq<Step>, sid: string)
    requires sid in Exec(Initial(now), steps).sessions
    ensures var users := Users(Exec(Initial(now), steps).sessions[sid].messages);
      && (forall i, j :: 0 <= i < j < |users| && users[i].request == users[j].request != "" ==>
            users[j].at - users[i].at > 10 * MINUTE)
      && (forall k :: 0 <= k < |users| - 1 && users[k].content == users[k + 1].content ==>
            users[k + 1].at - users[k].at > 90 * SECOND)
  {
    hide Exec, Users;
    WindowsOverRun(Initial(now), steps);
    var users := Users(Exec(Initial(now), steps).sessions[sid].messages);
    assert Apart(users);
    forall i, j | 0 <= i < j < |users| ensures RequestsApart(users[i], users[j]) {
    }
    forall k | 0 <= k < |users| - 1 ensures TextsApart(users[k], users[k + 1]) {
    }
  }

  ghost predicate AllOrigins(w: World) {
    forall sid <- w.sessions :: Origins(w.sessions[sid])
  }

  lemma StepKeepsOrigins(w: World, step: Step)
    requires Keys(w) && AllOrigins(w) && Enabled(w, step)
    ensures AllOrigins(Apply(w, step))
  {
    hide Apply, Enabled, OpOf, Do, Origins, Fits, Admits;
    StepFits(w, step);
    var v := Apply(w, step);
    forall sid | sid in v.sessions ensures Origins(v.sessions[sid]) {
      KeysMeaning(w);
      StepOnSession(w, step, sid);
      if sid !in w.sessions {
        StartedHasOrigins(step.user);
      } else if OpOf(w, step).Some? && OpOf(w, step).value.0 == sid {
        DoKeepsOrigins(w.sessions[sid], OpOf(w, step).value.1, w.used, w.now, v.used, v.now);
      }
    }
  }

  lemma StartedHasOrigins(user: string)
    ensures Origins(Started(user))
  {
  }

  lemma {:induction false} OriginsOverRun(w: World, steps: seq<Step>)
    requires Keys(w) && AllOrigins(w)
    ensures AllOrigins(Exec(w, steps))
    decreases |steps|
  {
    hide Apply, Enabled, Keys, AllOrigins;
    if steps != [] {
      NextKeepsKeys(w, steps[0], "");
      if Enabled(w, steps[0]) {
        StepKeepsOrigins(w, steps[0]);
      }
      OriginsOverRun(Next(w, steps[0]), steps[1..]);
    }
  }

  /**
   * And no prompt is turned away without a cause: in every interleaving, for a request id only when the
   * session has taken a prompt with that id and recorded it at most ten minutes ago, and for its text
   * only when the latest user message says the same and is at most ninety seconds old.
   */
  lemma TurnedAwayForCause(now: int, steps: seq<Step>, sid: string, p: PromptRequest, clock: Clock)
    requires sid in Exec(Initial(now), steps).sessions
    requires Duplicate(Exec(Initial(now), steps).sessions[sid], p, clock)
    ensures var s := Exec(Initial(now), steps).sessions[sid];
      var id := TrimSpace(p.request);
      || (id in s.recent && clock.check - s.recent[id] <= 10 * MINUTE
          && exists u <- Users(s.messages) :: u.request == id != "" && u.at <= s.recent[id])
      || (Users(s.messages) != []
          && var last := Users(s.messages)[|Users(s.messages)| - 1];
             && (TrimSpace(last.content) == TrimSpace(p.content) || TrimSpace(last.content) == TrimSpace(p.display))
             && clock.replay - last.at <= 90 * SECOND)
  {
    hide Exec, Users, TrimSpace;
    OriginsOverRun(Initial(now), steps);
    var s := Exec(Initial(now), steps).sessions[sid];
    DuplicateExactly(s, p, clock);
    hide Duplicate;
    assert Origins(s);
    if TrimSpace(p.request) in s.recent {
      assert Origin(TrimSpace(p.request), s.recent[TrimSpace(p.request)], Users(s.messages));
    }
  }
}
