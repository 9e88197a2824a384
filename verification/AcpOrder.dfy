/** The exact condition for what the assistant said to stay in order, and a run that misses it. */
module AcpOrder {
  import opened Durations
  import opened Text
  import opened AcpSession
  import opened AcpWorld
  import opened AcpInvariants
  import opened AcpMessages
  import opened AcpRuns

  /** The text of every session that is there is what it was and what was said since, in order. */
  ghost predicate Conserved(w: World, steps: seq<Step>) {
    forall sid <- Exec(w, steps).sessions :: TextOf(Exec(w, steps), sid) == TextOf(w, sid) + SpokenIn(w, steps, sid)
  }

  /** The same step with other words, if the provider speaks in it. */
  function Retold(step: Step, text: string): Step {
    if step.Chunk? then step.(text := text) else step
  }

  lemma RetoldIsAlike(w: World, step: Step, text: string)
    ensures Enabled(w, Retold(step, text)) <==> Enabled(w, step)
    ensures InOrder(w, Retold(step, text)) <==> InOrder(w, step)
  {
  }

  lemma {:induction false} InOrderConcat(w: World, a: seq<Step>, b: seq<Step>)
    ensures InOrderIn(w, a + b) <==> InOrderIn(w, a) && InOrderIn(Exec(w, a), b)
    decreases |a|
  {
    hide Apply, Enabled, InOrder;
    if a == [] {
      assert a + b == b;
    } else {
      assert (a + b)[1..] == a[1..] + b;
      InOrderConcat(Next(w, a[0]), a[1..], b);
    }
  }

  lemma {:induction false} SpokenConcat(w: World, a: seq<Step>, b: seq<Step>, sid: string)
    ensures SpokenIn(w, a + b, sid) == SpokenIn(w, a, sid) + SpokenIn(Exec(w, a), b, sid)
    decreases |a|
  {
    hide Apply, Enabled, Spoken;
    if a == [] {
      assert a + b == b;
    } else {
      assert (a + b)[1..] == a[1..] + b;
      SpokenConcat(Next(w, a[0]), a[1..], b, sid);
    }
  }

  lemma OneStepSpoken(w: World, step: Step, sid: string)
    ensures SpokenIn(w, [step], sid) == if Enabled(w, step) then Spoken(w, step, sid) else ""
  {
    hide Apply, Enabled, Spoken;
    assert [step][1..] == [];
  }

  lemma OneStepInOrder(w: World, step: Step)
    ensures InOrderIn(w, [step]) <==> (Enabled(w, step) ==> InOrder(w, step))
  {
    hide Apply, Enabled, InOrder;
    assert [step][1..] == [];
  }

  lemma {:induction false} FirstOutOfOrder(w: World, steps: seq<Step>) returns (k: nat)
    requires !InOrderIn(w, steps)
    ensures k < |steps| && InOrderIn(w, steps[..k])
    ensures Enabled(Exec(w, steps[..k]), steps[k]) && !InOrder(Exec(w, steps[..k]), steps[k])
    decreases |steps|
  {
    hide Apply, Enabled, InOrder;
    if Enabled(w, steps[0]) && !InOrder(w, steps[0]) {
      k := 0;
    } else {
      var l := FirstOutOfOrder(Next(w, steps[0]), steps[1..]);
      k := l + 1;
      assert steps[..k][1..] == steps[1..][..l];
    }
  }

  /** A chunk out of order can be given words that end up before what was said earlier. */
  lemma OutOfOrderShows(w: World, step: Step) returns (text: string)
    requires Enabled(w, step) && !InOrder(w, step)
    ensures step.Chunk? && step.sid in w.sessions
    ensures var v := Apply(w, Retold(step, text));
      step.sid in v.sessions && TextOf(v, step.sid) != TextOf(w, step.sid) + Spoken(w, Retold(step, text), step.sid)
  {
    hide AppendChunk, AssistantText, NothingAfter, TrimSpace, Flows;
    var s := w.sessions[step.sid];
    text := DisorderShows(s.messages, ChunkTurn(s, step.own), step.readings);
    assert TrimSpace("a") == "a" && TrimSpace("b") == "b" by {
      TrimSpaceFixed("a");
      TrimSpaceFixed("b");
    }
  }

  lemma ConservedWhenInOrder(w: World, steps: seq<Step>)
    requires Keys(w) && InOrderIn(w, steps)
    ensures Conserved(w, steps)
  {
    hide Exec, TextOf, SpokenIn, InOrderIn, Keys;
    forall sid | sid in Exec(w, steps).sessions
      ensures TextOf(Exec(w, steps), sid) == TextOf(w, sid) + SpokenIn(w, steps, sid)
    {
      TextOverRun(w, steps, sid);
    }
  }

  lemma LostWhenOutOfOrder(w: World, steps: seq<Step>, step: Step) returns (text: string)
    requires Keys(w) && InOrderIn(w, steps)
    requires Enabled(Exec(w, steps), step) && !InOrder(Exec(w, steps), step)
    ensures !Conserved(w, steps + [Retold(step, text)])
  {
    hide Exec, Apply, Enabled, InOrder, TextOf, SpokenIn, InOrderIn, Keys, Spoken, Retold;
    var v := Exec(w, steps);
    text := OutOfOrderShows(v, step);
    var last := Retold(step, text);
    RetoldIsAlike(v, step, text);
    ExecConcat(w, steps, [last]);
    ExecOne(v, last);
    SpokenConcat(w, steps, [last], step.sid);
    OneStepSpoken(v, last, step.sid);
    TextOverRun(w, steps, step.sid);
    var said := SpokenIn(w, steps, step.sid);
    assert (TextOf(w, step.sid) + said) + Spoken(v, last, step.sid) ==
        TextOf(w, step.sid) + (said + Spoken(v, last, step.sid));
  }

  lemma RetoldInOrder(w: World, steps: seq<Step>, k: nat, text: string)
    requires InOrderIn(w, steps) && k < |steps|
    ensures InOrderIn(w, steps[..k] + [Retold(steps[k], text)])
  {
    hide Exec, Apply, Enabled, InOrder, InOrderIn, Retold;
    var v := Exec(w, steps[..k]);
    assert steps == steps[..k] + ([steps[k]] + steps[k + 1..]);
    InOrderConcat(w, steps[..k], [steps[k]] + steps[k + 1..]);
    InOrderConcat(v, [steps[k]], steps[k + 1..]);
    InOrderConcat(w, steps[..k], [Retold(steps[k], text)]);
    OneStepInOrder(v, steps[k]);
    OneStepInOrder(v, Retold(steps[k], text));
    RetoldIsAlike(v, steps[k], text);
  }

  ghost predicate ConservedHowever(w: World, steps: seq<Step>) {
    forall k, text :: 0 <= k < |steps| ==> Conserved(w, steps[..k] + [Retold(steps[k], text)])
  }

  /**
   * Exactly then: over a run, and however its latest chunk had been worded at each point, the text is
   * all that was said in the order it came, if and only if no chunk comes where the assistant has
   * said something after the message that the chunk joins.
   */
  lemma ConservedExactly(w: World, steps: seq<Step>)
    requires Keys(w)
    ensures InOrderIn(w, steps) <==> ConservedHowever(w, steps)
  {
    hide Exec, InOrderIn, Conserved, Enabled, InOrder, Keys, Retold;
    if InOrderIn(w, steps) {
      forall k, text | 0 <= k < |steps| ensures Conserved(w, steps[..k] + [Retold(steps[k], text)]) {
        RetoldInOrder(w, steps, k, text);
        ConservedWhenInOrder(w, steps[..k] + [Retold(steps[k], text)]);
      }
    } else {
      var k := FirstOutOfOrder(w, steps);
      var text := LostWhenOutOfOrder(w, steps[..k], steps[k]);
    }
  }

  // ---- A provider that marks its own turns ----

  /** The service with one idle session that holds `messages`. */
  function Idle(sid: string, user: string, messages: seq<Message>, now: int): World {
    World(map[sid := Started(user).(messages := messages)], {sid}, map[], {sid}, now)
  }

  lemma FirstStep(w: World, step: Step, rest: seq<Step>, sid: string)
    requires Enabled(w, step)
    ensures Exec(w, [step] + rest) == Exec(Apply(w, step), rest)
    ensures SpokenIn(w, [step] + rest, sid) == Spoken(w, step, sid) + SpokenIn(Apply(w, step), rest, sid)
  {
    hide Apply, Enabled, Spoken;
    assert ([step] + rest)[1..] == rest;
  }

  lemma IdleHears(sid: string, user: string, messages: seq<Message>, now: int, role: Role, text: string, own: string,
                  r: Readings)
    requires Flows(now, r) && role != User && TrimSpace(text) == text
    ensures var (w, step) := (Idle(sid, user, messages, now), Chunk(sid, role, text, own, r));
      && Enabled(w, step)
      && Apply(w, step) == Idle(sid, user, Hear(w.sessions[sid], role, text, own, r).messages, r.stamp)
      && Spoken(w, step, sid) == if role == Assistant then text else ""
  {
    hide AppendChunk, TrimSpace, Flows;
  }

  /** An idle session hears something new, and the run goes on. */
  lemma HearsNew(sid: string, user: string, messages: seq<Message>, now: int, role: Role, text: string, own: string,
                 r: Readings, rest: seq<Step>)
    requires Flows(now, r) && role != User && Word(text) && (own == "" || Word(own))
    requires messages == [] || messages[|messages| - 1].role != role
    requires role == Assistant ==> forall m <- messages :: m.role != Assistant || m.turn != own
    ensures var (w, steps) := (Idle(sid, user, messages, now), [Chunk(sid, role, text, own, r)] + rest);
      var v := Idle(sid, user, messages + [Message(role, text, r.stamp, own, "")], r.stamp);
      && Exec(w, steps) == Exec(v, rest)
      && SpokenIn(w, steps, sid) == (if role == Assistant then text else "") + SpokenIn(v, rest, sid)
  {
    IdleHears(sid, user, messages, now, role, text, own, r);
    NewChunkFollows(Started(user).(messages := messages), role, text, own, r);
    hide Exec, SpokenIn, Apply, Enabled, Spoken, TrimSpace, Hear, Flows;
    FirstStep(Idle(sid, user, messages, now), Chunk(sid, role, text, own, r), rest, sid);
  }

  /** And it hears a chunk that names the turn of the first message. */
  lemma HearsMarked(sid: string, user: string, first: Message, others: seq<Message>, now: int, text: string,
                    r: Readings)
    requires Flows(now, r) && Word(text) && Word(first.turn) && Joinable(first, first.turn, r.probe(0))
    requires others != [] && others[|others| - 1].role == System && forall m <- others :: m.turn != first.turn
    ensures var (w, step) := (Idle(sid, user, [first] + others, now), Chunk(sid, Assistant, text, first.turn, r));
      && Exec(w, [step]) == Idle(sid, user, [first.(content := first.content + text, at := r.stamp)] + others, r.stamp)
      && SpokenIn(w, [step], sid) == text
  {
    var messages := [first] + others;
    IdleHears(sid, user, messages, now, Assistant, text, first.turn, r);
    MarkedChunkJoins(Started(user).(messages := messages), text, first.turn, r, 0);
    var step := Chunk(sid, Assistant, text, first.turn, r);
    hide Apply, Enabled, Spoken, TrimSpace, Hear, Flows;
    assert [step] + [] == [step];
    FirstStep(Idle(sid, user, messages, now), step, [], sid);
    var longer := first.(content := first.content + text, at := r.stamp);
    assert messages[0 := longer] == [longer] + others;
  }

  /** One clock reading after the other, all within a minute of the first stamp. */
  ghost predicate WithinMinute(now: int, r1: Readings, r2: Readings, r3: Readings, r4: Readings, r5: Readings) {
    && Flows(now, r1) && Flows(r1.stamp, r2) && Flows(r2.stamp, r3) && Flows(r3.stamp, r4) && Flows(r4.stamp, r5)
    && r5.stamp - r1.stamp < MINUTE
  }

  lemma ProbedInTime(now: int, r1: Readings, r2: Readings, r3: Readings, r4: Readings, r5: Readings)
    requires WithinMinute(now, r1, r2, r3, r4, r5)
    ensures r5.probe(0) - r1.stamp < MINUTE
  {
  }

  /** A provider that names turns x, y and again x out of turn, and system messages between. */
  function Marked(sid: string, a: string, b: string, c: string, z: string, x: string, y: string,
                  r1: Readings, r2: Readings, r3: Readings, r4: Readings, r5: Readings): seq<Step>
  {
    [Chunk(sid, Assistant, a, x, r1)]
    + ([Chunk(sid, System, z, "", r2)]
       + ([Chunk(sid, Assistant, b, y, r3)]
          + ([Chunk(sid, System, z, "", r4)]
             + [Chunk(sid, Assistant, c, x, r5)])))
  }

  lemma HearsTwo(sid: string, user: string, messages: seq<Message>, now: int, text: string, z: string, mark: string,
                 r: Readings, q: Readings, rest: seq<Step>)
    requires Flows(now, r) && Flows(r.stamp, q) && Word(text) && Word(z) && Word(mark)
    requires messages == [] || messages[|messages| - 1].role == System
    requires forall m <- messages :: m.role != Assistant || m.turn != mark
    ensures var w := Idle(sid, user, messages, now);
      var steps := [Chunk(sid, Assistant, text, mark, r)] + ([Chunk(sid, System, z, "", q)] + rest);
      var more := [Message(Assistant, text, r.stamp, mark, ""), Message(System, z, q.stamp, "", "")];
      var v := Idle(sid, user, messages + more, q.stamp);
      && Exec(w, steps) == Exec(v, rest)
      && SpokenIn(w, steps, sid) == text + SpokenIn(v, rest, sid)
  {
    hide *;
    var m1, m2 := Message(Assistant, text, r.stamp, mark, ""), Message(System, z, q.stamp, "", "");
    HearsNew(sid, user, messages, now, Assistant, text, mark, r, [Chunk(sid, System, z, "", q)] + rest);
    HearsNew(sid, user, messages + [m1], r.stamp, System, z, "", q, rest);
    assert (messages + [m1]) + [m2] == messages + [m1, m2];
  }

  /** The second half: another turn, and then the first one again. */
  lemma HearsRest(sid: string, user: string, m1: Message, m2: Message, b: string, c: string, z: string, y: string,
                  r3: Readings, r4: Readings, r5: Readings)
    requires m1.role == Assistant && m2.role == System && m2.turn == "" && Word(m1.turn)
    requires Flows(m2.at, r3) && Flows(r3.stamp, r4) && Flows(r4.stamp, r5) && r5.probe(0) - m1.at < MINUTE
    requires Word(b) && Word(c) && Word(z) && Word(y) && m1.turn != y
    ensures var w := Idle(sid, user, [m1, m2], m2.at);
      var steps := [Chunk(sid, Assistant, b, y, r3)]
                   + ([Chunk(sid, System, z, "", r4)] + [Chunk(sid, Assistant, c, m1.turn, r5)]);
      var others := [m2, Message(Assistant, b, r3.stamp, y, ""), Message(System, z, r4.stamp, "", "")];
      && Exec(w, steps) == Idle(sid, user, [m1.(content := m1.content + c, at := r5.stamp)] + others, r5.stamp)
      && SpokenIn(w, steps, sid) == b + c
  {
    WordIsText(m1.turn);
    hide Exec, SpokenIn, Idle, Word, TrimSpace, Flows;
    var m3, m4 := Message(Assistant, b, r3.stamp, y, ""), Message(System, z, r4.stamp, "", "");
    HearsTwo(sid, user, [m1, m2], m2.at, b, z, y, r3, r4, [Chunk(sid, Assistant, c, m1.turn, r5)]);
    assert [m1, m2] + [m3, m4] == [m1] + [m2, m3, m4];
    HearsMarked(sid, user, m1, [m2, m3, m4], r4.stamp, c, r5);
  }

  lemma HearsAll(sid: string, user: string, a: string, b: string, c: string, z: string, x: string, y: string, now: int,
                 r1: Readings, r2: Readings, r3: Readings, r4: Readings, r5: Readings)
    requires WithinMinute(now, r1, r2, r3, r4, r5)
    requires Word(a) && Word(b) && Word(c) && Word(z) && Word(x) && Word(y) && x != y
    ensures var (w, steps) := (Idle(sid, user, [], now), Marked(sid, a, b, c, z, x, y, r1, r2, r3, r4, r5));
      && Exec(w, steps) == Idle(sid, user,
           [Message(Assistant, a + c, r5.stamp, x, "")]
           + [Message(System, z, r2.stamp, "", ""), Message(Assistant, b, r3.stamp, y, ""),
               Message(System, z, r4.stamp, "", "")],
           r5.stamp)
      && SpokenIn(w, steps, sid) == a + b + c
  {
    ProbedInTime(now, r1, r2, r3, r4, r5);
    hide Exec, SpokenIn, Idle, Word, TrimSpace, Flows;
    var m1, m2 := Message(Assistant, a, r1.stamp, x, ""), Message(System, z, r2.stamp, "", "");
    var rest := [Chunk(sid, Assistant, b, y, r3)] +
        ([Chunk(sid, System, z, "", r4)] + [Chunk(sid, Assistant, c, x, r5)]);
    HearsTwo(sid, user, [], now, a, z, x, r1, r2, rest);
    assert [] + [m1, m2] == [m1, m2];
    HearsRest(sid, user, m1, m2, b, c, z, y, r3, r4, r5);
    assert a + (b + c) == a + b + c;
  }

  lemma WordIsText(text: string)
    requires Word(text)
    ensures text != ""
  {
  }

  /**
   * It can say a, b, c to a session that is in no turn, and within a minute the session holds a, c, b.
   */
  lemma MarkedTurnsReorder(now: int, sid: string, user: string, a: string, b: string, c: string, z: string,
                           x: string, y: string, r1: Readings, r2: Readings, r3: Readings, r4: Readings, r5: Readings)
    requires sid != "" && TrimSpace(user) != "" && WithinMinute(now, r1, r2, r3, r4, r5)
    requires Word(a) && Word(b) && Word(c) && Word(z) && Word(x) && Word(y) && x != y
    ensures var steps := [Register(sid, user)] + Marked(sid, a, b, c, z, x, y, r1, r2, r3, r4, r5);
      && TextOf(Exec(Initial(now), steps), sid) == a + c + b
      && SpokenIn(Initial(now), steps, sid) == a + b + c
  {
    hide Exec, SpokenIn, TrimSpace, AssistantText, Word, WithinMinute, Marked;
    var chunks := Marked(sid, a, b, c, z, x, y, r1, r2, r3, r4, r5);
    FirstStep(Initial(now), Register(sid, user), chunks, sid);
    assert Apply(Initial(now), Register(sid, user)) == Idle(sid, user, [], now);
    HearsAll(sid, user, a, b, c, z, x, y, now, r1, r2, r3, r4, r5);
    var m1, m2 := Message(Assistant, a + c, r5.stamp, x, ""), Message(System, z, r2.stamp, "", "");
    var m3, m4 := Message(Assistant, b, r3.stamp, y, ""), Message(System, z, r4.stamp, "", "");
    assert [m1] + [m2, m3, m4] == [m1, m2, m3, m4];
    FourTexts(m1, m2, m3, m4);
  }
}
