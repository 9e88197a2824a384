/**
 * What happens to the messages of one session: chunks join or follow earlier text without changing
 * what the user said.
 */
module AcpMessages {
  import opened Durations
  import opened Text
  import opened AcpSession

  // ---- The two sides of the conversation ----

  function Users(messages: seq<Message>): seq<Message> {
    if messages == [] then []
    else
      var last := messages[|messages| - 1];
      Users(messages[..|messages| - 1]) + (if last.role == User then [last] else [])
  }

  /** Everything the assistant said, in list order. */
  function AssistantText(messages: seq<Message>): string {
    if messages == [] then ""
    else
      var last := messages[|messages| - 1];
      AssistantText(messages[..|messages| - 1]) + (if last.role == Assistant then last.content else "")
  }

  lemma UsersMore(messages: seq<Message>, m: Message)
    ensures Users(messages + [m]) == Users(messages) + (if m.role == User then [m] else [])
  {
    assert (messages + [m])[..|messages|] == messages;
  }

  lemma TextMore(messages: seq<Message>, m: Message)
    ensures AssistantText(messages + [m]) == AssistantText(messages) + (if m.role == Assistant then m.content else "")
  {
    assert (messages + [m])[..|messages|] == messages;
  }

  lemma {:induction false} UsersSame(messages: seq<Message>, i: nat, m: Message)
    requires i < |messages| && messages[i].role != User && m.role != User
    ensures Users(messages[i := m]) == Users(messages)
    decreases |messages|
  {
    var n := |messages| - 1;
    var init := messages[..n];
    if i < n {
      UsersSame(init, i, m);
      assert messages[i := m][..n] == init[i := m];
    } else {
      assert messages[i := m][..n] == init;
    }
  }

  lemma {:induction false} TextSame(messages: seq<Message>, i: nat, m: Message)
    requires i < |messages| && messages[i].role != Assistant && m.role != Assistant
    ensures AssistantText(messages[i := m]) == AssistantText(messages)
    decreases |messages|
  {
    var n := |messages| - 1;
    var init := messages[..n];
    if i < n {
      TextSame(init, i, m);
      assert messages[i := m][..n] == init[i := m];
    } else {
      assert messages[i := m][..n] == init;
    }
  }

  lemma {:induction false} TextConcat(a: seq<Message>, b: seq<Message>)
    ensures AssistantText(a + b) == AssistantText(a) + AssistantText(b)
    decreases |b|
  {
    if b == [] {
      assert a + b == a;
    } else {
      var init, last := b[..|b| - 1], b[|b| - 1];
      TextConcat(a, init);
      assert a + b == (a + init) + [last];
      TextMore(a + init, last);
    }
  }

  /** Text added to the message at `i` lands before what the assistant said after it. */
  lemma TextGrows(messages: seq<Message>, i: nat, m: Message, text: string) returns (before: string, after: string)
    requires i < |messages| && messages[i].role == Assistant && m.role == Assistant
    requires m.content == messages[i].content + text
    ensures AssistantText(messages) == before + after
    ensures AssistantText(messages[i := m]) == before + text + after
    ensures after == AssistantText(messages[i + 1..])
  {
    hide AssistantText;
    var head, tail := messages[..i], messages[i + 1..];
    before, after := AssistantText(head) + messages[i].content, AssistantText(tail);
    assert messages == (head + [messages[i]]) + tail;
    assert messages[i := m] == (head + [m]) + tail;
    TextConcat(head + [messages[i]], tail);
    TextConcat(head + [m], tail);
    TextMore(head, messages[i]);
    TextMore(head, m);
    assert AssistantText(head) + (messages[i].content + text) == before + text;
  }

  // ---- Where a chunk goes ----

  predicate Joinable(m: Message, turn: string, now: int) {
    m.role == Assistant && m.turn == turn && now - m.at < MINUTE
  }

  lemma {:induction false} MergeTargetMeaning(messages: seq<Message>, turn: string, probe: nat -> int)
    ensures match MergeTarget(messages, Assistant, turn, probe)
      case Some(i) =>
        Joinable(messages[i], turn, probe(i)) && forall j | i < j < |messages| :: !Joinable(messages[j], turn, probe(j))
      case None => forall j | 0 <= j < |messages| :: !Joinable(messages[j], turn, probe(j))
    decreases |messages|
  {
    if messages != [] {
      var init := messages[..|messages| - 1];
      MergeTargetMeaning(init, turn, probe);
      forall j | 0 <= j < |init| ensures messages[j] == init[j] {
      }
    }
  }

  lemma {:induction false} OnlyAssistantsMerge(messages: seq<Message>, role: Role, turn: string, probe: nat -> int)
    requires role == System
    ensures MergeTarget(messages, role, turn, probe).None?
    decreases |messages|
  {
    if messages != [] {
      OnlyAssistantsMerge(messages[..|messages| - 1], role, turn, probe);
    }
  }

  /** The three things that can happen to the messages. */
  datatype Placed = Dropped | Extended(i: nat, at: int) | Appended

  function Place(messages: seq<Message>, role: Role, text: string, turn: string, r: Readings): (p: Placed)
    ensures p.Extended? ==> p.i < |messages|
  {
    if text == "" then Dropped
    else if JoinsLast(messages, role, r.first) then Extended(|messages| - 1, messages[|messages| - 1].at)
    else
      var target := if turn == "" then None else MergeTarget(messages, role, turn, r.probe);
      if target.Some? then Extended(target.value, r.stamp) else Appended
  }

  /** The messages after a chunk, by where it goes. */
  function Placing(messages: seq<Message>, role: Role, text: string, turn: string, stamp: int, p: Placed): seq<Message>
    requires p.Extended? ==> p.i < |messages|
  {
    match p
    case Dropped => messages
    case Extended(i, at) => messages[i := messages[i].(content := messages[i].content + text, at := at)]
    case Appended => messages + [Message(role, text, stamp, turn, "")]
  }

  lemma PlaceMeaning(messages: seq<Message>, role: Role, text: string, turn: string, r: Readings)
    requires role != User
    ensures var p := Place(messages, role, text, turn, r);
      && AppendChunk(messages, role, text, turn, r) == Placing(messages, role, text, turn, r.stamp, p)
      && (p.Dropped? <==> text == "")
      && (p.Extended? ==> messages[p.i].role == role)
  {
    if role == Assistant {
      MergeTargetMeaning(messages, turn, r.probe);
    } else {
      OnlyAssistantsMerge(messages, role, turn, r.probe);
    }
  }

  /** The last message that an assistant's chunk of this turn may join, being less than a minute old. */
  predicate LastToJoin(messages: seq<Message>, i: nat, turn: string, probe: nat -> int) {
    && i < |messages|
    && messages[i].role == Assistant && messages[i].turn == turn && probe(i) - messages[i].at < 60 * 1_000_000_000
    && forall j | i < j < |messages| ::
         !(messages[j].role == Assistant && messages[j].turn == turn && probe(j) - messages[j].at < 60 * 1_000_000_000)
  }

  /**
   * What becomes of a chunk of the provider's, in full. One of the same role less than a minute after
   * the last message is added to it; else an assistant's is added to the last assistant message of its
   * turn that is less than a minute old, which counts as new again; else it is a message of its own.
   */
  lemma ChunkExactly(messages: seq<Message>, role: Role, text: string, turn: string, r: Readings)
    requires role != User && text != ""
    ensures var after := AppendChunk(messages, role, text, turn, r);
      var n := |messages| - 1;
      if n >= 0 && messages[n].role == role && r.first - messages[n].at < 60 * 1_000_000_000
      then after == messages[n := messages[n].(content := messages[n].content + text)]
      else
        && (forall i: nat :: role == Assistant && turn != "" && LastToJoin(messages, i, turn, r.probe) ==>
              after == messages[i := messages[i].(content := messages[i].content + text, at := r.stamp)])
        && ((forall i: nat :: role == Assistant && turn != "" ==> !LastToJoin(messages, i, turn, r.probe)) ==>
              after == messages + [Message(role, text, r.stamp, turn, "")])
  {
    PlaceMeaning(messages, role, text, turn, r);
    MergeTargetMeaning(messages, turn, r.probe);
    hide AppendChunk, MergeTarget;
    if role == Assistant {
      match MergeTarget(messages, Assistant, turn, r.probe)
      case Some(k) => assert LastToJoin(messages, k, turn, r.probe);
      case None =>
    } else {
      OnlyAssistantsMerge(messages, role, turn, r.probe);
    }
  }

  /** No chunk touches what the user said. */
  lemma ChunkKeepsUsers(messages: seq<Message>, role: Role, text: string, turn: string, r: Readings)
    requires role != User
    ensures Users(AppendChunk(messages, role, text, turn, r)) == Users(messages)
  {
    hide AppendChunk, Place, Users;
    PlaceMeaning(messages, role, text, turn, r);
    match Place(messages, role, text, turn, r)
    case Dropped =>
    case Extended(i, at) => UsersSame(messages, i, messages[i].(content := messages[i].content + text, at := at));
    case Appended => UsersMore(messages, Message(role, text, r.stamp, turn, ""));
  }

  /** A chunk of the system's adds nothing to what the assistant said. */
  lemma SystemKeepsText(messages: seq<Message>, text: string, turn: string, r: Readings)
    ensures AssistantText(AppendChunk(messages, System, text, turn, r)) == AssistantText(messages)
  {
    hide AppendChunk, Place, AssistantText;
    PlaceMeaning(messages, System, text, turn, r);
    match Place(messages, System, text, turn, r)
    case Dropped =>
    case Extended(i, at) => TextSame(messages, i, messages[i].(content := messages[i].content + text, at := at));
    case Appended => TextMore(messages, Message(System, text, r.stamp, turn, ""));
  }

  /** What the assistant said after the message that a chunk joins. */
  function SaidAfter(messages: seq<Message>, p: Placed): string
    requires p.Extended? ==> p.i < |messages|
  {
    if p.Extended? then AssistantText(messages[p.i + 1..]) else ""
  }

  lemma ChunkAddsText(messages: seq<Message>, text: string, turn: string, r: Readings) returns (before: string)
    ensures var after := SaidAfter(messages, Place(messages, Assistant, text, turn, r));
      && AssistantText(messages) == before + after
      && AssistantText(AppendChunk(messages, Assistant, text, turn, r)) == before + text + after
  {
    hide AppendChunk, Place, AssistantText;
    PlaceMeaning(messages, Assistant, text, turn, r);
    before := AssistantText(messages);
    match Place(messages, Assistant, text, turn, r)
    case Dropped =>
    case Extended(i, at) =>
      var after;
      before, after := TextGrows(messages, i, messages[i].(content := messages[i].content + text, at := at), text);
    case Appended => TextMore(messages, Message(Assistant, text, r.stamp, turn, ""));
  }

  lemma PlaceIgnoresText(messages: seq<Message>, role: Role, a: string, b: string, turn: string, r: Readings)
    requires a != "" && b != ""
    ensures Place(messages, role, a, turn, r) == Place(messages, role, b, turn, r)
  {
  }

  /** The assistant has said nothing after the message that a chunk would join. */
  predicate NothingAfter(messages: seq<Message>, turn: string, r: Readings) {
    SaidAfter(messages, Place(messages, Assistant, "a", turn, r)) == ""
  }

  ghost predicate AddsAtEnd(messages: seq<Message>, text: string, turn: string, r: Readings) {
    AssistantText(AppendChunk(messages, Assistant, text, turn, r)) == AssistantText(messages) + text
  }

  ghost predicate KeepsOrder(messages: seq<Message>, turn: string, r: Readings) {
    forall text :: AddsAtEnd(messages, text, turn, r)
  }

  lemma AddsAtEndWhen(messages: seq<Message>, text: string, turn: string, r: Readings)
    requires text == "" || NothingAfter(messages, turn, r)
    ensures AddsAtEnd(messages, text, turn, r)
  {
    hide AppendChunk, Place, AssistantText, SaidAfter;
    var before := ChunkAddsText(messages, text, turn, r);
    if text == "" {
      NothingPlaced(messages, turn, r);
    } else {
      PlaceIgnoresText(messages, Assistant, "a", text, turn, r);
    }
    assert before + "" == before && before + text + "" == before + text;
  }

  lemma NothingPlaced(messages: seq<Message>, turn: string, r: Readings)
    ensures SaidAfter(messages, Place(messages, Assistant, "", turn, r)) == ""
  {
  }

  /** When something was said after the message a chunk joins, one of two short texts shows it. */
  lemma DisorderShows(messages: seq<Message>, turn: string, r: Readings) returns (text: string)
    requires !NothingAfter(messages, turn, r)
    ensures text in {"a", "b"} && !AddsAtEnd(messages, text, turn, r)
  {
    hide AppendChunk, Place, AssistantText, SaidAfter;
    var after := SaidAfter(messages, Place(messages, Assistant, "a", turn, r));
    text := if after[0] == 'a' then "b" else "a";
    PlaceIgnoresText(messages, Assistant, "a", text, turn, r);
    var before := ChunkAddsText(messages, text, turn, r);
    assert (before + text + after)[|before|] == text[0] != after[0] == (before + after + text)[|before|];
  }

  /**
   * A chunk is added at the end of what was said, whatever its text, exactly when the assistant has
   * said nothing after the message it joins.
   */
  lemma KeepsOrderExactly(messages: seq<Message>, turn: string, r: Readings)
    ensures KeepsOrder(messages, turn, r) <==> NothingAfter(messages, turn, r)
  {
    hide AddsAtEnd, NothingAfter;
    if NothingAfter(messages, turn, r) {
      forall text ensures AddsAtEnd(messages, text, turn, r) {
        AddsAtEndWhen(messages, text, turn, r);
      }
    } else {
      var text := DisorderShows(messages, turn, r);
    }
  }

  predicate OfTurn(m: Message, turn: string) {
    m.role == User && m.turn == turn
  }

  lemma {:induction false} UserTargetMeaning(messages: seq<Message>, turn: string, probe: nat -> int)
    ensures match MergeTarget(messages, User, turn, probe)
      case Some(i) => OfTurn(messages[i], turn) && forall j | i < j < |messages| :: !OfTurn(messages[j], turn)
      case None => forall j | 0 <= j < |messages| :: !OfTurn(messages[j], turn)
    decreases |messages|
  {
    if messages != [] {
      var init := messages[..|messages| - 1];
      UserTargetMeaning(init, turn, probe);
      forall j | 0 <= j < |init| ensures messages[j] == init[j] {
      }
    }
  }

  /** A user's chunk that echoes the latest prompt of its turn leaves the messages as they are. */
  lemma EchoIsDropped(messages: seq<Message>, i: nat, text: string, turn: string, r: Readings)
    requires turn != "" && i < |messages| && OfTurn(messages[i], turn)
    requires TrimSpace(messages[i].content) == TrimSpace(text)
    requires forall j | i < j < |messages| :: !OfTurn(messages[j], turn)
    requires !JoinsLast(messages, User, r.first)
    ensures AppendChunk(messages, User, text, turn, r) == messages
  {
    UserTargetMeaning(messages, turn, r.probe);
    hide TrimSpace;
  }

  // ---- Turns are blocks ----

  /** What the assistant said in the current turn stands at the end of what it said, oldest first. */
  predicate TurnBlock(messages: seq<Message>, turn: string) {
    forall i, j :: 0 <= i < j < |messages| && messages[i].role == Assistant && messages[j].role == Assistant
                   && messages[i].turn == turn ==>
      messages[j].turn == turn && messages[i].at <= messages[j].at
  }

  predicate Past(messages: seq<Message>, now: int) {
    forall m <- messages :: m.at <= now
  }

  predicate TurnsFrom(messages: seq<Message>, used: set<string>) {
    forall m <- messages :: m.turn == "" || m.turn in used
  }

  ghost predicate TextInv(s: Session, used: set<string>, now: int) {
    && Past(s.messages, now)
    && TurnsFrom(s.messages, used)
    && (s.turn != "" ==> s.turn in used && TurnBlock(s.messages, s.turn))
  }

  lemma {:induction false} NoText(messages: seq<Message>)
    requires forall m <- messages :: m.role != Assistant
    ensures AssistantText(messages) == ""
    decreases |messages|
  {
    if messages != [] {
      NoText(messages[..|messages| - 1]);
    }
  }

  lemma LaterJoinsToo(messages: seq<Message>, turn: string, probe: nat -> int, i: nat, j: nat)
    requires i < j < |messages| && TurnBlock(messages, turn) && probe(j) <= probe(i)
    requires Joinable(messages[i], turn, probe(i)) && messages[j].role == Assistant
    ensures Joinable(messages[j], turn, probe(j))
  {
  }

  lemma LastOfBlock(messages: seq<Message>, turn: string, now: int, r: Readings, i: nat)
    requires Flows(now, r) && TurnBlock(messages, turn) && i < |messages| && Joinable(messages[i], turn, r.probe(i))
    requires forall j: nat | i < j < |messages| :: !Joinable(messages[j], turn, r.probe(j))
    ensures forall j: nat | i < j < |messages| :: messages[j].role != Assistant
  {
    forall j: nat | i < j < |messages| ensures messages[j].role != Assistant {
      if messages[j].role == Assistant {
        LaterJoinsToo(messages, turn, r.probe, i, j);
      }
    }
  }

  /** In a block, a chunk can only join the last thing the assistant said. */
  lemma BlockKeepsOrder(messages: seq<Message>, text: string, turn: string, now: int, r: Readings)
    requires Flows(now, r) && (turn != "" ==> TurnBlock(messages, turn))
    ensures SaidAfter(messages, Place(messages, Assistant, text, turn, r)) == ""
    ensures var p := Place(messages, Assistant, text, turn, r);
      p.Extended? ==> forall j | p.i < j < |messages| :: messages[j].role != Assistant
  {
    hide AssistantText, MergeTarget;
    var p := Place(messages, Assistant, text, turn, r);
    if p.Extended? {
      MergeTargetMeaning(messages, turn, r.probe);
      if !JoinsLast(messages, Assistant, r.first) {
        LastOfBlock(messages, turn, now, r, p.i);
      }
      NoText(messages[p.i + 1..]);
    }
  }

  lemma ChunkInBlock(messages: seq<Message>, text: string, turn: string, used: set<string>, now: int, r: Readings)
    requires Flows(now, r) && Past(messages, now) && TurnsFrom(messages, used)
    requires turn != "" ==> turn in used && TurnBlock(messages, turn)
    ensures var after := AppendChunk(messages, Assistant, text, turn, r);
      && AssistantText(after) == AssistantText(messages) + text
      && Past(after, r.stamp) && TurnsFrom(after, used) && (turn != "" ==> TurnBlock(after, turn))
  {
    hide AppendChunk, Place, AssistantText, MergeTarget, SaidAfter;
    var p := Place(messages, Assistant, text, turn, r);
    PlaceMeaning(messages, Assistant, text, turn, r);
    BlockKeepsOrder(messages, text, turn, now, r);
    var before := ChunkAddsText(messages, text, turn, r);
    assert before + text + "" == before + text && before + "" == before;
    PlaceTimes(messages, Assistant, text, turn, now, r);
    PlacingKeepsBlock(messages, text, turn, used, r.stamp, p);
  }

  lemma PlaceTimes(messages: seq<Message>, role: Role, text: string, turn: string, now: int, r: Readings)
    requires Flows(now, r) && Past(messages, now)
    ensures var p := Place(messages, role, text, turn, r); p.Extended? ==> messages[p.i].at <= p.at <= r.stamp
  {
  }

  lemma PlacingKeepsBlock(messages: seq<Message>, text: string, turn: string, used: set<string>, stamp: int, p: Placed)
    requires Past(messages, stamp) && TurnsFrom(messages, used)
    requires turn != "" ==> turn in used && TurnBlock(messages, turn)
    requires p.Extended? ==>
      && p.i < |messages| && messages[p.i].role == Assistant && messages[p.i].at <= p.at <= stamp
      && forall j | p.i < j < |messages| :: messages[j].role != Assistant
    ensures var after := Placing(messages, Assistant, text, turn, stamp, p);
      Past(after, stamp) && TurnsFrom(after, used) && (turn != "" ==> TurnBlock(after, turn))
  {
  }

  /** A system chunk leaves the assistant's messages, and so the block, as they are. */
  lemma SystemInBlock(messages: seq<Message>, text: string, turn: string, used: set<string>, now: int, r: Readings)
    requires Flows(now, r) && Past(messages, now) && TurnsFrom(messages, used) && (turn == "" || turn in used)
    ensures var after := AppendChunk(messages, System, text, turn, r);
      && Past(after, r.stamp) && TurnsFrom(after, used)
      && (TurnBlock(messages, turn) ==> TurnBlock(after, turn))
  {
    hide AppendChunk, Place, MergeTarget;
    PlaceMeaning(messages, System, text, turn, r);
    PlaceTimes(messages, System, text, turn, now, r);
  }

  /** Whether the provider leaves the turn to the session: it has one, or the content names none. */
  predicate Unmarked(s: Session, op: Op) {
    op.Heard? ==> s.turn != "" || TrimSpace(op.own) == ""
  }

  /** What the provider's words in a step come to. */
  function Said(op: Op): string {
    if op.Heard? && op.role == Assistant then TrimSpace(op.text) else ""
  }

  /** The ids and the clock readings a step takes. */
  ghost predicate Fits(op: Op, used: set<string>, now: int, used': set<string>, now': int) {
    && used <= used' && now <= now'
    && match op
       case Took(turn, _, clock) =>
         turn != "" && turn !in used && turn in used' && Ticks(now, clock) && clock.record <= now'
       case Refused(_, clock) => Ticks(now, clock) && clock.record <= now'
       case Heard(role, _, _, readings) => role != User && Flows(now, readings) && readings.stamp <= now'
       case _ => true
  }

  lemma HearKeepsText(s: Session, role: Role, text: string, own: string, r: Readings, used: set<string>, now: int)
    requires TextInv(s, used, now) && role != User && Flows(now, r) && (s.turn != "" || TrimSpace(own) == "")
    ensures TextInv(Hear(s, role, text, own, r), used, r.stamp)
    ensures AssistantText(Hear(s, role, text, own, r).messages)
         == AssistantText(s.messages) + (if role == Assistant then TrimSpace(text) else "")
  {
    hide AppendChunk, AssistantText, TrimSpace;
    if role == Assistant {
      ChunkInBlock(s.messages, TrimSpace(text), ChunkTurn(s, own), used, now, r);
    } else {
      SystemKeepsText(s.messages, TrimSpace(text), ChunkTurn(s, own), r);
      SystemInBlock(s.messages, TrimSpace(text), ChunkTurn(s, own), used, now, r);
    }
  }

  /** Every step on a session keeps the blocks and adds just what the assistant said to its text. */
  lemma DoKeepsText(s: Session, op: Op, used: set<string>, now: int, used': set<string>, now': int)
    requires TextInv(s, used, now) && Fits(op, used, now, used', now') && Unmarked(s, op)
    ensures TextInv(Do(s, op), used', now')
    ensures AssistantText(Do(s, op).messages) == AssistantText(s.messages) + Said(op)
  {
    hide AppendChunk, AssistantText, TrimSpace, Duplicate, Recorded, Expire;
    match op
    case Heard(role, text, own, r) => HearKeepsText(s, role, text, own, r, used, now);
    case Took(turn, p, clock) =>
      TextMore(s.messages, Message(User, Display(p), clock.stamp, turn, RequestId(p)));
    case _ =>
  }

  /** A step adds just what the assistant said to its text, if a chunk keeps the order where it arrives. */
  lemma DoAddsText(s: Session, op: Op)
    requires op.Heard? ==> op.role != User
    requires op.Heard? && op.role == Assistant ==> KeepsOrder(s.messages, ChunkTurn(s, op.own), op.readings)
    ensures AssistantText(Do(s, op).messages) == AssistantText(s.messages) + Said(op)
  {
    hide AppendChunk, AssistantText, TrimSpace, Duplicate, Recorded, Expire, ChunkTurn;
    assert AssistantText(s.messages) + "" == AssistantText(s.messages);
    match op
    case Heard(role, text, own, r) =>
      if role == Assistant {
        assert AddsAtEnd(s.messages, TrimSpace(text), ChunkTurn(s, own), r);
      } else {
        SystemKeepsText(s.messages, TrimSpace(text), ChunkTurn(s, own), r);
      }
    case Took(turn, p, clock) =>
      TextMore(s.messages, Message(User, Display(p), clock.stamp, turn, RequestId(p)));
    case _ =>
  }

  /** And no step changes a message of the user's: it only ever adds one, when it takes a prompt. */
  lemma DoKeepsUsers(s: Session, op: Op, used: set<string>, now: int, used': set<string>, now': int)
    requires Fits(op, used, now, used', now')
    ensures Users(Do(s, op).messages)
         == Users(s.messages)
            + if op.Took? then [Message(User, Display(op.p), op.clock.stamp, op.turn, RequestId(op.p))] else []
  {
    hide AppendChunk, Users, TrimSpace, Duplicate, Recorded, Expire, Flows;
    match op
    case Heard(role, text, own, r) => ChunkKeepsUsers(s.messages, role, TrimSpace(text), ChunkTurn(s, own), r);
    case Took(turn, p, clock) =>
      UsersMore(s.messages, Message(User, Display(p), clock.stamp, turn, RequestId(p)));
    case _ =>
  }

  lemma PastLater(messages: seq<Message>, now: int, end: int)
    requires Past(messages, now) && now <= end
    ensures Past(messages, end)
  {
  }

  lemma TextLater(s: Session, used: set<string>, now: int, used': set<string>, now': int)
    requires TextInv(s, used, now) && used <= used' && now <= now'
    ensures TextInv(s, used', now')
  {
  }

  /** No message is stamped later than the clock. */
  lemma DoKeepsPast(s: Session, op: Op, used: set<string>, now: int, used': set<string>, now': int)
    requires Past(s.messages, now) && Fits(op, used, now, used', now')
    ensures Past(Do(s, op).messages, now')
  {
    hide AppendChunk, Place, TrimSpace, Duplicate, Recorded, Expire;
    if op.Heard? {
      PlaceMeaning(s.messages, op.role, TrimSpace(op.text), ChunkTurn(s, op.own), op.readings);
      PlaceTimes(s.messages, op.role, TrimSpace(op.text), ChunkTurn(s, op.own), now, op.readings);
    }
  }

  // ---- A provider that marks its own turns ----

  predicate Word(text: string) {
    text != "" && TrimSpace(text) == text
  }

  /** An assistant chunk out of turn joins the message of the turn its content names, however far back. */
  lemma MarkedChunkJoins(s: Session, text: string, mark: string, r: Readings, i: nat)
    requires Word(text) && Word(mark) && s.turn == ""
    requires i < |s.messages| && Joinable(s.messages[i], mark, r.probe(i))
    requires s.messages[|s.messages| - 1].role == System
    requires forall j | i < j < |s.messages| :: s.messages[j].turn != mark
    ensures Hear(s, Assistant, text, mark, r)
         == s.(messages := s.messages[i := s.messages[i].(content := s.messages[i].content + text, at := r.stamp)])
  {
    MergeTargetMeaning(s.messages, mark, r.probe);
  }

  /** Out of turn, a chunk of another role or another mark than any message becomes a message. */
  lemma NewChunkFollows(s: Session, role: Role, text: string, mark: string, r: Readings)
    requires Word(text) && (mark == "" || Word(mark)) && s.turn == "" && role != User
    requires s.messages == [] || s.messages[|s.messages| - 1].role != role
    requires role == Assistant ==> forall m <- s.messages :: m.role != Assistant || m.turn != mark
    ensures Hear(s, role, text, mark, r) == s.(messages := s.messages + [Message(role, text, r.stamp, mark, "")])
  {
    if role == Assistant {
      MergeTargetMeaning(s.messages, mark, r.probe);
    } else {
      OnlyAssistantsMerge(s.messages, role, mark, r.probe);
    }
  }

  lemma FourTexts(m1: Message, m2: Message, m3: Message, m4: Message)
    requires m1.role == m3.role == Assistant && m2.role == m4.role == System
    ensures AssistantText([m1, m2, m3, m4]) == m1.content + m3.content
  {
    hide AssistantText;
    assert AssistantText([]) == "" by { NoText([]); }
    assert [] + [m1] == [m1];
    TextMore([], m1);
    TextMore([m1], m2);
    TextMore([m1, m2], m3);
    TextMore([m1, m2, m3], m4);
    assert [m1, m2, m3] + [m4] == [m1, m2, m3, m4] && [m1, m2] + [m3] == [m1, m2, m3] && [m1] + [m2] == [m1, m2];
  }
}
