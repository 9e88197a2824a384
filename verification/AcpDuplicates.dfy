/** The windows in which a session turns a repeated prompt away. */
module AcpDuplicates {
  import opened Text
  import opened AcpSession
  import opened AcpMessages

  /** The latest user message decides whether a prompt is a replay. */
  lemma {:induction false} ReplayedMeaning(messages: seq<Message>, display: string, content: string, now: int)
    ensures Replayed(messages, display, content, now)
        <==> (Users(messages) != []
              && var last := Users(messages)[|Users(messages)| - 1];
                 TrimSpace(last.content) in {display, content} && now - last.at <= REPLAY_WINDOW)
    decreases |messages|
  {
    hide TrimSpace;
    if messages != [] {
      ReplayedMeaning(messages[..|messages| - 1], display, content, now);
    }
  }

  /** The request id of an earlier message is on record until its window has passed. */
  predicate OnRecord(u: Message, recent: map<string, int>, now: int) {
    u.request != "" ==>
      now - u.at > REQUEST_WINDOW || (u.request in recent && u.at <= recent[u.request])
  }

  /** Two user messages, the first sent before the second, that may both stand. */
  predicate RequestsApart(a: Message, b: Message) {
    a.request == b.request != "" ==> b.at - a.at > REQUEST_WINDOW
  }

  predicate TextsApart(a: Message, b: Message) {
    a.content == b.content ==> b.at - a.at > REPLAY_WINDOW
  }

  predicate Apart(users: seq<Message>) {
    && (forall i, j :: 0 <= i < j < |users| ==> RequestsApart(users[i], users[j]))
    && (forall k :: 0 <= k < |users| - 1 ==> TextsApart(users[k], users[k + 1]))
  }

  predicate DedupInv(s: Session, now: int) {
    && (forall u <- Users(s.messages) :: OnRecord(u, s.recent, now) && TrimSpace(u.content) == u.content)
    && Apart(Users(s.messages))
  }

  lemma ExpireKeepsRecord(u: Message, recent: map<string, int>, now: int, later: int, end: int)
    requires OnRecord(u, recent, now) && now <= later <= end
    ensures OnRecord(u, Expire(recent, later), end)
  {
  }

  lemma LaterKeepsRecord(u: Message, recent: map<string, int>, now: int, end: int)
    requires OnRecord(u, recent, now) && now <= end
    ensures OnRecord(u, recent, end)
  {
  }

  lemma RecordKeepsRecord(u: Message, recent: map<string, int>, request: string, now: int, later: int)
    requires OnRecord(u, recent, now) && now <= later && u.at <= later
    ensures OnRecord(u, Recorded(recent, request, later), later)
  {
  }

  lemma DisplayTrimmed(p: PromptRequest)
    ensures TrimSpace(Display(p)) == Display(p)
  {
    TrimSpaceIdempotent(p.display);
    TrimSpaceIdempotent(p.content);
  }

  /** A prompt that is no duplicate is far enough from every message on record. */
  lemma TakenIsApart(s: Session, turn: string, p: PromptRequest, now: int, clock: Clock)
    requires DedupInv(s, now) && Ticks(now, clock) && !Duplicate(s, p, clock)
    ensures Apart(Users(s.messages) + [Message(User, Display(p), clock.stamp, turn, RequestId(p))])
  {
    hide TrimSpace, Display, Content, RequestId;
    var users, m := Users(s.messages), Message(User, Display(p), clock.stamp, turn, RequestId(p));
    ReplayedMeaning(s.messages, Display(p), Content(p), clock.replay);
    forall i | 0 <= i < |users| ensures RequestsApart(users[i], m) {
      assert OnRecord(users[i], s.recent, now);
    }
    if users != [] {
      assert users[|users| - 1] in users;
      assert TextsApart(users[|users| - 1], m);
    }
  }

  lemma TookKeepsRecords(s: Session, turn: string, p: PromptRequest, now: int, clock: Clock, u: Message)
    requires DedupInv(s, now) && Ticks(now, clock) && Past(s.messages, now) && u in Users(s.messages)
    requires u.at <= now
    ensures OnRecord(u, Accept(s, turn, p, clock).recent, clock.record)
  {
    hide Users, TrimSpace, RequestId, Display, Content, Expire, Recorded;
    var request := RequestId(p);
    if request == "" {
      LaterKeepsRecord(u, s.recent, now, clock.record);
      assert Recorded(s.recent, request, clock.record) == s.recent by { BlankRecordsNothing(s.recent, clock.record); }
    } else {
      ExpireKeepsRecord(u, s.recent, now, clock.check, clock.check);
      RecordKeepsRecord(u, Expire(s.recent, clock.check), request, clock.check, clock.record);
    }
  }

  lemma BlankRecordsNothing(recent: map<string, int>, now: int)
    ensures Recorded(recent, "", now) == recent
  {
  }

  lemma {:induction false} UsersAreMessages(messages: seq<Message>)
    ensures forall u <- Users(messages) :: u in messages
    decreases |messages|
  {
    if messages != [] {
      UsersAreMessages(messages[..|messages| - 1]);
    }
  }

  predicate Admits(s: Session, op: Op) {
    op.Took? ==> !Duplicate(s, op.p, op.clock)
  }

  lemma TookKeepsDedup(s: Session, turn: string, p: PromptRequest, now: int, clock: Clock)
    requires DedupInv(s, now) && Past(s.messages, now) && Ticks(now, clock) && !Duplicate(s, p, clock)
    ensures DedupInv(Accept(s, turn, p, clock), clock.record)
  {
    hide Users, TrimSpace, RequestId, Display, Content, Expire, Duplicate;
    var m := Message(User, Display(p), clock.stamp, turn, RequestId(p));
    var after := Accept(s, turn, p, clock);
    UsersMore(s.messages, m);
    UsersAreMessages(s.messages);
    TakenIsApart(s, turn, p, now, clock);
    DisplayTrimmed(p);
    forall u | u in Users(after.messages)
      ensures OnRecord(u, after.recent, clock.record) && TrimSpace(u.content) == u.content
    {
      if u in Users(s.messages) {
        TookKeepsRecords(s, turn, p, now, clock, u);
      }
    }
  }

  /** Every step on a session keeps the windows. */
  lemma DoKeepsDedup(s: Session, op: Op, used: set<string>, now: int, used': set<string>, now': int)
    requires DedupInv(s, now) && Past(s.messages, now) && Fits(op, used, now, used', now') && Admits(s, op)
    ensures DedupInv(Do(s, op), now')
  {
    hide Users, TrimSpace, Accept, Expire, Hear, Duplicate, Flows, Apart;
    match op
    case Took(turn, p, clock) =>
      TookKeepsDedup(s, turn, p, now, clock);
      DedupLater(Accept(s, turn, p, clock), clock.record, now');
    case Refused(p, clock) =>
      forall u | u in Users(s.messages) ensures OnRecord(u, Do(s, op).recent, now') {
        ExpireKeepsRecord(u, s.recent, now, clock.check, now');
        LaterKeepsRecord(u, s.recent, now, now');
      }
    case Heard(role, text, own, r) =>
      HeardKeepsDedup(s, role, text, own, r, now);
      DedupLater(Hear(s, role, text, own, r), now, now');
    case _ =>
      DedupLater(s, now, now');
  }

  lemma DedupLater(s: Session, now: int, end: int)
    requires DedupInv(s, now) && now <= end
    ensures DedupInv(s, end)
  {
    hide Users, TrimSpace, Apart;
  }

  lemma HeardKeepsDedup(s: Session, role: Role, text: string, own: string, r: Readings, now: int)
    requires DedupInv(s, now) && role != User
    ensures DedupInv(Hear(s, role, text, own, r), now)
  {
    hide Users, TrimSpace, Apart, AppendChunk;
    ChunkKeepsUsers(s.messages, role, TrimSpace(text), ChunkTurn(s, own), r);
  }

  // ---- What is turned away ----

  /**
   * A prompt is turned away exactly when its request id was recorded at most ten minutes ago, or when
   * the latest user message says the same and is at most ninety seconds old. Either way the text counts
   * as it was sent or as it is shown.
   */
  lemma DuplicateExactly(s: Session, p: PromptRequest, clock: Clock)
    ensures Duplicate(s, p, clock)
       <==> || (TrimSpace(p.request) in s.recent && TrimSpace(p.request) != ""
                && clock.check - s.recent[TrimSpace(p.request)] <= 10 * 60 * 1_000_000_000)
            || (Users(s.messages) != []
                && var last := Users(s.messages)[|Users(s.messages)| - 1];
                   && (TrimSpace(last.content) == TrimSpace(p.content)
                       || (TrimSpace(p.display) != "" && TrimSpace(last.content) == TrimSpace(p.display)))
                   && clock.replay - last.at <= 90 * 1_000_000_000)
  {
    hide TrimSpace, Replayed, Users;
    ReplayedMeaning(s.messages, Display(p), Content(p), clock.replay);
  }

  /** A recorded request id is that of a prompt the session has taken, no later than it was recorded. */
  predicate Origin(id: string, at: int, users: seq<Message>) {
    id != "" && exists u <- users :: u.request == id && u.at <= at
  }

  predicate Origins(s: Session) {
    forall id <- s.recent :: Origin(id, s.recent[id], Users(s.messages))
  }

  lemma OriginStays(id: string, at: int, users: seq<Message>, more: seq<Message>)
    requires Origin(id, at, users)
    ensures Origin(id, at, users + more)
  {
    var u :| u in users && u.request == id && u.at <= at;
    assert u in users + more;
  }

  lemma TookKeepsOrigins(s: Session, turn: string, p: PromptRequest, now: int, clock: Clock)
    requires Origins(s) && Ticks(now, clock)
    ensures Origins(Accept(s, turn, p, clock))
  {
    hide Users, TrimSpace, RequestId, Display, Content, Origin;
    var m := Message(User, Display(p), clock.stamp, turn, RequestId(p));
    var after := Accept(s, turn, p, clock);
    UsersMore(s.messages, m);
    forall id | id in after.recent ensures Origin(id, after.recent[id], Users(after.messages)) {
      if id == RequestId(p) != "" {
        NewOrigin(m, Users(s.messages), clock.record);
      } else {
        OriginStays(id, s.recent[id], Users(s.messages), [m]);
      }
    }
  }

  lemma NewOrigin(m: Message, users: seq<Message>, at: int)
    requires m.request != "" && m.at <= at
    ensures Origin(m.request, at, users + [m])
  {
    assert m in users + [m];
  }

  lemma DoKeepsOrigins(s: Session, op: Op, used: set<string>, now: int, used': set<string>, now': int)
    requires Origins(s) && Fits(op, used, now, used', now')
    ensures Origins(Do(s, op))
  {
    hide Users, TrimSpace, Accept, Flows, Origin, RequestId, AppendChunk;
    match op
    case Took(turn, p, clock) => TookKeepsOrigins(s, turn, p, now, clock);
    case Heard(role, text, own, r) => ChunkKeepsUsers(s.messages, role, TrimSpace(text), ChunkTurn(s, own), r);
    case _ =>
  }
}
