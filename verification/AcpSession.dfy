/**
 * One chat session of the ACP service and what a critical section of the service can do to it.
 * Times are in nanoseconds; every clock reading a section takes is a parameter.
 */
module AcpSession {
  import opened Durations
  import opened Text

  const REQUEST_WINDOW: int := 10 * MINUTE
  const REPLAY_WINDOW: int := 90 * SECOND

  datatype Role = User | Assistant | System

  /** `turn` and `request` are the turn_id and client_request_id of the metadata, "" when absent. */
  datatype Message = Message(role: Role, content: string, at: int, turn: string, request: string)

  datatype Status = Ready | Running | AwaitingInput | Failed

  /** The questions a turn left open: PendingQuestions, PendingQuestionSetID and AwaitingInputKind. */
  datatype Pending = Pending(questions: seq<string>, setId: string, kind: string)

  const NOTHING := Pending([], "", "")

  datatype Kind =
    | TurnStarted | UserMessage | TurnFailed | Resolved(setId: string) | Requested(setId: string) | TurnCompleted
    | Other

  datatype Event = Event(kind: Kind, turn: string)

  datatype Mode = NoMode | Plan | Build

  datatype Session = Session(
    user: string,
    status: Status,
    inTurn: bool,
    turn: string,
    pending: Pending,
    mode: Mode,
    messages: seq<Message>,
    trace: seq<Event>,
    recent: map<string, int>)

  function Started(user: string): Session {
    Session(user, Ready, false, "", NOTHING, NoMode, [], [], map[])
  }

  // ---- Taking a prompt ----

  datatype PromptRequest = PromptRequest(content: string, display: string, request: string, mode: string)

  function Content(p: PromptRequest): string { TrimSpace(p.content) }

  function Display(p: PromptRequest): string {
    if TrimSpace(p.display) == "" then Content(p) else TrimSpace(p.display)
  }

  function RequestId(p: PromptRequest): string { TrimSpace(p.request) }

  predicate WantsPlan(p: PromptRequest) { TrimSpace(ToLower(p.mode)) == "plan" }

  /** The readings of the first section of SendPrompt, in the order they are taken. */
  datatype Clock = Clock(check: int, replay: int, stamp: int, record: int)

  predicate Ticks(now: int, c: Clock) {
    now <= c.check <= c.replay <= c.stamp <= c.record
  }

  /** expirePromptRequestIDs */
  function Expire(recent: map<string, int>, now: int): map<string, int> {
    map id | id in recent && now - recent[id] <= REQUEST_WINDOW :: recent[id]
  }

  /** duplicatePromptReplay: whether the latest user message says the same and is recent. */
  predicate Replayed(messages: seq<Message>, display: string, content: string, now: int) {
    if messages == [] then false
    else
      var last := messages[|messages| - 1];
      if last.role != User then Replayed(messages[..|messages| - 1], display, content, now)
      else
        var stored := TrimSpace(last.content);
        (stored == display || stored == content) && now - last.at <= REPLAY_WINDOW
  }

  function Checked(s: Session, request: string, now: int): Session {
    if request == "" then s else s.(recent := Expire(s.recent, now))
  }

  predicate Duplicate(s: Session, p: PromptRequest, clock: Clock) {
    || (RequestId(p) != "" && RequestId(p) in Expire(s.recent, clock.check))
    || Replayed(s.messages, Display(p), Content(p), clock.replay)
  }

  function Recorded(recent: map<string, int>, request: string, now: int): map<string, int> {
    if request == "" then recent else Expire(recent, now)[request := now]
  }

  /** A prompt that is no duplicate: the turn starts and the user message is stored. */
  function Accept(s: Session, turn: string, p: PromptRequest, clock: Clock): Session {
    var c := Checked(s, RequestId(p), clock.check);
    c.(inTurn := true, turn := turn, status := Running,
       messages := s.messages + [Message(User, Display(p), clock.stamp, turn, RequestId(p))],
       recent := Recorded(c.recent, RequestId(p), clock.record))
  }

  /** What SendPrompt remembers of the questions it found, for the case that the turn fails. */
  function Captured(s: Session): Pending {
    if s.pending.setId != "" || s.pending.questions != [] then s.pending else NOTHING
  }

  // ---- Chunks of text from the provider ----

  /** Readings for appendChunkMessage: at the last message, at each candidate, and for the new stamp. */
  datatype Readings = Readings(first: int, probe: nat -> int, stamp: int)

  ghost predicate Flows(now: int, r: Readings) {
    && now <= r.first <= r.stamp
    && (forall i: nat :: r.first <= r.probe(i) <= r.stamp)
    && (forall i: nat, j: nat :: i <= j ==> r.probe(j) <= r.probe(i))
  }

  /** The message of the same turn a chunk joins, found from the back; an assistant's must be recent. */
  function MergeTarget(messages: seq<Message>, role: Role, turn: string, probe: nat -> int): (r: Option<nat>)
    ensures r.Some? ==> r.value < |messages|
  {
    if messages == [] then None
    else
      var i := |messages| - 1;
      if messages[i].role == role && messages[i].turn == turn
         && (role == User || (role == Assistant && probe(i) - messages[i].at < MINUTE))
      then Some(i)
      else MergeTarget(messages[..i], role, turn, probe)
  }

  predicate JoinsLast(messages: seq<Message>, role: Role, now: int) {
    messages != [] && messages[|messages| - 1].role == role && now - messages[|messages| - 1].at < MINUTE
  }

  /** appendChunkMessage. A user's chunk that only echoes the message it would join is dropped. */
  function AppendChunk(messages: seq<Message>, role: Role, text: string, turn: string, r: Readings): seq<Message> {
    if text == "" then messages
    else if JoinsLast(messages, role, r.first) then
      var i := |messages| - 1;
      messages[i := messages[i].(content := messages[i].content + text)]
    else
      var target := if turn == "" then None else MergeTarget(messages, role, turn, r.probe);
      if target.Some? then
        var i := target.value;
        var item := messages[i];
        if role == User then
          if TrimSpace(item.content) == TrimSpace(text) then messages
          else messages[i := item.(content := item.content + text)]
        else messages[i := item.(content := item.content + text, at := r.stamp)]
      else messages + [Message(role, text, r.stamp, turn, "")]
  }

  /** The turn a chunk is filed under: the session's, or else the one the provider put in its content. */
  function ChunkTurn(s: Session, own: string): string {
    if s.turn != "" then s.turn else TrimSpace(own)
  }

  function Hear(s: Session, role: Role, text: string, own: string, r: Readings): Session {
    s.(messages := AppendChunk(s.messages, role, TrimSpace(text), ChunkTurn(s, own), r))
  }

  // ---- The later sections of SendPrompt ----

  function Publish(s: Session, event: Event): Session {
    s.(trace := s.trace + [event])
  }

  function SwitchMode(s: Session, mode: Mode): Session {
    s.(mode := mode)
  }

  /** A turn fails: the questions it found come back, if there were any. */
  function FailTurn(s: Session, captured: Pending): Session {
    if captured != NOTHING then s.(inTurn := false, turn := "", status := AwaitingInput, pending := captured)
    else s.(inTurn := false, turn := "", status := Failed)
  }

  function ClearPending(s: Session): Session {
    s.(pending := NOTHING)
  }

  /** What derivePendingInputForTurn makes of the turn's text. */
  datatype Derived = NoQuestions | Questions(kind: string, questions: seq<string>)

  predicate Derivable(d: Derived) {
    d.Questions? ==> d.kind != "" && d.questions != []
  }

  function FinishTurn(s: Session, d: Derived, setId: string): Session {
    var idle := s.(inTurn := false, turn := "");
    if d.Questions? then idle.(status := AwaitingInput, pending := Pending(d.questions, setId, d.kind))
    else idle.(status := Ready)
  }

  // ---- Every way a section changes a session ----

  datatype Op =
    | Took(turn: string, p: PromptRequest, clock: Clock)
    | Refused(p: PromptRequest, clock: Clock)
    | Heard(role: Role, text: string, own: string, readings: Readings)
    | Told(event: Event)
    | Switched(mode: Mode)
    | Lost(captured: Pending)
    | Cleared
    | Finished(derived: Derived, setId: string)

  function Do(s: Session, op: Op): Session {
    match op
    case Took(turn, p, clock) => Accept(s, turn, p, clock)
    case Refused(p, clock) => Checked(s, RequestId(p), clock.check)
    case Heard(role, text, own, readings) => Hear(s, role, text, own, readings)
    case Told(event) => Publish(s, event)
    case Switched(mode) => SwitchMode(s, mode)
    case Lost(captured) => FailTurn(s, captured)
    case Cleared => ClearPending(s)
    case Finished(derived, setId) => FinishTurn(s, derived, setId)
  }
}
