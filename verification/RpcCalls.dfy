/**
 * The table of pending calls that callers share with the one reader goroutine, as a state machine:
 * one step for each stretch of code that other goroutines cannot interrupt.
 */
module RpcCalls {

  datatype Response = Response(id: int, result: string, isError: bool)

  /** A channel of capacity one. `owner` is the id of the call that made it. */
  datatype Channel = Channel(owner: int, buffer: seq<Response>, closed: bool, sends: nat, closes: nat)

  datatype Outcome = Answered(response: Response) | ConnectionClosed | WriteError

  /** Where a call stands: numbered, registered, write done or failed, returned. */
  datatype Call =
    | Numbered(ch: nat)
    | Registered(ch: nat)
    | Waiting(ch: nat)
    | Failing(ch: nat)
    | Done(ch: nat, outcome: Outcome)

  /** Where the reader stands: between messages, about to send, about to close, gone. */
  datatype ReaderState = Idle | Holding(ch: nat, response: Response) | Closing(ch: nat) | Stopped

  datatype Table = Table(
    lastId: nat,
    pending: map<int, nat>,
    channels: seq<Channel>,
    calls: map<int, Call>,
    reader: ReaderState,
    panicked: bool)

  const INITIAL := Table(0, map[], [], map[], Idle, false)

  datatype Step =
    | Number                      // take the next id and make a channel
    | Register(id: int)           // enter the channel in the table
    | Write(id: int, ok: bool)    // write the request
    | Drop(id: int)               // remove the entry after a failed write
    | Receive(id: int)            // the caller's channel receive
    | Take(response: Response)    // the reader looks an id up and removes it
    | Send                        // the reader sends the response it holds
    | Close                       // and closes that channel
    | Stop                        // closePending, as the reader returns

  function Get(t: Table, id: int): Call
  {
    if id in t.calls then t.calls[id] else Done(0, WriteError)
  }

  /** Whether a step can happen now; a receive or a send that would block cannot. */
  predicate Enabled(t: Table, step: Step) {
    !t.panicked &&
    match step
    case Number => true
    case Register(id) => Get(t, id).Numbered?
    case Write(id, _) => Get(t, id).Registered?
    case Drop(id) => Get(t, id).Failing?
    case Receive(id) =>
      && Get(t, id).Waiting? && Get(t, id).ch < |t.channels|
      && (t.channels[Get(t, id).ch].buffer != [] || t.channels[Get(t, id).ch].closed)
    case Take(_) => t.reader.Idle?
    case Send =>
      && t.reader.Holding? && t.reader.ch < |t.channels|
      && (t.channels[t.reader.ch].closed || t.channels[t.reader.ch].buffer == [])
    case Close => t.reader.Closing? && t.reader.ch < |t.channels|
    case Stop => t.reader.Idle?
  }

  function CloseChannel(c: Channel): Channel {
    c.(closed := true, closes := c.closes + 1)
  }

  predicate InTable(pending: map<int, nat>, ch: nat) {
    exists id <- pending :: pending[id] == ch
  }

  /** closePending: every channel in the table is closed. */
  function CloseAll(pending: map<int, nat>, channels: seq<Channel>): (r: seq<Channel>)
    ensures |r| == |channels|
  {
    seq(|channels|, i requires 0 <= i < |channels| =>
      if InTable(pending, i) then CloseChannel(channels[i]) else channels[i])
  }

  function Apply(t: Table, step: Step): Table
    requires Enabled(t, step)
  {
    match step
    case Number =>
      var id := t.lastId + 1;
      t.(lastId := id,
         channels := t.channels + [Channel(id, [], false, 0, 0)],
         calls := t.calls[id := Numbered(|t.channels|)])
    case Register(id) =>
      t.(pending := t.pending[id := t.calls[id].ch], calls := t.calls[id := Registered(t.calls[id].ch)])
    case Write(id, ok) =>
      var ch := t.calls[id].ch;
      t.(calls := t.calls[id := if ok then Waiting(ch) else Failing(ch)])
    case Drop(id) =>
      t.(pending := t.pending - {id}, calls := t.calls[id := Done(t.calls[id].ch, WriteError)])
    case Receive(id) =>
      var ch := t.calls[id].ch;
      var c := t.channels[ch];
      if c.buffer == [] then t.(calls := t.calls[id := Done(ch, ConnectionClosed)])
      else t.(channels := t.channels[ch := c.(buffer := c.buffer[1..])],
              calls := t.calls[id := Done(ch, Answered(c.buffer[0]))])
    case Take(response) =>
      if response.id !in t.pending then t
      else t.(pending := t.pending - {response.id}, reader := Holding(t.pending[response.id], response))
    case Send =>
      var c := t.channels[t.reader.ch];
      if c.closed then t.(panicked := true)
      else t.(channels := t.channels[t.reader.ch :=
                c.(buffer := c.buffer + [t.reader.response], sends := c.sends + 1)],
              reader := Closing(t.reader.ch))
    case Close =>
      var c := t.channels[t.reader.ch];
      if c.closed then t.(panicked := true)
      else t.(channels := t.channels[t.reader.ch := CloseChannel(c)], reader := Idle)
    case Stop =>
      if exists id <- t.pending :: t.pending[id] < |t.channels| && t.channels[t.pending[id]].closed
      then t.(panicked := true)
      else t.(pending := map[], channels := CloseAll(t.pending, t.channels), reader := Stopped)
  }

  /** Any interleaving: a step that cannot happen when its turn comes is passed over. */
  function Exec(t: Table, steps: seq<Step>): Table
    decreases |steps|
  {
    if steps == [] then t
    else Exec(if Enabled(t, steps[0]) then Apply(t, steps[0]) else t, steps[1..])
  }

  // ---- What holds between any two steps ----

  predicate Untouched(c: Channel) {
    c.buffer == [] && !c.closed && c.sends == 0 && c.closes == 0
  }

  predicate ChannelInv(c: Channel) {
    && |c.buffer| <= c.sends <= 1
    && c.closes == (if c.closed then 1 else 0)
    && forall r <- c.buffer :: r.id == c.owner
  }

  predicate HeldByReader(t: Table, ch: nat) {
    (t.reader.Holding? || t.reader.Closing?) && t.reader.ch == ch
  }

  predicate CallInv(t: Table, id: int, call: Call) {
    && 1 <= id <= t.lastId
    && call.ch < |t.channels|
    && t.channels[call.ch].owner == id
    && match call
       case Numbered(ch) => id !in t.pending && Untouched(t.channels[ch]) && !HeldByReader(t, ch)
       case Done(_, outcome) => id !in t.pending && (outcome.Answered? ==> outcome.response.id == id)
       case _ => id in t.pending || HeldByReader(t, call.ch) || t.channels[call.ch].closed
  }

  predicate PendingInv(t: Table, id: int) {
    && id in t.pending && id in t.calls
    && t.calls[id].ch == t.pending[id] < |t.channels|
    && Untouched(t.channels[t.pending[id]])
    && !HeldByReader(t, t.pending[id])
  }

  predicate ReaderInv(t: Table) {
    match t.reader
    case Holding(ch, response) =>
      ch < |t.channels| && Untouched(t.channels[ch]) && response.id == t.channels[ch].owner
    case Closing(ch) => ch < |t.channels| && !t.channels[ch].closed
    case _ => true
  }

  predicate Owned(t: Table, ch: nat)
    requires ch < |t.channels|
  {
    var owner := t.channels[ch].owner;
    owner in t.calls && t.calls[owner].ch == ch
  }

  predicate Inv(t: Table) {
    && !t.panicked
    && (forall ch :: 0 <= ch < |t.channels| ==> ChannelInv(t.channels[ch]) && Owned(t, ch))
    && (forall id <- t.calls :: CallInv(t, id, t.calls[id]))
    && (forall id <- t.pending :: PendingInv(t, id))
    && ReaderInv(t)
  }

  /** `u` differs from `t` at most in what concerns the call `id` and its channel `ch`. */
  ghost predicate OnlyConcerns(t: Table, u: Table, id: int, ch: nat) {
    && ch < |t.channels| == |u.channels|
    && t.channels[ch].owner == u.channels[ch].owner == id
    && (forall i | 0 <= i < |t.channels| && i != ch :: u.channels[i] == t.channels[i])
    && u.lastId == t.lastId
    && u.calls.Keys == t.calls.Keys && id in t.calls && t.calls[id].ch == ch
    && (forall i | i in t.calls && i != id :: u.calls[i] == t.calls[i])
    && u.pending - {id} == t.pending - {id}
    && (forall i: nat :: i != ch && HeldByReader(t, i) ==> HeldByReader(u, i))
    && (forall i: nat :: i != ch && HeldByReader(u, i) ==> HeldByReader(t, i))
  }

  lemma LocalChange(t: Table, u: Table, id: int, ch: nat)
    requires Inv(t) && OnlyConcerns(t, u, id, ch)
    requires !u.panicked && ReaderInv(u) && ChannelInv(u.channels[ch])
    requires CallInv(u, id, u.calls[id]) && (id in u.pending ==> PendingInv(u, id))
    ensures Inv(u)
  {
    forall i | i in u.calls && i != id ensures CallInv(u, i, u.calls[i]) {
      assert CallInv(t, i, t.calls[i]);
      assert i in u.pending - {id} <==> i in t.pending - {id};
    }
    forall i | i in u.pending && i != id ensures PendingInv(u, i) {
      assert i in u.pending - {id};
      assert PendingInv(t, i);
      assert CallInv(t, i, t.calls[i]);
    }
  }

  lemma NumberKeepsInv(t: Table)
    requires Inv(t) && Enabled(t, Number)
    ensures Inv(Apply(t, Number))
  {
    var u := Apply(t, Number);
    forall id | id in u.calls ensures CallInv(u, id, u.calls[id]) {
      if id in t.calls {
        assert CallInv(t, id, t.calls[id]);
      }
    }
    forall id | id in u.pending ensures PendingInv(u, id) {
      assert PendingInv(t, id);
    }
  }

  lemma CallerConcerns(t: Table, step: Step)
    requires Inv(t) && Enabled(t, step)
    requires step.Register? || step.Write? || step.Drop? || step.Receive?
    ensures step.id in t.calls && t.calls[step.id].ch < |t.channels|
    ensures OnlyConcerns(t, Apply(t, step), step.id, t.calls[step.id].ch)
  {
    assert CallInv(t, step.id, t.calls[step.id]);
  }

  lemma CallerKeepsInv(t: Table, step: Step)
    requires Inv(t) && Enabled(t, step)
    requires step.Register? || step.Write? || step.Drop? || step.Receive?
    ensures Inv(Apply(t, step))
  {
    CallerConcerns(t, step);
    var ch := t.calls[step.id].ch;
    assert CallInv(t, step.id, t.calls[step.id]);
    assert step.id in t.pending ==> PendingInv(t, step.id);
    assert ChannelInv(t.channels[ch]);
    hide OnlyConcerns, Owned, CloseAll;
    LocalChange(t, Apply(t, step), step.id, ch);
  }

  lemma ReaderKeepsInv(t: Table, step: Step)
    requires Inv(t) && Enabled(t, step)
    requires step.Take? || step.Send? || step.Close?
    ensures Inv(Apply(t, step))
  {
    var u := Apply(t, step);
    if step.Take? {
      var id := step.response.id;
      if id in t.pending {
        assert PendingInv(t, id) && CallInv(t, id, t.calls[id]);
        LocalChange(t, u, id, t.pending[id]);
      }
    } else {
      var ch := t.reader.ch;
      assert ChannelInv(t.channels[ch]);
      LocalChange(t, u, t.channels[ch].owner, ch);
    }
  }

  lemma PendingChannels(t: Table, ch: nat)
    requires Inv(t) && InTable(t.pending, ch)
    ensures ch < |t.channels| && Untouched(t.channels[ch])
    ensures t.channels[ch].owner in t.pending && t.pending[t.channels[ch].owner] == ch
  {
    var id :| id in t.pending && t.pending[id] == ch;
    assert PendingInv(t, id) && CallInv(t, id, t.calls[id]);
  }

  /** A call between registration and its return. */
  predicate Unanswered(call: Call) {
    call.Registered? || call.Waiting? || call.Failing?
  }

  lemma StopKeepsInv(t: Table)
    requires Inv(t) && Enabled(t, Stop)
    ensures Inv(Apply(t, Stop))
    ensures forall id <- t.calls :: Unanswered(t.calls[id]) ==> Apply(t, Stop).channels[t.calls[id].ch].closed
  {
    var u := Apply(t, Stop);
    forall id | id in t.pending ensures !t.channels[t.pending[id]].closed {
      assert PendingInv(t, id);
    }
    forall ch | 0 <= ch < |u.channels| ensures ChannelInv(u.channels[ch]) && Owned(u, ch) {
      assert ChannelInv(t.channels[ch]) && Owned(t, ch);
      if InTable(t.pending, ch) {
        PendingChannels(t, ch);
      }
    }
    forall id | id in t.calls ensures CallInv(u, id, u.calls[id])
      ensures Unanswered(t.calls[id]) ==> u.channels[t.calls[id].ch].closed
    {
      var ch := t.calls[id].ch;
      assert CallInv(t, id, t.calls[id]);
      if InTable(t.pending, ch) {
        PendingChannels(t, ch);
      }
    }
  }

  lemma ApplyKeepsInv(t: Table, step: Step)
    requires Inv(t) && Enabled(t, step)
    ensures Inv(Apply(t, step))
  {
    match step
    case Number => NumberKeepsInv(t);
    case Stop => StopKeepsInv(t);
    case Take(_) => ReaderKeepsInv(t, step);
    case Send => ReaderKeepsInv(t, step);
    case Close => ReaderKeepsInv(t, step);
    case _ => CallerKeepsInv(t, step);
  }

  lemma {:induction false} ExecKeepsInv(t: Table, steps: seq<Step>)
    requires Inv(t)
    ensures Inv(Exec(t, steps))
    decreases |steps|
  {
    if steps != [] {
      if Enabled(t, steps[0]) {
        ApplyKeepsInv(t, steps[0]);
        ExecKeepsInv(Apply(t, steps[0]), steps[1..]);
      } else {
        ExecKeepsInv(t, steps[1..]);
      }
    }
  }

  // ---- Main results ----

  /**
   * In every interleaving: no send or close panics; a pending id's channel is open and empty; each
   * channel gets at most one response, its own, and is closed at most once; a caller is answered
   * only with its own id; and the reader can always go on with a response it holds.
   */
  lemma TableIsSafe(steps: seq<Step>)
    ensures var t := Exec(INITIAL, steps);
      && !t.panicked
      && (forall id <- t.pending ::
            t.pending[id] < |t.channels| && t.channels[t.pending[id]] == Channel(id, [], false, 0, 0))
      && (forall c <- t.channels ::
            |c.buffer| <= c.sends <= 1 && c.closes <= 1 && forall r <- c.buffer :: r.id == c.owner)
      && (forall id <- t.calls ::
            t.calls[id].Done? && t.calls[id].outcome.Answered? ==> t.calls[id].outcome.response.id == id)
      && (t.reader.Holding? ==> Enabled(t, Send) && !Apply(t, Send).panicked)
      && (t.reader.Closing? ==> Enabled(t, Close) && !Apply(t, Close).panicked)
  {
    var t := Exec(INITIAL, steps);
    ExecKeepsInv(INITIAL, steps);
    forall id | id in t.pending
      ensures t.pending[id] < |t.channels| && t.channels[t.pending[id]] == Channel(id, [], false, 0, 0)
    {
      assert PendingInv(t, id) && CallInv(t, id, t.calls[id]);
    }
    forall id | id in t.calls ensures CallInv(t, id, t.calls[id]) {
    }
    forall c | c in t.channels ensures ChannelInv(c) {
      var ch :| 0 <= ch < |t.channels| && t.channels[ch] == c;
    }
  }

  /** A call keeps its channel, and a closed channel stays closed. */
  predicate Settled(t: Table, id: int, ch: nat) {
    && id in t.calls && t.calls[id].ch == ch && !t.calls[id].Numbered?
    && ch < |t.channels| && t.channels[ch].closed
  }

  lemma {:induction false} SettledStays(t: Table, steps: seq<Step>, id: int, ch: nat)
    requires Inv(t) && Settled(t, id, ch)
    ensures Settled(Exec(t, steps), id, ch)
    decreases |steps|
  {
    if steps != [] {
      if Enabled(t, steps[0]) {
        ApplyKeepsInv(t, steps[0]);
        assert CallInv(t, id, t.calls[id]);
        SettledStays(Apply(t, steps[0]), steps[1..], id, ch);
      } else {
        SettledStays(t, steps[1..], id, ch);
      }
    }
  }

  /** Once the reader has stopped, every call registered by then is never again left blocked. */
  lemma StopSettlesEveryCall(before: seq<Step>, after: seq<Step>, id: int)
    requires var t := Exec(INITIAL, before); Enabled(t, Stop) && id in t.calls && Unanswered(t.calls[id])
    ensures var t := Exec(Apply(Exec(INITIAL, before), Stop), after);
      id in t.calls && (t.calls[id].Waiting? ==> Enabled(t, Receive(id)))
  {
    var t := Exec(INITIAL, before);
    ExecKeepsInv(INITIAL, before);
    StopKeepsInv(t);
    assert CallInv(t, id, t.calls[id]);
    SettledStays(Apply(t, Stop), after, id, t.calls[id].ch);
    ExecKeepsInv(Apply(t, Stop), after);
  }

  // ---- Answers reach their callers ----

  lemma ExecFirst(t: Table, step: Step, rest: seq<Step>)
    requires Enabled(t, step)
    ensures Exec(t, [step] + rest) == Exec(Apply(t, step), rest)
  {
    hide Enabled, Apply;
    assert ([step] + rest)[1..] == rest;
  }

  lemma ExecNone(t: Table)
    ensures Exec(t, []) == t
  {
  }

  /** What the reader and the caller do with a response, once it is read off the wire. */
  function Served(r: Response): seq<Step> {
    [Take(r)] + ([Send] + ([Close] + ([Receive(r.id)] + [])))
  }

  /** A table whose call `id` has just been answered with `r`, and that is otherwise as it was. */
  ghost predicate AnsweredOnly(t: Table, u: Table, r: Response) {
    && r.id in t.calls && u.lastId == t.lastId && u.reader == Idle && !u.panicked
    && u.calls == t.calls[r.id := Done(t.calls[r.id].ch, Answered(r))]
    && u.pending == t.pending - {r.id}
    && |u.channels| == |t.channels|
    && forall i | 0 <= i < |t.channels| && i != t.calls[r.id].ch :: u.channels[i] == t.channels[i]
  }

  lemma ServedAnswers(t: Table, r: Response)
    requires Inv(t) && t.reader.Idle? && r.id in t.pending && r.id in t.calls && t.calls[r.id].Waiting?
    ensures AnsweredOnly(t, Exec(t, Served(r)), r)
  {
    assert PendingInv(t, r.id) && CallInv(t, r.id, t.calls[r.id]);
    var t1 := Apply(t, Take(r));
    var t2 := Apply(t1, Send);
    var t3 := Apply(t2, Close);
    var t4 := Apply(t3, Receive(r.id));
    assert AnsweredOnly(t, t4, r);
    hide Apply, Inv, PendingInv, CallInv, AnsweredOnly;
    ExecFirst(t, Take(r), [Send] + ([Close] + ([Receive(r.id)] + [])));
    ExecFirst(t1, Send, [Close] + ([Receive(r.id)] + []));
    ExecFirst(t2, Close, [Receive(r.id)] + []);
    ExecFirst(t3, Receive(r.id), []);
    ExecNone(t4);
  }

  /**
   * A response to a waiting call, once read, reaches that call and no other: the call returns it, its
   * entry leaves the table, and every other entry, call and channel stays. A response nobody waits for
   * changes nothing.
   */
  lemma AnswerIsDelivered(steps: seq<Step>, r: Response)
    requires Exec(INITIAL, steps).reader.Idle?
    ensures var t := Exec(INITIAL, steps);
      && (r.id in t.pending && Get(t, r.id).Waiting? ==> AnsweredOnly(t, Exec(t, Served(r)), r))
      && (r.id !in t.pending ==> Enabled(t, Take(r)) && Apply(t, Take(r)) == t)
  {
    var t := Exec(INITIAL, steps);
    ExecKeepsInv(INITIAL, steps);
    if r.id in t.pending {
      assert PendingInv(t, r.id);
      if Get(t, r.id).Waiting? {
        ServedAnswers(t, r);
      }
    }
  }

  /** `r` is held by the reader, lies in its call's channel, or is what that call returned. */
  predicate OnItsWay(t: Table, r: Response, ch: nat) {
    || t.reader == Holding(ch, r)
    || (ch < |t.channels| && t.channels[ch].buffer == [r])
    || (r.id in t.calls && t.calls[r.id] == Done(ch, Answered(r)))
  }

  predicate Owns(t: Table, id: int, ch: nat) {
    ch < |t.channels| && t.channels[ch].owner == id && id in t.calls && t.calls[id].ch == ch
  }

  lemma StepKeepsOnItsWay(t: Table, step: Step, r: Response, ch: nat)
    requires Inv(t) && Enabled(t, step) && OnItsWay(t, r, ch) && Owns(t, r.id, ch)
    ensures OnItsWay(Apply(t, step), r, ch) && Owns(Apply(t, step), r.id, ch)
  {
    assert ChannelInv(t.channels[ch]) && CallInv(t, r.id, t.calls[r.id]);
    if step.Receive? {
      assert CallInv(t, step.id, t.calls[step.id]);
    }
  }

  lemma {:induction false} StaysOnItsWay(t: Table, steps: seq<Step>, r: Response, ch: nat)
    requires Inv(t) && OnItsWay(t, r, ch) && Owns(t, r.id, ch)
    ensures OnItsWay(Exec(t, steps), r, ch)
    decreases |steps|
  {
    hide Enabled, Apply, OnItsWay, Owns, Inv;
    if steps != [] {
      if Enabled(t, steps[0]) {
        ApplyKeepsInv(t, steps[0]);
        StepKeepsOnItsWay(t, steps[0], r, ch);
        StaysOnItsWay(Apply(t, steps[0]), steps[1..], r, ch);
      } else {
        StaysOnItsWay(t, steps[1..], r, ch);
      }
    }
  }

  /** No response to a pending call is ever lost, whatever else happens from the moment it is taken. */
  lemma NoAnswerIsLost(before: seq<Step>, r: Response, after: seq<Step>)
    requires var t := Exec(INITIAL, before); Enabled(t, Take(r)) && r.id in t.pending
    ensures var t := Exec(INITIAL, before);
      OnItsWay(Exec(Apply(t, Take(r)), after), r, t.pending[r.id])
  {
    var t := Exec(INITIAL, before);
    ExecKeepsInv(INITIAL, before);
    assert PendingInv(t, r.id) && CallInv(t, r.id, t.calls[r.id]);
    ApplyKeepsInv(t, Take(r));
    StaysOnItsWay(Apply(t, Take(r)), after, r, t.pending[r.id]);
  }

  // ---- A call from its beginning to its end ----

  /** A new call as far as its write. */
  function Called(id: int, ok: bool): seq<Step> {
    [Number] + ([Register(id)] + ([Write(id, ok)] + []))
  }

  /** The table once a call is made: `id` waits on a channel of its own, or is about to give up. */
  function Made(t: Table, ok: bool): Table {
    var (id, ch) := (t.lastId + 1, |t.channels|);
    t.(lastId := id, pending := t.pending[id := ch], channels := t.channels + [Channel(id, [], false, 0, 0)],
       calls := t.calls[id := if ok then Waiting(ch) else Failing(ch)])
  }

  lemma NewId(t: Table)
    requires Inv(t)
    ensures t.lastId + 1 !in t.calls && t.lastId + 1 !in t.pending
  {
    var id := t.lastId + 1;
    assert id in t.calls ==> CallInv(t, id, t.calls[id]);
    assert id in t.pending ==> PendingInv(t, id);
  }

  lemma MakingSteps(t: Table, ok: bool)
    requires !t.panicked
    ensures var id := t.lastId + 1;
      && Enabled(t, Number) && Enabled(Apply(t, Number), Register(id))
      && Enabled(Apply(Apply(t, Number), Register(id)), Write(id, ok))
      && Apply(Apply(Apply(t, Number), Register(id)), Write(id, ok)) == Made(t, ok)
  {
    var (id, ch) := (t.lastId + 1, |t.channels|);
    var end := if ok then Waiting(ch) else Failing(ch);
    assert t.calls[id := Numbered(ch)][id := Registered(ch)][id := end] == t.calls[id := end];
  }

  lemma CallIsMade(t: Table, ok: bool)
    requires !t.panicked
    ensures Exec(t, Called(t.lastId + 1, ok)) == Made(t, ok)
  {
    MakingSteps(t, ok);
    hide Apply, Enabled, Made;
    var id := t.lastId + 1;
    var t1 := Apply(t, Number);
    var t2 := Apply(t1, Register(id));
    ExecFirst(t, Number, [Register(id)] + ([Write(id, ok)] + []));
    ExecFirst(t1, Register(id), [Write(id, ok)] + []);
    ExecFirst(t2, Write(id, ok), []);
    ExecNone(Made(t, ok));
  }

  lemma MadeKeepsInv(t: Table, ok: bool)
    requires Inv(t)
    ensures Inv(Made(t, ok))
  {
    CallIsMade(t, ok);
    ExecKeepsInv(t, Called(t.lastId + 1, ok));
  }

  /**
   * A call made while the reader is between messages ends in one of three ways: answered with the
   * response of its id, failed to write, or told that the connection is closed when the reader stops.
   * The other calls stay as they are, and so do the other entries unless the reader stops.
   */
  lemma CallEnds(steps: seq<Step>, result: string, isError: bool)
    requires Exec(INITIAL, steps).reader.Idle?
    ensures var t := Exec(INITIAL, steps);
      var (id, ch) := (t.lastId + 1, |t.channels|);
      && id !in t.calls && id !in t.pending
      && Ends(t, Exec(Exec(t, Called(id, true)), Served(Response(id, result, isError))), id,
              Done(ch, Answered(Response(id, result, isError))), t.pending)
      && Ends(t, Exec(Exec(t, Called(id, false)), [Drop(id)]), id, Done(ch, WriteError), t.pending)
      && Ends(t, Exec(Exec(t, Called(id, true)), [Stop, Receive(id)]), id, Done(ch, ConnectionClosed), map[])
  {
    InitialInv();
    hide *;
    var t := Exec(INITIAL, steps);
    ExecKeepsInv(INITIAL, steps);
    AllEnds(t, result, isError);
  }

  lemma InitialInv()
    ensures Inv(INITIAL)
  {
  }

  lemma NotPanicked(t: Table)
    requires Inv(t)
    ensures !t.panicked
  {
  }

  lemma AllEnds(t: Table, result: string, isError: bool)
    requires Inv(t) && t.reader.Idle?
    ensures var (id, ch) := (t.lastId + 1, |t.channels|);
      && id !in t.calls && id !in t.pending
      && Ends(t, Exec(Exec(t, Called(id, true)), Served(Response(id, result, isError))), id,
              Done(ch, Answered(Response(id, result, isError))), t.pending)
      && Ends(t, Exec(Exec(t, Called(id, false)), [Drop(id)]), id, Done(ch, WriteError), t.pending)
      && Ends(t, Exec(Exec(t, Called(id, true)), [Stop, Receive(id)]), id, Done(ch, ConnectionClosed), map[])
  {
    hide *;
    NewId(t);
    NotPanicked(t);
    CallIsMade(t, true);
    CallIsMade(t, false);
    EndsAnswered(t, result, isError);
    EndsFailed(t);
    EndsClosed(t);
  }

  ghost predicate Ends(t: Table, u: Table, id: int, end: Call, pending: map<int, nat>) {
    u.calls == t.calls[id := end] && u.pending == pending
  }

  lemma EndsAnswered(t: Table, result: string, isError: bool)
    requires Inv(t) && t.reader.Idle? && t.lastId + 1 !in t.pending
    ensures var r := Response(t.lastId + 1, result, isError);
      Ends(t, Exec(Made(t, true), Served(r)), r.id, Done(|t.channels|, Answered(r)), t.pending)
  {
    MadeKeepsInv(t, true);
    ServedAnswers(Made(t, true), Response(t.lastId + 1, result, isError));
    hide Exec, Served, Inv;
    assert t.pending[t.lastId + 1 := |t.channels|] - {t.lastId + 1} == t.pending;
  }

  lemma EndsFailed(t: Table)
    requires Inv(t) && t.lastId + 1 !in t.pending
    ensures Ends(t, Exec(Made(t, false), [Drop(t.lastId + 1)]), t.lastId + 1, Done(|t.channels|, WriteError), t.pending)
  {
    MadeKeepsInv(t, false);
    CallFails(Made(t, false), t.lastId + 1);
    hide Exec, Inv;
    assert t.pending[t.lastId + 1 := |t.channels|] - {t.lastId + 1} == t.pending;
  }

  lemma EndsClosed(t: Table)
    requires Inv(t) && t.reader.Idle?
    ensures var id := t.lastId + 1;
      Ends(t, Exec(Made(t, true), [Stop, Receive(id)]), id, Done(|t.channels|, ConnectionClosed), map[])
  {
    MadeKeepsInv(t, true);
    CallIsClosed(Made(t, true), t.lastId + 1);
    hide Exec, Inv;
  }

  lemma CallFails(t: Table, id: int)
    requires Inv(t) && id in t.calls && t.calls[id].Failing?
    ensures Exec(t, [Drop(id)])
         == t.(pending := t.pending - {id}, calls := t.calls[id := Done(t.calls[id].ch, WriteError)])
  {
    assert [Drop(id)] == [Drop(id)] + [];
    ExecFirst(t, Drop(id), []);
    ExecNone(Apply(t, Drop(id)));
  }

  lemma CallIsClosed(t: Table, id: int)
    requires Inv(t) && t.reader.Idle? && id in t.pending && id in t.calls && t.calls[id].Waiting?
    ensures var u := Exec(t, [Stop, Receive(id)]);
      u.calls == t.calls[id := Done(t.calls[id].ch, ConnectionClosed)] && u.pending == map[]
  {
    assert PendingInv(t, id) && CallInv(t, id, t.calls[id]);
    StopKeepsInv(t);
    var t1 := Apply(t, Stop);
    var t2 := Apply(t1, Receive(id));
    assert [Stop, Receive(id)] == [Stop] + ([Receive(id)] + []);
    hide Apply, Inv;
    ExecFirst(t, Stop, [Receive(id)] + []);
    ExecFirst(t1, Receive(id), []);
    ExecNone(t2);
  }

  /** A call that no reader will ever serve. */
  predicate Stranded(t: Table, id: int) {
    && t.reader == Stopped
    && (id in t.calls ==>
          && t.calls[id].ch < |t.channels| && Untouched(t.channels[t.calls[id].ch])
          && (t.calls[id].Done? ==> t.calls[id].outcome == WriteError))
  }

  lemma {:induction false} StrandedStays(t: Table, steps: seq<Step>, id: int)
    requires Inv(t) && Stranded(t, id)
    ensures Stranded(Exec(t, steps), id)
    decreases |steps|
  {
    if steps != [] {
      if Enabled(t, steps[0]) {
        ApplyKeepsInv(t, steps[0]);
        assert id in t.calls ==> CallInv(t, id, t.calls[id]);
        if steps[0].Receive? {
          assert CallInv(t, steps[0].id, t.calls[steps[0].id]);
        }
        StrandedStays(Apply(t, steps[0]), steps[1..], id);
      } else {
        StrandedStays(t, steps[1..], id);
      }
    }
  }

  /**
   * The guarantee stops there: a call that registers after the reader has stopped waits for ever,
   * whatever happens next, unless its write fails.
   */
  lemma LateCallNeverReturns(before: seq<Step>, after: seq<Step>, id: int)
    requires var t := Exec(INITIAL, before); t.reader.Stopped? && (id in t.calls ==> t.calls[id].Numbered?)
    ensures var t := Exec(Exec(INITIAL, before), after);
      && !Enabled(t, Receive(id))
      && (id in t.calls && t.calls[id].Done? ==> t.calls[id].outcome == WriteError)
  {
    var t := Exec(INITIAL, before);
    ExecKeepsInv(INITIAL, before);
    assert id in t.calls ==> CallInv(t, id, t.calls[id]);
    StrandedStays(t, after, id);
  }

  /** That happens: the reader stops, and then a call is made and its request written. */
  lemma LateCallHappens(after: seq<Step>)
    ensures var t := Exec(Exec(INITIAL, [Stop]), [Number, Register(1), Write(1, true)]);
      1 in t.calls && t.calls[1].Waiting? && !Enabled(Exec(t, after), Receive(1))
  {
    var call := [Number, Register(1), Write(1, true)];
    assert [Stop][1..] == [] && call[1..] == [Register(1), Write(1, true)];
    assert call[1..][1..] == [Write(1, true)] && [Write(1, true)][1..] == [];
    var stopped := Exec(INITIAL, [Stop]);
    assert stopped == INITIAL.(reader := Stopped) by { StopAtStart(); }
    ExecConcat(stopped, call, after);
    LateCallNeverReturns([Stop], call + after, 1);
  }

  lemma StopAtStart()
    ensures Exec(INITIAL, [Stop]) == INITIAL.(reader := Stopped)
  {
    assert [Stop][1..] == [];
    assert CloseAll(map[], []) == [];
  }

  lemma {:induction false} ExecConcat(t: Table, a: seq<Step>, b: seq<Step>)
    ensures Exec(t, a + b) == Exec(Exec(t, a), b)
    decreases |a|
  {
    hide Apply, Enabled;
    if a == [] {
      assert a + b == b;
    } else {
      assert (a + b)[1..] == a[1..] + b;
      ExecConcat(if Enabled(t, a[0]) then Apply(t, a[0]) else t, a[1..], b);
    }
  }

  /** Every response in the table is one the reader took off the wire. */
  predicate FromWire(t: Table, taken: set<Response>) {
    && (t.reader.Holding? ==> t.reader.response in taken)
    && (forall c <- t.channels :: forall r <- c.buffer :: r in taken)
    && (forall id <- t.calls ::
          t.calls[id].Done? && t.calls[id].outcome.Answered? ==> t.calls[id].outcome.response in taken)
  }

  /** The responses the reader took along a run; a step that was passed over took nothing. */
  function TakenIn(t: Table, steps: seq<Step>): set<Response>
    decreases |steps|
  {
    if steps == [] then {}
    else if !Enabled(t, steps[0]) then TakenIn(t, steps[1..])
    else (if steps[0].Take? then {steps[0].response} else {}) + TakenIn(Apply(t, steps[0]), steps[1..])
  }

  lemma TakeFromWire(t: Table, step: Step, taken: set<Response>)
    requires FromWire(t, taken) && Enabled(t, step)
    ensures FromWire(Apply(t, step), taken + if step.Take? then {step.response} else {})
  {
  }

  lemma {:induction false} AnswersComeFromWire(t: Table, steps: seq<Step>, taken: set<Response>)
    requires FromWire(t, taken)
    ensures FromWire(Exec(t, steps), taken + TakenIn(t, steps))
    decreases |steps|
  {
    hide Enabled, Apply, FromWire;
    if steps == [] {
      assert taken + {} == taken;
    } else if Enabled(t, steps[0]) {
      var step := steps[0];
      var more := if step.Take? then {step.response} else {};
      TakeFromWire(t, step, taken);
      AnswersComeFromWire(Apply(t, step), steps[1..], taken + more);
      assert (taken + more) + TakenIn(Apply(t, step), steps[1..]) == taken + TakenIn(t, steps);
    } else {
      AnswersComeFromWire(t, steps[1..], taken);
    }
  }
}
