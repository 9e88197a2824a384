/**
 * When a set of questions can be resolved twice: exactly when a prompt is taken while its session
 * has a set pending that another prompt, not failed, has already put by to resolve.
 */
module AcpSharing {
  import opened Text
  import opened AcpSession
  import opened AcpWorld
  import opened AcpInvariants

  /** The provider has yet to answer the prompt. */
  predicate Unanswered(phase: Phase) {
    phase.Announcing? || phase.Echoing? || phase.Choosing? || phase.Switching? || phase.Prompting?
  }

  predicate HasFailed(phase: Phase) {
    phase.Failing? || phase == Done(Broken)
  }

  /** A call on `sid` that found the set `setId` and has not failed: it has resolved it or may yet. */
  predicate Holds(c: Call, sid: string, setId: string) {
    c.sid == sid && c.captured.setId == setId && !HasFailed(c.phase)
  }

  predicate Held(w: World, sid: string, setId: string) {
    exists turn <- w.calls :: Holds(w.calls[turn], sid, setId)
  }

  /** The guard a caller can look at: the prompt is taken, and the set it finds is held already. */
  predicate Shares(w: World, step: Step) {
    && step.Begin? && step.sid in w.sessions
    && !Duplicate(w.sessions[step.sid], step.p, step.clock)
    && w.sessions[step.sid].pending.setId != ""
    && Held(w, step.sid, w.sessions[step.sid].pending.setId)
  }

  ghost predicate SharesIn(w: World, steps: seq<Step>)
    decreases |steps|
  {
    steps != [] && ((Enabled(w, steps[0]) && Shares(w, steps[0])) || SharesIn(Next(w, steps[0]), steps[1..]))
  }

  /** Two resolutions of one set on one trace. */
  predicate Twice(trace: seq<Event>, i: nat, j: nat) {
    i < j < |trace| && trace[i].kind.Resolved? && trace[j].kind == trace[i].kind
  }

  ghost predicate ResolvesTwice(w: World) {
    exists sid, i, j :: sid in w.sessions && Twice(w.sessions[sid].trace, i, j)
  }

  // ---- Without sharing, each set has one holder ----

  predicate CapturedUsed(w: World) {
    && (forall turn <- w.calls :: w.calls[turn].captured.setId != "" ==> w.calls[turn].captured.setId in w.used)
    && (forall sid <- w.sessions :: w.sessions[sid].pending.setId != "" ==> w.sessions[sid].pending.setId in w.used)
  }

  /** One holder for each set of a session. */
  predicate OneHolder(w: World) {
    forall t <- w.calls, u <- w.calls ::
      t != u && w.calls[t].captured.setId != "" && Holds(w.calls[t], w.calls[u].sid, w.calls[u].captured.setId) ==>
        HasFailed(w.calls[u].phase)
  }

  /** A pending set is held, if at all, by a call that has yet to be answered. */
  predicate Open(w: World, sid: string, s: Session) {
    s.pending.setId != "" ==>
      forall turn <- w.calls :: Holds(w.calls[turn], sid, s.pending.setId) ==> Unanswered(w.calls[turn].phase)
  }

  predicate SharingInv(w: World) {
    CapturedUsed(w) && OneHolder(w) && forall sid <- w.sessions :: Open(w, sid, w.sessions[sid])
  }

  /** What a call was made with, and what it still holds after a step it held before. */
  lemma OldCall(w: World, step: Step, turn: string)
    requires Keys(w) && Enabled(w, step) && turn in w.calls
    ensures turn in Apply(w, step).calls
    ensures var (c, d) := (w.calls[turn], Apply(w, step).calls[turn]);
      && d.sid == c.sid && d.captured == c.captured
      && (HasFailed(c.phase) ==> HasFailed(d.phase))
      && (Unanswered(c.phase) ==>
            Unanswered(d.phase) || HasFailed(d.phase) || (step == PromptAnswer(turn, true)))
  {
    CallsStay(w, step);
    StepOnCall(w, step, turn);
    hide Apply, Do, Duplicate, Content, TrimSpace, Ticks, Flows;
  }

  lemma NewCall(w: World, step: Step, turn: string)
    requires Keys(w) && Enabled(w, step) && turn in Apply(w, step).calls && turn !in w.calls
    ensures step.Begin? && step.turn == turn
    ensures var d := Apply(w, step).calls[turn];
      && d.sid == step.sid
      && (d.captured.setId != "" ==>
            && step.sid in w.sessions && !Duplicate(w.sessions[step.sid], step.p, step.clock)
            && d.captured.setId == w.sessions[step.sid].pending.setId && d.phase.Announcing?)
  {
    hide Do, Duplicate, Content, TrimSpace, Ticks;
  }

  /** The set of a pending list after a step: the same, none, the one put back, or a fresh one. */
  lemma PendingAfter(w: World, step: Step, sid: string)
    requires Keys(w) && Enabled(w, step) && sid in w.sessions && sid in Apply(w, step).sessions
    ensures var (before, after) := (w.sessions[sid].pending, Apply(w, step).sessions[sid].pending);
      var change := OpOf(w, step);
      if change.None? || change.value.0 != sid then after == before
      else match change.value.1
        case Lost(captured) => after == if captured != NOTHING then captured else before
        case Cleared => after == NOTHING
        case Finished(d, setId) => after == if d.Questions? then Pending(d.questions, setId, d.kind) else before
        case _ => after == before
  {
    KeysMeaning(w);
    StepOnSession(w, step, sid);
    if OpOf(w, step).Some? {
      DoOnTurn(w.sessions[sid], OpOf(w, step).value.1);
    }
    hide Apply, Do, OpOf;
  }

  lemma FinishUses(w: World, step: Step)
    requires Enabled(w, step) && step.Finish?
    ensures step.setId !in w.used && step.setId in Apply(w, step).used
  {
    hide Do, Duplicate, Content, TrimSpace, Ticks, Flows;
  }

  /** Which step makes which change. */
  lemma SourceOf(w: World, step: Step)
    requires Enabled(w, step) && OpOf(w, step).Some?
    ensures var (sid, op) := OpOf(w, step).value;
      && (op.Lost? ==>
            && (step.SwitchAnswer? || step.PromptAnswer?) && w.calls[step.turn].sid == sid
            && op.captured == w.calls[step.turn].captured && !HasFailed(w.calls[step.turn].phase)
            && HasFailed(Apply(w, step).calls[step.turn].phase))
      && (op.Finished? ==> step.Finish? && op.setId == step.setId)
  {
    hide Do, Duplicate, Content, TrimSpace, Ticks, Flows;
  }

  lemma UsedKept(w: World, step: Step, sid: string)
    requires Keys(w) && CapturedUsed(w) && Enabled(w, step) && sid in Apply(w, step).sessions
    ensures var q := Apply(w, step).sessions[sid].pending.setId; q != "" ==> q in Apply(w, step).used
  {
    KeysMeaning(w);
    UsedStays(w, step);
    if step.Finish? {
      FinishUses(w, step);
    }
    StepOnSession(w, step, sid);
    if sid in w.sessions {
      PendingAfter(w, step, sid);
      if OpOf(w, step).Some? {
        SourceOf(w, step);
      }
    }
    hide Apply, Do, OpOf, Enabled;
  }

  lemma StepKeepsUsed(w: World, step: Step)
    requires Keys(w) && CapturedUsed(w) && Enabled(w, step)
    ensures CapturedUsed(Apply(w, step))
  {
    hide Apply, Enabled, Keys;
    var v := Apply(w, step);
    UsedStays(w, step);
    if step.Finish? {
      FinishUses(w, step);
    }
    forall turn | turn in v.calls && v.calls[turn].captured.setId != "" ensures v.calls[turn].captured.setId in v.used {
      if turn in w.calls {
        OldCall(w, step, turn);
      } else {
        NewCall(w, step, turn);
      }
    }
    forall sid | sid in v.sessions && v.sessions[sid].pending.setId != ""
      ensures v.sessions[sid].pending.setId in v.used
    {
      UsedKept(w, step, sid);
    }
  }

  /** A prompt taken without sharing finds a set that no call holds. */
  lemma NoRival(w: World, step: Step, turn: string)
    requires Keys(w) && Enabled(w, step) && !Shares(w, step)
    requires turn in Apply(w, step).calls && turn !in w.calls && Apply(w, step).calls[turn].captured.setId != ""
    ensures var d := Apply(w, step).calls[turn];
      forall t <- w.calls :: !Holds(w.calls[t], d.sid, d.captured.setId)
  {
    NewCall(w, step, turn);
    hide Apply, Enabled, Keys, Duplicate, Holds;
  }

  lemma StepKeepsOneHolder(w: World, step: Step)
    requires Keys(w) && OneHolder(w) && Enabled(w, step) && !Shares(w, step)
    ensures OneHolder(Apply(w, step))
  {
    hide Apply, Enabled, Keys, HasFailed, Duplicate, Shares;
    var v := Apply(w, step);
    forall t, u | t in v.calls && u in v.calls && t != u && v.calls[t].captured.setId != ""
                  && Holds(v.calls[t], v.calls[u].sid, v.calls[u].captured.setId)
      ensures HasFailed(v.calls[u].phase)
    {
      if t in w.calls {
        OldCall(w, step, t);
      } else {
        NewCall(w, step, t);
        NoRival(w, step, t);
      }
      if u in w.calls {
        OldCall(w, step, u);
      } else {
        NewCall(w, step, u);
        NoRival(w, step, u);
      }
    }
  }

  /** A step that answers a prompt leaves nothing pending of what the prompt found. */
  lemma AnswerClears(w: World, turn: string, sid: string)
    requires Keys(w) && Enabled(w, PromptAnswer(turn, true)) && w.calls[turn].captured.setId != ""
    requires w.calls[turn].sid == sid && sid in Apply(w, PromptAnswer(turn, true)).sessions
    ensures Apply(w, PromptAnswer(turn, true)).sessions[sid].pending == NOTHING
  {
    hide Duplicate, Content, TrimSpace, Ticks, Flows;
  }

  lemma OpenKept(w: World, step: Step, sid: string)
    requires Keys(w) && SharingInv(w) && Enabled(w, step) && sid in w.sessions && sid in Apply(w, step).sessions
    ensures Open(Apply(w, step), sid, Apply(w, step).sessions[sid])
  {
    var v := Apply(w, step);
    var q := v.sessions[sid].pending.setId;
    PendingAfter(w, step, sid);
    UsedStays(w, step);
    if step.Finish? {
      FinishUses(w, step);
    }
    var change := OpOf(w, step);
    if change.Some? {
      SourceOf(w, step);
    }
    hide Apply, Enabled, Keys, Duplicate, OpOf, HasFailed, Unanswered;
    assert Open(w, sid, w.sessions[sid]);
    forall turn | turn in v.calls && q != "" && Holds(v.calls[turn], sid, q) ensures Unanswered(v.calls[turn].phase) {
      if turn in w.calls {
        OldCall(w, step, turn);
        assert Holds(w.calls[turn], sid, q);
        if step == PromptAnswer(turn, true) {
          AnswerClears(w, turn, sid);
        }
      } else {
        NewCall(w, step, turn);
        assert Unanswered(Announcing) by { AnnouncingIsUnanswered(); }
      }
    }
  }

  lemma AnnouncingIsUnanswered()
    ensures Unanswered(Announcing)
  {
  }

  lemma StepKeepsSharing(w: World, step: Step)
    requires Keys(w) && SharingInv(w) && Enabled(w, step) && !Shares(w, step)
    ensures SharingInv(Apply(w, step))
  {
    hide Apply, Enabled, Keys, OneHolder, CapturedUsed, Open, Shares;
    StepKeepsUsed(w, step);
    StepKeepsOneHolder(w, step);
    forall sid | sid in Apply(w, step).sessions ensures Open(Apply(w, step), sid, Apply(w, step).sessions[sid]) {
      if sid in w.sessions {
        OpenKept(w, step, sid);
      } else {
        assert w.sessions.Keys <= w.used by { KeysMeaning(w); }
        StepOnSession(w, step, sid);
        StartedIsOpen(Apply(w, step), sid, step.user);
      }
    }
  }

  lemma StartedIsOpen(w: World, sid: string, user: string)
    ensures Open(w, sid, Started(user))
  {
  }

  lemma {:induction false} ExecKeepsSharing(w: World, steps: seq<Step>)
    requires Inv(w) && SharingInv(w) && !SharesIn(w, steps)
    ensures Inv(Exec(w, steps)) && SharingInv(Exec(w, steps))
    decreases |steps|
  {
    hide Apply, Enabled, Inv, SharingInv, Shares;
    if steps != [] {
      if Enabled(w, steps[0]) {
        assert Keys(w) by { InvHasKeys(w); }
        StepKeepsInv(w, steps[0]);
        StepKeepsSharing(w, steps[0]);
      }
      ExecKeepsSharing(Next(w, steps[0]), steps[1..]);
    }
  }

  lemma InvHasKeys(w: World)
    requires Inv(w)
    ensures Keys(w)
  {
  }

  // ---- One holder, one resolution ----

  /** A resolution on a trace is its turn's, whose call found that set and has not failed. */
  lemma ResolutionIsHolders(w: World, sid: string, i: nat)
    requires Inv(w) && sid in w.sessions && i < |w.sessions[sid].trace| && w.sessions[sid].trace[i].kind.Resolved?
    ensures var e := w.sessions[sid].trace[i];
      && e.turn in w.calls && Holds(w.calls[e.turn], sid, e.kind.setId) && e.kind.setId != ""
      && TurnEvents(w.sessions[sid].trace, e.turn) == PublishedBy(w.calls[e.turn])
  {
    var trace := w.sessions[sid].trace;
    var e := trace[i];
    assert TraceOk(w, sid, trace) && e in trace;
    EventIsListed(trace, i, e.turn);
    ResolvesOwn(w.calls[e.turn]);
    hide PublishedBy, TurnEvents, Keys, Sessions, Calls;
    assert Resolved(e.kind.setId) in PublishedBy(w.calls[e.turn]);
  }

  lemma ResolvesOwn(c: Call)
    ensures forall k <- PublishedBy(c) :: k.Resolved? ==> k.setId == c.captured.setId != "" && !HasFailed(c.phase)
    ensures forall i, j | 0 <= i < j < |PublishedBy(c)| :: !(PublishedBy(c)[i].Resolved? && PublishedBy(c)[j].Resolved?)
  {
  }

  lemma {:induction false} EventIsListed(trace: seq<Event>, i: nat, turn: string)
    requires i < |trace| && trace[i].turn == turn && !trace[i].kind.Other?
    ensures trace[i].kind in TurnEvents(trace, turn)
    decreases |trace|
  {
    if i < |trace| - 1 {
      EventIsListed(trace[..|trace| - 1], i, turn);
    }
  }

  /** Two events of a turn are listed in their order. */
  lemma {:induction false} EventsListed(trace: seq<Event>, i: nat, j: nat, turn: string) returns (k: nat, l: nat)
    requires i < j < |trace| && trace[i].turn == turn == trace[j].turn
    requires !trace[i].kind.Other? && !trace[j].kind.Other?
    ensures k < l < |TurnEvents(trace, turn)|
    ensures TurnEvents(trace, turn)[k] == trace[i].kind && TurnEvents(trace, turn)[l] == trace[j].kind
    decreases |trace|
  {
    var init := trace[..|trace| - 1];
    if j < |init| {
      k, l := EventsListed(init, i, j, turn);
    } else {
      EventIsListed(init, i, turn);
      k :| 0 <= k < |TurnEvents(init, turn)| && TurnEvents(init, turn)[k] == trace[i].kind;
      l := |TurnEvents(init, turn)|;
    }
  }

  lemma OneHolderResolvesOnce(w: World, sid: string, i: nat, j: nat)
    requires Inv(w) && OneHolder(w) && sid in w.sessions
    ensures !Twice(w.sessions[sid].trace, i, j)
  {
    var trace := w.sessions[sid].trace;
    if Twice(trace, i, j) {
      ResolutionIsHolders(w, sid, i);
      ResolutionIsHolders(w, sid, j);
      assert trace[i].turn == trace[j].turn;
      var k, l := EventsListed(trace, i, j, trace[i].turn);
      ResolvesOwn(w.calls[trace[i].turn]);
    }
  }

  /** So a run in which no prompt shares a set resolves each set at most once. */
  lemma UnsharedResolvesOnce(now: int, steps: seq<Step>)
    requires !SharesIn(Initial(now), steps)
    ensures !ResolvesTwice(Exec(Initial(now), steps))
  {
    ExecKeepsSharing(Initial(now), steps);
    var w := Exec(Initial(now), steps);
    hide Exec, Inv, OneHolder;
    forall sid, i: nat, j: nat | sid in w.sessions ensures !Twice(w.sessions[sid].trace, i, j) {
      OneHolderResolvesOnce(w, sid, i, j);
    }
  }

  // ---- Two holders, two resolutions ----

  ghost predicate TakesNoPrompt(steps: seq<Step>) {
    forall step <- steps :: !step.Begin?
  }

  predicate MayResolve(w: World, sid: string, turn: string, setId: string) {
    && sid in w.sessions && turn in w.calls && setId != ""
    && Holds(w.calls[turn], sid, setId) && Unanswered(w.calls[turn].phase)
  }

  /** How many steps of its own a call is from the provider's answer. */
  function Distance(phase: Phase): nat {
    match phase
    case Announcing => 4
    case Echoing => 3
    case Choosing => 2
    case Switching(_) => 1
    case _ => 0
  }

  /** What the steps of one call leave of the session and of the other calls. */
  predicate OnlyTurn(w: World, v: World, sid: string, turn: string) {
    && sid in w.sessions && sid in v.sessions && w.sessions[sid].trace <= v.sessions[sid].trace
    && forall t <- w.calls :: t != turn ==> t in v.calls && v.calls[t] == w.calls[t]
  }

  /** Whatever the session's mode, and plan or not, a call has a next step towards the answer. */
  lemma StepsOn(w: World, sid: string, turn: string, setId: string) returns (step: Step)
    requires MayResolve(w, sid, turn, setId) && !w.calls[turn].phase.Prompting?
    ensures Enabled(w, step) && !step.Begin?
    ensures var v := Apply(w, step);
      && MayResolve(v, sid, turn, setId) && OnlyTurn(w, v, sid, turn)
      && Distance(v.calls[turn].phase) < Distance(w.calls[turn].phase)
  {
    match w.calls[turn].phase
    case Announcing => step := Tell(turn);
    case Echoing => step := Tell(turn);
    case Choosing => step := Choose(turn, w.sessions[sid].mode);
    case Switching(_) => step := SwitchAnswer(turn, true);
  }

  lemma AnswerResolves(w: World, sid: string, turn: string, setId: string) returns (steps: seq<Step>)
    requires MayResolve(w, sid, turn, setId) && w.calls[turn].phase.Prompting?
    ensures TakesNoPrompt(steps)
    ensures var v := Exec(w, steps);
      OnlyTurn(w, v, sid, turn) && v.sessions[sid].trace == w.sessions[sid].trace + [Event(Resolved(setId), turn)]
  {
    var answer, tell := PromptAnswer(turn, true), Tell(turn);
    steps := [answer] + [tell];
    ExecConcat(w, [answer], [tell]);
    ExecOne(w, answer);
    ExecOne(Next(w, answer), tell);
  }

  predicate EndsResolved(trace: seq<Event>, setId: string) {
    trace != [] && trace[|trace| - 1].kind == Resolved(setId)
  }

  /** Undisturbed, a holder that has yet to be answered goes on to resolve its set. */
  lemma {:induction false} DrivesOn(w: World, sid: string, turn: string, setId: string) returns (steps: seq<Step>)
    requires MayResolve(w, sid, turn, setId)
    ensures TakesNoPrompt(steps)
    ensures var v := Exec(w, steps);
      && OnlyTurn(w, v, sid, turn) && EndsResolved(v.sessions[sid].trace, setId)
      && |v.sessions[sid].trace| > |w.sessions[sid].trace|
    decreases Distance(w.calls[turn].phase)
  {
    hide Apply, Enabled, Exec, MayResolve, Distance;
    assert turn in w.calls && sid in w.sessions by { HolderIsThere(w, sid, turn, setId); }
    if w.calls[turn].phase.Prompting? {
      steps := AnswerResolves(w, sid, turn, setId);
    } else {
      var step := StepsOn(w, sid, turn, setId);
      var v := Apply(w, step);
      HolderIsThere(v, sid, turn, setId);
      var rest := DrivesOn(v, sid, turn, setId);
      ExecOne(w, step);
      ExecConcat(w, [step], rest);
      steps := [step] + rest;
    }
  }

  lemma HolderIsThere(w: World, sid: string, turn: string, setId: string)
    requires MayResolve(w, sid, turn, setId)
    ensures turn in w.calls && sid in w.sessions
  {
  }

  lemma StillMayResolve(w: World, v: World, sid: string, turn: string, other: string, setId: string)
    requires OnlyTurn(w, v, sid, turn) && MayResolve(w, sid, other, setId) && other != turn
    ensures MayResolve(v, sid, other, setId)
  {
  }

  /** A prompt that shares a set makes a second holder beside one that may yet resolve it. */
  lemma SharingMakesTwo(w: World, step: Step) returns (first: string)
    requires Keys(w) && SharingInv(w) && Enabled(w, step) && Shares(w, step)
    ensures var setId := w.sessions[step.sid].pending.setId;
      var v := Apply(w, step);
      && first != step.turn
      && MayResolve(v, step.sid, first, setId) && MayResolve(v, step.sid, step.turn, setId)
  {
    var setId := w.sessions[step.sid].pending.setId;
    first :| first in w.calls && Holds(w.calls[first], step.sid, setId);
    assert Open(w, step.sid, w.sessions[step.sid]);
    hide Do, Duplicate, Content, TrimSpace, Ticks, OneHolder;
  }

  /** Then both can go on to resolve it, without another prompt. */
  lemma SharedResolvesTwice(w: World, step: Step) returns (more: seq<Step>)
    requires Keys(w) && SharingInv(w) && Enabled(w, step) && Shares(w, step)
    ensures TakesNoPrompt(more) && ResolvesTwice(Exec(w, [step] + more))
  {
    hide Apply, Enabled, Exec, MayResolve, SharingInv, Keys, Held, Duplicate, Holds;
    var sid, setId := step.sid, w.sessions[step.sid].pending.setId;
    var first := SharingMakesTwo(w, step);
    var v := Apply(w, step);
    var a := DrivesOn(v, sid, first, setId);
    var v1 := Exec(v, a);
    StillMayResolve(v, v1, sid, first, step.turn, setId);
    var b := DrivesOn(v1, sid, step.turn, setId);
    var v2 := Exec(v1, b);
    ExecOne(w, step);
    ExecConcat(v, a, b);
    ExecConcat(w, [step], a + b);
    assert Twice(v2.sessions[sid].trace, |v1.sessions[sid].trace| - 1, |v2.sessions[sid].trace| - 1);
    more := a + b;
  }

  // ---- The exact condition ----

  lemma {:induction false} FirstShare(w: World, steps: seq<Step>) returns (k: nat)
    requires SharesIn(w, steps)
    ensures k < |steps| && !SharesIn(w, steps[..k])
    ensures Enabled(Exec(w, steps[..k]), steps[k]) && Shares(Exec(w, steps[..k]), steps[k])
    decreases |steps|
  {
    hide Apply, Enabled, Shares;
    if Enabled(w, steps[0]) && Shares(w, steps[0]) {
      k := 0;
    } else {
      var l := FirstShare(Next(w, steps[0]), steps[1..]);
      k := l + 1;
      assert steps[..k][1..] == steps[1..][..l];
    }
  }

  lemma {:induction false} SharesConcat(w: World, a: seq<Step>, b: seq<Step>)
    ensures SharesIn(w, a + b) <==> SharesIn(w, a) || SharesIn(Exec(w, a), b)
    decreases |a|
  {
    hide Apply, Enabled, Shares;
    if a == [] {
      assert a + b == b;
    } else {
      assert (a + b)[1..] == a[1..] + b;
      SharesConcat(Next(w, a[0]), a[1..], b);
    }
  }

  lemma {:induction false} NoPromptNoShare(w: World, steps: seq<Step>)
    requires TakesNoPrompt(steps)
    ensures !SharesIn(w, steps)
    decreases |steps|
  {
    if steps != [] {
      NoPromptNoShare(Next(w, steps[0]), steps[1..]);
    }
  }

  /** Some point of the run can be continued, without any further prompt, to resolve a set twice. */
  ghost predicate CanResolveTwice(w: World, steps: seq<Step>) {
    exists k, more :: 0 <= k <= |steps| && TakesNoPrompt(more) && ResolvesTwice(Exec(w, steps[..k] + more))
  }

  /**
   * Exactly then: a run can be continued from some point on, without any further prompt, to resolve a
   * set twice if and only if it takes a prompt that shares a set.
   */
  lemma SharingExactly(now: int, steps: seq<Step>)
    ensures SharesIn(Initial(now), steps) <==> CanResolveTwice(Initial(now), steps)
  {
    hide Exec, SharesIn, ResolvesTwice, Enabled, Apply, Shares, Inv, SharingInv, TakesNoPrompt;
    var w0 := Initial(now);
    if SharesIn(w0, steps) {
      var k := FirstShare(w0, steps);
      InitialIsFine(now);
      ExecKeepsSharing(w0, steps[..k]);
      var w := Exec(w0, steps[..k]);
      InvHasKeys(w);
      var more := SharedResolvesTwice(w, steps[k]);
      ExecConcat(w0, steps[..k], [steps[k]] + more);
      assert steps[..k + 1] + more == steps[..k] + ([steps[k]] + more);
    }
    if !SharesIn(w0, steps) {
      forall k, more | 0 <= k <= |steps| && TakesNoPrompt(more) ensures !ResolvesTwice(Exec(w0, steps[..k] + more)) {
        assert steps == steps[..k] + steps[k..];
        SharesConcat(w0, steps[..k], steps[k..]);
        SharesConcat(w0, steps[..k], more);
        NoPromptNoShare(Exec(w0, steps[..k]), more);
        UnsharedResolvesOnce(now, steps[..k] + more);
      }
    }
  }

  lemma InitialIsFine(now: int)
    ensures Inv(Initial(now)) && SharingInv(Initial(now))
  {
  }

  // ---- A run that shares ----

  /** A prompt in ask mode with nothing but its text. */
  function Ask(text: string): PromptRequest { PromptRequest(text, "", "", "") }

  function Still(now: int): Clock { Clock(now, now, now, now) }

  lemma AskMeaning(text: string)
    requires text != "" && TrimSpace(text) == text
    ensures Content(Ask(text)) == Display(Ask(text)) == text && RequestId(Ask(text)) == "" && !WantsPlan(Ask(text))
  {
  }

  /** A session on which the latest user message says `text`. */
  predicate LastSaid(w: World, sid: string, text: string) {
    && sid in w.sessions && sid in w.runtimes && w.sessions[sid].mode == NoMode
    && var messages := w.sessions[sid].messages;
       messages != [] && messages[|messages| - 1].role == User && TrimSpace(messages[|messages| - 1].content) == text
  }

  lemma OtherTextIsTaken(w: World, sid: string, said: string, text: string, turn: string)
    requires LastSaid(w, sid, said) && text != "" && TrimSpace(text) == text && text != said && Fresh(w, turn)
    ensures Enabled(w, Begin(sid, turn, Ask(text), Still(w.now)))
    ensures !Duplicate(w.sessions[sid], Ask(text), Still(w.now))
    ensures var v := Apply(w, Begin(sid, turn, Ask(text), Still(w.now)));
      && LastSaid(v, sid, text) && v.now == w.now && v.used == w.used + {turn}
      && v.sessions[sid].pending == w.sessions[sid].pending
      && v.calls == w.calls[turn := Call(sid, false, Captured(w.sessions[sid]), Announcing)]
  {
    AskMeaning(text);
    hide TrimSpace, Content, Display, RequestId, WantsPlan;
  }

  lemma TwoSteps(w: World, a: Step, b: Step)
    ensures Exec(w, [a, b]) == Next(Next(w, a), b)
  {
    hide Next;
    assert [a] + [b] == [a, b];
    ExecConcat(w, [a], [b]);
    ExecOne(w, a);
    ExecOne(Next(w, a), b);
  }

  /** A turn that found nothing goes as far as the provider's answer. */
  lemma Announces(w: World, text: string) returns (steps: seq<Step>)
    requires LastSaid(w, "s", text) && w.calls == map["1" := Call("s", false, NOTHING, Announcing)]
    requires w.sessions["s"].pending == NOTHING
    ensures var v := Exec(w, steps);
      && LastSaid(v, "s", text) && v.calls == map["1" := Call("s", false, NOTHING, Choosing)]
      && v.sessions["s"].pending == NOTHING && v.used == w.used && v.now == w.now
  {
    hide TrimSpace;
    TwoSteps(w, Tell("1"), Tell("1"));
    steps := [Tell("1"), Tell("1")];
  }

  lemma IsAnswered(w: World, text: string) returns (steps: seq<Step>)
    requires LastSaid(w, "s", text) && w.calls == map["1" := Call("s", false, NOTHING, Choosing)]
    requires w.sessions["s"].pending == NOTHING
    ensures var v := Exec(w, steps);
      && LastSaid(v, "s", text) && v.calls == map["1" := Call("s", false, NOTHING, Finishing)]
      && v.sessions["s"].pending == NOTHING && v.used == w.used && v.now == w.now
  {
    hide TrimSpace;
    TwoSteps(w, Choose("1", NoMode), PromptAnswer("1", true));
    steps := [Choose("1", NoMode), PromptAnswer("1", true)];
  }

  lemma Asks(w: World, text: string) returns (step: Step)
    requires LastSaid(w, "s", text) && w.calls == map["1" := Call("s", false, NOTHING, Finishing)] && "q" !in w.used
    ensures Enabled(w, step)
    ensures var v := Apply(w, step);
      && LastSaid(v, "s", text) && v.calls == map["1" := Call("s", false, NOTHING, Asking("q"))]
      && v.sessions["s"].pending == Pending(["?"], "q", "clarification") && v.used == w.used + {"q"} && v.now == w.now
  {
    hide TrimSpace;
    step := Finish("1", Questions("clarification", ["?"]), "q");
  }

  lemma Begins(now: int, text: string) returns (steps: seq<Step>)
    requires text != "" && TrimSpace(text) == text
    ensures var w := Exec(Initial(now), steps);
      && LastSaid(w, "s", text) && w.calls == map["1" := Call("s", false, NOTHING, Announcing)]
      && w.sessions["s"].pending == NOTHING && w.used == {"s", "1"} && w.now == now
  {
    var w0 := Initial(now);
    var start, begin := Register("s", "u"), Begin("s", "1", Ask(text), Still(now));
    TrimSpaceFixed("u");
    AskMeaning(text);
    hide TrimSpace, Content, Display, RequestId, WantsPlan;
    assert Next(w0, start) == World(map["s" := Started("u")], {"s"}, map[], {"s"}, now);
    TwoSteps(w0, start, begin);
    steps := [start, begin];
  }

  /** The first turn: a session is registered, a prompt is taken, and the turn ends with a question. */
  lemma FirstTurnAsks(now: int, text: string) returns (steps: seq<Step>)
    requires text != "" && TrimSpace(text) == text
    ensures var w := Exec(Initial(now), steps);
      && LastSaid(w, "s", text) && w.calls == map["1" := Call("s", false, NOTHING, Asking("q"))]
      && w.used == {"s", "1", "q"} && w.now == now
      && w.sessions["s"].pending == Pending(["?"], "q", "clarification")
  {
    hide Exec, Apply, Enabled, LastSaid, TrimSpace;
    var begins := Begins(now, text);
    var w1 := Exec(Initial(now), begins);
    var announces := Announces(w1, text);
    var w2 := Exec(w1, announces);
    var answers := IsAnswered(w2, text);
    var w3 := Exec(w2, answers);
    var ask := Asks(w3, text);
    ExecOne(w3, ask);
    ExecConcat(w2, answers, [ask]);
    ExecConcat(w1, announces, answers + [ask]);
    ExecConcat(Initial(now), begins, announces + (answers + [ask]));
    steps := begins + (announces + (answers + [ask]));
  }

  /** Two more prompts, one on the other's heels, share the question the first turn left. */
  lemma OverlapShares(w: World)
    requires LastSaid(w, "s", "a") && w.calls == map["1" := Call("s", false, NOTHING, Asking("q"))]
    requires w.used == {"s", "1", "q"} && w.sessions["s"].pending == Pending(["?"], "q", "clarification")
    ensures SharesIn(w, [Begin("s", "2", Ask("b"), Still(w.now)), Begin("s", "3", Ask("c"), Still(w.now))])
  {
    hide Apply, Enabled, Duplicate, LastSaid, TrimSpace, Captured, Ask, Still, Exec;
    var first, second := Begin("s", "2", Ask("b"), Still(w.now)), Begin("s", "3", Ask("c"), Still(w.now));
    assert TrimSpace("b") == "b" && TrimSpace("c") == "c" by {
      TrimSpaceFixed("b");
      TrimSpaceFixed("c");
    }
    OtherTextIsTaken(w, "s", "a", "b", "2");
    var v := Next(w, first);
    LastSaidThere(w, "s", "a");
    LastSaidThere(v, "s", "b");
    CapturesPending(w.sessions["s"]);
    OtherTextIsTaken(v, "s", "b", "c", "3");
    assert Holds(v.calls["2"], "s", "q");
    assert Shares(v, second);
    SharesSecond(w, first, second);
  }

  lemma CapturesPending(s: Session)
    requires s.pending.setId != ""
    ensures Captured(s) == s.pending
  {
  }

  lemma SharesSecond(w: World, first: Step, second: Step)
    requires Enabled(Next(w, first), second) && Shares(Next(w, first), second)
    ensures SharesIn(w, [first, second])
  {
    hide Apply, Enabled, Shares, Next;
    assert [first, second][1..] == [second];
  }

  lemma LastSaidThere(w: World, sid: string, text: string)
    requires LastSaid(w, sid, text)
    ensures sid in w.sessions
  {
  }

  /** From the start: such a run exists, and a continuation of it resolves one set twice. */
  lemma SharingHappens(now: int) returns (steps: seq<Step>)
    ensures ResolvesTwice(Exec(Initial(now), steps))
  {
    hide Exec, SharesIn, ResolvesTwice, LastSaid, TakesNoPrompt;
    assert TrimSpace("a") == "a" by { TrimSpaceFixed("a"); }
    var asks := FirstTurnAsks(now, "a");
    var w := Exec(Initial(now), asks);
    OverlapShares(w);
    var begins := [Begin("s", "2", Ask("b"), Still(w.now)), Begin("s", "3", Ask("c"), Still(w.now))];
    SharesConcat(Initial(now), asks, begins);
    SharingExactly(now, asks + begins);
    var k, more :| 0 <= k <= |asks + begins| && TakesNoPrompt(more)
                   && ResolvesTwice(Exec(Initial(now), (asks + begins)[..k] + more));
    steps := (asks + begins)[..k] + more;
  }
}
