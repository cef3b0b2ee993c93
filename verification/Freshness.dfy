/** A fresh message opens the next epoch each time it is tried: where its user row stays and
    where its reply goes. */
module Freshness {
  import opened Wrappers
  import opened Tables
  import opened Conversations
  import opened ConversationInvariant
  import ConversationSteps
  import ConversationTheorems
  import Origins
  import Retries
  import Runs
  import Splits

  // ---- one fresh call ---------------------------------------------------------

  /** The session of the call is settled, and the row stands in its epoch. */
  predicate IsSettledAt(at: At) {
    at.Adding? || at.Starting? || at.Prompting? || at.Answering?
  }

  /** The call's message is stored. */
  predicate IsStoredAt(at: At) { at.Starting? || at.Prompting? || at.Answering? }

  /** Not past the point where the call stores its message. */
  predicate IsEarly(pc: Pc) {
    || pc.Locking?
    || (pc.Locked? && !IsStoredAt(pc.at) && !pc.at.After? && !pc.at.Closing? && !pc.at.Finishing?)
  }

  /** A message found in the log lies in an earlier epoch than the call's. */
  predicate IsAhead(before: Messages, input: Input, pc: Pc) {
    pc.Locked? && IsSettledAt(pc.at) && input.id in before &&
    before[input.id].scope.key == input.scope.key ==>
      before[input.id].contextEpoch < pc.at.plan.epoch
  }

  /** A message not found is stored by the call itself, in its epoch. */
  predicate IsInStep(before: Messages, now: Messages, input: Input, pc: Pc) {
    input.id !in before && input.id in now && now[input.id].scope.key == input.scope.key ==>
      !IsEarly(pc) && (pc.Locked? && IsStoredAt(pc.at) ==>
        now[input.id].contextEpoch == pc.at.plan.epoch)
  }

  /** What a fresh call that began with these messages in the log makes of its own. */
  predicate Tells(before: Messages, now: Messages, input: Input, pc: Pc) {
    && !pc.Steering? && !pc.SteerLook? && !pc.SteerAdd? && !pc.SteerSend?
    && IsAhead(before, input, pc) && IsInStep(before, now, input, pc)
  }

  predicate CallTells(before: Messages, s: State, t: Tid, input: Input) {
    && t in s.threads && s.threads[t].input == input
    && Tells(before, s.messages, input, s.threads[t].pc)
  }

  /** What the invariant says of a fresh call: it never aims for the stored session, and the
      session it is about to store is for a later epoch. */
  predicate IsFreshAt(before: Messages, input: Input, pc: Pc) {
    && !IsReplyID(input.id)
    && (pc.Locked? && pc.at.Loading? ==> pc.at.plan.session == "")
    && (pc.Locked? && pc.at.Adding? ==> pc.at.plan.epoch >= 1)
    && (pc.Locked? && pc.at.Putting? && input.id in before &&
        before[input.id].scope.key == input.scope.key ==>
          before[input.id].contextEpoch < pc.at.plan.epoch)
  }

  /** What was in the log is still there. */
  predicate IsPartOf(before: Messages, now: Messages) {
    forall id :: id in before ==> id in now && now[id] == before[id]
  }

  lemma StandsFresh(before: Messages, s: State, t: Tid)
    requires Inv(s) && t in s.threads && CallOf(s, t).input.isFresh
    requires IsPartOf(before, s.messages)
    ensures IsFreshAt(before, CallOf(s, t).input, CallOf(s, t).pc)
  {
    var input, pc := s.threads[t].input, s.threads[t].pc;
    ConversationSteps.ThreadFacts(s, t);
    assert SharedOk(s);
    if input.id in before && before[input.id].scope.key == input.scope.key {
      EpochOfStored(s, before[input.id]);
    }
    hide Inv;
    if pc.Locked? && pc.at.Adding? { SettledEpoch(s, t); }
    if pc.Locked? && pc.at.Loading? { LoadsNone(s, t, pc.at.plan, pc.at.handoff); }
    if pc.Locked? && pc.at.Putting? { PutsLater(s, t, pc.at.plan, pc.at.handoff); }
    hide SharedOk;
    hide PcOk;
  }

  lemma LoadsNone(s: State, t: Tid, plan: Plan, handoff: seq<Message>)
    requires ThreadOk(s, t) && CallOf(s, t).input.isFresh
    requires CallOf(s, t).pc == Locked(Loading(plan, handoff))
    ensures plan.session == ""
  {
    hide GotOk;
    hide HandoffOk;
  }

  lemma PutsLater(s: State, t: Tid, plan: Plan, handoff: seq<Message>)
    requires ThreadOk(s, t) && CallOf(s, t).input.isFresh
    requires CallOf(s, t).pc == Locked(Putting(plan, handoff))
    ensures !ConversationTheorems.HasReached(s, CallOf(s, t).input.scope.key, plan.epoch)
  {
    hide GotOk;
    hide HandoffOk;
  }

  /** The epoch of the call's session, once that is settled. */
  function Aim(pc: Pc): int {
    if pc.Locked? && IsSettledAt(pc.at) then pc.at.plan.epoch else 1
  }

  predicate IsSettled(pc: Pc) { pc.Locked? && IsSettledAt(pc.at) }

  lemma SettledEpoch(s: State, t: Tid)
    requires RowsOk(s.conversations, s.maxTurns) && ThreadOk(s, t) && IsSettled(CallOf(s, t).pc)
    ensures Aim(CallOf(s, t).pc) >= 1
  {
    var key := s.threads[t].input.scope.key;
    hide RowsOk;
    var row := SettledRow(s, t);
    hide ThreadOk;
    hide Aim;
    assert RowOk(key, row, s.maxTurns) by { GoodRow(s, key, row); }
  }

  lemma SettledRow(s: State, t: Tid) returns (row: Conversation)
    requires ThreadOk(s, t) && IsSettled(CallOf(s, t).pc)
    ensures ConversationTheorems.IsRow(s, CallOf(s, t).input.scope.key, row)
    ensures Aim(CallOf(s, t).pc) == row.contextEpoch
  {
    hide GotOk;
    hide HandoffOk;
    row := s.conversations[s.threads[t].input.scope.key];
  }

  lemma GoodRow(s: State, key: Key, row: Conversation)
    requires RowsOk(s.conversations, s.maxTurns) && ConversationTheorems.IsRow(s, key, row)
    ensures RowOk(key, row, s.maxTurns)
  {
  }

  lemma EpochOfStored(s: State, m: Message)
    requires SharedOk(s) && ConversationTheorems.IsStored(s, m) && m.scope.key.Own?
    ensures ConversationTheorems.HasReached(s, m.scope.key, m.contextEpoch)
  {
    var id :| id in s.messages && s.messages[id] == m;
    assert MessageOk(s.messages, s.conversations, id);
  }

  // ---- its events -------------------------------------------------------------

  /** The call moves on without storing its message or settling its session. */
  predicate MovesOn(pc: Pc, pc': Pc) {
    || IsOver(pc')
    || (pc'.Locked? && !IsSettledAt(pc'.at) && (IsEarly(pc') ==> IsEarly(pc)))
    || (pc.Locked? && pc'.Locked? && IsSettledAt(pc.at) && IsSettledAt(pc'.at) &&
        pc.at.plan == pc'.at.plan && (IsStoredAt(pc.at) <==> IsStoredAt(pc'.at)))
  }

  lemma MoveTells(before: Messages, now: Messages, input: Input, pc: Pc, pc': Pc)
    requires Tells(before, now, input, pc) && MovesOn(pc, pc')
    ensures Tells(before, now, input, pc')
  {
  }

  predicate LoadsNothing(at: At) { at.Loading? ==> at.plan.session == "" }

  lemma ReadMoves(s: State, input: Input, at: At, r: ReadEvent)
    requires FitsRead(at, r) && LoadsNothing(at)
    ensures MovesOn(Locked(at), Locked(AfterRead(s, input, at, r)))
  {
    hide RootGot;
    hide PlanFor;
  }

  lemma PutOpenedTells(
    before: Messages, s: State, t: Tid, input: Input, plan: Plan, handoff: seq<Message>,
    outcome: Outcome)
    requires CallTells(before, s, t, input) && CallOf(s, t).pc == Locked(Putting(plan, handoff))
    requires IsFreshAt(before, input, Locked(Putting(plan, handoff)))
    ensures CallTells(before, ActPutOpened(s, t, input, plan, handoff, outcome), t, input)
  {
  }

  lemma UserRowTells(
    before: Messages, now: Messages, input: Input, plan: Plan, carried: seq<Message>)
    requires Tells(before, now, input, Locked(Adding(plan, carried))) && plan.epoch >= 1
    ensures
      var stored := AddMessage(now, UserRow(input, plan.epoch));
      && Tells(before, stored, input, Locked(Starting(plan, carried)))
      && Tells(before, stored, input, Failed)
    ensures Tells(before, now, input, Locked(Starting(plan, carried)))
    ensures Tells(before, now, input, Failed)
  {
  }

  lemma StoreUserTells(
    before: Messages, s: State, t: Tid, input: Input, plan: Plan, carried: seq<Message>,
    outcome: Outcome)
    requires CallTells(before, s, t, input) && CallOf(s, t).pc == Locked(Adding(plan, carried))
    requires IsFreshAt(before, input, Locked(Adding(plan, carried)))
    ensures CallTells(before, ActStoreUser(s, t, input, plan, carried, outcome), t, input)
  {
    var row := UserRow(input, plan.epoch);
    UserRowTells(before, s.messages, input, plan, carried);
    hide Tells;
    hide UserRow;
    hide AddMessage;
    if outcome.Lost? {
      assert WithMessage(s, row, outcome) == s;
    } else {
      assert WithMessage(s, row, outcome) == s.(messages := AddMessage(s.messages, row));
    }
    hide WithMessage;
  }

  lemma ReplyRowTells(
    before: Messages, now: Messages, input: Input, plan: Plan, turn: Turn, row: Message)
    requires Tells(before, now, input, Locked(Answering(plan, turn))) && row.id != input.id
    ensures Tells(before, AddMessage(now, row), input, Locked(After(plan, turn, Unread)))
    ensures Tells(before, AddMessage(now, row), input, Failed)
    ensures Tells(before, now, input, Failed)
  {
  }

  lemma StoreReplyTells(
    before: Messages, s: State, t: Tid, input: Input, plan: Plan, turn: Turn, outcome: Outcome,
    time: string)
    requires CallTells(before, s, t, input) && CallOf(s, t).pc == Locked(Answering(plan, turn))
    requires !IsReplyID(input.id)
    ensures CallTells(before, ActStoreReply(s, t, input, plan, turn, outcome, time), t, input)
  {
    var row := ReplyRow(input, turn, plan.epoch, time);
    assert IsReplyID(ReplyID(input.id));
    ReplyRowTells(before, s.messages, input, plan, turn, row);
    hide Tells;
    hide AddMessage;
    hide ReplyRow;
    hide IsReplyID;
    hide ReplyID;
    if outcome.Lost? {
      assert WithMessage(s, row, outcome) == s;
    } else {
      assert WithMessage(s, row, outcome) == s.(messages := AddMessage(s.messages, row));
    }
    hide WithMessage;
  }

  lemma PlainWriteTells(
    before: Messages, s: State, t: Tid, input: Input, m: nat, at: At, w: WriteEvent)
    requires CallTells(before, s, t, input) && CallOf(s, t).pc == Locked(at)
    requires FitsWrite(at, w) && IsFreshAt(before, input, Locked(at))
    requires !w.PutOpened? && !w.StoreUser? && !w.StoreReply?
    ensures CallTells(before, ActWrite(s, t, input, m, at, w), t, input)
  {
    PlainWriteMoves(s, t, input, m, at, w);
    hide ActWrite;
    hide MovesOn;
    hide Tells;
    var s' := ActWrite(s, t, input, m, at, w);
    MoveTells(before, s.messages, input, Locked(at), s'.threads[t].pc);
  }

  predicate Moved(s: State, s': State, t: Tid) {
    && t in s.threads && t in s'.threads && s'.threads[t].input == s.threads[t].input
    && s'.messages == s.messages && MovesOn(s.threads[t].pc, s'.threads[t].pc)
  }

  lemma LeaveMoves(s: State, t: Tid, pc: Pc)
    requires t in s.threads && IsOver(pc)
    ensures Moved(s, Leave(s, t, pc), t)
  {
  }

  lemma CheckMoves(s: State, t: Tid)
    requires t in s.threads && CallOf(s, t).pc == Locked(Checking)
    ensures Moved(s, ActCheck(s, t), t)
  {
  }

  lemma StartMoves(
    s: State, t: Tid, input: Input, m: nat, plan: Plan, carried: seq<Message>)
    requires t in s.threads && CallOf(s, t).pc == Locked(Starting(plan, carried))
    ensures Moved(s, ActStart(s, t, input, m, plan, carried), t)
  {
  }

  lemma PromptedMoves(s: State, t: Tid, key: Key, m: nat, plan: Plan, turn: Turn)
    requires t in s.threads && CallOf(s, t).pc == Locked(Prompting(plan))
    ensures Moved(s, ActPrompted(s, t, key, m, plan, turn), t)
  {
  }

  lemma PutTurnMoves(
    s: State, t: Tid, scope: Scope, plan: Plan, turn: Turn, handoff: seq<Message>,
    outcome: Outcome)
    requires t in s.threads && CallOf(s, t).pc == Locked(Closing(plan, turn, handoff))
    ensures Moved(s, ActPutTurn(s, t, scope, plan, turn, handoff, outcome), t)
  {
    hide TurnRow;
    hide Count;
  }

  lemma PlainWriteMoves(s: State, t: Tid, input: Input, m: nat, at: At, w: WriteEvent)
    requires t in s.threads && CallOf(s, t).pc == Locked(at) && FitsWrite(at, w)
    requires !w.PutOpened? && !w.StoreUser? && !w.StoreReply?
    requires LoadsNothing(at)
    ensures Moved(s, ActWrite(s, t, input, m, at, w), t)
  {
    hide Moved;
    hide Leave;
    hide Continue;
    hide ActCheck;
    hide ActStart;
    hide ActPrompted;
    hide ActPutTurn;
    hide WithKnown;
    if w.Check? {
      CheckMoves(s, t);
    } else if w.ReadCached? {
      LeaveMoves(s, t, Returned(CachedResult(RowOf(s, input.scope.key), at.reply)));
      hide CachedResult;
    } else if w.Open? {
      OpenMoves(s, t, m, input.scope.key, w.session, at.plan, at.handoff);
    } else if w.Start? {
      StartMoves(s, t, input, m, at.plan, at.carried);
    } else if w.Prompted? {
      PromptedMoves(s, t, input.scope.key, m, at.plan, w.turn);
    } else if w.PutTurn? {
      PutTurnMoves(s, t, input.scope, at.plan, at.turn, at.handoff, w.outcome);
    } else {
      LeaveMoves(s, t, Returned(
        Result(at.turn.reply, at.plan.session, at.plan.generation, false, false)));
    }
  }

  lemma OpenMoves(
    s: State, t: Tid, m: nat, key: Key, session: string, plan: Plan, handoff: seq<Message>)
    requires t in s.threads && CallOf(s, t).pc == Locked(Opening(plan, handoff))
    ensures Moved(s, Continue(WithKnown(s, m, key, session), t,
      Putting(plan.(session := session), handoff)), t)
  {
  }

  lemma WriteTells(before: Messages, s: State, t: Tid, input: Input, m: nat, at: At, w: WriteEvent)
    requires CallTells(before, s, t, input) && CallOf(s, t).pc == Locked(at)
    requires FitsWrite(at, w) && IsFreshAt(before, input, Locked(at))
    ensures CallTells(before, ActWrite(s, t, input, m, at, w), t, input)
  {
    hide CallTells;
    if w.PutOpened? {
      PutOpenedTells(before, s, t, input, at.plan, at.handoff, w.outcome);
    } else if w.StoreUser? {
      StoreUserTells(before, s, t, input, at.plan, at.carried, w.outcome);
    } else if w.StoreReply? {
      StoreReplyTells(before, s, t, input, at.plan, at.turn, w.outcome, w.time);
    } else {
      PlainWriteTells(before, s, t, input, m, at, w);
    }
  }

  lemma OwnTells(before: Messages, s: State, t: Tid, input: Input, e: Event)
    requires CanAct(s, t, e) && CallTells(before, s, t, input)
    requires IsFreshAt(before, input, CallOf(s, t).pc)
    ensures CallTells(before, Act(s, t, e), t, input)
  {
    var pc := s.threads[t].pc;
    assert Fits(pc, e);
    hide CanAct;
    hide ActWrite;
    hide AfterRead;
    hide FitsRead;
    hide FitsWrite;
    hide Tells;
    if e.Write? {
      WriteTells(before, s, t, input, s.threads[t].manager, pc.at, e.write);
    } else if e.Read? {
      ReadMoves(s, input, pc.at, e.read);
      MoveTells(before, s.messages, input, pc, Locked(AfterRead(s, input, pc.at, e.read)));
    } else {
      assert e.Fail? || e.Lock? by { NotSteering(before, s.messages, input, pc, e); }
      var pc' := Act(s, t, e).threads[t].pc;
      MoveTells(before, s.messages, input, pc, pc');
    }
  }

  lemma NotSteering(before: Messages, now: Messages, input: Input, pc: Pc, e: Event)
    requires Tells(before, now, input, pc) && Fits(pc, e) && !e.Write? && !e.Read?
    ensures e.Fail? || e.Lock?
  {
  }

  // ---- the steps around it ----------------------------------------------------

  lemma OthersTell(before: Messages, s: State, s': State, t: Tid, u: Tid, input: Input)
    requires ThreadsOk(s) && CallTells(before, s, t, input) && u in s.threads && u != t
    requires Origins.KeepsCalls(s, s', u) && Origins.AddsOwnRows(s, s', u)
    requires ConversationTheorems.RowsKept(s, s')
    ensures CallTells(before, s', t, input)
  {
    ConversationSteps.ThreadFacts(s, t);
    assert s.threads[u].input.id != input.id;
    assert IsReplyID(ReplyID(s.threads[u].input.id));
    hide ThreadsOk;
    hide PcOk;
    hide ReplyID;
    assert s'.threads[t] == s.threads[t];
  }

  lemma RestTells(before: Messages, s: State, step: Step, s': State, t: Tid, input: Input)
    requires Inv(s) && Do(s, step, s') && !step.ActStep? && CallTells(before, s, t, input)
    requires ConversationTheorems.RowsKept(s, s') && t in s'.threads
    ensures CallTells(before, s', t, input)
  {
    Origins.RestKept(s, step, s');
    ConversationSteps.ThreadFacts(s, t);
    ThreadStays(s, step, s', t);
    hide Inv;
    hide Do;
    hide PcOk;
  }

  lemma ThreadStays(s: State, step: Step, s': State, t: Tid)
    requires Do(s, step, s') && !step.ActStep? && t in s.threads && t in s'.threads
    ensures CallOf(s', t) == CallOf(s, t)
  {
    hide IsThreadRoot;
  }

  lemma StepTells(before: Messages, s: State, step: Step, s': State, t: Tid, input: Input)
    requires Inv(s) && Do(s, step, s') && CallTells(before, s, t, input) && input.isFresh
    requires ConversationTheorems.RowsKept(s, s') && t in s'.threads
    requires IsPartOf(before, s.messages)
    ensures CallTells(before, s', t, input)
  {
    assert ThreadsOk(s);
    if !step.ActStep? {
      RestTells(before, s, step, s', t, input);
    } else if step.t == t {
      StandsFresh(before, s, t);
      hide Inv;
      hide IsFreshAt;
      OwnTells(before, s, t, input, step.event);
    } else {
      Origins.EventTouches(s, step.t, step.event);
      hide Inv;
      hide CallTells;
      assert step.t in s.threads;
      hide Do;
      OthersTell(before, s, s', t, step.t, input);
    }
  }

  lemma BeganTells(s: State, s': State, t: Tid, input: Input)
    requires s' == Begin(s, t, input) && input.isFresh
    ensures CallTells(s.messages, s', t, input)
  {
  }

  lemma {:induction false} TellsAlong(
    run: seq<State>, t: Tid, input: Input, h: nat, before: State, g: nat, s: State)
    requires ConversationTheorems.IsRun(run) && input.isFresh
    requires Splits.HasRunSince(run, t, input, h, g)
    requires Runs.IsAt(run, h, before) && Runs.IsAt(run, g, s)
    ensures CallTells(before.messages, s, t, input)
    decreases g
  {
    hide *;
    var f, earlier := ShorterRun(run, t, input, h, before, g, s);
    if g == h + 1 {
      BeganTells(before, s, t, input);
    } else {
      TellsAlong(run, t, input, h, before, f, earlier);
      var step := ConversationTheorems.StepOf(run, f, earlier, g, s);
      ConversationTheorems.StateOk(run, earlier);
      ConversationTheorems.KeptBetween(run, f, earlier, g, s);
      ConversationTheorems.KeptBetween(run, h, before, f, earlier);
      KeptRows(before, earlier);
      StepTells(before.messages, earlier, step, s, t, input);
    }
  }

  lemma KeptRows(s: State, s': State)
    requires ConversationTheorems.RowsKept(s, s')
    ensures IsPartOf(s.messages, s'.messages)
  {
  }

  lemma ShorterRun(
    run: seq<State>, t: Tid, input: Input, h: nat, before: State, g: nat, s: State)
    returns (f: nat, earlier: State)
    requires Splits.HasRunSince(run, t, input, h, g)
    requires Runs.IsAt(run, h, before) && Runs.IsAt(run, g, s)
    ensures h <= f && g == f + 1 && t in s.threads && earlier in run
    ensures Runs.IsAt(run, f, earlier) && Runs.AreNext(run, f, earlier, g, s)
    ensures if f == h then s == Begin(before, t, input)
      else Splits.HasRunSince(run, t, input, h, f)
  {
    hide Begin;
    assert Splits.IsIn(run[g], t, input);
    f := g - 1;
    earlier := run[f];
  }

  // ---- the epochs of a message and its reply -----------------------------------

  /** The call waits for its prompt or has just got its answer. */
  predicate IsPastPrompt(s: State, t: Tid) {
    && t in s.threads && s.threads[t].pc.Locked?
    && (s.threads[t].pc.at.Prompting? || s.threads[t].pc.at.Answering?)
  }

  /** The message is in the log. */
  predicate IsLogged(s: State, id: string, m: Message) {
    id in s.messages && s.messages[id] == m
  }

  /** A fresh call that has sent its prompt has its own message, if that is in the call's
      conversation at all, in an earlier epoch than the one it opened exactly when the
      message was in the log before the call began (step `h`); otherwise in that epoch. */
  lemma FreshCallExactly(run: seq<State>, g: nat, s: State, t: Tid, input: Input)
    returns (h: nat, before: State, m: Message)
    requires ConversationTheorems.IsRun(run) && Runs.IsAt(run, g, s) && IsPastPrompt(s, t)
    requires Splits.IsIn(s, t, input) && input.isFresh
    ensures h < g && Splits.HasRunSince(run, t, input, h, g) && Runs.IsAt(run, h, before)
    ensures IsLogged(s, input.id, m)
    ensures m.scope.key == input.scope.key ==>
      && (m.contextEpoch < Aim(CallOf(s, t).pc) <==> input.id in before.messages)
      && (m.contextEpoch == Aim(CallOf(s, t).pc) <==> input.id !in before.messages)
  {
    hide *;
    h := Splits.CallBegan(run, g, s, t, input);
    before := Splits.HasBegun(run, t, input, g, s, h);
    m := PromptedStored(run, g, s, t, input);
    TellsAlong(run, t, input, h, before, g, s);
    ConversationTheorems.KeptBetween(run, h, before, g, s);
    KeptRows(before, s);
    Epochs(before.messages, s, t, input, m);
  }

  lemma PromptedStored(run: seq<State>, g: nat, s: State, t: Tid, input: Input)
    returns (m: Message)
    requires ConversationTheorems.IsRun(run) && Runs.IsAt(run, g, s) && IsPastPrompt(s, t)
    requires Splits.IsIn(s, t, input)
    ensures IsLogged(s, input.id, m)
  {
    assert s in run;
    hide ConversationTheorems.IsRun;
    ConversationTheorems.StateOk(run, s);
    assert ThreadsOk(s);
    hide Inv;
    PastStored(s, t);
    m := s.messages[input.id];
  }

  lemma PastStored(s: State, t: Tid)
    requires ThreadsOk(s) && IsPastPrompt(s, t)
    ensures CallOf(s, t).input.id in s.messages
  {
    ConversationSteps.ThreadFacts(s, t);
    hide ThreadsOk;
  }

  lemma Epochs(before: Messages, s: State, t: Tid, input: Input, m: Message)
    requires CallTells(before, s, t, input) && IsPastPrompt(s, t) && IsLogged(s, input.id, m)
    requires IsPartOf(before, s.messages)
    ensures m.scope.key == input.scope.key ==>
      && (m.contextEpoch < Aim(CallOf(s, t).pc) <==> input.id in before)
      && (m.contextEpoch == Aim(CallOf(s, t).pc) <==> input.id !in before)
  {
  }

  /** So the reply to a fresh message that was answered in the conversation that has the
      message lies in a later epoch than the message exactly when the message was in the log
      before the answering call began, as when an earlier try failed after storing it. */
  lemma FreshReplyExactly(run: seq<State>, i: nat, s: State, id: string)
    returns (
      h: nat, before: State, g: nat, t: Tid, input: Input, m: Message, reply: Message)
    requires ConversationTheorems.IsRun(run) && Runs.IsAt(run, i, s) && ReplyID(id) in s.messages
    ensures h < g < i && Splits.StoresReplyAt(run, g, t, input) && input.id == id
    ensures Splits.HasRunSince(run, t, input, h, g) && Runs.IsAt(run, h, before)
    ensures IsLogged(s, id, m) && IsLogged(s, ReplyID(id), reply)
    ensures input.isFresh && m.scope.key == reply.scope.key ==>
      && (m.contextEpoch < reply.contextEpoch <==> id in before.messages)
      && (m.contextEpoch == reply.contextEpoch <==> id !in before.messages)
  {
    hide *;
    g, t, input := Splits.ReplyCameFrom(run, i, s, id);
    var answering, replied := Replier(run, g, t, input);
    reply := ReplyEpoch(run, g, answering, replied, t, input);
    if input.isFresh {
      h, before, m := FreshCallExactly(run, g, answering, t, input);
    } else {
      h := Splits.CallBegan(run, g, answering, t, input);
      before := Splits.HasBegun(run, t, input, g, answering, h);
      m := PromptedStored(run, g, answering, t, input);
    }
    ConversationTheorems.KeptBetween(run, g, answering, i, s);
    ConversationTheorems.KeptBetween(run, g + 1, replied, i, s);
    StaysLogged(answering, s, id, m);
    StaysLogged(replied, s, ReplyID(id), reply);
  }

  lemma StaysLogged(s: State, s': State, id: string, m: Message)
    requires ConversationTheorems.RowsKept(s, s') && IsLogged(s, id, m)
    ensures IsLogged(s', id, m)
  {
  }

  lemma Replier(run: seq<State>, g: nat, t: Tid, input: Input)
    returns (s: State, s': State)
    requires Splits.StoresReplyAt(run, g, t, input)
    ensures Runs.IsAt(run, g, s) && Runs.IsAt(run, g + 1, s') && Runs.AreNext(run, g, s, g + 1, s')
    ensures s in run && Splits.StoresReply(s, s', t, input)
    ensures IsPastPrompt(s, t) && Splits.IsIn(s, t, input)
  {
    s, s' := run[g], run[g + 1];
    hide ReplyID;
  }

  lemma ReplyEpoch(run: seq<State>, g: nat, s: State, s': State, t: Tid, input: Input)
    returns (reply: Message)
    requires ConversationTheorems.IsRun(run) && Runs.AreNext(run, g, s, g + 1, s') && s in run
    requires Splits.StoresReply(s, s', t, input)
    ensures IsLogged(s', ReplyID(input.id), reply) && reply.scope == input.scope
    ensures reply.contextEpoch == Aim(CallOf(s, t).pc)
  {
    hide *;
    ConversationTheorems.StateOk(run, s);
    var step := ConversationTheorems.StepOf(run, g, s, g + 1, s');
    reply := RepliesWith(s, step, s', t, input);
  }

  lemma RepliesWith(s: State, step: Step, s': State, t: Tid, input: Input)
    returns (reply: Message)
    requires Inv(s) && Do(s, step, s') && Splits.StoresReply(s, s', t, input)
    ensures IsLogged(s', ReplyID(input.id), reply) && reply.scope == input.scope
    ensures reply.contextEpoch == Aim(CallOf(s, t).pc)
  {
    reply := s'.messages[ReplyID(input.id)];
    assert IsReplyID(ReplyID(input.id)) && SharedOk(s) && ThreadsOk(s);
    if step.ActStep? {
      Origins.EventTouches(s, step.t, step.event);
      Answerer(s, s', step.t, t, input);
      ConversationSteps.ThreadFacts(s, t);
      SettledEpoch(s, t);
      hide Inv;
      hide SharedOk;
      hide ThreadsOk;
      hide PcOk;
      ReplyStored(s, t, step.event, input);
    } else {
      Origins.RestKept(s, step, s');
      assert false;
    }
  }

  lemma Answerer(s: State, s': State, u: Tid, t: Tid, input: Input)
    requires ThreadsOk(s) && u in s.threads && Origins.AddsOwnRows(s, s', u)
    requires Splits.StoresReply(s, s', t, input)
    ensures u == t
  {
    ConversationSteps.ThreadFacts(s, u);
    assert IsReplyID(ReplyID(input.id));
    hide PcOk;
    ReplyIDInjective(input.id, s.threads[u].input.id) by { hide IsReplyID; }
  }

  /** The reply to the message, if it is in the log, has this epoch. */
  predicate RepliesIn(s: State, id: string, epoch: int) {
    ReplyID(id) in s.messages ==> s.messages[ReplyID(id)].contextEpoch == epoch
  }

  lemma ReplyStored(s: State, t: Tid, e: Event, input: Input)
    requires CanAct(s, t, e) && Splits.StoresReply(s, Act(s, t, e), t, input)
    requires Aim(CallOf(s, t).pc) >= 1
    ensures RepliesIn(Act(s, t, e), input.id, Aim(CallOf(s, t).pc))
  {
    var at := s.threads[t].pc.at;
    assert Fits(s.threads[t].pc, e);
    hide CanAct;
    hide ReplyID;
    hide Leave;
    hide ActStoreReply;
    hide AfterRead;
    LeaveKeeps(s, t);
    if e.Write? {
      assert Act(s, t, e) ==
        ActStoreReply(s, t, input, at.plan, at.turn, e.write.outcome, e.write.time);
      ReplyPut(s, t, input, at.plan, at.turn, e.write.outcome, e.write.time);
    }
  }

  lemma LeaveKeeps(s: State, t: Tid)
    ensures Leave(s, t, Failed).messages == s.messages
  {
  }

  lemma ReplyPut(
    s: State, t: Tid, input: Input, plan: Plan, turn: Turn, outcome: Outcome, time: string)
    requires plan.epoch >= 1 && ReplyID(input.id) !in s.messages
    ensures RepliesIn(
      ActStoreReply(s, t, input, plan, turn, outcome, time), input.id, plan.epoch)
  {
    hide ReplyID;
    LeaveKeeps(s, t);
    LeaveKeeps(WithMessage(s, ReplyRow(input, turn, plan.epoch, time), outcome), t);
    hide Leave;
  }

  // ---- it happens ---------------------------------------------------------------

  /** A fresh message is tried, its prompt fails, and it is tried again: the second prompt is
      for a later epoch than the one that has the message. */
  lemma FreshRetry(t: Tid, input: Input, maxTurns: nat)
    returns (run: seq<State>, s: State, m: Message)
    requires maxTurns > 0 && IsOwnKey(input.scope.key) && IsIncomingID(input.id) && input.isFresh
    ensures ConversationTheorems.IsRun(run) && Runs.IsLast(run, s)
    ensures Retries.IsAtPrompt(s, t, input) && IsPastPrompt(s, t)
    ensures IsLogged(s, input.id, m) && m.scope == input.scope
    ensures m.contextEpoch < Aim(CallOf(s, t).pc)
  {
    var start, empty := Retries.Opened(maxTurns);
    assert Retries.MayTry(empty, t, input) && input.id !in empty.messages;
    hide *;
    var first, tried, p := Retries.Attempt(start, empty, t, input);
    assert t !in tried.threads by { NotInProgress(tried, t, input); }
    var again;
    run, s, again := Retries.IsTried(first, tried, t, input);
    AtPromptIsPast(s, t, input);
    var n, last := Moments(first, tried, run, s);
    var h, before;
    h, before, m := FreshCallExactly(run, last, s, t, input);
    BeganLater(run, t, input, h, last, n, tried);
    ConversationTheorems.KeptBetween(run, n, tried, h, before);
    ConversationTheorems.KeptBetween(run, n, tried, last, s);
    FirstRow(empty, tried, before, s, input, m);
  }

  lemma NotInProgress(s: State, t: Tid, input: Input)
    requires Retries.MayTry(s, t, input)
    ensures t !in s.threads
  {
  }

  lemma Moments(first: seq<State>, s: State, run: seq<State>, s': State) returns (n: nat, last: nat)
    requires Runs.IsLast(first, s) && Runs.IsLast(run, s') && first <= run
    ensures Runs.IsAt(run, n, s) && Runs.IsAt(run, last, s') && n <= last
  {
    n, last := |first| - 1, |run| - 1;
  }

  /** What the first try stored is what the second finds. */
  lemma FirstRow(
    empty: State, tried: State, before: State, s: State, input: Input, m: Message)
    requires Retries.IsStoredAs(tried.messages, empty.messages, input)
    requires input.id !in empty.messages && IsLogged(s, input.id, m)
    requires ConversationTheorems.RowsKept(tried, before)
    requires ConversationTheorems.RowsKept(tried, s)
    ensures input.id in before.messages && m.scope == input.scope
  {
  }

  lemma AtPromptIsPast(s: State, t: Tid, input: Input)
    requires Retries.IsAtPrompt(s, t, input)
    ensures IsPastPrompt(s, t) && Splits.IsIn(s, t, input)
  {
  }

  /** A call in progress since `h` began after every state in which there was none. */
  lemma BeganLater(
    run: seq<State>, t: Tid, input: Input, h: nat, g: nat, n: nat, s: State)
    requires Splits.HasRunSince(run, t, input, h, g) && Runs.IsAt(run, n, s) && t !in s.threads
    requires n <= g
    ensures n <= h
  {
    hide Begin;
    assert !Splits.IsIn(run[n], t, input);
  }
}
