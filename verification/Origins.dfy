/** Where the rows, handoffs and prompts of a conversation come from, along every run. */
module Origins {
  import opened Wrappers
  import opened Tables
  import opened Handoff
  import opened Conversations
  import opened ConversationInvariant
  import ConversationSteps
  import ConversationTheorems
  import Runs

  // ---- what one event can touch -----------------------------------------------

  /** Other calls stay as they are, and no call changes its message. */
  ghost predicate KeepsCalls(s: State, s': State, t: Tid) {
    && t in s.threads && s'.threads.Keys == s.threads.Keys
    && s'.threads[t].input == s.threads[t].input
    && forall u :: u in s.threads && u != t ==> s'.threads[u] == s.threads[u]
  }

  /** The rows that an event adds belong to the call's conversation and are its message
      or, once the prompt has returned, the reply to it. */
  ghost predicate AddsOwnRows(s: State, s': State, t: Tid) {
    var input := CallOf(s, t).input;
    forall id :: id in s'.messages && id !in s.messages ==>
      && s'.messages[id].scope == input.scope
      && (id == input.id || (id == ReplyID(input.id) && IsAnswering(CallOf(s, t).pc)))
  }

  predicate IsAnswering(pc: Pc) { pc.Locked? && pc.at.Answering? }

  /** The rows of conversations that an event writes are the opened or finished turn of
      the call's own. */
  ghost predicate WritesOwnRow(s: State, s': State, t: Tid) {
    forall key :: key in s'.conversations ==>
      (key in s.conversations && s'.conversations[key] == s.conversations[key]) ||
      (key == CallOf(s, t).input.scope.key && IsOwnWrite(s, t, s'.conversations[key]))
  }

  predicate IsOwnWrite(s: State, t: Tid, row: Conversation) {
    var input, pc := CallOf(s, t).input, CallOf(s, t).pc;
    && pc.Locked?
    && (|| (pc.at.Putting? && row == OpeningRow(input, pc.at.plan, pc.at.handoff))
        || (pc.at.Closing? &&
            row == TurnRow(input.scope, pc.at.plan, pc.at.turn, pc.at.handoff, s.maxTurns)))
  }

  /** The prompt sent, if any, is the one the call has prepared. */
  ghost predicate SendsOwnPrompt(s: State, s': State, t: Tid) {
    || s'.prompts == s.prompts
    || (exists p :: s'.prompts == s.prompts + [p] && IsOwnPrompt(s, t, p))
  }

  predicate IsOwnPrompt(s: State, t: Tid, p: Prompt) {
    var thread := CallOf(s, t);
    && thread.pc.Locked? && thread.pc.at.Starting?
    && var at := thread.pc.at;
    p == Prompt(thread.input.scope, thread.input.id, thread.input.isFresh, thread.manager,
      at.plan.session, at.plan.epoch, at.carried)
  }

  /** The call waits for its turn or has just got it. */
  predicate IsPrompted(pc: Pc) { pc.Locked? && (pc.at.Prompting? || pc.at.Answering?) }

  ghost predicate Touches(s: State, s': State, t: Tid) {
    && KeepsCalls(s, s', t) && AddsOwnRows(s, s', t) && WritesOwnRow(s, s', t)
    && SendsOwnPrompt(s, s', t)
    && (IsPrompted(CallOf(s', t).pc) ==> IsPrompted(CallOf(s, t).pc) || s'.prompts != s.prompts)
  }

  /** Events that write no table only move the call. */
  lemma MoveTouches(s: State, s': State, t: Tid)
    requires t in s.threads && KeepsCalls(s, s', t)
    requires s'.messages == s.messages && s'.conversations == s.conversations
    requires s'.prompts == s.prompts
    requires IsPrompted(CallOf(s', t).pc) ==> IsPrompted(CallOf(s, t).pc)
    ensures Touches(s, s', t)
  {
  }

  lemma ReadsBeforePrompt(s: State, input: Input, at: At, r: ReadEvent)
    requires FitsRead(at, r)
    ensures !IsPrompted(Locked(AfterRead(s, input, at, r)))
  {
  }

  lemma GotoTouches(s: State, t: Tid, pc: Pc)
    requires t in s.threads && !IsPrompted(pc)
    ensures Touches(s, s, t) && Touches(s, Goto(s, t, pc), t) && Touches(s, Leave(s, t, pc), t)
  {
    hide Touches;
    MoveTouches(s, s, t);
    MoveTouches(s, Goto(s, t, pc), t);
    MoveTouches(s, Leave(s, t, pc), t);
  }

  lemma LockTouches(s: State, t: Tid, m: nat)
    requires t in s.threads
    ensures Touches(s, ActLock(s, t, m), t)
  {
    hide Touches;
    MoveTouches(s, ActLock(s, t, m), t);
  }

  /** The call takes this event. */
  ghost predicate Takes(s: State, s': State, t: Tid, e: Event) {
    CanAct(s, t, e) && s' == Act(s, t, e)
  }

  lemma EventTouches(s: State, t: Tid, e: Event)
    requires CanAct(s, t, e)
    ensures Touches(s, Act(s, t, e), t)
  {
    var pc, input := s.threads[t].pc, s.threads[t].input;
    assert Fits(pc, e);
    hide Touches;
    hide CanAct;
    hide AfterRead;
    hide ActWrite;
    hide ActSteerStore;
    hide ActLock;
    hide Leave;
    hide Goto;
    hide FitsRead;
    hide FitsWrite;
    match e {
      case Fail => GotoTouches(s, t, Failed);
      case Miss => GotoTouches(s, t, Locking);
      case SteerCheck(m) => GotoTouches(s, t, SteerLook(m));
      case SteerFind =>
        GotoTouches(s, t, Steering);
        if (pc.manager, input.scope.key) in s.active {
          GotoTouches(s, t, SteerAdd(pc.manager, s.active[(pc.manager, input.scope.key)]));
        }
      case SteerStore(outcome) => SteerStoreTouches(s, t, pc.manager, pc.active, outcome);
      case SteerAnswer(_) =>
        GotoTouches(s, t, Steering);
        GotoTouches(s, t, Returned(Result("", pc.active.session, 0, false, true)));
      case Lock(m) => LockTouches(s, t, m);
      case Read(r) =>
        ReadsBeforePrompt(s, input, pc.at, r);
        GotoTouches(s, t, Locked(AfterRead(s, input, pc.at, r)));
      case Write(w) => WriteTouches(s, t, pc.at, w);
    }
  }

  lemma SteerStoreTouches(s: State, t: Tid, m: nat, active: Active, outcome: Outcome)
    requires t in s.threads
    ensures Touches(s, ActSteerStore(s, t, CallOf(s, t).input, m, active, outcome), t)
  {
    var input := s.threads[t].input;
    StoreTouches(s, ActSteerStore(s, t, input, m, active, outcome), t,
      UserRow(input, active.epoch), outcome);
  }

  /** Storing a row of the call's own. */
  lemma StoreTouches(s: State, s': State, t: Tid, row: Message, outcome: Outcome)
    requires t in s.threads && KeepsCalls(s, s', t)
    requires s'.messages == WithMessage(s, row, outcome).messages
    requires s'.conversations == s.conversations && s'.prompts == s.prompts
    requires !IsPrompted(CallOf(s', t).pc)
    requires row.scope == CallOf(s, t).input.scope
    requires row.id == CallOf(s, t).input.id ||
      (row.id == ReplyID(CallOf(s, t).input.id) && IsAnswering(CallOf(s, t).pc))
    ensures Touches(s, s', t)
  {
    hide ReplyID;
  }

  lemma WriteTouches(s: State, t: Tid, at: At, w: WriteEvent)
    requires t in s.threads && CallOf(s, t).pc == Locked(at) && FitsWrite(at, w)
    ensures Touches(s, ActWrite(s, t, CallOf(s, t).input, CallOf(s, t).manager, at, w), t)
  {
    var input, m := s.threads[t].input, s.threads[t].manager;
    hide Touches;
    match w {
      case StoreUser(outcome) => StoreUserTouches(s, t, at.plan, at.carried, outcome);
      case StoreReply(outcome, time) => StoreReplyTouches(s, t, at.plan, at.turn, outcome, time);
      case PutOpened(outcome) => PutOpenedTouches(s, t, at.plan, at.handoff, outcome);
      case PutTurn(outcome) => PutTurnTouches(s, t, at.plan, at.turn, at.handoff, outcome);
      case Start => StartTouches(s, t, at.plan, at.carried);
      case _ => PlainTouches(s, t, at, w);
    }
  }

  lemma PlainTouches(s: State, t: Tid, at: At, w: WriteEvent)
    requires t in s.threads && CallOf(s, t).pc == Locked(at) && FitsWrite(at, w)
    requires w.Check? || w.ReadCached? || w.Loaded? || w.Open? || w.Prompted? || w.Finish?
    ensures Touches(s, ActWrite(s, t, CallOf(s, t).input, CallOf(s, t).manager, at, w), t)
  {
    hide Touches;
    hide RowOf;
    MoveTouches(s, ActWrite(s, t, s.threads[t].input, s.threads[t].manager, at, w), t);
  }

  lemma StoreUserTouches(s: State, t: Tid, plan: Plan, carried: seq<Message>, outcome: Outcome)
    requires t in s.threads && CallOf(s, t).pc == Locked(Adding(plan, carried))
    ensures Touches(s, ActStoreUser(s, t, CallOf(s, t).input, plan, carried, outcome), t)
  {
    var input := s.threads[t].input;
    var s' := ActStoreUser(s, t, input, plan, carried, outcome);
    hide Touches;
    if s.threads[t].stored { MoveTouches(s, s', t); }
    else { StoreTouches(s, s', t, UserRow(input, plan.epoch), outcome); }
  }

  lemma StoreReplyTouches(
    s: State, t: Tid, plan: Plan, turn: Turn, outcome: Outcome, time: string)
    requires t in s.threads && CallOf(s, t).pc == Locked(Answering(plan, turn))
    ensures Touches(s, ActStoreReply(s, t, CallOf(s, t).input, plan, turn, outcome, time), t)
  {
    var input := s.threads[t].input;
    hide Touches;
    StoreTouches(s, ActStoreReply(s, t, input, plan, turn, outcome, time), t,
      ReplyRow(input, turn, plan.epoch, time), outcome);
  }

  lemma PutOpenedTouches(s: State, t: Tid, plan: Plan, handoff: seq<Message>, outcome: Outcome)
    requires t in s.threads && CallOf(s, t).pc == Locked(Putting(plan, handoff))
    ensures Touches(s, ActPutOpened(s, t, CallOf(s, t).input, plan, handoff, outcome), t)
  {
    var input := s.threads[t].input;
    PutTouches(s, ActPutOpened(s, t, input, plan, handoff, outcome), t,
      OpeningRow(input, plan, handoff));
  }

  lemma PutTurnTouches(
    s: State, t: Tid, plan: Plan, turn: Turn, handoff: seq<Message>, outcome: Outcome)
    requires t in s.threads && CallOf(s, t).pc == Locked(Closing(plan, turn, handoff))
    ensures Touches(
      s, ActPutTurn(s, t, CallOf(s, t).input.scope, plan, turn, handoff, outcome), t)
  {
    var scope := s.threads[t].input.scope;
    PutTouches(s, ActPutTurn(s, t, scope, plan, turn, handoff, outcome), t,
      TurnRow(scope, plan, turn, handoff, s.maxTurns));
  }

  lemma PutTouches(s: State, s': State, t: Tid, row: Conversation)
    requires t in s.threads && KeepsCalls(s, s', t) && IsOwnWrite(s, t, row)
    requires row.scope.key == CallOf(s, t).input.scope.key
    requires s'.messages == s.messages && s'.prompts == s.prompts
    requires s'.conversations == s.conversations ||
      s'.conversations == s.conversations[row.scope.key := row]
    requires !IsPrompted(CallOf(s', t).pc)
    ensures Touches(s, s', t)
  {
    hide IsOwnWrite;
  }

  lemma StartTouches(s: State, t: Tid, plan: Plan, carried: seq<Message>)
    requires t in s.threads && CallOf(s, t).pc == Locked(Starting(plan, carried))
    ensures Touches(
      s, ActStart(s, t, CallOf(s, t).input, CallOf(s, t).manager, plan, carried), t)
  {
    var s' := ActStart(s, t, s.threads[t].input, s.threads[t].manager, plan, carried);
    var p := s'.prompts[|s.prompts|];
    assert s'.prompts == s.prompts + [p] && IsOwnPrompt(s, t, p);
  }

  /** The other steps touch no call, conversation or prompt, but for calls that come and go;
      the rows they add are thread roots. */
  ghost predicate KeepsRest(s: State, s': State) {
    && s'.conversations == s.conversations && s'.prompts == s.prompts
    && (forall id :: id in s'.messages && id !in s.messages ==>
          IsRoomKey(s'.messages[id].scope.key) && IsIncomingID(id))
    && (forall t :: t in s'.threads ==>
          || (t in s.threads && s'.threads[t] == s.threads[t])
          || (&& IsOwnKey(s'.threads[t].input.scope.key) && IsIncomingID(s'.threads[t].input.id)
              && (s'.threads[t].pc.Locking? || s'.threads[t].pc.Steering?)))
  }

  lemma RestKept(s: State, step: Step, s': State)
    requires Do(s, step, s') && !step.ActStep?
    ensures KeepsRest(s, s')
  {
    hide IsOwnKey;
    hide IsRoomKey;
    hide IsIncomingID;
    match step {
      case BeginStep(_, _) => {}
      case ActStep(_, _) => assert false;
      case EndStep(_) => {}
      case SaveRootStep(message, outcome) =>
        hide KeepsRest;
        RootKept(s, message, outcome);
      case CrashStep => {}
    }
  }

  lemma RootKept(s: State, message: Message, outcome: Outcome)
    requires IsThreadRoot(message)
    ensures KeepsRest(s, WithMessage(s, message, outcome))
  {
    hide IsOwnKey;
    hide IsRoomKey;
    hide IsIncomingID;
  }

  // ---- keys -------------------------------------------------------------------

  /** Every key in use is one of those that `KeyTextInjective` tells apart. */
  ghost predicate KeysOk(s: State) {
    && (forall id :: id in s.messages ==> IsStoredKey(s.messages[id].scope.key))
    && (forall key :: key in s.conversations ==> IsOwnKey(key))
    && (forall t :: t in s.threads ==>
          IsOwnKey(s.threads[t].input.scope.key) && IsIncomingID(s.threads[t].input.id))
  }

  lemma EventKeepsKeys(s: State, s': State, t: Tid)
    requires KeysOk(s) && t in s.threads && Touches(s, s', t)
    requires ConversationTheorems.RowsKept(s, s')
    ensures KeysOk(s')
  {
    hide IsOwnKey;
    hide IsRoomKey;
    hide IsIncomingID;
    hide IsOwnWrite;
    hide SendsOwnPrompt;
    hide ReplyID;
  }

  lemma RestKeepsKeys(s: State, s': State)
    requires KeysOk(s) && KeepsRest(s, s') && ConversationTheorems.RowsKept(s, s')
    ensures KeysOk(s')
  {
    hide IsOwnKey;
    hide IsRoomKey;
    hide IsIncomingID;
  }

  ghost predicate IsKeyIn(s: State, key: Key) {
    || key in s.conversations
    || key in s.locks
    || (exists id :: id in s.messages && s.messages[id].scope.key == key)
    || (exists t :: t in s.threads && s.threads[t].input.scope.key == key)
  }

  // ---- prompts ----------------------------------------------------------------

  ghost predicate WasPrompted(s: State, id: string) {
    exists n :: 0 <= n < |s.prompts| && s.prompts[n].messageID == id
  }

  /** What is answered, and what has just got its turn, was prompted. */
  ghost predicate PromptedOk(s: State) {
    && (forall id :: ReplyID(id) in s.messages ==> WasPrompted(s, id))
    && (forall t :: t in s.threads && IsPrompted(s.threads[t].pc) ==>
          WasPrompted(s, s.threads[t].input.id))
  }

  lemma PromptedStays(s: State, s': State, id: string)
    requires WasPrompted(s, id) && s.prompts <= s'.prompts
    ensures WasPrompted(s', id)
  {
    var n :| 0 <= n < |s.prompts| && s.prompts[n].messageID == id;
    assert s'.prompts[n] == s.prompts[n];
  }

  lemma OwnPrompt(s: State, s': State, t: Tid)
    requires t in s.threads && SendsOwnPrompt(s, s', t) && s'.prompts != s.prompts
    ensures WasPrompted(s', CallOf(s, t).input.id)
  {
    var p :| s'.prompts == s.prompts + [p] && IsOwnPrompt(s, t, p);
    assert s'.prompts[|s.prompts|] == p;
  }

  lemma EventKeepsPrompted(s: State, s': State, t: Tid)
    requires KeysOk(s) && PromptedOk(s) && t in s.threads && Touches(s, s', t)
    requires ConversationTheorems.Later(s, s')
    ensures PromptedOk(s')
  {
    var input := s.threads[t].input;
    forall id | ReplyID(id) in s'.messages ensures WasPrompted(s', id) {
      if ReplyID(id) in s.messages {
        PromptedStays(s, s', id);
      } else {
        assert IsIncomingID(input.id) && IsReplyID(ReplyID(id));
        ReplyIDInjective(id, input.id);
        PromptedStays(s, s', id);
      }
    }
    forall u | u in s'.threads && IsPrompted(s'.threads[u].pc)
      ensures WasPrompted(s', s'.threads[u].input.id)
    {
      if u == t && !IsPrompted(s.threads[t].pc) {
        OwnPrompt(s, s', t);
      } else {
        PromptedStays(s, s', s.threads[u].input.id);
      }
    }
  }

  lemma RestKeepsPrompted(s: State, s': State)
    requires PromptedOk(s) && KeepsRest(s, s')
    ensures PromptedOk(s')
  {
    forall id | ReplyID(id) in s'.messages ensures WasPrompted(s', id) {
      assert IsReplyID(ReplyID(id));
      PromptedStays(s, s', id);
    }
    forall u | u in s'.threads && IsPrompted(s'.threads[u].pc)
      ensures WasPrompted(s', s'.threads[u].input.id)
    {
      PromptedStays(s, s', s.threads[u].input.id);
    }
  }

  // ---- along every run --------------------------------------------------------

  ghost predicate OriginsOk(s: State) { Inv(s) && KeysOk(s) && PromptedOk(s) }

  lemma NextOk(s: State, s': State)
    requires OriginsOk(s) && Next(s, s')
    ensures OriginsOk(s')
  {
    ConversationSteps.NextOk(s, s');
    ConversationTheorems.NextIsLater(s, s');
    hide Inv;
    hide KeysOk;
    hide PromptedOk;
    hide Touches;
    hide KeepsRest;
    hide ConversationTheorems.RowsKept;
    var step :| Do(s, step, s');
    if step.ActStep? {
      EventTouches(s, step.t, step.event);
      EventKeepsKeys(s, s', step.t);
      EventKeepsPrompted(s, s', step.t);
    } else {
      RestKept(s, step, s');
      RestKeepsKeys(s, s');
      RestKeepsPrompted(s, s');
    }
  }

  lemma StateOk(run: seq<State>, s: State)
    requires ConversationTheorems.IsRun(run) && s in run
    ensures OriginsOk(s)
  {
    forall s | Init(s) ensures OriginsOk(s) { ConversationTheorems.InitOk(s); }
    forall s, t | OriginsOk(s) && Next(s, t) ensures OriginsOk(t) { NextOk(s, t); }
    hide Init;
    hide Next;
    hide OriginsOk;
    var i: nat :| i < |run| && run[i] == s;
    Runs.Invariant(Init, Next, OriginsOk, run, i);
  }

  /** It makes no difference that the store and the locks go by the text of a key: keys
      in use anywhere in a reachable state are equal when their texts are. */
  lemma KeysAreTheirTexts(run: seq<State>, s: State, a: Key, b: Key)
    requires ConversationTheorems.IsRun(run) && s in run
    requires IsKeyIn(s, a) && IsKeyIn(s, b) && KeyText(a) == KeyText(b)
    ensures a == b
  {
    StateOk(run, s);
    assert LocksOk(s) && KeysOk(s);
    hide OriginsOk;
    hide KeyText;
    KeyTextInjective(a, b);
  }

  /** A message is answered only after it was prompted. */
  lemma AnsweredWasPrompted(run: seq<State>, s: State, id: string)
    requires ConversationTheorems.IsRun(run) && s in run && ReplyID(id) in s.messages
    ensures WasPrompted(s, id)
  {
    StateOk(run, s);
    hide ConversationTheorems.IsRun;
    hide Inv;
    hide KeysOk;
    hide ReplyID;
  }
}
