/** What holds along every run of the conversation machine. */
module ConversationTheorems {
  import opened Wrappers
  import opened Tables
  import opened Handoff
  import opened Conversations
  import opened ConversationInvariant
  import ConversationSteps
  import Runs

  ghost predicate IsRun(run: seq<State>) { Runs.IsRun(Init, Next, run) }

  lemma InitOk(s: State)
    requires Init(s)
    ensures Inv(s)
  {
  }

  /** Every state of every run satisfies the invariant. */
  lemma EveryStateOk(run: seq<State>, i: nat)
    requires IsRun(run) && i < |run|
    ensures Inv(run[i])
  {
    forall s | Init(s) ensures Inv(s) { InitOk(s); }
    forall s, s' | Inv(s) && Next(s, s') ensures Inv(s') { ConversationSteps.NextOk(s, s'); }
    Runs.Invariant(Init, Next, Inv, run, i);
  }

  lemma StateOk(run: seq<State>, s: State)
    requires IsRun(run) && s in run
    ensures Inv(s)
  {
    var i: nat :| i < |run| && run[i] == s;
    hide *;
    EveryStateOk(run, i);
  }

  lemma StepOf(run: seq<State>, i: nat, s: State, j: nat, s': State) returns (step: Step)
    requires IsRun(run) && Runs.AreNext(run, i, s, j, s')
    ensures Do(s, step, s')
  {
    hide Do;
    assert Runs.StepAt(Next, run, i);
    step :| Do(s, step, s');
  }

  // ---- replies ----------------------------------------------------------------

  /** `text` is the text of the one stored row that answers `id`. */
  ghost predicate IsTheReply(messages: Messages, id: string, text: string) {
    && ReplyID(id) in messages
    && Answers(messages[ReplyID(id)], id)
    && messages[ReplyID(id)].text == text
    && forall k :: k in messages && Answers(messages[k], id) ==> k == ReplyID(id)
  }

  lemma AnsweredOnce(s: State, id: string, text: string)
    requires Inv(s) && IsIncomingID(id) && Answered(s.messages, id, text)
    ensures IsTheReply(s.messages, id, text)
  {
    ConversationSteps.ReplyRowAnswers(s, id);
    forall k | k in s.messages && Answers(s.messages[k], id) ensures k == ReplyID(id) {
      assert MessageOk(s.messages, s.conversations, k);
    }
  }

  /** A call that returns without having steered returns the text of the single
      assistant row that answers its message, first time or cached. */
  lemma ReturnedIsTheReply(run: seq<State>, s: State, t: Tid, result: Result)
    requires IsRun(run) && s in run && t in s.threads
    requires CallOf(s, t).pc == Returned(result) && !result.steered
    ensures IsTheReply(s.messages, CallOf(s, t).input.id, result.reply)
  {
    StateOk(run, s);
    ConversationSteps.ThreadFacts(s, t);
    AnsweredOnce(s, s.threads[t].input.id, result.reply);
  }

  /** A call that looks for a stored reply finds it exactly when the message has been
      answered, and then goes on to return that text as cached, without a prompt. */
  lemma RetryFindsTheReply(run: seq<State>, s: State, t: Tid, reply: Option<string>)
    requires IsRun(run) && s in run && ConversationSteps.Holds(s, t, Replying)
    requires IsReplyTo(s.messages, CallOf(s, t).input.id, reply)
    ensures reply.Some? <==> ReplyID(CallOf(s, t).input.id) in s.messages
    ensures match reply
      case None => true
      case Some(text) =>
        && IsTheReply(s.messages, CallOf(s, t).input.id, text)
        && AfterRead(s, CallOf(s, t).input, Replying, ReadReply(reply)) == Cached(text)
  {
    StateOk(run, s);
    ConversationSteps.ThreadFacts(s, t);
    ConversationSteps.ReplyToIsTheReplyRow(s, s.threads[t].input.id, reply);
    if reply.Some? { AnsweredOnce(s, s.threads[t].input.id, reply.value); }
  }

  // ---- time -------------------------------------------------------------------

  /** A later state keeps every row of the message log, never lowers an epoch or a
      generation, only appends prompts, and prompts nothing that was answered or that
      lies before an epoch already reached. */
  ghost predicate Later(s: State, s': State) {
    && RowsKept(s, s')
    && |s.prompts| <= |s'.prompts|
    && s'.prompts[..|s.prompts|] == s.prompts
    && forall i :: |s.prompts| <= i < |s'.prompts| ==> NewPromptOk(s, s'.prompts[i])
  }

  ghost predicate RowsKept(s: State, s': State) {
    && s.maxTurns == s'.maxTurns
    && (forall id :: id in s.messages ==> id in s'.messages && s'.messages[id] == s.messages[id])
    && (forall key :: key in s.conversations ==>
          && key in s'.conversations
          && s.conversations[key].contextEpoch <= s'.conversations[key].contextEpoch
          && s.conversations[key].generation <= s'.conversations[key].generation)
  }

  ghost predicate NewPromptOk(s: State, p: Prompt) {
    && ReplyID(p.messageID) !in s.messages
    && (p.scope.key in s.conversations ==>
          s.conversations[p.scope.key].contextEpoch <= p.epoch)
  }

  lemma LaterReflexive(s: State)
    ensures Later(s, s)
  {
  }

  lemma LaterTransitive(s: State, t: State, u: State)
    requires Later(s, t) && Later(t, u)
    ensures Later(s, u)
  {
    assert u.prompts[..|s.prompts|] == u.prompts[..|t.prompts|][..|s.prompts|];
    forall i | |s.prompts| <= i < |u.prompts| ensures NewPromptOk(s, u.prompts[i]) {
      if i < |t.prompts| {
        assert u.prompts[i] == u.prompts[..|t.prompts|][i] == t.prompts[i];
      } else {
        assert NewPromptOk(t, u.prompts[i]);
      }
    }
  }

  /** Only the tables and the prompts matter. */
  lemma SameIsLater(s: State, s': State)
    requires s'.messages == s.messages && s'.conversations == s.conversations
    requires s'.prompts == s.prompts && s'.maxTurns == s.maxTurns
    ensures Later(s, s')
  {
  }

  lemma AddedIsLater(s: State, s': State, row: Message)
    requires s'.messages == AddMessage(s.messages, row) && s'.conversations == s.conversations
    requires s'.prompts == s.prompts && s'.maxTurns == s.maxTurns
    ensures Later(s, s')
  {
  }

  lemma PutIsLater(s: State, row: Conversation, put: State, s': State)
    requires put == Opened(s, row) || put == Recorded(s, row)
    requires s'.messages == put.messages && s'.conversations == put.conversations
    requires s'.prompts == put.prompts && s'.maxTurns == put.maxTurns
    requires row.scope.key in s.conversations ==>
      && s.conversations[row.scope.key].contextEpoch <= row.contextEpoch
      && s.conversations[row.scope.key].generation <= row.generation
    ensures Later(s, s')
  {
  }

  lemma PutOpenedIsLater(s: State, t: Tid, plan: Plan, handoff: seq<Message>, outcome: Outcome)
    requires Inv(s) && ConversationSteps.Holds(s, t, Putting(plan, handoff))
    ensures Later(s, ActPutOpened(s, t, CallOf(s, t).input, plan, handoff, outcome))
  {
    var row := OpeningRow(s.threads[t].input, plan, handoff);
    var s' := ActPutOpened(s, t, s.threads[t].input, plan, handoff, outcome);
    ConversationSteps.PuttingFacts(s, t, plan, handoff);
    ConversationSteps.OpeningRowOk(s, s.threads[t].input, plan, handoff);
    hide Inv;
    hide Later;
    if outcome.Lost? { SameIsLater(s, s'); } else { PutIsLater(s, row, Opened(s, row), s'); }
  }

  lemma PutTurnIsLater(
    s: State, t: Tid, plan: Plan, turn: Turn, handoff: seq<Message>, outcome: Outcome)
    requires Inv(s) && ConversationSteps.Holds(s, t, Closing(plan, turn, handoff))
    ensures Later(s, ActPutTurn(s, t, CallOf(s, t).input.scope, plan, turn, handoff, outcome))
  {
    var scope := s.threads[t].input.scope;
    var row := TurnRow(scope, plan, turn, handoff, s.maxTurns);
    var s' := ActPutTurn(s, t, scope, plan, turn, handoff, outcome);
    ConversationSteps.ClosingFacts(s, t, plan, turn, handoff);
    hide Inv;
    hide Later;
    if outcome.Lost? { SameIsLater(s, s'); } else { PutIsLater(s, row, Recorded(s, row), s'); }
  }

  lemma StartIsLater(s: State, t: Tid, plan: Plan, carried: seq<Message>)
    requires Inv(s) && ConversationSteps.Holds(s, t, Starting(plan, carried))
    ensures Later(s, ActStart(s, t, CallOf(s, t).input, CallOf(s, t).manager, plan, carried))
  {
    ConversationSteps.StartFacts(s, t, plan, carried);
    hide Inv;
  }

  /** Calls that end or move on leave the tables alone. */
  lemma WritingIsLater(s: State, t: Tid, at: At, w: WriteEvent)
    requires t in s.threads && FitsWrite(at, w)
    requires w.Check? || w.ReadCached? || w.Loaded? || w.Open? || w.Prompted? || w.Finish?
    ensures Later(s, ActWrite(s, t, CallOf(s, t).input, CallOf(s, t).manager, at, w))
  {
    hide Later;
    SameIsLater(s, ActWrite(s, t, s.threads[t].input, s.threads[t].manager, at, w));
  }

  lemma StoreUserIsLater(s: State, t: Tid, plan: Plan, carried: seq<Message>, outcome: Outcome)
    requires t in s.threads
    ensures Later(s, ActStoreUser(s, t, CallOf(s, t).input, plan, carried, outcome))
  {
    var s' := ActStoreUser(s, t, s.threads[t].input, plan, carried, outcome);
    hide Later;
    if s.threads[t].stored || outcome.Lost? { SameIsLater(s, s'); }
    else { AddedIsLater(s, s', UserRow(s.threads[t].input, plan.epoch)); }
  }

  lemma StoreReplyIsLater(
    s: State, t: Tid, plan: Plan, turn: Turn, outcome: Outcome, time: string)
    requires t in s.threads
    ensures Later(s, ActStoreReply(s, t, CallOf(s, t).input, plan, turn, outcome, time))
  {
    var s' := ActStoreReply(s, t, s.threads[t].input, plan, turn, outcome, time);
    hide Later;
    if outcome.Lost? { SameIsLater(s, s'); }
    else { AddedIsLater(s, s', ReplyRow(s.threads[t].input, turn, plan.epoch, time)); }
  }

  lemma WriteIsLater(s: State, t: Tid, at: At, w: WriteEvent)
    requires Inv(s) && ConversationSteps.Holds(s, t, at) && FitsWrite(at, w)
    ensures Later(s, ActWrite(s, t, CallOf(s, t).input, CallOf(s, t).manager, at, w))
  {
    hide Inv;
    hide Later;
    if w.PutOpened? { PutOpenedIsLater(s, t, at.plan, at.handoff, w.outcome); }
    else if w.PutTurn? { PutTurnIsLater(s, t, at.plan, at.turn, at.handoff, w.outcome); }
    else if w.Start? { StartIsLater(s, t, at.plan, at.carried); }
    else if w.StoreUser? { StoreUserIsLater(s, t, at.plan, at.carried, w.outcome); }
    else if w.StoreReply? { StoreReplyIsLater(s, t, at.plan, at.turn, w.outcome, w.time); }
    else { WritingIsLater(s, t, at, w); }
  }

  lemma SteerStoreIsLater(s: State, t: Tid, m: nat, active: Active, outcome: Outcome)
    requires t in s.threads
    ensures Later(s, ActSteerStore(s, t, CallOf(s, t).input, m, active, outcome))
  {
    var s' := ActSteerStore(s, t, s.threads[t].input, m, active, outcome);
    hide Later;
    if outcome.Lost? { SameIsLater(s, s'); }
    else { AddedIsLater(s, s', UserRow(s.threads[t].input, active.epoch)); }
  }

  lemma EventIsLater(s: State, t: Tid, e: Event)
    requires Inv(s) && CanAct(s, t, e)
    ensures Later(s, Act(s, t, e))
  {
    var pc := s.threads[t].pc;
    assert Fits(pc, e);
    hide Inv;
    hide Later;
    hide CanAct;
    hide FitsWrite;
    if e.Write? {
      WriteIsLater(s, t, pc.at, e.write);
    } else if e.SteerStore? {
      SteerStoreIsLater(s, t, pc.manager, pc.active, e.outcome);
    } else {
      MoveIsLater(s, t, e);
    }
  }

  /** Events that write no table. */
  lemma MoveIsLater(s: State, t: Tid, e: Event)
    requires t in s.threads && Fits(CallOf(s, t).pc, e) && !e.Write? && !e.SteerStore?
    ensures Later(s, Act(s, t, e))
  {
    var pc, input := s.threads[t].pc, s.threads[t].input;
    hide Later;
    hide AfterRead;
    hide ActWrite;
    hide ActSteerStore;
    hide FitsRead;
    hide FitsWrite;
    match e {
      case Fail => SameIsLater(s, Leave(s, t, Failed));
      case Miss => SameIsLater(s, Goto(s, t, Locking));
      case SteerCheck(m) =>
        SameIsLater(s, s);
        SameIsLater(s, Goto(s, t, SteerLook(m)));
      case SteerFind => SameIsLater(s, ActSteerFind(s, t, input, pc.manager));
      case SteerStore(_) => assert false;
      case SteerAnswer(delivered) => SameIsLater(s, ActSteerAnswer(s, t, pc.active, delivered));
      case Lock(m) => SameIsLater(s, ActLock(s, t, m));
      case Read(r) => SameIsLater(s, Continue(s, t, AfterRead(s, input, pc.at, r)));
      case Write(_) => assert false;
    }
  }

  lemma NextIsLater(s: State, s': State)
    requires Inv(s) && Next(s, s')
    ensures Later(s, s')
  {
    var step :| Do(s, step, s');
    hide Inv;
    hide Later;
    if step.ActStep? {
      EventIsLater(s, step.t, step.event);
    } else {
      OtherStepIsLater(s, step, s');
    }
  }

  lemma OtherStepIsLater(s: State, step: Step, s': State)
    requires Do(s, step, s') && !step.ActStep?
    ensures Later(s, s')
  {
    hide Later;
    hide CanBegin;
    hide CanEnd;
    hide IsThreadRoot;
    hide AddMessage;
    hide WithMessage;
    if step.SaveRootStep? {
      RootIsLater(s, step.message, step.outcome);
    } else {
      SameIsLater(s, s');
    }
  }

  lemma RootIsLater(s: State, message: Message, outcome: Outcome)
    ensures Later(s, WithMessage(s, message, outcome))
  {
    hide Later;
    hide AddMessage;
    var s' := WithMessage(s, message, outcome);
    if outcome.Effective() { AddedIsLater(s, s', message); } else { SameIsLater(s, s'); }
  }

  /** Any earlier state of a run against any later one. */
  lemma RunIsLater(run: seq<State>, i: nat, j: nat)
    requires IsRun(run) && i <= j < |run|
    ensures Later(run[i], run[j])
  {
    forall k: nat | k < |run| ensures Inv(run[k]) { EveryStateOk(run, k); }
    forall s ensures Later(s, s) { LaterReflexive(s); }
    forall s, t, u | Later(s, t) && Later(t, u) ensures Later(s, u) { LaterTransitive(s, t, u); }
    forall s, t | Inv(s) && Next(s, t) ensures Later(s, t) { NextIsLater(s, t); }
    Runs.Progress(Init, Next, Inv, Later, run, i, j);
  }

  /** What two moments of a run, one not after the other, have in common. */
  lemma MomentsAreLater(run: seq<State>, i: nat, s: State, j: nat, s': State)
    requires IsRun(run) && Runs.IsAt(run, i, s) && Runs.IsAt(run, j, s') && i <= j
    ensures Later(s, s') && Inv(s) && Inv(s')
  {
    hide IsRun;
    hide Later;
    hide Inv;
    RunIsLater(run, i, j);
    EveryStateOk(run, i);
    EveryStateOk(run, j);
  }

  lemma KeptBetween(run: seq<State>, i: nat, s: State, j: nat, s': State)
    requires IsRun(run) && Runs.IsAt(run, i, s) && Runs.IsAt(run, j, s') && i <= j
    ensures RowsKept(s, s')
  {
    hide IsRun;
    hide RowsKept;
    RunIsLater(run, i, j);
  }

  /** The prompt was sent between the two states. */
  predicate IsNewPrompt(s: State, s': State, p: Prompt) {
    exists n :: |s.prompts| <= n < |s'.prompts| && s'.prompts[n] == p
  }

  /** Once a message is answered it is never prompted again, through every retry,
      restart and change of persona. */
  lemma AnsweredIsNotPromptedAgain(
    run: seq<State>, i: nat, s: State, j: nat, s': State, id: string, p: Prompt)
    requires IsRun(run) && Runs.IsAt(run, i, s) && Runs.IsAt(run, j, s') && i <= j
    requires ReplyID(id) in s.messages && IsNewPrompt(s, s', p)
    ensures p.messageID != id
  {
    MomentsAreLater(run, i, s, j, s');
    hide IsRun;
    hide Inv;
    hide RowsKept;
    hide ReplyID;
  }

  // ---- epochs -----------------------------------------------------------------

  predicate IsRow(s: State, key: Key, row: Conversation) {
    key in s.conversations && s.conversations[key] == row
  }

  /** No prompt sent after a conversation reached an epoch carries a message with a
      smaller epoch; messages of other scopes come from the root exchange of a thread
      that is still in its first epoch. A fresh prompt carries nothing. */
  lemma PromptsRespectEpochs(
    run: seq<State>, i: nat, s: State, j: nat, s': State, p: Prompt, m: Message,
    row: Conversation)
    requires IsRun(run) && Runs.IsAt(run, i, s) && Runs.IsAt(run, j, s') && i <= j
    requires IsNewPrompt(s, s', p) && m in p.carried && IsRow(s, p.scope.key, row)
    ensures row.contextEpoch <= p.epoch <= m.contextEpoch && !p.isFresh
    ensures m.scope.key != p.scope.key ==>
      p.epoch == 1 && (m.id == p.scope.rootMessageID || Answers(m, p.scope.rootMessageID))
  {
    MomentsAreLater(run, i, s, j, s');
    hide IsRun;
    assert NewPromptOk(s, p) && PromptOk(p);
    hide Inv;
    hide Later;
    hide ReplyID;
    assert Belongs(p.scope, p.epoch, m);
  }

  /** The same of every handoff stored later. */
  lemma HandoffsRespectEpochs(
    run: seq<State>, i: nat, s: State, j: nat, s': State, key: Key, row: Conversation,
    row': Conversation, m: Message)
    requires IsRun(run) && Runs.IsAt(run, i, s) && Runs.IsAt(run, j, s') && i <= j
    requires IsRow(s, key, row) && IsRow(s', key, row') && m in row'.handoff
    ensures row.contextEpoch <= m.contextEpoch
  {
    MomentsAreLater(run, i, s, j, s');
    hide IsRun;
    assert RowOk(key, row', s'.maxTurns);
    hide Inv;
    assert Belongs(row'.scope, row'.contextEpoch, m);
  }

  /** Every message of a conversation, steered or not, has an epoch that the row has
      reached. */
  lemma MessagesWithinEpoch(run: seq<State>, s: State, m: Message)
    requires IsRun(run) && s in run && IsStored(s, m) && m.scope.key.Own?
    ensures HasReached(s, m.scope.key, m.contextEpoch) && m.contextEpoch >= 1
  {
    StateOk(run, s);
    hide IsRun;
    var id :| id in s.messages && s.messages[id] == m;
    assert MessageOk(s.messages, s.conversations, id);
    hide Inv;
  }

  predicate IsStored(s: State, m: Message) { m in s.messages.Values }

  predicate HasReached(s: State, key: Key, epoch: int) {
    key in s.conversations && epoch <= s.conversations[key].contextEpoch
  }

  /** A fresh message on an existing conversation opens the next epoch, in which no
      message is stored yet, with an empty handoff; on a new conversation it opens
      epoch 1. */
  lemma FreshOpensEmptyEpoch(run: seq<State>, s: State, t: Tid, plan: Plan, handoff: seq<Message>)
    requires IsRun(run) && s in run && ConversationSteps.Holds(s, t, Putting(plan, handoff))
    requires CallOf(s, t).input.isFresh
    ensures handoff == []
    ensures ScopeRows(s.messages, CallOf(s, t).input.scope.key, plan.epoch, "") == {}
    ensures match RowOf(s, CallOf(s, t).input.scope.key)
      case None => plan.epoch == 1
      case Some(row) => plan.epoch == row.contextEpoch + 1
  {
    StateOk(run, s);
    hide IsRun;
    ConversationSteps.ThreadFacts(s, t);
    ConversationSteps.PuttingFacts(s, t, plan, handoff);
    ConversationSteps.FreshEpochIsEmpty(s, s.threads[t].input, plan.(session := ""), "");
  }

  // ---- sessions ---------------------------------------------------------------

  /** A prompt is only ever sent to a session that the same process opened or loaded,
      and so is a steering request, however stale the turn it found. */
  lemma SessionsKnownBeforeUse(run: seq<State>, s: State, t: Tid)
    requires IsRun(run) && s in run && t in s.threads
    ensures match CallOf(s, t).pc
      case SteerSend(m, active) => (m, active.session) in s.known
      case Locked(Starting(plan, _)) => (CallOf(s, t).manager, plan.session) in s.known
      case Locked(Prompting(plan)) => (CallOf(s, t).manager, plan.session) in s.known
      case _ => true
  {
    StateOk(run, s);
    hide IsRun;
    ConversationSteps.ThreadFacts(s, t);
  }

  /** A session becomes known to a process only by that process opening or loading it. */
  lemma KnownByOpeningOrLoading(s: State, t: Tid, e: Event, m: nat, session: string)
    requires CanAct(s, t, e)
    requires (m, session) in Act(s, t, e).known && (m, session) !in s.known
    ensures CallOf(s, t).manager == m && e.Write?
    ensures e.write == Open(session) ||
      (e.write == Loaded && CallOf(s, t).pc.at.plan.session == session)
  {
    var thread := s.threads[t];
    if e.Write? {
      WriteKnown(s, t, thread.input, thread.manager, thread.pc.at, e.write);
    } else {
      OtherKnown(s, t, e);
    }
  }

  lemma OtherKnown(s: State, t: Tid, e: Event)
    requires t in s.threads && Fits(CallOf(s, t).pc, e) && !e.Write?
    ensures Act(s, t, e).known == s.known
  {
  }

  lemma WriteKnown(s: State, t: Tid, input: Input, m: nat, at: At, w: WriteEvent)
    requires t in s.threads && FitsWrite(at, w)
    ensures ActWrite(s, t, input, m, at, w).known ==
      if w.Open? then s.known + {(m, w.session)}
      else if w.Loaded? then s.known + {(m, at.plan.session)}
      else s.known
  {
    if w.PutOpened? || w.PutTurn? || w.StoreUser? || w.StoreReply? {
      TableWriteKnown(s, t, input, m, at, w);
    } else if !w.Open? && !w.Loaded? {
      CallWriteKnown(s, t, input, m, at, w);
    }
  }

  lemma TableWriteKnown(s: State, t: Tid, input: Input, m: nat, at: At, w: WriteEvent)
    requires t in s.threads && FitsWrite(at, w)
    requires w.PutOpened? || w.PutTurn? || w.StoreUser? || w.StoreReply?
    ensures ActWrite(s, t, input, m, at, w).known == s.known
  {
  }

  lemma CallWriteKnown(s: State, t: Tid, input: Input, m: nat, at: At, w: WriteEvent)
    requires t in s.threads && FitsWrite(at, w)
    requires w.Check? || w.ReadCached? || w.Start? || w.Prompted? || w.Finish?
    ensures ActWrite(s, t, input, m, at, w).known == s.known
  {
  }

  /** The generation of a row is the number of session-opening writes of its key. A
      row never counts more turns than the limit, and no generation has more recorded
      turns than the limit. Epochs and generations never fall. */
  lemma GenerationsAndTurns(
    run: seq<State>, i: nat, s: State, j: nat, s': State, key: Key, row: Conversation, g: int)
    requires IsRun(run) && Runs.IsAt(run, i, s) && Runs.IsAt(run, j, s') && i <= j
    requires IsRow(s, key, row)
    ensures row.generation == Count(s.opens, key)
    ensures HasReached(s', key, row.contextEpoch) && row.generation <= Count(s'.opens, key)
    ensures 0 <= row.completedTurns <= s.maxTurns == s'.maxTurns
    ensures Count(s.recorded, (key, g)) <= s.maxTurns
  {
    MomentsAreLater(run, i, s, j, s');
    hide IsRun;
    assert RowOk(key, row, s.maxTurns);
    assert (key, g) in s.recorded ==> RecordOk(s, key, g);
  }

  // ---- one turn at a time -----------------------------------------------------

  /** The call that holds the lock of the key waits for its prompt, with this session and
      epoch, at this manager. */
  predicate IsTurnOf(s: State, m: nat, key: Key, active: Active) {
    && key in s.locks && s.locks[key] in s.threads
    && var thread := s.threads[s.locks[key]];
    && thread.manager == m && IsPrompting(thread.pc)
    && active == Active(thread.pc.at.plan.session, thread.pc.at.plan.epoch)
  }

  predicate IsActive(s: State, m: nat, key: Key, active: Active) {
    (m, key) in s.active && s.active[(m, key)] == active
  }

  /** At most one call holds the lock of a key, and at most one process has an active
      turn for it, so the order in which the slots are scanned cannot change which
      turn a message steers. */
  lemma OneActiveTurn(
    run: seq<State>, s: State, m: nat, n: nat, key: Key, active: Active, other: Active)
    requires IsRun(run) && s in run && IsActive(s, m, key, active) && IsActive(s, n, key, other)
    ensures m == n && active == other && IsTurnOf(s, m, key, active)
  {
    StateOk(run, s);
    hide IsRun;
    ConversationSteps.ThreadFacts(s, s.locks[key]);
  }
}
