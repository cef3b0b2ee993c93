/** Every event of the conversation machine keeps the invariant. */
module ConversationSteps {
  import opened Wrappers
  import opened Tables
  import opened Handoff
  import opened Conversations
  import opened ConversationInvariant

  /** `s1` differs from `s` in its tables and histories only. */
  ghost predicate SameCalls(s: State, s1: State) {
    s1.threads == s.threads && s1.locks == s.locks && s1.active == s.active
  }

  /** The call may stand as `thread` over the tables of `s`. */
  ghost predicate Ready(s: State, thread: Thread) {
    forall call :: call == thread ==> PcOk(s, call)
  }

  lemma ThreadFacts(s: State, t: Tid)
    requires ThreadsOk(s) && t in s.threads
    ensures ThreadOk(s, t)
  {
  }

  lemma SharedSame(s: State, s': State)
    requires s'.messages == s.messages && s'.conversations == s.conversations
    requires s'.maxTurns == s.maxTurns && s'.opens == s.opens && s'.recorded == s.recorded
    requires s'.prompts == s.prompts && s'.loaded == s.loaded && s'.known == s.known
    requires SharedOk(s)
    ensures SharedOk(s')
  {
  }

  lemma PcSame(s: State, s': State, thread: Thread)
    requires s'.messages == s.messages && s'.conversations == s.conversations
    requires s'.maxTurns == s.maxTurns && s'.known == s.known
    requires IsPrompting(thread.pc) ==> s'.active == s.active
    requires PcOk(s, thread)
    ensures PcOk(s', thread)
  {
  }

  /** All calls are fine when the acting one is and it was gentle on the others. */
  lemma CallsOk(s: State, s': State, t: Tid)
    requires ThreadsOk(s) && t in s.threads && t in s'.threads
    requires s'.threads == s.threads[t := CallOf(s', t)]
    requires CallOf(s', t).input == CallOf(s, t).input
    requires Gentle(s, s', t, CallOf(s, t).input.id)
    requires ThreadOk(s', t)
    ensures ThreadsOk(s')
  {
    hide PcOk;
    hide Gentle;
    forall u | u in s'.threads ensures ThreadOk(s', u) {
      if u != t {
        assert s.threads[u].input.id != s.threads[t].input.id;
        OthersUnharmed(s, s', t, s.threads[t].input.id, u);
      }
    }
  }

  lemma GentleSelf(s: State, t: Tid, id: string)
    ensures Gentle(s, s, t, id)
  {
  }

  lemma GentleMove(s: State, s1: State, t: Tid, id: string, call: Thread)
    requires SameCalls(s, s1) && Gentle(s, s1, t, id) && t in s.threads
    ensures Gentle(s, s1.(threads := s1.threads[t := call]), t, id)
  {
  }

  lemma LocksMove(s: State, s': State, t: Tid)
    requires LocksOk(s) && ActiveOk(s) && t in s.threads && t in s'.threads
    requires s'.threads == s.threads[t := CallOf(s', t)]
    requires CallOf(s', t).input == CallOf(s, t).input
    requires s'.locks == s.locks && s'.active == s.active
    requires CallOf(s', t).pc.Locked? == CallOf(s, t).pc.Locked?
    requires !IsPrompting(CallOf(s, t).pc)
    ensures LocksOk(s') && ActiveOk(s')
  {
  }

  /** A call writes tables and goes on as `call`, keeping or not having its lock. */
  lemma MoveCallOk(s: State, s1: State, t: Tid, call: Thread)
    requires Inv(s) && t in s.threads && call.input == CallOf(s, t).input
    requires SameCalls(s, s1) && SharedOk(s1) && Gentle(s, s1, t, CallOf(s, t).input.id)
    requires call.pc.Locked? == CallOf(s, t).pc.Locked?
    requires !IsPrompting(call.pc) && !IsPrompting(CallOf(s, t).pc)
    requires Ready(s1, call)
    ensures Inv(s1.(threads := s1.threads[t := call]))
  {
    var s', id := s1.(threads := s1.threads[t := call]), s.threads[t].input.id;
    ThreadFacts(s, t);
    SharedSame(s1, s');
    assert PcOk(s1, call);
    PcSame(s1, s', call);
    GentleMove(s, s1, t, id, call);
    CallsOk(s, s', t);
    LocksMove(s, s', t);
  }

  lemma MoveOk(s: State, s1: State, t: Tid, pc: Pc)
    requires Inv(s) && t in s.threads
    requires SameCalls(s, s1) && SharedOk(s1) && Gentle(s, s1, t, CallOf(s, t).input.id)
    requires pc.Locked? == CallOf(s, t).pc.Locked?
    requires !IsPrompting(pc) && !IsPrompting(CallOf(s, t).pc)
    requires Ready(s1, CallOf(s, t).(pc := pc))
    ensures Inv(Goto(s1, t, pc))
  {
    MoveCallOk(s, s1, t, s.threads[t].(pc := pc));
  }

  lemma GentleLeave(s: State, s1: State, t: Tid, pc: Pc)
    requires SameCalls(s, s1) && t in s.threads && Gentle(s, s1, t, CallOf(s, t).input.id)
    requires ThreadOk(s, t)
    ensures Gentle(s, Leave(s1, t, pc), t, CallOf(s, t).input.id)
  {
    hide PcOk;
  }

  lemma LocksLeave(s: State, s1: State, t: Tid, pc: Pc)
    requires LocksOk(s) && ActiveOk(s) && SameCalls(s, s1) && t in s.threads && ThreadOk(s, t)
    requires IsOver(pc)
    ensures LocksOk(Leave(s1, t, pc)) && ActiveOk(Leave(s1, t, pc))
  {
    hide PcOk;
    var s' := Leave(s1, t, pc);
    forall m, k | (m, k) in s'.active
      ensures k in s'.locks && s'.locks[k] in s'.threads &&
        s'.threads[s'.locks[k]].manager == m && IsPrompting(s'.threads[s'.locks[k]].pc)
    {
      assert (m, k) in s.active;
    }
  }

  /** A call writes tables and ends. */
  lemma LeaveOk(s: State, s1: State, t: Tid, pc: Pc)
    requires Inv(s) && t in s.threads && IsOver(pc)
    requires SameCalls(s, s1) && SharedOk(s1) && Gentle(s, s1, t, CallOf(s, t).input.id)
    requires Ready(s1, CallOf(s, t).(pc := pc))
    ensures Inv(Leave(s1, t, pc))
  {
    var s' := Leave(s1, t, pc);
    ThreadFacts(s, t);
    SharedSame(s1, s');
    assert PcOk(s1, s'.threads[t]);
    PcSame(s1, s', s'.threads[t]);
    GentleLeave(s, s1, t, pc);
    CallsOk(s, s', t);
    LocksLeave(s, s1, t, pc);
  }

  // ---- steering ---------------------------------------------------------------

  lemma FailOk(s: State, t: Tid)
    requires Inv(s) && t in s.threads
    ensures Inv(Leave(s, t, Failed))
  {
    GentleSelf(s, t, s.threads[t].input.id);
    LeaveOk(s, s, t, Failed);
  }

  lemma OutsideMoveOk(s: State, t: Tid, pc: Pc)
    requires Inv(s) && t in s.threads && !CallOf(s, t).pc.Locked?
    requires pc.Steering? || pc.SteerLook? || pc.Locking?
    ensures Inv(Goto(s, t, pc))
  {
    GentleSelf(s, t, s.threads[t].input.id);
    MoveOk(s, s, t, pc);
  }

  lemma SteerFindOk(s: State, t: Tid, m: nat)
    requires Inv(s) && t in s.threads && CallOf(s, t).pc == SteerLook(m)
    ensures Inv(ActSteerFind(s, t, CallOf(s, t).input, m))
  {
    var key := s.threads[t].input.scope.key;
    if (m, key) in s.active {
      ActiveIsSettled(s, m, key);
      GentleSelf(s, t, s.threads[t].input.id);
      MoveOk(s, s, t, SteerAdd(m, s.active[(m, key)]));
    } else {
      OutsideMoveOk(s, t, Steering);
    }
  }

  lemma ActiveIsSettled(s: State, m: nat, key: Key)
    requires Inv(s) && (m, key) in s.active
    ensures StaleOk(s, key, m, s.active[(m, key)])
  {
    ThreadFacts(s, s.locks[key]);
    assert RowOk(key, s.conversations[key], s.maxTurns);
  }

  lemma SteerSentOk(s: State, t: Tid, m: nat, active: Active)
    requires Inv(s) && t in s.threads && CallOf(s, t).pc == SteerSend(m, active)
    ensures Inv(Leave(s, t, Returned(Result("", active.session, 0, false, true))))
  {
    ThreadFacts(s, t);
    GentleSelf(s, t, s.threads[t].input.id);
    LeaveOk(s, s, t, Returned(Result("", active.session, 0, false, true)));
  }

  // ---- what a stored reply means ----------------------------------------------

  /** ReplyTo answers with the text of the one reply row, or there is none. */
  lemma ReplyToIsTheReplyRow(s: State, id: string, reply: Option<string>)
    requires MessagesOk(s.messages, s.conversations) && IsIncomingID(id)
    requires IsReplyTo(s.messages, id, reply)
    ensures match reply
      case None => Unanswered(s.messages, id)
      case Some(text) => Answered(s.messages, id, text)
  {
    match reply {
      case None =>
        if ReplyID(id) in s.messages {
          ReplyRowAnswers(s, id);
        }
      case Some(text) =>
        var k :| k in s.messages && Answers(s.messages[k], id) && s.messages[k].text == text;
        assert MessageOk(s.messages, s.conversations, k);
    }
  }

  /** A row with the ID of a reply answers that message, which is stored. */
  lemma ReplyRowAnswers(s: State, id: string)
    requires MessagesOk(s.messages, s.conversations) && ReplyID(id) in s.messages
    ensures Answers(s.messages[ReplyID(id)], id) && id in s.messages
  {
    assert MessageOk(s.messages, s.conversations, ReplyID(id));
    assert IsReplyID(ReplyID(id));
    ReplyIDInjective(id, s.messages[ReplyID(id)].inReplyTo);
  }

  // ---- reading ----------------------------------------------------------------

  ghost predicate Holds(s: State, t: Tid, at: At) {
    t in s.threads && s.threads[t].pc == Locked(at)
  }

  /** A read moves a call on and writes nothing. */
  lemma ReadOk(s: State, t: Tid, at: At, next: At)
    requires Inv(s) && Holds(s, t, at) && !at.Prompting? && !next.Prompting?
    requires Ready(s, CallOf(s, t).(pc := Locked(next)))
    ensures Inv(Continue(s, t, next))
  {
    GentleSelf(s, t, s.threads[t].input.id);
    MoveOk(s, s, t, Locked(next));
  }

  lemma CheckReady(s: State, t: Tid, found: bool)
    requires Inv(s) && Holds(s, t, Checking) && found == (CallOf(s, t).input.id in s.messages)
    ensures Ready(s, CallOf(s, t).(
      stored := found, pc := Locked(if found then Replying else Reading)))
  {
    var id := s.threads[t].input.id;
    if !found && ReplyID(id) in s.messages {
      ReplyRowAnswers(s, id);
    }
  }

  lemma CheckOk(s: State, t: Tid)
    requires Inv(s) && Holds(s, t, Checking)
    ensures Inv(ActCheck(s, t))
  {
    var found := s.threads[t].input.id in s.messages;
    CheckReady(s, t, found);
    GentleSelf(s, t, s.threads[t].input.id);
    MoveCallOk(s, s, t, s.threads[t].(
      stored := found, pc := Locked(if found then Replying else Reading)));
  }

  lemma ReadReplyOk(s: State, t: Tid, reply: Option<string>)
    requires Inv(s) && Holds(s, t, Replying) && IsReplyTo(s.messages, CallOf(s, t).input.id, reply)
    ensures Inv(Continue(s, t, if reply.Some? then Cached(reply.value) else Reading))
  {
    ThreadFacts(s, t);
    ReplyToIsTheReplyRow(s, s.threads[t].input.id, reply);
    ReadOk(s, t, Replying, if reply.Some? then Cached(reply.value) else Reading);
  }

  lemma ReadCachedOk(s: State, t: Tid, reply: string)
    requires Inv(s) && Holds(s, t, Cached(reply))
    ensures Inv(ActReadCached(s, t, CallOf(s, t).input.scope.key, reply))
  {
    var thread := s.threads[t];
    CachedFacts(s, t, reply);
    GentleSelf(s, t, thread.input.id);
    var pc := ActReadCached(s, t, thread.input.scope.key, reply).threads[t].pc;
    AnsweredReady(s, thread, pc);
    assert SharedOk(s);
    hide Inv;
    hide Ready;
    hide Gentle;
    hide SharedOk;
    LeaveOk(s, s, t, pc);
  }

  lemma CachedFacts(s: State, t: Tid, reply: string)
    requires ThreadsOk(s) && Holds(s, t, Cached(reply))
    ensures Answered(s.messages, CallOf(s, t).input.id, reply)
  {
    ThreadFacts(s, t);
  }

  lemma AnsweredReady(s: State, thread: Thread, pc: Pc)
    requires pc.Returned? && !pc.result.steered
    requires Answered(s.messages, thread.input.id, pc.result.reply)
    ensures Ready(s, thread.(pc := pc))
  {
  }

  lemma ReadRowOk(s: State, t: Tid)
    requires Inv(s) && Holds(s, t, Reading)
    ensures
      var input := CallOf(s, t).input;
      var row := RowOf(s, input.scope.key);
      Inv(Continue(s, t, Before(PlanFor(row, input.isFresh, s.maxTurns), Unread)))
  {
    var thread := s.threads[t];
    var plan := PlanFor(RowOf(s, thread.input.scope.key), thread.input.isFresh, s.maxTurns);
    ReadingFacts(s, t);
    PlanForOk(s, thread.input);
    BeforeReady(s, thread, plan, Unread);
    hide Ready;
    hide PlanFor;
    hide PlanOk;
    ReadOk(s, t, Reading, Before(plan, Unread));
  }

  lemma ReadingFacts(s: State, t: Tid)
    requires ThreadsOk(s) && Holds(s, t, Reading)
    ensures Unanswered(s.messages, CallOf(s, t).input.id)
    ensures CallOf(s, t).stored ==> CallOf(s, t).input.id in s.messages
  {
    ThreadFacts(s, t);
  }

  lemma PlanForOk(s: State, input: Input)
    requires RowsOk(s.conversations, s.maxTurns)
    ensures
      var row := RowOf(s, input.scope.key);
      PlanOk(row, s.maxTurns, input, PlanFor(row, input.isFresh, s.maxTurns))
  {
    assert input.scope.key in s.conversations ==>
      RowOk(input.scope.key, s.conversations[input.scope.key], s.maxTurns);
  }

  lemma BeforeReady(s: State, thread: Thread, plan: Plan, got: Gathered)
    requires Unanswered(s.messages, thread.input.id)
    requires PlanOk(RowOf(s, thread.input.scope.key), s.maxTurns, thread.input, plan)
    requires GotOk(thread.input.scope, plan, thread.input.isFresh, got)
    requires thread.stored ==> thread.input.id in s.messages
    ensures Ready(s, thread.(pc := Locked(Before(plan, got))))
  {
  }

  /** Gathering before the prompt goes on with whatever belongs to the plan. */
  lemma GatherBeforeOk(s: State, t: Tid, plan: Plan, got: Gathered, next: Gathered)
    requires Inv(s) && Holds(s, t, Before(plan, got))
    requires GotOk(CallOf(s, t).input.scope, plan, CallOf(s, t).input.isFresh, next)
    ensures Inv(Continue(s, t, Before(plan, next)))
  {
    BeforeFacts(s, t, plan, got);
    BeforeReady(s, s.threads[t], plan, next);
    hide Ready;
    ReadOk(s, t, Before(plan, got), Before(plan, next));
  }

  lemma BeforeFacts(s: State, t: Tid, plan: Plan, got: Gathered)
    requires ThreadsOk(s) && Holds(s, t, Before(plan, got))
    ensures
      var input := CallOf(s, t).input;
      && Unanswered(s.messages, input.id)
      && PlanOk(RowOf(s, input.scope.key), s.maxTurns, input, plan)
      && GotOk(input.scope, plan, input.isFresh, got) && input.scope.key.Own?
      && (CallOf(s, t).stored ==> input.id in s.messages)
  {
    ThreadFacts(s, t);
  }

  lemma AfterFacts(s: State, t: Tid, plan: Plan, turn: Turn, got: Gathered)
    requires ThreadsOk(s) && Holds(s, t, After(plan, turn, got))
    ensures
      var thread := CallOf(s, t);
      && Answered(s.messages, thread.input.id, turn.reply)
      && Settled(s, thread.manager, thread.input.scope.key, plan)
      && GotOk(thread.input.scope, plan, false, got)
      && (thread.stored ==> thread.input.id in s.messages)
  {
    ThreadFacts(s, t);
  }

  lemma AfterReady(s: State, thread: Thread, plan: Plan, turn: Turn, got: Gathered)
    requires Answered(s.messages, thread.input.id, turn.reply)
    requires Settled(s, thread.manager, thread.input.scope.key, plan)
    requires GotOk(thread.input.scope, plan, false, got)
    requires thread.stored ==> thread.input.id in s.messages
    ensures Ready(s, thread.(pc := Locked(After(plan, turn, got))))
  {
  }

  /** Gathering after the reply goes on with whatever belongs to the plan. */
  lemma GatherAfterOk(s: State, t: Tid, plan: Plan, turn: Turn, got: Gathered, next: Gathered)
    requires Inv(s) && Holds(s, t, After(plan, turn, got))
    requires GotOk(CallOf(s, t).input.scope, plan, false, next)
    ensures Inv(Continue(s, t, After(plan, turn, next)))
  {
    AfterFacts(s, t, plan, turn, got);
    AfterReady(s, s.threads[t], plan, turn, next);
    hide Ready;
    ReadOk(s, t, After(plan, turn, got), After(plan, turn, next));
  }

  lemma RootBelongs(s: State, input: Input, plan: Plan, isFresh: bool)
    requires MessagesOk(s.messages, s.conversations) && (isFresh ==> input.isFresh)
    ensures GotOk(input.scope, plan, isFresh, RootGot(s, input, plan.epoch))
  {
    var root := input.scope.rootMessageID;
    assert root in s.messages ==> MessageOk(s.messages, s.conversations, root);
  }

  lemma ReadRootOk(s: State, t: Tid, at: At)
    requires Inv(s) && Holds(s, t, at) && FitsRead(at, ReadRoot)
    ensures Inv(Continue(s, t, WithGot(at, RootGot(s, CallOf(s, t).input, at.plan.epoch))))
  {
    assert MessagesOk(s.messages, s.conversations);
    hide Inv;
    hide Continue;
    hide MessagesOk;
    var input := s.threads[t].input;
    var got := RootGot(s, input, at.plan.epoch);
    hide RootGot;
    if at.Before? {
      RootBelongs(s, input, at.plan, input.isFresh);
      GatherBeforeOk(s, t, at.plan, Unread, got);
    } else {
      RootBelongs(s, input, at.plan, false);
      GatherAfterOk(s, t, at.plan, at.turn, Unread, got);
    }
  }

  /** The root exchange belongs to the first epoch of its thread. */
  lemma AnswerBelongs(
    s: State, scope: Scope, plan: Plan, isFresh: bool, root: Option<Message>,
    answer: Option<Message>, exclude: string)
    requires MessagesOk(s.messages, s.conversations)
    requires GotOk(scope, plan, isFresh, RootRead(root))
    requires IsFirstAnswer(s.messages, scope.rootMessageID, answer)
    ensures GotOk(scope, plan, isFresh, HeadRead(Head(root, answer, exclude)))
  {
    assert answer.Some? ==> MessageOk(s.messages, s.conversations, answer.value.id);
  }

  lemma ReadAnswerOk(s: State, t: Tid, at: At, answer: Option<Message>)
    requires Inv(s) && Holds(s, t, at) && FitsRead(at, ReadAnswer(answer))
    requires IsFirstAnswer(s.messages, CallOf(s, t).input.scope.rootMessageID, answer)
    ensures
      var input := CallOf(s, t).input;
      Inv(Continue(s, t, WithGot(at, HeadRead(Head(at.got.root, answer, Excluded(input, at))))))
  {
    assert MessagesOk(s.messages, s.conversations) && ThreadsOk(s);
    hide Inv;
    hide ThreadsOk;
    hide MessagesOk;
    hide Continue;
    hide IsFirstAnswer;
    hide GotOk;
    hide PlanOk;
    hide Settled;
    var input := s.threads[t].input;
    var exclude := Excluded(input, at);
    var got := HeadRead(Head(at.got.root, answer, exclude));
    hide Head;
    if at.Before? {
      BeforeFacts(s, t, at.plan, at.got);
      AnswerBelongs(s, input.scope, at.plan, input.isFresh, at.got.root, answer, exclude);
      GatherBeforeOk(s, t, at.plan, at.got, got);
    } else {
      AfterFacts(s, t, at.plan, at.turn, at.got);
      AnswerBelongs(s, input.scope, at.plan, false, at.got.root, answer, exclude);
      GatherAfterOk(s, t, at.plan, at.turn, at.got, got);
    }
  }

  /** A fresh message on a conversation opens an epoch that no stored message has. */
  lemma FreshEpochIsEmpty(s: State, input: Input, plan: Plan, exclude: string)
    requires MessagesOk(s.messages, s.conversations) && input.isFresh && input.scope.key.Own?
    requires PlanOk(RowOf(s, input.scope.key), s.maxTurns, input, plan)
    ensures ScopeRows(s.messages, input.scope.key, plan.epoch, exclude) == {}
  {
    forall id | id in s.messages && s.messages[id].scope.key == input.scope.key
      ensures s.messages[id].contextEpoch != plan.epoch
    {
      assert MessageOk(s.messages, s.conversations, id);
    }
  }

  /** What BuildHandoff selects belongs to the scope and epoch it was asked for. */
  lemma SelectionBelongs(
    s: State, scope: Scope, epoch: int, exclude: string, head: seq<Message>, recent: seq<Message>)
    requires MessagesOk(s.messages, s.conversations)
    requires IsRecent(ScopeRows(s.messages, scope.key, epoch, exclude), MAX_HANDOFF_MESSAGES, recent)
    requires AllBelong(scope, epoch, head)
    ensures AllBelong(scope, epoch, head + Unseen(head, Reversed(recent)))
    ensures head == [] && ScopeRows(s.messages, scope.key, epoch, exclude) == {} ==>
      head + Unseen(head, Reversed(recent)) == []
  {
    var rows := ScopeRows(s.messages, scope.key, epoch, exclude);
    var all :| ListsDown(all, rows) && recent == Limited(all, MAX_HANDOFF_MESSAGES);
    forall m | m in Reversed(recent)
      ensures m in rows && Belongs(scope, epoch, m) && m.contextEpoch >= 1
    {
      assert m in recent && m in all && m in Elements(all);
      assert MessageOk(s.messages, s.conversations, m.id);
    }
    forall i | 0 <= i < |all| ensures all[i] in rows {
      assert all[i] in Elements(all);
    }
  }

  lemma LoadingReady(s: State, thread: Thread, plan: Plan, handoff: seq<Message>)
    requires Unanswered(s.messages, thread.input.id)
    requires PlanOk(RowOf(s, thread.input.scope.key), s.maxTurns, thread.input, plan)
    requires HandoffOk(thread.input, plan, handoff)
    requires thread.stored ==> thread.input.id in s.messages
    ensures Ready(s, thread.(pc := Locked(Loading(plan, handoff))))
  {
  }

  lemma HandoffBelongs(
    s: State, input: Input, plan: Plan, head: seq<Message>, recent: seq<Message>)
    requires MessagesOk(s.messages, s.conversations) && input.scope.key.Own?
    requires PlanOk(RowOf(s, input.scope.key), s.maxTurns, input, plan)
    requires GotOk(input.scope, plan, input.isFresh, HeadRead(head))
    requires IsRecent(
      ScopeRows(s.messages, input.scope.key, plan.epoch, input.id), MAX_HANDOFF_MESSAGES, recent)
    ensures HandoffOk(input, plan, head + Unseen(head, Reversed(recent)))
  {
    SelectionBelongs(s, input.scope, plan.epoch, input.id, head, recent);
    if input.isFresh {
      FreshEpochIsEmpty(s, input, plan, input.id);
    }
    hide AllBelong;
    hide IsRecent;
    hide MessagesOk;
    hide PlanOk;
  }

  lemma RecentBeforeOk(
    s: State, t: Tid, plan: Plan, head: seq<Message>, recent: seq<Message>)
    requires Inv(s) && Holds(s, t, Before(plan, HeadRead(head)))
    requires
      var input := CallOf(s, t).input;
      var rows := ScopeRows(s.messages, input.scope.key, plan.epoch, input.id);
      IsRecent(rows, MAX_HANDOFF_MESSAGES, recent)
    ensures Inv(Continue(s, t, Loading(plan, head + Unseen(head, Reversed(recent)))))
  {
    BeforeFacts(s, t, plan, HeadRead(head));
    HandoffBelongs(s, s.threads[t].input, plan, head, recent);
    var handoff := head + Unseen(head, Reversed(recent));
    LoadingReady(s, s.threads[t], plan, handoff);
    hide Ready;
    hide ScopeRows;
    hide IsRecent;
    hide Unseen;
    ReadOk(s, t, Before(plan, HeadRead(head)), Loading(plan, handoff));
  }

  lemma ClosingReady(s: State, thread: Thread, plan: Plan, turn: Turn, handoff: seq<Message>)
    requires Answered(s.messages, thread.input.id, turn.reply)
    requires Settled(s, thread.manager, thread.input.scope.key, plan)
    requires AllBelong(thread.input.scope, plan.epoch, handoff)
    requires thread.stored ==> thread.input.id in s.messages
    ensures Ready(s, thread.(pc := Locked(Closing(plan, turn, handoff))))
  {
  }

  lemma RecentAfterOk(
    s: State, t: Tid, plan: Plan, turn: Turn, head: seq<Message>, recent: seq<Message>)
    requires Inv(s) && Holds(s, t, After(plan, turn, HeadRead(head)))
    requires
      var rows := ScopeRows(s.messages, CallOf(s, t).input.scope.key, plan.epoch, "");
      IsRecent(rows, MAX_HANDOFF_MESSAGES, recent)
    ensures Inv(Continue(s, t, Closing(plan, turn, head + Unseen(head, Reversed(recent)))))
  {
    AfterFacts(s, t, plan, turn, HeadRead(head));
    SelectionBelongs(s, s.threads[t].input.scope, plan.epoch, "", head, recent);
    var handoff := head + Unseen(head, Reversed(recent));
    ClosingReady(s, s.threads[t], plan, turn, handoff);
    hide Ready;
    hide ScopeRows;
    hide IsRecent;
    hide Unseen;
    ReadOk(s, t, After(plan, turn, HeadRead(head)), Closing(plan, turn, handoff));
  }

  lemma ResumeOk(s: State, t: Tid, plan: Plan, handoff: seq<Message>)
    requires Inv(s) && Holds(s, t, Loading(plan, handoff)) && plan.session != ""
    requires IsLoaded(s, CallOf(s, t).manager, CallOf(s, t).input.scope.key, plan.session)
    ensures Inv(Continue(s, t, Adding(plan, [])))
  {
    LoadingFacts(s, t, plan, handoff);
    LoadedIsSettled(s, t, plan);
    AddingReady(s, s.threads[t], plan, []);
    hide Ready;
    ReadOk(s, t, Loading(plan, handoff), Adding(plan, []));
  }

  lemma LoadingFacts(s: State, t: Tid, plan: Plan, handoff: seq<Message>)
    requires ThreadsOk(s)
    requires Holds(s, t, Loading(plan, handoff)) || Holds(s, t, Opening(plan, handoff))
    ensures
      var input := CallOf(s, t).input;
      && Unanswered(s.messages, input.id)
      && PlanOk(RowOf(s, input.scope.key), s.maxTurns, input, plan)
      && HandoffOk(input, plan, handoff)
      && (CallOf(s, t).stored ==> input.id in s.messages)
      && (CallOf(s, t).pc.at.Opening? ==> plan.session == "")
  {
    ThreadFacts(s, t);
  }

  /** A planned session that this process has loaded is the stored one. */
  lemma LoadedIsSettled(s: State, t: Tid, plan: Plan)
    requires t in s.threads && plan.session != "" && LoadedOk(s)
    requires var input := CallOf(s, t).input;
      && PlanOk(RowOf(s, input.scope.key), s.maxTurns, input, plan)
      && IsLoaded(s, CallOf(s, t).manager, input.scope.key, plan.session)
    ensures Settled(s, CallOf(s, t).manager, CallOf(s, t).input.scope.key, plan)
  {
  }

  lemma OpeningReady(s: State, thread: Thread, plan: Plan, handoff: seq<Message>)
    requires Unanswered(s.messages, thread.input.id) && HandoffOk(thread.input, plan, handoff)
    requires PlanOk(RowOf(s, thread.input.scope.key), s.maxTurns, thread.input, plan)
    requires plan.session == "" && (thread.stored ==> thread.input.id in s.messages)
    ensures Ready(s, thread.(pc := Locked(Opening(plan, handoff))))
  {
  }

  lemma MissingOk(s: State, t: Tid, plan: Plan, handoff: seq<Message>)
    requires Inv(s) && Holds(s, t, Loading(plan, handoff)) && plan.session != ""
    ensures Inv(Continue(s, t, Opening(Plan("", plan.generation + 1, plan.epoch, 0), handoff)))
  {
    var next := Plan("", plan.generation + 1, plan.epoch, 0);
    LoadingFacts(s, t, plan, handoff);
    OpeningReady(s, s.threads[t], next, handoff);
    hide Ready;
    ReadOk(s, t, Loading(plan, handoff), Opening(next, handoff));
  }

  lemma RotateOk(s: State, t: Tid, plan: Plan, handoff: seq<Message>)
    requires Inv(s) && Holds(s, t, Loading(plan, handoff)) && plan.session == ""
    ensures Inv(Continue(s, t, Opening(plan, handoff)))
  {
    LoadingFacts(s, t, plan, handoff);
    OpeningReady(s, s.threads[t], plan, handoff);
    hide Ready;
    ReadOk(s, t, Loading(plan, handoff), Opening(plan, handoff));
  }

  lemma FinishOk(s: State, t: Tid, plan: Plan, turn: Turn)
    requires Inv(s) && Holds(s, t, Finishing(plan, turn))
    ensures Inv(Leave(s, t,
      Returned(Result(turn.reply, plan.session, plan.generation, false, false))))
  {
    ThreadFacts(s, t);
    GentleSelf(s, t, s.threads[t].input.id);
    LeaveOk(s, s, t, Returned(Result(turn.reply, plan.session, plan.generation, false, false)));
  }

  // ---- writing messages -------------------------------------------------------

  /** A row that may be added for message `id`: its own row or its reply row. */
  ghost predicate MayAdd(s: State, row: Message) {
    && (if row.inReplyTo == "" then IsIncomingID(row.id)
        else row.role == Assistant && row.id == ReplyID(row.inReplyTo) &&
             row.inReplyTo in s.messages && IsIncomingID(row.inReplyTo))
    && (row.scope.key.Own? ==>
          row.scope.key in s.conversations &&
          1 <= row.contextEpoch <= s.conversations[row.scope.key].contextEpoch)
  }

  lemma AddMessagesOk(s: State, row: Message)
    requires MessagesOk(s.messages, s.conversations) && MayAdd(s, row)
    ensures MessagesOk(AddMessage(s.messages, row), s.conversations)
  {
    hide ReplyID;
    hide IsReplyID;
    assert row.inReplyTo != "" ==> IsReplyID(row.id) by { ReplyRowID(row); }
    var after := AddMessage(s.messages, row);
    forall id | id in after ensures MessageOk(after, s.conversations, id) {
      assert id in s.messages ==> MessageOk(s.messages, s.conversations, id);
    }
  }

  lemma ReplyRowID(row: Message)
    requires row.inReplyTo != "" ==> row.id == ReplyID(row.inReplyTo)
    ensures row.inReplyTo != "" ==> IsReplyID(row.id)
  {
  }

  lemma AddShared(s: State, row: Message, outcome: Outcome)
    requires SharedOk(s) && MayAdd(s, row)
    ensures SharedOk(WithMessage(s, row, outcome))
  {
    AddMessagesOk(s, row);
    hide MessagesOk;
    hide MayAdd;
  }

  lemma AddKeeps(s: State, row: Message, outcome: Outcome, id: string)
    ensures
      var put := WithMessage(s, row, outcome);
      && SameCalls(s, put) && put.conversations == s.conversations && put.known == s.known
      && put.maxTurns == s.maxTurns && (id in s.messages ==> id in put.messages)
  {
  }

  lemma AddGentle(s: State, row: Message, outcome: Outcome, t: Tid, id: string)
    requires IsReplyID(row.id) ==> row.id == ReplyID(id)
    ensures Gentle(s, WithMessage(s, row, outcome), t, id)
  {
    hide ReplyID;
    hide IsReplyID;
  }

  lemma SteerRowEffect(s: State, t: Tid, m: nat, active: Active, outcome: Outcome)
    requires Inv(s) && t in s.threads && CallOf(s, t).pc == SteerAdd(m, active)
    ensures
      var input := CallOf(s, t).input;
      var put := WithMessage(s, UserRow(input, active.epoch), outcome);
      && SharedOk(put) && SameCalls(s, put) && Gentle(s, put, t, input.id)
      && StaleOk(put, input.scope.key, m, active)
  {
    ThreadFacts(s, t);
    var input := s.threads[t].input;
    var row := UserRow(input, active.epoch);
    assert MayAdd(s, row);
    AddShared(s, row, outcome);
    AddGentle(s, row, outcome, t, input.id);
    hide Inv;
    hide SharedOk;
    hide Gentle;
    hide MayAdd;
    hide PcOk;
  }

  lemma SteerReady(s: State, thread: Thread, m: nat, active: Active, pc: Pc)
    requires StaleOk(s, thread.input.scope.key, m, active)
    requires pc == Locking || pc == Steering || pc == SteerSend(m, active)
    requires pc.SteerSend? ==> Stored(s.messages, thread.input)
    ensures Ready(s, thread.(pc := pc))
  {
  }

  lemma SteeredIsStored(s: State, input: Input, active: Active, outcome: Outcome)
    requires outcome.Done? && input.id !in s.messages
    ensures Stored(WithMessage(s, UserRow(input, active.epoch), outcome).messages, input)
  {
  }

  lemma SteerStoreOk(s: State, t: Tid, m: nat, active: Active, outcome: Outcome)
    requires Inv(s) && t in s.threads && CallOf(s, t).pc == SteerAdd(m, active)
    ensures Inv(ActSteerStore(s, t, CallOf(s, t).input, m, active, outcome))
  {
    SteerRowEffect(s, t, m, active, outcome);
    var input := s.threads[t].input;
    var put := WithMessage(s, UserRow(input, active.epoch), outcome);
    var pc := if !outcome.Done? then Locking
      else if input.id in s.messages then Steering
      else SteerSend(m, active);
    if outcome.Done? && input.id !in s.messages { SteeredIsStored(s, input, active, outcome); }
    SteerReady(put, s.threads[t], m, active, pc);
    hide Stored;
    hide Ready;
    hide SharedOk;
    hide Gentle;
    hide Inv;
    hide StaleOk;
    hide WithMessage;
    MoveOk(s, put, t, pc);
  }

  lemma AddingFacts(s: State, t: Tid, plan: Plan, carried: seq<Message>)
    requires ThreadsOk(s) && Holds(s, t, Adding(plan, carried))
    ensures
      var thread := CallOf(s, t);
      && thread.input.scope.key.Own? && IsIncomingID(thread.input.id)
      && Unanswered(s.messages, thread.input.id)
      && Settled(s, thread.manager, thread.input.scope.key, plan)
      && HandoffOk(thread.input, plan, carried)
      && (thread.stored ==> thread.input.id in s.messages)
  {
    ThreadFacts(s, t);
  }

  lemma StartingReady(s: State, thread: Thread, plan: Plan, carried: seq<Message>)
    requires Unanswered(s.messages, thread.input.id)
    requires Settled(s, thread.manager, thread.input.scope.key, plan)
    requires HandoffOk(thread.input, plan, carried) && thread.input.id in s.messages
    ensures Ready(s, thread.(pc := Locked(Starting(plan, carried))))
  {
  }

  lemma FailedReady(s: State, thread: Thread)
    ensures Ready(s, thread.(pc := Failed))
  {
  }

  /** The user row is one that may be added, and it answers nothing. */
  lemma UserRowFits(s: State, t: Tid, plan: Plan, carried: seq<Message>)
    requires Inv(s) && Holds(s, t, Adding(plan, carried))
    ensures MayAdd(s, UserRow(CallOf(s, t).input, plan.epoch))
    ensures !IsReplyID(CallOf(s, t).input.id)
  {
    AddingFacts(s, t, plan, carried);
    var key := s.threads[t].input.scope.key;
    assert RowOk(key, s.conversations[key], s.maxTurns);
  }

  lemma UserRowEffect(s: State, t: Tid, plan: Plan, carried: seq<Message>, outcome: Outcome)
    requires Inv(s) && Holds(s, t, Adding(plan, carried))
    ensures
      var thread := CallOf(s, t);
      var put := WithMessage(s, UserRow(thread.input, plan.epoch), outcome);
      && SharedOk(put) && SameCalls(s, put) && Gentle(s, put, t, thread.input.id)
      && Unanswered(put.messages, thread.input.id)
      && Settled(put, thread.manager, thread.input.scope.key, plan)
      && (outcome.Done? ==> thread.input.id in put.messages)
  {
    var row := UserRow(s.threads[t].input, plan.epoch);
    AddingFacts(s, t, plan, carried);
    UserRowFits(s, t, plan, carried);
    assert SharedOk(s);
    hide ReplyID;
    hide IsReplyID;
    hide Inv;
    hide SharedOk;
    hide Gentle;
    hide MayAdd;
    AddShared(s, row, outcome);
    AddGentle(s, row, outcome, t, row.id);
  }

  lemma StoreUserOk(s: State, t: Tid, plan: Plan, carried: seq<Message>, outcome: Outcome)
    requires Inv(s) && Holds(s, t, Adding(plan, carried))
    requires CallOf(s, t).stored ==> outcome.Done?
    ensures Inv(ActStoreUser(s, t, CallOf(s, t).input, plan, carried, outcome))
  {
    AddingFacts(s, t, plan, carried);
    UserRowEffect(s, t, plan, carried, outcome);
    GentleSelf(s, t, s.threads[t].input.id);
    assert SharedOk(s);
    hide Inv;
    hide SharedOk;
    hide Gentle;
    hide Settled;
    hide HandoffOk;
    hide WithMessage;
    if s.threads[t].stored {
      ContinueStarting(s, s, t, plan, carried);
    } else if outcome.Done? {
      var put := WithMessage(s, UserRow(s.threads[t].input, plan.epoch), outcome);
      ContinueStarting(s, put, t, plan, carried);
    } else {
      LeaveFailed(s, WithMessage(s, UserRow(s.threads[t].input, plan.epoch), outcome), t);
    }
  }

  lemma ContinueStarting(s: State, s1: State, t: Tid, plan: Plan, carried: seq<Message>)
    requires Inv(s) && t in s.threads && CallOf(s, t).pc.Locked? && !IsPrompting(CallOf(s, t).pc)
    requires SharedOk(s1) && SameCalls(s, s1) && Gentle(s, s1, t, CallOf(s, t).input.id)
    requires Unanswered(s1.messages, CallOf(s, t).input.id)
    requires Settled(s1, CallOf(s, t).manager, CallOf(s, t).input.scope.key, plan)
    requires HandoffOk(CallOf(s, t).input, plan, carried)
    requires CallOf(s, t).input.id in s1.messages
    ensures Inv(Continue(s1, t, Starting(plan, carried)))
  {
    StartingReady(s1, s.threads[t], plan, carried);
    hide Ready;
    hide SharedOk;
    hide Gentle;
    MoveOk(s, s1, t, Locked(Starting(plan, carried)));
  }

  lemma AnsweringFacts(s: State, t: Tid, plan: Plan, turn: Turn)
    requires ThreadsOk(s) && Holds(s, t, Answering(plan, turn))
    ensures
      var thread := CallOf(s, t);
      && thread.input.scope.key.Own? && IsIncomingID(thread.input.id)
      && Unanswered(s.messages, thread.input.id)
      && Settled(s, thread.manager, thread.input.scope.key, plan)
      && thread.input.id in s.messages
  {
    ThreadFacts(s, t);
  }

  lemma ReplyRowEffect(
    s: State, t: Tid, plan: Plan, turn: Turn, outcome: Outcome, time: string)
    requires Inv(s) && Holds(s, t, Answering(plan, turn))
    ensures
      var thread := CallOf(s, t);
      var put := WithMessage(s, ReplyRow(thread.input, turn, plan.epoch, time), outcome);
      && SharedOk(put) && SameCalls(s, put) && Gentle(s, put, t, thread.input.id)
      && Settled(put, thread.manager, thread.input.scope.key, plan)
      && thread.input.id in put.messages
      && (outcome.Done? ==> Answered(put.messages, thread.input.id, turn.reply))
  {
    var row := ReplyRow(s.threads[t].input, turn, plan.epoch, time);
    assert SharedOk(s);
    AnsweringFacts(s, t, plan, turn);
    ReplyRowFits(s, t, plan, turn, time);
    hide Inv;
    hide SharedOk;
    hide Gentle;
    hide MayAdd;
    if outcome.Done? { ReplyIsAnswer(s, s.threads[t].input, plan, turn, outcome, time); }
    hide Answered;
    hide Unanswered;
    AddKeeps(s, row, outcome, s.threads[t].input.id);
    AddShared(s, row, outcome);
    AddGentle(s, row, outcome, t, s.threads[t].input.id);
    hide WithMessage;
  }

  lemma ReplyIsAnswer(
    s: State, input: Input, plan: Plan, turn: Turn, outcome: Outcome, time: string)
    requires Unanswered(s.messages, input.id) && outcome.Done?
    ensures Answered(
      WithMessage(s, ReplyRow(input, turn, plan.epoch, time), outcome).messages,
      input.id, turn.reply)
  {
  }

  lemma ReplyRowFits(s: State, t: Tid, plan: Plan, turn: Turn, time: string)
    requires Inv(s) && Holds(s, t, Answering(plan, turn))
    ensures MayAdd(s, ReplyRow(CallOf(s, t).input, turn, plan.epoch, time))
  {
    AnsweringFacts(s, t, plan, turn);
    var key := s.threads[t].input.scope.key;
    assert RowOk(key, s.conversations[key], s.maxTurns);
  }

  lemma StoreReplyOk(s: State, t: Tid, plan: Plan, turn: Turn, outcome: Outcome, time: string)
    requires Inv(s) && Holds(s, t, Answering(plan, turn))
    ensures Inv(ActStoreReply(s, t, CallOf(s, t).input, plan, turn, outcome, time))
  {
    ReplyRowEffect(s, t, plan, turn, outcome, time);
    var put := WithMessage(s, ReplyRow(s.threads[t].input, turn, plan.epoch, time), outcome);
    hide Inv;
    hide SharedOk;
    hide Gentle;
    hide Settled;
    hide WithMessage;
    if outcome.Done? {
      ContinueAfter(s, put, t, plan, turn);
    } else {
      LeaveFailed(s, put, t);
    }
  }

  lemma ContinueAfter(s: State, s1: State, t: Tid, plan: Plan, turn: Turn)
    requires Inv(s) && t in s.threads && CallOf(s, t).pc.Locked? && !IsPrompting(CallOf(s, t).pc)
    requires SharedOk(s1) && SameCalls(s, s1) && Gentle(s, s1, t, CallOf(s, t).input.id)
    requires Answered(s1.messages, CallOf(s, t).input.id, turn.reply)
    requires Settled(s1, CallOf(s, t).manager, CallOf(s, t).input.scope.key, plan)
    requires CallOf(s, t).input.id in s1.messages
    ensures Inv(Continue(s1, t, After(plan, turn, Unread)))
  {
    AfterReady(s1, s.threads[t], plan, turn, Unread);
    hide Ready;
    hide SharedOk;
    hide Gentle;
    MoveOk(s, s1, t, Locked(After(plan, turn, Unread)));
  }

  // ---- sessions ---------------------------------------------------------------

  lemma KnownShared(s: State, m: nat, key: Key, session: string)
    requires SharedOk(s)
    ensures SharedOk(WithKnown(s, m, key, session))
  {
  }

  lemma KnownGentle(s: State, m: nat, key: Key, session: string, t: Tid, id: string)
    ensures Gentle(s, WithKnown(s, m, key, session), t, id)
  {
  }

  lemma SessionLoadedOk(s: State, t: Tid, plan: Plan, handoff: seq<Message>)
    requires Inv(s) && Holds(s, t, Loading(plan, handoff)) && plan.session != ""
    ensures
      var thread := CallOf(s, t);
      Inv(Continue(WithKnown(s, thread.manager, thread.input.scope.key, plan.session), t,
        Adding(plan, [])))
  {
    var thread := s.threads[t];
    var key := thread.input.scope.key;
    var s1 := WithKnown(s, thread.manager, key, plan.session);
    LoadingFacts(s, t, plan, handoff);
    KnownShared(s, thread.manager, key, plan.session);
    KnownGentle(s, thread.manager, key, plan.session, t, thread.input.id);
    LoadedIsSettled(s1, t, plan);
    AddingReady(s1, thread, plan, []);
    hide Inv;
    hide SharedOk;
    hide Gentle;
    hide Ready;
    MoveOk(s, s1, t, Locked(Adding(plan, [])));
  }

  lemma AddingReady(s: State, thread: Thread, plan: Plan, carried: seq<Message>)
    requires Unanswered(s.messages, thread.input.id)
    requires Settled(s, thread.manager, thread.input.scope.key, plan)
    requires HandoffOk(thread.input, plan, carried)
    requires thread.stored ==> thread.input.id in s.messages
    ensures Ready(s, thread.(pc := Locked(Adding(plan, carried))))
  {
  }

  lemma PuttingReady(
    s: State, thread: Thread, plan: Plan, handoff: seq<Message>, session: string)
    requires Unanswered(s.messages, thread.input.id) && HandoffOk(thread.input, plan, handoff)
    requires PlanOk(RowOf(s, thread.input.scope.key), s.maxTurns, thread.input, plan)
    requires plan.session == "" && session != "" && (thread.manager, session) in s.known
    requires thread.stored ==> thread.input.id in s.messages
    ensures Ready(s, thread.(pc := Locked(Putting(plan.(session := session), handoff))))
  {
    assert plan.(session := session).(session := "") == plan;
  }

  lemma OpenOk(s: State, t: Tid, plan: Plan, handoff: seq<Message>, session: string)
    requires Inv(s) && Holds(s, t, Opening(plan, handoff)) && session != ""
    ensures
      var thread := CallOf(s, t);
      Inv(Continue(WithKnown(s, thread.manager, thread.input.scope.key, session), t,
        Putting(plan.(session := session), handoff)))
  {
    var thread := s.threads[t];
    var key := thread.input.scope.key;
    var s1 := WithKnown(s, thread.manager, key, session);
    LoadingFacts(s, t, plan, handoff);
    KnownShared(s, thread.manager, key, session);
    KnownGentle(s, thread.manager, key, session, t, thread.input.id);
    PuttingReady(s1, thread, plan, handoff, session);
    hide Inv;
    hide SharedOk;
    hide Gentle;
    hide Ready;
    MoveOk(s, s1, t, Locked(Putting(plan.(session := session), handoff)));
  }

  // ---- writing conversations --------------------------------------------------

  /** Replacing a row by one whose epoch is not smaller keeps the messages in order. */
  lemma PutMessagesOk(s: State, row: Conversation)
    requires MessagesOk(s.messages, s.conversations)
    requires row.scope.key in s.conversations ==>
      s.conversations[row.scope.key].contextEpoch <= row.contextEpoch
    ensures MessagesOk(s.messages, s.conversations[row.scope.key := row])
  {
    forall id | id in s.messages
      ensures MessageOk(s.messages, s.conversations[row.scope.key := row], id)
    {
      assert MessageOk(s.messages, s.conversations, id);
    }
  }

  lemma PutRowsOk(s: State, row: Conversation)
    requires RowsOk(s.conversations, s.maxTurns) && RowOk(row.scope.key, row, s.maxTurns)
    ensures RowsOk(s.conversations[row.scope.key := row], s.maxTurns)
  {
  }

  lemma PutGentle(s: State, s1: State, row: Conversation, t: Tid, id: string)
    requires s1 == s.(conversations := s.conversations[row.scope.key := row],
                      opens := s1.opens, recorded := s1.recorded)
    requires row.scope.key in s.locks && s.locks[row.scope.key] == t
    requires row.scope.key in s.conversations ==>
      s.conversations[row.scope.key].contextEpoch <= row.contextEpoch
    ensures Gentle(s, s1, t, id)
  {
  }

  lemma OpenedCounts(s: State, row: Conversation)
    requires CountsOk(s) && RowsOk(s.conversations, s.maxTurns)
    requires row.generation == (if row.scope.key in s.conversations
      then s.conversations[row.scope.key].generation else 0) + 1
    ensures CountsOk(Opened(s, row))
  {
    var s1 := Opened(s, row);
    forall key, g | (key, g) in s1.recorded ensures RecordOk(s1, key, g) {
      assert RecordOk(s, key, g);
    }
  }

  lemma OpenedShared(s: State, row: Conversation)
    requires SharedOk(s) && RowOk(row.scope.key, row, s.maxTurns)
    requires row.generation == (if row.scope.key in s.conversations
      then s.conversations[row.scope.key].generation else 0) + 1
    requires row.scope.key in s.conversations ==>
      s.conversations[row.scope.key].contextEpoch <= row.contextEpoch
    ensures SharedOk(Opened(s, row))
  {
    PutMessagesOk(s, row);
    PutRowsOk(s, row);
    OpenedCounts(s, row);
    hide MessagesOk;
    hide RowsOk;
    hide CountsOk;
  }

  lemma PuttingFacts(s: State, t: Tid, plan: Plan, handoff: seq<Message>)
    requires ThreadsOk(s) && Holds(s, t, Putting(plan, handoff))
    ensures
      var thread := CallOf(s, t);
      var key := thread.input.scope.key;
      && Unanswered(s.messages, thread.input.id)
      && PlanOk(RowOf(s, key), s.maxTurns, thread.input, plan.(session := ""))
      && HandoffOk(thread.input, plan, handoff)
      && plan.session != "" && (thread.manager, plan.session) in s.known
      && (thread.stored ==> thread.input.id in s.messages)
      && key in s.locks && s.locks[key] == t
  {
    ThreadFacts(s, t);
  }

  /** The opening write starts the next generation, in an epoch that is not smaller. */
  lemma OpeningRowOk(s: State, input: Input, plan: Plan, handoff: seq<Message>)
    requires RowsOk(s.conversations, s.maxTurns) && s.maxTurns > 0
    requires PlanOk(RowOf(s, input.scope.key), s.maxTurns, input, plan.(session := ""))
    requires HandoffOk(input, plan, handoff) && plan.session != ""
    ensures
      var row, key := OpeningRow(input, plan, handoff), input.scope.key;
      && RowOk(key, row, s.maxTurns)
      && row.completedTurns == 0
      && row.generation ==
           (if key in s.conversations then s.conversations[key].generation else 0) + 1
      && (key in s.conversations ==>
            s.conversations[key].contextEpoch <= row.contextEpoch)
  {
    var key := input.scope.key;
    assert key in s.conversations ==> RowOk(key, s.conversations[key], s.maxTurns);
  }

  lemma OpenedEffect(s: State, t: Tid, plan: Plan, handoff: seq<Message>)
    requires Inv(s) && Holds(s, t, Putting(plan, handoff))
    ensures
      var thread := CallOf(s, t);
      var s1 := Opened(s, OpeningRow(thread.input, plan, handoff));
      && SharedOk(s1) && SameCalls(s, s1) && Gentle(s, s1, t, thread.input.id)
      && Unanswered(s1.messages, thread.input.id)
      && Settled(s1, thread.manager, thread.input.scope.key, plan)
      && (thread.stored ==> thread.input.id in s1.messages)
  {
    PuttingFacts(s, t, plan, handoff);
    var thread := s.threads[t];
    var row := OpeningRow(thread.input, plan, handoff);
    OpeningRowOk(s, thread.input, plan, handoff);
    OpenedShared(s, row);
    OpenedSettled(s, thread, plan, handoff);
    hide ThreadsOk;
    hide PlanOk;
    hide HandoffOk;
    hide RowOk;
    PutGentle(s, Opened(s, row), row, t, thread.input.id);
    hide SharedOk;
    hide Gentle;
    hide Settled;
  }

  lemma OpenedSettled(s: State, thread: Thread, plan: Plan, handoff: seq<Message>)
    requires PlanOk(RowOf(s, thread.input.scope.key), s.maxTurns, thread.input,
      plan.(session := "")) && plan.session != "" && (thread.manager, plan.session) in s.known
    requires s.maxTurns > 0
    ensures Settled(Opened(s, OpeningRow(thread.input, plan, handoff)),
      thread.manager, thread.input.scope.key, plan)
  {
  }

  lemma PutOpenedOk(s: State, t: Tid, plan: Plan, handoff: seq<Message>, outcome: Outcome)
    requires Inv(s) && Holds(s, t, Putting(plan, handoff))
    ensures Inv(ActPutOpened(s, t, CallOf(s, t).input, plan, handoff, outcome))
  {
    var thread := s.threads[t];
    var s1 := Opened(s, OpeningRow(thread.input, plan, handoff));
    OpenedEffect(s, t, plan, handoff);
    hide Inv;
    hide SharedOk;
    hide Gentle;
    hide Settled;
    match outcome {
      case Done =>
        PuttingFacts(s, t, plan, handoff);
        CarriedOk(thread.input, plan, handoff);
        ContinueAdding(s, s1, t, plan, if thread.input.isFresh then [] else handoff);
      case Unknown => LeaveFailed(s, s1, t);
      case Lost => FailOk(s, t);
    }
  }

  lemma ContinueAdding(s: State, s1: State, t: Tid, plan: Plan, carried: seq<Message>)
    requires Inv(s) && t in s.threads && CallOf(s, t).pc.Locked? && !IsPrompting(CallOf(s, t).pc)
    requires SharedOk(s1) && SameCalls(s, s1) && Gentle(s, s1, t, CallOf(s, t).input.id)
    requires Unanswered(s1.messages, CallOf(s, t).input.id)
    requires Settled(s1, CallOf(s, t).manager, CallOf(s, t).input.scope.key, plan)
    requires CallOf(s, t).stored ==> CallOf(s, t).input.id in s1.messages
    requires HandoffOk(CallOf(s, t).input, plan, carried)
    ensures Inv(Continue(s1, t, Adding(plan, carried)))
  {
    AddingReady(s1, s.threads[t], plan, carried);
    hide Ready;
    hide SharedOk;
    hide Gentle;
    MoveOk(s, s1, t, Locked(Adding(plan, carried)));
  }

  lemma LeaveFailed(s: State, s1: State, t: Tid)
    requires Inv(s) && t in s.threads
    requires SharedOk(s1) && SameCalls(s, s1) && Gentle(s, s1, t, CallOf(s, t).input.id)
    ensures Inv(Leave(s1, t, Failed))
  {
    FailedReady(s1, s.threads[t]);
    hide Ready;
    LeaveOk(s, s1, t, Failed);
  }

  lemma CarriedOk(input: Input, plan: Plan, handoff: seq<Message>)
    requires HandoffOk(input, plan, handoff)
    ensures HandoffOk(input, plan, if input.isFresh then [] else handoff)
  {
  }

  lemma RecordedCounts(s: State, row: Conversation)
    requires CountsOk(s) && RowsOk(s.conversations, s.maxTurns)
    requires row.scope.key in s.conversations
    requires row.generation == s.conversations[row.scope.key].generation
    requires s.conversations[row.scope.key].completedTurns + 1 <= row.completedTurns <= s.maxTurns
    ensures CountsOk(Recorded(s, row))
  {
    var s1 := Recorded(s, row);
    forall key, g | (key, g) in s1.recorded ensures RecordOk(s1, key, g) {
      assert (key, g) in s.recorded ==> RecordOk(s, key, g);
    }
  }

  lemma RecordedShared(s: State, row: Conversation)
    requires SharedOk(s) && RowOk(row.scope.key, row, s.maxTurns)
    requires row.scope.key in s.conversations
    requires row.generation == s.conversations[row.scope.key].generation
    requires s.conversations[row.scope.key].completedTurns + 1 <= row.completedTurns
    requires s.conversations[row.scope.key].contextEpoch <= row.contextEpoch
    ensures SharedOk(Recorded(s, row))
  {
    PutMessagesOk(s, row);
    PutRowsOk(s, row);
    RecordedCounts(s, row);
    hide MessagesOk;
    hide RowsOk;
    hide CountsOk;
  }

  lemma ClosingFacts(s: State, t: Tid, plan: Plan, turn: Turn, handoff: seq<Message>)
    requires ThreadsOk(s) && Holds(s, t, Closing(plan, turn, handoff))
    ensures
      var thread := CallOf(s, t);
      var key := thread.input.scope.key;
      && Answered(s.messages, thread.input.id, turn.reply)
      && Settled(s, thread.manager, key, plan)
      && AllBelong(thread.input.scope, plan.epoch, handoff)
      && (thread.stored ==> thread.input.id in s.messages)
      && key in s.locks && s.locks[key] == t
  {
    ThreadFacts(s, t);
  }

  lemma FinishingReady(s: State, thread: Thread, plan: Plan, turn: Turn)
    requires Answered(s.messages, thread.input.id, turn.reply)
    requires thread.stored ==> thread.input.id in s.messages
    ensures Ready(s, thread.(pc := Locked(Finishing(plan, turn))))
  {
  }

  lemma RecordedEffect(s: State, t: Tid, plan: Plan, turn: Turn, handoff: seq<Message>)
    requires Inv(s) && Holds(s, t, Closing(plan, turn, handoff))
    ensures
      var thread := CallOf(s, t);
      var s1 := Recorded(s, TurnRow(thread.input.scope, plan, turn, handoff, s.maxTurns));
      && SharedOk(s1) && SameCalls(s, s1) && Gentle(s, s1, t, thread.input.id)
      && Answered(s1.messages, thread.input.id, turn.reply)
      && (thread.stored ==> thread.input.id in s1.messages)
  {
    ClosingFacts(s, t, plan, turn, handoff);
    var thread := s.threads[t];
    var scope := thread.input.scope;
    var row := TurnRow(scope, plan, turn, handoff, s.maxTurns);
    assert RowOk(scope.key, s.conversations[scope.key], s.maxTurns);
    RecordedShared(s, row);
    PutGentle(s, Recorded(s, row), row, t, thread.input.id);
    hide SharedOk;
    hide Gentle;
    hide AllBelong;
  }

  lemma ContinueFinishing(s: State, s1: State, t: Tid, plan: Plan, turn: Turn)
    requires Inv(s) && t in s.threads && CallOf(s, t).pc.Locked? && !IsPrompting(CallOf(s, t).pc)
    requires SharedOk(s1) && SameCalls(s, s1) && Gentle(s, s1, t, CallOf(s, t).input.id)
    requires Answered(s1.messages, CallOf(s, t).input.id, turn.reply)
    requires CallOf(s, t).stored ==> CallOf(s, t).input.id in s1.messages
    ensures Inv(Continue(s1, t, Finishing(plan, turn)))
  {
    FinishingReady(s1, s.threads[t], plan, turn);
    hide Ready;
    hide SharedOk;
    hide Gentle;
    MoveOk(s, s1, t, Locked(Finishing(plan, turn)));
  }

  lemma PutTurnOk(
    s: State, t: Tid, plan: Plan, turn: Turn, handoff: seq<Message>, outcome: Outcome)
    requires Inv(s) && Holds(s, t, Closing(plan, turn, handoff))
    ensures Inv(ActPutTurn(s, t, CallOf(s, t).input.scope, plan, turn, handoff, outcome))
  {
    var s1 := Recorded(s, TurnRow(s.threads[t].input.scope, plan, turn, handoff, s.maxTurns));
    RecordedEffect(s, t, plan, turn, handoff);
    hide Inv;
    hide SharedOk;
    hide Gentle;
    hide Answered;
    match outcome {
      case Done => ContinueFinishing(s, s1, t, plan, turn);
      case Unknown => LeaveFailed(s, s1, t);
      case Lost => FailOk(s, t);
    }
  }

  // ---- locks and active turns -------------------------------------------------

  lemma LockOk(s: State, t: Tid, m: nat)
    requires Inv(s) && t in s.threads && CallOf(s, t).pc.Locking?
    requires CallOf(s, t).input.scope.key !in s.locks
    ensures Inv(ActLock(s, t, m))
  {
    var s' := ActLock(s, t, m);
    ThreadFacts(s, t);
    SharedSame(s, s');
    LockGentle(s, t, m);
    LockedThreadOk(s, t, m);
    CallsOk(s, s', t);
    LockLocksOk(s, t, m);
  }

  lemma LockGentle(s: State, t: Tid, m: nat)
    requires t in s.threads && CallOf(s, t).input.scope.key !in s.locks
    ensures Gentle(s, ActLock(s, t, m), t, CallOf(s, t).input.id)
  {
  }

  lemma LockedThreadOk(s: State, t: Tid, m: nat)
    requires t in s.threads && ThreadOk(s, t)
    ensures ThreadOk(ActLock(s, t, m), t)
  {
  }

  lemma LockLocksOk(s: State, t: Tid, m: nat)
    requires LocksOk(s) && ActiveOk(s) && t in s.threads && CallOf(s, t).pc.Locking?
    requires CallOf(s, t).input.scope.key !in s.locks
    ensures LocksOk(ActLock(s, t, m)) && ActiveOk(ActLock(s, t, m))
  {
  }

  lemma StartOk(s: State, t: Tid, plan: Plan, carried: seq<Message>)
    requires Inv(s) && Holds(s, t, Starting(plan, carried))
    ensures Inv(ActStart(s, t, CallOf(s, t).input, CallOf(s, t).manager, plan, carried))
  {
    var thread := s.threads[t];
    var s' := ActStart(s, t, thread.input, thread.manager, plan, carried);
    StartShared(s, t, plan, carried);
    StartGentle(s, t, plan, carried);
    StartThreadOk(s, t, plan, carried);
    CallsOk(s, s', t);
    StartLocksOk(s, t, plan, carried);
  }

  lemma StartFacts(s: State, t: Tid, plan: Plan, carried: seq<Message>)
    requires ThreadsOk(s) && Holds(s, t, Starting(plan, carried))
    ensures
      var thread := CallOf(s, t);
      var key := thread.input.scope.key;
      && Unanswered(s.messages, thread.input.id)
      && Settled(s, thread.manager, key, plan)
      && HandoffOk(thread.input, plan, carried)
      && thread.input.id in s.messages && key.Own? && IsIncomingID(thread.input.id)
      && key in s.locks && s.locks[key] == t
  {
    ThreadFacts(s, t);
  }

  lemma StartShared(s: State, t: Tid, plan: Plan, carried: seq<Message>)
    requires SharedOk(s) && ThreadsOk(s) && Holds(s, t, Starting(plan, carried))
    ensures SharedOk(ActStart(s, t, CallOf(s, t).input, CallOf(s, t).manager, plan, carried))
  {
    StartFacts(s, t, plan, carried);
    var key := s.threads[t].input.scope.key;
    assert RowOk(key, s.conversations[key], s.maxTurns);
    hide MessagesOk;
    hide RowsOk;
    hide CountsOk;
    hide AllBelong;
    hide ThreadsOk;
  }

  lemma StartGentle(s: State, t: Tid, plan: Plan, carried: seq<Message>)
    requires ThreadsOk(s) && Holds(s, t, Starting(plan, carried))
    ensures Gentle(s, ActStart(s, t, CallOf(s, t).input, CallOf(s, t).manager, plan, carried),
      t, CallOf(s, t).input.id)
  {
    StartFacts(s, t, plan, carried);
  }

  lemma StartThreadOk(s: State, t: Tid, plan: Plan, carried: seq<Message>)
    requires ThreadsOk(s) && Holds(s, t, Starting(plan, carried))
    ensures ThreadOk(ActStart(s, t, CallOf(s, t).input, CallOf(s, t).manager, plan, carried), t)
  {
    StartFacts(s, t, plan, carried);
    hide ThreadsOk;
  }

  lemma StartLocksOk(s: State, t: Tid, plan: Plan, carried: seq<Message>)
    requires LocksOk(s) && ActiveOk(s) && ThreadsOk(s) && Holds(s, t, Starting(plan, carried))
    ensures
      var s' := ActStart(s, t, CallOf(s, t).input, CallOf(s, t).manager, plan, carried);
      LocksOk(s') && ActiveOk(s')
  {
    StartFacts(s, t, plan, carried);
    hide ThreadsOk;
    var s' := ActStart(s, t, s.threads[t].input, s.threads[t].manager, plan, carried);
    var key := s.threads[t].input.scope.key;
    forall m, k | (m, k) in s'.active
      ensures k in s'.locks && s'.locks[k] in s'.threads &&
        s'.threads[s'.locks[k]].manager == m && IsPrompting(s'.threads[s'.locks[k]].pc)
    {
      if k != key { assert (m, k) in s.active; }
    }
  }

  function Unprompted(s: State, t: Tid, plan: Plan, turn: Turn): State {
    ActPrompted(s, t, CallOf(s, t).input.scope.key, CallOf(s, t).manager, plan, turn)
  }

  lemma PromptedOk(s: State, t: Tid, plan: Plan, turn: Turn)
    requires Inv(s) && Holds(s, t, Prompting(plan))
    ensures Inv(Unprompted(s, t, plan, turn))
  {
    var s' := Unprompted(s, t, plan, turn);
    SharedSame(s, s');
    PromptedThreadOk(s, t, plan, turn);
    PromptedGentle(s, t, plan, turn);
    CallsOk(s, s', t);
    PromptedLocksOk(s, t, plan, turn);
  }

  lemma PromptedThreadOk(s: State, t: Tid, plan: Plan, turn: Turn)
    requires ThreadsOk(s) && Holds(s, t, Prompting(plan))
    ensures ThreadOk(Unprompted(s, t, plan, turn), t)
  {
    ThreadFacts(s, t);
    hide ThreadsOk;
    hide ReplyID;
  }

  lemma PromptedGentle(s: State, t: Tid, plan: Plan, turn: Turn)
    requires ThreadsOk(s) && Holds(s, t, Prompting(plan))
    ensures Gentle(s, Unprompted(s, t, plan, turn), t, CallOf(s, t).input.id)
  {
    ThreadFacts(s, t);
    hide ThreadsOk;
    hide AtOk;
    hide ReplyID;
  }

  lemma PromptedLocksOk(s: State, t: Tid, plan: Plan, turn: Turn)
    requires LocksOk(s) && ActiveOk(s) && ThreadsOk(s) && Holds(s, t, Prompting(plan))
    ensures LocksOk(Unprompted(s, t, plan, turn)) && ActiveOk(Unprompted(s, t, plan, turn))
  {
    ThreadFacts(s, t);
    hide ThreadsOk;
    var s' := Unprompted(s, t, plan, turn);
    forall m, k | (m, k) in s'.active
      ensures k in s'.locks && s'.locks[k] in s'.threads &&
        s'.threads[s'.locks[k]].manager == m && IsPrompting(s'.threads[s'.locks[k]].pc)
    {
      assert (m, k) in s.active;
    }
  }

  // ---- every event ------------------------------------------------------------

  lemma AfterReadOk(s: State, t: Tid, at: At, r: ReadEvent)
    requires Inv(s) && Holds(s, t, at) && FitsRead(at, r)
    requires Observes(s, CallOf(s, t).input, CallOf(s, t).manager, at, r)
    ensures Inv(Continue(s, t, AfterRead(s, CallOf(s, t).input, at, r)))
  {
    hide Inv;
    hide Continue;
    hide RootGot;
    hide Head;
    hide Unseen;
    hide PlanFor;
    match r {
      case ReadReply(reply) => ReadReplyOk(s, t, reply);
      case ReadRow => ReadRowOk(s, t);
      case ReadRoot => ReadRootOk(s, t, at);
      case ReadAnswer(answer) => ReadAnswerOk(s, t, at, answer);
      case ReadRecent(recent) =>
        if at.Before? { RecentBeforeOk(s, t, at.plan, at.got.head, recent); }
        else { RecentAfterOk(s, t, at.plan, at.turn, at.got.head, recent); }
      case Resume => ResumeOk(s, t, at.plan, at.handoff);
      case Missing => MissingOk(s, t, at.plan, at.handoff);
      case Rotate => RotateOk(s, t, at.plan, at.handoff);
    }
  }

  lemma ActWriteOk(s: State, t: Tid, at: At, w: WriteEvent)
    requires Inv(s) && Holds(s, t, at) && FitsWrite(at, w)
    requires w.StoreUser? && CallOf(s, t).stored ==> w.outcome.Done?
    ensures Inv(ActWrite(s, t, CallOf(s, t).input, CallOf(s, t).manager, at, w))
  {
    hide Inv;
    match w {
      case Check => CheckOk(s, t);
      case ReadCached => ReadCachedOk(s, t, at.reply);
      case Loaded => SessionLoadedOk(s, t, at.plan, at.handoff);
      case Open(session) => OpenOk(s, t, at.plan, at.handoff, session);
      case PutOpened(outcome) => PutOpenedOk(s, t, at.plan, at.handoff, outcome);
      case StoreUser(outcome) => StoreUserOk(s, t, at.plan, at.carried, outcome);
      case Start => StartOk(s, t, at.plan, at.carried);
      case Prompted(turn) => PromptedOk(s, t, at.plan, turn);
      case StoreReply(outcome, time) => StoreReplyOk(s, t, at.plan, at.turn, outcome, time);
      case PutTurn(outcome) => PutTurnOk(s, t, at.plan, at.turn, at.handoff, outcome);
      case Finish => FinishOk(s, t, at.plan, at.turn);
    }
  }

  lemma ActOk(s: State, t: Tid, e: Event)
    requires Inv(s) && CanAct(s, t, e)
    ensures Inv(Act(s, t, e))
  {
    var pc := s.threads[t].pc;
    hide Inv;
    match e {
      case Fail => FailOk(s, t);
      case Miss => OutsideMoveOk(s, t, Locking);
      case SteerCheck(m) =>
        if s.threads[t].input.id !in s.messages { OutsideMoveOk(s, t, SteerLook(m)); }
      case SteerFind => SteerFindOk(s, t, pc.manager);
      case SteerStore(outcome) => SteerStoreOk(s, t, pc.manager, pc.active, outcome);
      case SteerAnswer(delivered) =>
        if delivered { SteerSentOk(s, t, pc.manager, pc.active); } else { OutsideMoveOk(s, t, Steering); }
      case Lock(m) => LockOk(s, t, m);
      case Read(r) => AfterReadOk(s, t, pc.at, r);
      case Write(w) => ActWriteOk(s, t, pc.at, w);
    }
  }

  // ---- calls come and go ------------------------------------------------------

  /** A call keeps standing when rows are only added and it is not the one acting. */
  lemma Bystander(s: State, s': State, t: Tid, id: string, u: Tid)
    requires ThreadsOk(s) && u in s.threads && u in s'.threads && CallOf(s', u) == CallOf(s, u)
    requires Gentle(s, s', t, id) && u != t && CallOf(s, u).input.id != id
    ensures ThreadOk(s', u)
  {
    ThreadFacts(s, u);
    OthersUnharmed(s, s', t, id, u);
  }

  lemma BeginOk(s: State, t: Tid, input: Input)
    requires Inv(s) && CanBegin(s, t, input)
    ensures Inv(Begin(s, t, input))
  {
    var s' := Begin(s, t, input);
    SharedSame(s, s');
    BeginThreadsOk(s, t, input);
    BeginLocksOk(s, t, input);
  }

  lemma BeginLocksOk(s: State, t: Tid, input: Input)
    requires LocksOk(s) && ActiveOk(s) && t !in s.threads
    ensures LocksOk(Begin(s, t, input)) && ActiveOk(Begin(s, t, input))
  {
  }

  lemma BeginThreadsOk(s: State, t: Tid, input: Input)
    requires ThreadsOk(s) && CanBegin(s, t, input)
    ensures ThreadsOk(Begin(s, t, input))
  {
    var s' := Begin(s, t, input);
    assert Gentle(s, s', t, input.id);
    hide Gentle;
    assert ThreadOk(s', t);
    hide PcOk;
    forall u | u in s'.threads ensures ThreadOk(s', u) {
      if u != t { Bystander(s, s', t, input.id, u); }
    }
  }

  lemma EndOk(s: State, t: Tid)
    requires Inv(s) && CanEnd(s, t)
    ensures Inv(End(s, t))
  {
    SharedSame(s, End(s, t));
    EndThreadsOk(s, t);
    EndLocksOk(s, t);
  }

  lemma EndLocksOk(s: State, t: Tid)
    requires LocksOk(s) && ActiveOk(s) && CanEnd(s, t)
    ensures LocksOk(End(s, t)) && ActiveOk(End(s, t))
  {
  }

  lemma EndThreadsOk(s: State, t: Tid)
    requires ThreadsOk(s) && CanEnd(s, t)
    ensures ThreadsOk(End(s, t))
  {
    var s', id := End(s, t), s.threads[t].input.id;
    assert Gentle(s, s', t, id);
    hide Gentle;
    hide PcOk;
    forall u | u in s'.threads ensures ThreadOk(s', u) {
      Bystander(s, s', t, id, u);
    }
  }

  /** A thread root is nobody's reply and lies in nobody's conversation. */
  lemma SaveRootOk(s: State, message: Message, outcome: Outcome)
    requires Inv(s) && IsThreadRoot(message)
    ensures Inv(WithMessage(s, message, outcome))
  {
    var s' := WithMessage(s, message, outcome);
    AddShared(s, message, outcome);
    RootThreadsOk(s, message, outcome);
    hide SharedOk;
    hide ThreadsOk;
  }

  lemma RootThreadsOk(s: State, message: Message, outcome: Outcome)
    requires ThreadsOk(s) && IsThreadRoot(message)
    ensures ThreadsOk(WithMessage(s, message, outcome))
  {
    var s' := WithMessage(s, message, outcome);
    forall u | u in s'.threads ensures ThreadOk(s', u) {
      var nobody := if u == Worker(0) then Worker(1) else Worker(0);
      ThreadFacts(s, u);
      AddGentle(s, message, outcome, nobody, "");
      hide Gentle;
      hide PcOk;
      Bystander(s, s', nobody, "", u);
    }
  }

  lemma CrashOk(s: State)
    requires Inv(s)
    ensures Inv(Crash(s))
  {
  }

  lemma NextOk(s: State, s': State)
    requires Inv(s) && Next(s, s')
    ensures Inv(s')
  {
    var step :| Do(s, step, s');
    hide Inv;
    match step {
      case BeginStep(t, input) => BeginOk(s, t, input);
      case ActStep(t, e) => ActOk(s, t, e);
      case EndStep(t) => EndOk(s, t);
      case SaveRootStep(message, outcome) => SaveRootOk(s, message, outcome);
      case CrashStep => CrashOk(s);
    }
  }
}
