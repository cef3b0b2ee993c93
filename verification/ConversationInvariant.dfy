/** What every reachable state of the conversation machine satisfies. */
module ConversationInvariant {
  import opened Wrappers
  import opened Tables
  import opened Handoff
  import opened Conversations

  // ---- the tables -------------------------------------------------------------

  /** A row answers a message exactly when its ID says so, and then that message is
      stored; a persona's message never runs ahead of its conversation's epoch. */
  ghost predicate MessageOk(ms: Messages, cs: map<Key, Conversation>, id: string) {
    && id in ms
    && var m := ms[id];
    && m.id == id
    && m.contextEpoch >= 1
    && (if m.inReplyTo == "" then !IsReplyID(id)
        else m.role == Assistant && id == ReplyID(m.inReplyTo) && m.inReplyTo in ms &&
             IsIncomingID(m.inReplyTo))
    && (m.scope.key.Own? ==>
          m.scope.key in cs && m.contextEpoch <= cs[m.scope.key].contextEpoch)
  }

  ghost predicate MessagesOk(ms: Messages, cs: map<Key, Conversation>) {
    forall id :: id in ms ==> MessageOk(ms, cs, id)
  }

  /** `m` belongs to this scope and epoch, or to the thread root exchange that the
      first epoch of a thread may see. */
  ghost predicate Belongs(scope: Scope, epoch: int, m: Message) {
    || (m.scope.key == scope.key && m.contextEpoch == epoch)
    || (epoch == 1 && scope.rootMessageID != "" &&
        (m.id == scope.rootMessageID || Answers(m, scope.rootMessageID)))
  }

  ghost predicate AllBelong(scope: Scope, epoch: int, ms: seq<Message>) {
    forall m :: m in ms ==> Belongs(scope, epoch, m) && m.contextEpoch >= 1
  }

  ghost predicate RowOk(key: Key, c: Conversation, maxTurns: nat) {
    && c.scope.key == key
    && c.sessionID != ""
    && c.generation >= 1
    && c.contextEpoch >= 1
    && 0 <= c.completedTurns <= maxTurns
    && AllBelong(c.scope, c.contextEpoch, c.handoff)
  }

  ghost predicate RowsOk(cs: map<Key, Conversation>, maxTurns: nat) {
    forall key :: key in cs ==> RowOk(key, cs[key], maxTurns)
  }

  /** The generation counts the session-opening writes of the key; a generation has
      no more recorded turns than its row counts, so never more than the limit. */
  ghost predicate CountsOk(s: State) {
    && (forall key :: key in s.opens ==> key in s.conversations)
    && (forall key :: key in s.conversations ==>
          Count(s.opens, key) == s.conversations[key].generation)
    && (forall key, g :: (key, g) in s.recorded ==> RecordOk(s, key, g))
  }

  ghost predicate RecordOk(s: State, key: Key, g: int) {
    && (key, g) in s.recorded && key in s.conversations
    && s.recorded[(key, g)] <= s.maxTurns
    && g <= s.conversations[key].generation
    && (g == s.conversations[key].generation ==>
          s.recorded[(key, g)] <= s.conversations[key].completedTurns)
  }

  ghost predicate PromptOk(p: Prompt) {
    && AllBelong(p.scope, p.epoch, p.carried)
    && p.epoch >= 1
    && (p.isFresh ==> p.carried == [])
  }

  ghost predicate PromptsOk(prompts: seq<Prompt>) {
    forall i :: 0 <= i < |prompts| ==> PromptOk(prompts[i])
  }

  // ---- what is in memory ------------------------------------------------------

  ghost predicate Unanswered(ms: Messages, id: string) { ReplyID(id) !in ms }

  /** The one reply row of `id` is stored and reads `text`. */
  ghost predicate Answered(ms: Messages, id: string, text: string) {
    ReplyID(id) in ms && ms[ReplyID(id)].text == text
  }

  /** The message is in the log as the user's row that this call wrote. */
  ghost predicate Stored(ms: Messages, input: Input) {
    && input.id in ms
    && var m := ms[input.id];
    && m.role == User && m.scope == input.scope && m.senderID == input.senderID
    && m.text == input.text && m.inReplyTo == ""
  }

  /** A plan made for the row as it stands; "" plans a new session. */
  ghost predicate PlanOk(
    row: Option<Conversation>, maxTurns: nat, input: Input, plan: Plan)
  {
    match row
    case None => plan == Plan("", 1, 1, 0)
    case Some(c) =>
      if plan.session == "" then
        && plan.generation == c.generation + 1
        && plan.epoch == c.contextEpoch + (if input.isFresh then 1 else 0)
        && plan.turns == 0
      else
        && !input.isFresh
        && plan == Plan(c.sessionID, c.generation, c.contextEpoch, c.completedTurns)
        && c.completedTurns < maxTurns
  }

  /** The plan is what the row stores, and the process knows its session. */
  ghost predicate Settled(s: State, manager: nat, key: Key, plan: Plan) {
    && key in s.conversations
    && var c := s.conversations[key];
    && plan == Plan(c.sessionID, c.generation, c.contextEpoch, c.completedTurns)
    && plan.session != ""
    && plan.turns < s.maxTurns
    && (manager, plan.session) in s.known
  }

  ghost predicate GotOk(scope: Scope, plan: Plan, isFresh: bool, got: Gathered) {
    match got
    case Unread => true
    case RootRead(root) =>
      && !isFresh && plan.epoch == 1 && scope.rootMessageID != ""
      && (root.Some? ==> root.value.id == scope.rootMessageID && root.value.contextEpoch >= 1)
    case HeadRead(head) =>
      AllBelong(scope, plan.epoch, head) && (isFresh ==> head == [])
  }

  ghost predicate HandoffOk(input: Input, plan: Plan, handoff: seq<Message>) {
    AllBelong(input.scope, plan.epoch, handoff) && (input.isFresh ==> handoff == [])
  }

  /** An active turn found by Steer: its session is known to that process and its
      epoch is not ahead of the row, whatever has happened to the turn since. */
  ghost predicate StaleOk(s: State, key: Key, manager: nat, active: Active) {
    && (manager, active.session) in s.known
    && key in s.conversations
    && 1 <= active.epoch <= s.conversations[key].contextEpoch
  }

  ghost predicate PcOk(s: State, thread: Thread) {
    var id, key := thread.input.id, thread.input.scope.key;
    match thread.pc
    case SteerAdd(m, active) => StaleOk(s, key, m, active)
    case SteerSend(m, active) => StaleOk(s, key, m, active) && Stored(s.messages, thread.input)
    case Locked(at) => AtOk(s, thread, at)
    case Returned(result) =>
      if result.steered then Stored(s.messages, thread.input)
      else Answered(s.messages, id, result.reply)
    case _ => true
  }

  ghost predicate AtOk(s: State, thread: Thread, at: At) {
    && (thread.stored && !at.Checking? ==> thread.input.id in s.messages)
    && if at.Checking? || at.Replying? then true
       else if at.Cached? then Answered(s.messages, thread.input.id, at.reply)
       else if at.Finishing? then Answered(s.messages, thread.input.id, at.turn.reply)
       else if at.After? || at.Closing? then
         Answered(s.messages, thread.input.id, at.turn.reply) && RecordingOk(s, thread, at)
       else
         Unanswered(s.messages, thread.input.id) && PromptingOk(s, thread, at)
  }

  /** From choosing a session to the prompt's return. */
  ghost predicate PromptingOk(s: State, thread: Thread, at: At) {
    var input := thread.input;
    var key, row := input.scope.key, RowOf(s, input.scope.key);
    match at
    case Before(plan, got) =>
      PlanOk(row, s.maxTurns, input, plan) && GotOk(input.scope, plan, input.isFresh, got)
    case Loading(plan, handoff) =>
      PlanOk(row, s.maxTurns, input, plan) && HandoffOk(input, plan, handoff)
    case Opening(plan, handoff) =>
      && PlanOk(row, s.maxTurns, input, plan) && HandoffOk(input, plan, handoff)
      && plan.session == ""
    case Putting(plan, handoff) =>
      && PlanOk(row, s.maxTurns, input, plan.(session := "")) && HandoffOk(input, plan, handoff)
      && plan.session != "" && (thread.manager, plan.session) in s.known
    case Adding(plan, carried) =>
      Settled(s, thread.manager, key, plan) && HandoffOk(input, plan, carried)
    case Starting(plan, carried) =>
      && Settled(s, thread.manager, key, plan) && HandoffOk(input, plan, carried) && input.id in s.messages
    case Prompting(plan) =>
      && Settled(s, thread.manager, key, plan) && input.id in s.messages
      && (thread.manager, key) in s.active
      && s.active[(thread.manager, key)] == Active(plan.session, plan.epoch)
    case Answering(plan, turn) => Settled(s, thread.manager, key, plan) && input.id in s.messages
    case _ => true
  }

  /** From the stored reply to the stored turn. */
  ghost predicate RecordingOk(s: State, thread: Thread, at: At) {
    match at
    case After(plan, _, got) =>
      && Settled(s, thread.manager, thread.input.scope.key, plan)
      && GotOk(thread.input.scope, plan, false, got)
    case Closing(plan, _, handoff) =>
      && Settled(s, thread.manager, thread.input.scope.key, plan)
      && AllBelong(thread.input.scope, plan.epoch, handoff)
    case _ => true
  }

  ghost predicate ThreadOk(s: State, t: Tid) {
    && t in s.threads
    && var thread := CallOf(s, t);
    && thread.input.scope.key.Own?
    && IsIncomingID(thread.input.id)
    && (thread.pc.Locked? ==>
          thread.input.scope.key in s.locks && s.locks[thread.input.scope.key] == t)
    && PcOk(s, thread)
  }

  ghost predicate ThreadsOk(s: State) {
    && (forall t :: t in s.threads ==> ThreadOk(s, t))
    && (forall t, u :: t in s.threads && u in s.threads && t != u ==>
          s.threads[t].input.id != s.threads[u].input.id)
  }

  ghost predicate LocksOk(s: State) {
    forall key :: key in s.locks ==>
      && s.locks[key] in s.threads
      && s.threads[s.locks[key]].input.scope.key == key
      && s.threads[s.locks[key]].pc.Locked?
  }

  /** An active entry is the turn of the thread that holds the scope lock. */
  ghost predicate ActiveOk(s: State) {
    forall m, key :: (m, key) in s.active ==>
      && key in s.locks
      && s.locks[key] in s.threads
      && s.threads[s.locks[key]].manager == m
      && IsPrompting(s.threads[s.locks[key]].pc)
  }

  ghost predicate LoadedOk(s: State) {
    forall m, key :: (m, key) in s.loaded ==> (m, s.loaded[(m, key)]) in s.known
  }

  ghost predicate SharedOk(s: State) {
    && s.maxTurns > 0
    && MessagesOk(s.messages, s.conversations)
    && RowsOk(s.conversations, s.maxTurns)
    && CountsOk(s)
    && PromptsOk(s.prompts)
    && LoadedOk(s)
  }

  ghost predicate Inv(s: State) {
    SharedOk(s) && ThreadsOk(s) && LocksOk(s) && ActiveOk(s)
  }

  // ---- what a call does to the others -----------------------------------------

  /** The effect of one event on everybody but thread `t`: rows are only added, the
      only reply row added is the one for its own message, and a conversation changes
      only under a lock that the thread holds. */
  ghost predicate Gentle(s: State, s': State, t: Tid, id: string) {
    && s'.maxTurns == s.maxTurns
    && (forall k :: k in s.messages ==> k in s'.messages && s'.messages[k] == s.messages[k])
    && (forall k :: k in s'.messages && k !in s.messages && IsReplyID(k) ==> k == ReplyID(id))
    && (forall key :: key in s.conversations ==>
          key in s'.conversations &&
          s.conversations[key].contextEpoch <= s'.conversations[key].contextEpoch)
    && (forall key :: key in s.locks && s.locks[key] != t ==>
          && key in s'.locks && s'.locks[key] == s.locks[key]
          && RowOf(s', key) == RowOf(s, key)
          && forall m :: ((m, key) in s.active <==> (m, key) in s'.active) &&
               ((m, key) in s.active ==> s.active[(m, key)] == s'.active[(m, key)]))
    && s.known <= s'.known
  }

  lemma OthersUnharmed(s: State, s': State, t: Tid, id: string, u: Tid)
    requires Gentle(s, s', t, id)
    requires u in s.threads && u in s'.threads && CallOf(s', u) == CallOf(s, u)
    requires ThreadOk(s, u)
    requires u != t && CallOf(s, u).input.id != id
    ensures ThreadOk(s', u)
  {
    var thread := s.threads[u];
    var key, other := thread.input.scope.key, thread.input.id;
    if ReplyID(other) !in s.messages && ReplyID(other) in s'.messages {
      ReplyIDInjective(other, id);
    }
    hide ReplyID;
    hide IsReplyID;
    if thread.pc.Locked? {
      assert s.locks[key] == u;
      assert RowOf(s', key) == RowOf(s, key);
      hide Gentle;
    } else {
      hide AtOk;
    }
  }
}
