/** The conversation manager as an interleaving of Handle and Steer calls.

    Every SQL statement and every adapter request is one atomic event. Any number
    of calls run at once; one scope lock per key serialises Handle, and Steer takes
    no lock. The adapter is free to answer anything; any statement may fail, with or
    without having taken effect; the process may crash between any two events. */
module Conversations {
  import opened Wrappers
  import opened Tables
  import opened Handoff

  const MAX_HANDOFF_MESSAGES: nat := 24
  const MAX_HANDOFF_CHARS: nat := 16_000

  datatype Tid = Worker(index: nat) | Webex(index: nat)

  /** One message for a persona's conversation; `text` is already trimmed. */
  datatype Input = Input(
    scope: Scope, id: string, isFresh: bool, senderID: string, text: string, createdAt: string)

  datatype StopReason = EndTurn | MaxTokens | MaxTurnRequests | Refusal | Cancelled

  /** What a successful Prompt returns. */
  datatype Turn = Turn(reply: string, stop: StopReason)

  datatype Result = Result(
    reply: string, session: string, generation: int, cached: bool, steered: bool)

  /** The locals Handle rewrites while it chooses a session; "" means none yet. */
  datatype Plan = Plan(session: string, generation: int, epoch: int, turns: int)

  datatype Active = Active(session: string, epoch: int)

  /** How far BuildHandoff has read. */
  datatype Gathered = Unread | RootRead(root: Option<Message>) | HeadRead(head: seq<Message>)

  /** Where a call that holds its scope lock is. */
  datatype At =
    | Checking                                   // is the message stored?
    | Replying                                   // is it answered?
    | Cached(reply: string)                      // read the row for the cached result
    | Reading                                    // read the row to choose a session
    | Before(plan: Plan, got: Gathered)          // first BuildHandoff
    | Loading(plan: Plan, handoff: seq<Message>) // make the session known, or open one
    | Opening(plan: Plan, handoff: seq<Message>)
    | Putting(plan: Plan, handoff: seq<Message>) // store the opened session
    | Adding(plan: Plan, carried: seq<Message>)  // store the user message
    | Starting(plan: Plan, carried: seq<Message>)
    | Prompting(plan: Plan)
    | Answering(plan: Plan, turn: Turn)          // store the reply
    | After(plan: Plan, turn: Turn, got: Gathered)
    | Closing(plan: Plan, turn: Turn, handoff: seq<Message>) // store the finished turn
    | Finishing(plan: Plan, turn: Turn)

  datatype Pc =
    | Steering                                   // scanning the slots, or about to stop
    | SteerLook(manager: nat)                    // message is new; look up the active turn
    | SteerAdd(manager: nat, active: Active)     // store the message under the active epoch
    | SteerSend(manager: nat, active: Active)    // ask the adapter to steer
    | Locking                                    // waiting for the scope lock
    | Locked(at: At)
    | Returned(result: Result)
    | Failed

  /** `manager` names the adapter process the call runs on; `stored` is messageExists. */
  datatype Thread = Thread(input: Input, manager: nat, stored: bool, pc: Pc)

  /** One prompt sent: what it was for and which stored messages it carried. */
  datatype Prompt = Prompt(
    scope: Scope, messageID: string, isFresh: bool, manager: nat, session: string,
    epoch: int, carried: seq<Message>)

  /** `known`, `opens`, `recorded` and `prompts` are history: the sessions each
      process opened or loaded, the session-opening writes of a key, the finished
      turns written for a generation of a key, and the prompts sent. */
  datatype State = State(
    messages: Messages,
    conversations: map<Key, Conversation>,
    threads: map<Tid, Thread>,
    locks: map<Key, Tid>,
    loaded: map<(nat, Key), string>,
    active: map<(nat, Key), Active>,
    known: set<(nat, string)>,
    opens: map<Key, nat>,
    recorded: map<(Key, int), nat>,
    prompts: seq<Prompt>,
    maxTurns: nat)

  // ---- the events of one call -------------------------------------------------

  /** Reads that only choose where to go on. */
  datatype ReadEvent =
    | ReadReply(reply: Option<string>)
    | ReadRow
    | ReadRoot
    | ReadAnswer(answer: Option<Message>)
    | ReadRecent(recent: seq<Message>)
    | Resume                                     // the session is loaded already
    | Missing                                    // session/load: no such session
    | Rotate                                     // no session to resume

  datatype WriteEvent =
    | Check
    | ReadCached
    | Loaded                                     // session/load succeeded
    | Open(session: string)                      // session/new succeeded
    | PutOpened(outcome: Outcome)
    | StoreUser(outcome: Outcome)
    | Start                                      // StartRun, setActive, send the prompt
    | Prompted(turn: Turn)
    | StoreReply(outcome: Outcome, time: string)
    | PutTurn(outcome: Outcome)
    | Finish

  /** What one call does next. `Read` and `Write` happen under the scope lock. */
  datatype Event =
    | Fail                                       // an error ends the call
    | Miss                                       // no steering: go on to a normal turn
    | SteerCheck(manager: nat)
    | SteerFind
    | SteerStore(outcome: Outcome)
    | SteerAnswer(delivered: bool)
    | Lock(manager: nat)
    | Read(read: ReadEvent)
    | Write(write: WriteEvent)

  predicate IsPrompting(pc: Pc) { pc.Locked? && pc.at.Prompting? }

  predicate IsOver(pc: Pc) { pc.Returned? || pc.Failed? }

  /** No mode means continue. */
  function ParseMode(mode: string): Option<string> {
    if mode == "" || mode == "continue" then Some("continue")
    else if mode == "fresh" then Some("fresh")
    else None
  }

  /** Which session Handle aims for, from the stored row. */
  function PlanFor(row: Option<Conversation>, isFresh: bool, maxTurns: nat): Plan {
    match row
    case None => Plan("", 1, 1, 0)
    case Some(c) =>
      var epoch := if c.contextEpoch <= 0 then 1 else c.contextEpoch;
      if isFresh then Plan("", c.generation + 1, epoch + 1, 0)
      else if c.completedTurns >= maxTurns then Plan("", c.generation + 1, epoch, 0)
      else Plan(c.sessionID, c.generation, epoch, c.completedTurns)
  }

  predicate IncludesRoot(input: Input, epoch: int) {
    input.scope.rootMessageID != "" && epoch == 1 && !input.isFresh
  }

  /** SELECT ... WHERE in_reply_to AND role = 'assistant' ORDER BY created_at LIMIT 1. */
  ghost predicate IsFirstAnswer(messages: Messages, id: string, answer: Option<Message>) {
    match answer
    case None => forall k :: k in messages ==> !Answers(messages[k], id)
    case Some(m) =>
      m.id in messages && messages[m.id] == m && Answers(m, id) &&
      forall k :: k in messages && Answers(messages[k], id) ==>
        !Less(messages[k].createdAt, m.createdAt)
  }

  function RowOf(s: State, key: Key): Option<Conversation> {
    if key in s.conversations then Some(s.conversations[key]) else None
  }

  function UserRow(input: Input, epoch: int): Message {
    Message(input.id, input.scope, User, input.senderID, input.text, "", epoch, input.createdAt)
  }

  function ReplyRow(input: Input, turn: Turn, epoch: int, at: string): Message {
    Message(ReplyID(input.id), input.scope, Assistant, "", turn.reply, input.id, epoch, at)
  }

  function TurnsAfter(plan: Plan, turn: Turn, maxTurns: nat): int {
    if turn.stop == MaxTokens || turn.stop == MaxTurnRequests then maxTurns else plan.turns + 1
  }

  const NOBODY: Thread :=
    Thread(Input(Scope(Shared(""), "", ""), "", false, "", "", ""), 0, false, Failed)

  /** The call `t`; one that has failed when there is none. */
  function CallOf(s: State, t: Tid): Thread {
    if t in s.threads then s.threads[t] else NOBODY
  }

  function Goto(s: State, t: Tid, pc: Pc): (r: State)
    ensures r.known == s.known
  {
    s.(threads := s.threads[t := CallOf(s, t).(pc := pc)])
  }

  function Continue(s: State, t: Tid, at: At): (r: State)
    ensures r.known == s.known
  {
    Goto(s, t, Locked(at))
  }

  /** End the call; a scope lock it holds is released. */
  function Leave(s: State, t: Tid, pc: Pc): (r: State)
    ensures r.known == s.known
  {
    var thread := CallOf(s, t);
    Goto(s, t, pc).(
      locks := if thread.pc.Locked? then s.locks - {thread.input.scope.key} else s.locks,
      active := if IsPrompting(thread.pc) then s.active - {(thread.manager, thread.input.scope.key)}
                else s.active)
  }

  function WithMessage(s: State, message: Message, outcome: Outcome): State {
    if outcome.Effective() then s.(messages := AddMessage(s.messages, message)) else s
  }

  function WithKnown(s: State, manager: nat, key: Key, session: string): State {
    s.(loaded := s.loaded[(manager, key) := session], known := s.known + {(manager, session)})
  }

  function Count<K>(counts: map<K, nat>, key: K): nat {
    if key in counts then counts[key] else 0
  }

  /** Where in the call an event belongs. */
  predicate Fits(pc: Pc, e: Event) {
    match e
    case Fail => pc.Steering? || pc.Locking? || pc.Locked?
    case Miss => pc.Steering? || pc.SteerSend?
    case SteerCheck(_) => pc.Steering?
    case SteerFind => pc.SteerLook?
    case SteerStore(_) => pc.SteerAdd?
    case SteerAnswer(_) => pc.SteerSend?
    case Lock(_) => pc.Locking?
    case Read(r) => pc.Locked? && FitsRead(pc.at, r)
    case Write(w) => pc.Locked? && FitsWrite(pc.at, w)
  }

  predicate FitsRead(at: At, r: ReadEvent) {
    match r
    case ReadReply(_) => at.Replying?
    case ReadRow => at.Reading?
    case ReadRoot => (at.Before? || at.After?) && at.got.Unread?
    case ReadAnswer(_) => (at.Before? || at.After?) && at.got.RootRead?
    case ReadRecent(_) => (at.Before? || at.After?) && at.got.HeadRead?
    case Resume => at.Loading? && at.plan.session != ""
    case Missing => at.Loading? && at.plan.session != ""
    case Rotate => at.Loading? && at.plan.session == ""
  }

  predicate FitsWrite(at: At, w: WriteEvent) {
    match w
    case Check => at.Checking?
    case ReadCached => at.Cached?
    case Loaded => at.Loading? && at.plan.session != ""
    case Open(session) => at.Opening? && session != ""
    case PutOpened(_) => at.Putting?
    case StoreUser(_) => at.Adding?
    case Start => at.Starting?
    case Prompted(_) => at.Prompting?
    case StoreReply(_, _) => at.Answering?
    case PutTurn(_) => at.Closing?
    case Finish => at.Finishing?
  }

  /** BuildHandoff excludes the current message before the turn and nothing after it. */
  function Excluded(input: Input, at: At): string { if at.Before? then input.id else "" }

  predicate IsLoaded(s: State, manager: nat, key: Key, session: string) {
    (manager, key) in s.loaded && s.loaded[(manager, key)] == session
  }

  /** What a read found is what the tables and the manager's maps hold. */
  ghost predicate Observes(s: State, input: Input, manager: nat, at: At, r: ReadEvent) {
    && FitsRead(at, r)
    && var key := input.scope.key;
    match r
    case ReadReply(reply) => IsReplyTo(s.messages, input.id, reply)
    case ReadRow => true
    case ReadRoot => true
    case ReadAnswer(answer) => IsFirstAnswer(s.messages, input.scope.rootMessageID, answer)
    case ReadRecent(recent) =>
      var rows := ScopeRows(s.messages, key, at.plan.epoch, Excluded(input, at));
      IsRecent(rows, MAX_HANDOFF_MESSAGES, recent)
    case Resume => IsLoaded(s, manager, key, at.plan.session)
    case Missing => !IsLoaded(s, manager, key, at.plan.session)
    case Rotate => true
  }

  ghost predicate CanAct(s: State, t: Tid, e: Event)
  {
    && t in s.threads
    && var thread := s.threads[t];
    && Fits(thread.pc, e)
    && (e.Lock? ==> thread.input.scope.key !in s.locks)
    && (e.Read? ==> Observes(s, thread.input, thread.manager, thread.pc.at, e.read))
    && (e.Write? && e.write.Loaded? ==>
          !IsLoaded(s, thread.manager, thread.input.scope.key, thread.pc.at.plan.session))
    && (e.Write? && e.write.StoreUser? && thread.stored ==> e.write.outcome.Done?)
  }

  /** The state after the event; one that does not belong there changes nothing. */
  function Act(s: State, t: Tid, e: Event): State {
    var thread := CallOf(s, t);
    var pc, input := thread.pc, thread.input;
    if !Fits(pc, e) then s else match e
    case Fail => Leave(s, t, Failed)
    case Miss => Goto(s, t, Locking)
    case SteerCheck(m) => if input.id in s.messages then s else Goto(s, t, SteerLook(m))
    case SteerFind => ActSteerFind(s, t, input, pc.manager)
    case SteerStore(outcome) => ActSteerStore(s, t, input, pc.manager, pc.active, outcome)
    case SteerAnswer(delivered) => ActSteerAnswer(s, t, pc.active, delivered)
    case Lock(m) => ActLock(s, t, m)
    case Read(r) => Continue(s, t, AfterRead(s, input, pc.at, r))
    case Write(w) => ActWrite(s, t, input, thread.manager, pc.at, w)
  }

  function AfterRead(s: State, input: Input, at: At, r: ReadEvent): At {
    if !FitsRead(at, r) then at else match r
    case ReadReply(reply) => if reply.Some? then Cached(reply.value) else Reading
    case ReadRow => Before(PlanFor(RowOf(s, input.scope.key), input.isFresh, s.maxTurns), Unread)
    case ReadRoot => WithGot(at, RootGot(s, input, at.plan.epoch))
    case ReadAnswer(answer) => WithGot(at, HeadRead(Head(at.got.root, answer, Excluded(input, at))))
    case ReadRecent(recent) => Selected(at, recent)
    case Resume => Adding(at.plan, [])
    case Missing => Opening(Plan("", at.plan.generation + 1, at.plan.epoch, 0), at.handoff)
    case Rotate => Opening(at.plan, at.handoff)
  }

  function ActWrite(s: State, t: Tid, input: Input, m: nat, at: At, w: WriteEvent): State {
    if !FitsWrite(at, w) then s else match w
    case Check => ActCheck(s, t)
    case ReadCached => ActReadCached(s, t, input.scope.key, at.reply)
    case Loaded =>
      Continue(WithKnown(s, m, input.scope.key, at.plan.session), t, Adding(at.plan, []))
    case Open(session) =>
      Continue(WithKnown(s, m, input.scope.key, session), t,
        Putting(at.plan.(session := session), at.handoff))
    case PutOpened(outcome) => ActPutOpened(s, t, input, at.plan, at.handoff, outcome)
    case StoreUser(outcome) => ActStoreUser(s, t, input, at.plan, at.carried, outcome)
    case Start => ActStart(s, t, input, m, at.plan, at.carried)
    case Prompted(turn) => ActPrompted(s, t, input.scope.key, m, at.plan, turn)
    case StoreReply(outcome, time) => ActStoreReply(s, t, input, at.plan, at.turn, outcome, time)
    case PutTurn(outcome) => ActPutTurn(s, t, input.scope, at.plan, at.turn, at.handoff, outcome)
    case Finish =>
      Leave(s, t, Returned(
        Result(at.turn.reply, at.plan.session, at.plan.generation, false, false)))
  }

  function WithGot(at: At, got: Gathered): At {
    if at.Before? then Before(at.plan, got)
    else if at.After? then After(at.plan, at.turn, got) else at
  }

  function RootGot(s: State, input: Input, epoch: int): Gathered {
    var root := input.scope.rootMessageID;
    if !IncludesRoot(input, epoch) then HeadRead([])
    else RootRead(if root in s.messages then Some(s.messages[root]) else None)
  }

  function Selected(at: At, recent: seq<Message>): At {
    match at
    case Before(plan, HeadRead(head)) => Loading(plan, head + Unseen(head, Reversed(recent)))
    case After(plan, turn, HeadRead(head)) =>
      Closing(plan, turn, head + Unseen(head, Reversed(recent)))
    case _ => at
  }

  // Steer.

  function ActSteerFind(s: State, t: Tid, input: Input, manager: nat): (r: State)
    ensures r.known == s.known
  {
    var at := (manager, input.scope.key);
    Goto(s, t, if at in s.active then SteerAdd(manager, s.active[at]) else Steering)
  }

  function ActSteerStore(
    s: State, t: Tid, input: Input, manager: nat, active: Active, outcome: Outcome): (r: State)
    ensures r.known == s.known
  {
    Goto(WithMessage(s, UserRow(input, active.epoch), outcome), t,
      if !outcome.Done? then Locking
      else if input.id in s.messages then Steering
      else SteerSend(manager, active))
  }

  function ActSteerAnswer(s: State, t: Tid, active: Active, delivered: bool): (r: State)
    ensures r.known == s.known
  {
    if delivered then Leave(s, t, Returned(Result("", active.session, 0, false, true)))
    else Goto(s, t, Steering)
  }

  // Handle.

  function ActLock(s: State, t: Tid, manager: nat): (r: State)
    ensures r.known == s.known
  {
    var thread := CallOf(s, t);
    s.(locks := s.locks[thread.input.scope.key := t],
       threads := s.threads[t := thread.(manager := manager, pc := Locked(Checking))])
  }

  function ActCheck(s: State, t: Tid): (r: State)
    ensures r.known == s.known
  {
    var thread := CallOf(s, t);
    var found := thread.input.id in s.messages;
    s.(threads := s.threads[t :=
      thread.(stored := found, pc := Locked(if found then Replying else Reading))])
  }

  function CachedResult(row: Option<Conversation>, reply: string): Result {
    match row
    case None => Result(reply, "", 0, true, false)
    case Some(c) => Result(reply, c.sessionID, c.generation, true, false)
  }

  function ActReadCached(s: State, t: Tid, key: Key, reply: string): (r: State)
    ensures r.known == s.known
  {
    Leave(s, t, Returned(CachedResult(RowOf(s, key), reply)))
  }

  function OpeningRow(input: Input, plan: Plan, handoff: seq<Message>): Conversation {
    Conversation(input.scope, plan.session, plan.generation, plan.epoch, plan.turns, handoff)
  }

  /** A session-opening write. */
  function Opened(s: State, row: Conversation): State {
    s.(conversations := s.conversations[row.scope.key := row],
       opens := s.opens[row.scope.key := Count(s.opens, row.scope.key) + 1])
  }

  function ActPutOpened(
    s: State, t: Tid, input: Input, plan: Plan, handoff: seq<Message>, outcome: Outcome): (r: State)
    ensures r.known == s.known
  {
    var put := Opened(s, OpeningRow(input, plan, handoff));
    match outcome
    case Done => Continue(put, t, Adding(plan, if input.isFresh then [] else handoff))
    case Unknown => Leave(put, t, Failed)
    case Lost => Leave(s, t, Failed)
  }

  function ActStoreUser(
    s: State, t: Tid, input: Input, plan: Plan, carried: seq<Message>, outcome: Outcome): (r: State)
    ensures r.known == s.known
  {
    var put := if CallOf(s, t).stored then s
               else WithMessage(s, UserRow(input, plan.epoch), outcome);
    if outcome.Done? then Continue(put, t, Starting(plan, carried)) else Leave(put, t, Failed)
  }

  function ActStart(
    s: State, t: Tid, input: Input, manager: nat, plan: Plan, carried: seq<Message>): (r: State)
    ensures r.known == s.known
  {
    Continue(s, t, Prompting(plan)).(
      active := s.active[(manager, input.scope.key) := Active(plan.session, plan.epoch)],
      prompts := s.prompts + [Prompt(input.scope, input.id, input.isFresh, manager,
        plan.session, plan.epoch, carried)])
  }

  function ActPrompted(s: State, t: Tid, key: Key, m: nat, plan: Plan, turn: Turn): (r: State)
    ensures r.known == s.known
  {
    Continue(s, t, Answering(plan, turn)).(active := s.active - {(m, key)})
  }

  function ActStoreReply(
    s: State, t: Tid, input: Input, plan: Plan, turn: Turn, outcome: Outcome, time: string): (r: State)
    ensures r.known == s.known
  {
    var put := WithMessage(s, ReplyRow(input, turn, plan.epoch, time), outcome);
    if outcome.Done? then Continue(put, t, After(plan, turn, Unread)) else Leave(put, t, Failed)
  }

  function TurnRow(
    scope: Scope, plan: Plan, turn: Turn, handoff: seq<Message>, maxTurns: nat): Conversation
  {
    Conversation(scope, plan.session, plan.generation, plan.epoch,
      TurnsAfter(plan, turn, maxTurns), handoff)
  }

  /** A turn-recording write. */
  function Recorded(s: State, row: Conversation): State {
    var count := (row.scope.key, row.generation);
    s.(conversations := s.conversations[row.scope.key := row],
       recorded := s.recorded[count := Count(s.recorded, count) + 1])
  }

  function ActPutTurn(
    s: State, t: Tid, scope: Scope, plan: Plan, turn: Turn, handoff: seq<Message>,
    outcome: Outcome): (r: State)
    ensures r.known == s.known
  {
    var put := Recorded(s, TurnRow(scope, plan, turn, handoff, s.maxTurns));
    match outcome
    case Done => Continue(put, t, Finishing(plan, turn))
    case Unknown => Leave(put, t, Failed)
    case Lost => Leave(s, t, Failed)
  }

  // ---- calls come and go ------------------------------------------------------

  /** Message IDs are not empty and do not look like the ID of a stored reply. */
  predicate IsIncomingID(id: string) { id != "" && !IsReplyID(id) }

  /** A call may begin when no other call carries the same message. */
  ghost predicate CanBegin(s: State, t: Tid, input: Input) {
    && t !in s.threads
    && IsOwnKey(input.scope.key)
    && IsIncomingID(input.id)
    && forall u :: u in s.threads ==> s.threads[u].input.id != input.id
  }

  function Begin(s: State, t: Tid, input: Input): State {
    s.(threads := s.threads[t := Thread(input, 0, false, if input.isFresh then Locking else Steering)])
  }

  predicate CanEnd(s: State, t: Tid) { t in s.threads && IsOver(s.threads[t].pc) }

  function End(s: State, t: Tid): State { s.(threads := s.threads - {t}) }

  /** The process stops: what was in memory is gone, the tables stay. */
  function Crash(s: State): State {
    s.(threads := map[], locks := map[], loaded := map[], active := map[], known := {})
  }

  /** saveThreadRoot stores a room message outside every persona's conversation. */
  predicate IsThreadRoot(message: Message) {
    IsRoomKey(message.scope.key) && message.inReplyTo == "" && IsIncomingID(message.id)
  }

  ghost predicate Init(s: State) {
    && s.maxTurns > 0
    && s == State(map[], map[], map[], map[], map[], map[], {}, map[], map[], [], s.maxTurns)
  }

  datatype Step =
    | BeginStep(t: Tid, input: Input)
    | ActStep(t: Tid, event: Event)
    | EndStep(t: Tid)
    | SaveRootStep(message: Message, outcome: Outcome)
    | CrashStep

  ghost predicate Do(s: State, step: Step, s': State) {
    match step
    case BeginStep(t, input) => CanBegin(s, t, input) && s' == Begin(s, t, input)
    case ActStep(t, e) => CanAct(s, t, e) && s' == Act(s, t, e)
    case EndStep(t) => CanEnd(s, t) && s' == End(s, t)
    case SaveRootStep(message, outcome) =>
      IsThreadRoot(message) && s' == WithMessage(s, message, outcome)
    case CrashStep => s' == Crash(s)
  }

  ghost predicate Next(s: State, s': State) { exists step :: Do(s, step, s') }
}
