/** The conversation manager as the object that one call executes on: its maps, the
    store's tables and the steps of Handle and Steer, each of them an event of the
    machine in Conversations. */
module Managers {
  import opened Wrappers
  import opened Tables
  import opened Handoff
  import opened Conversations
  import opened ConversationInvariant
  import ConversationSteps
  import ConversationTheorems
  import Text

  datatype Load = SessionLoaded | SessionMissing | LoadError

  /** How the statements and requests of one call end: reads succeed or not, writes have
      an outcome, an empty session ID or a missing turn is an error of the adapter. */
  datatype Weather = Weather(
    check: bool, reply: bool, cachedRow: bool, row: bool, gather: bool, load: Load,
    session: string, putOpened: Outcome, storeUser: Outcome, start: bool, turn: Option<Turn>,
    storeReply: Outcome, time: string, gatherAgain: bool, putTurn: Outcome, finish: bool)

  // ---- what Handle checks first -----------------------------------------------

  /** A message as it is handed over; "" stands for no ID, no mode and the zero time. */
  datatype Raw = Raw(
    scope: Scope, id: string, mode: string, senderID: string, text: string, createdAt: string)

  predicate IsAdmissible(message: Raw, random: Option<string>) {
    && KeyText(message.scope.key) != "" && message.scope.roomID != ""
    && Text.TrimSpace(message.text) != "" && ParseMode(message.mode).Some?
    && (message.id != "" || random.Some?)
  }

  /** Nothing is read or written for a message without scope or text, with an unknown mode,
      or without an ID when none can be drawn. */
  method Admit(message: Raw, random: Option<string>, now: string) returns (input: Option<Input>)
    ensures input.Some? <==> IsAdmissible(message, random)
    ensures input.Some? ==>
      && input.value.scope == message.scope && input.value.senderID == message.senderID
      && input.value.text == Text.TrimSpace(message.text) != ""
      && (input.value.isFresh <==> message.mode == "fresh")
      && input.value.id == (if message.id == "" then random.value else message.id)
      && input.value.createdAt == (if message.createdAt == "" then now else message.createdAt)
  {
    var text := Text.TrimSpace(message.text);
    if KeyText(message.scope.key) == "" || message.scope.roomID == "" || text == "" {
      return None;
    }
    var mode := ParseMode(message.mode);
    if mode.None? {
      return None;
    }
    var id := message.id;
    if id == "" {
      if random.None? {
        return None;
      }
      id := random.value;
    }
    var createdAt := message.createdAt;
    if createdAt == "" {
      createdAt := now;
    }
    return Some(
      Input(message.scope, id, mode.value == "fresh", message.senderID, text, createdAt));
  }

  // ---- what one manager shows of the machine ----------------------------------

  /** The store's tables and one manager's maps. */
  datatype View = View(
    messages: Messages, conversations: map<Key, Conversation>, loaded: map<Key, string>,
    active: map<Key, Active>)

  /** One call: the manager it runs on, its thread, its message, whether that message is
      stored already when it looks, and the state in which it set out. */
  datatype Call = Call(id: nat, t: Tid, input: Input, stored: bool, from: State)

  ghost predicate ShowsLoaded(loaded: map<Key, string>, id: nat, all: map<(nat, Key), string>) {
    && (forall key :: key in loaded <==> (id, key) in all)
    && (forall key :: key in loaded ==> loaded[key] == all[(id, key)])
  }

  ghost predicate ShowsActive(active: map<Key, Active>, id: nat, all: map<(nat, Key), Active>) {
    && (forall key :: key in active <==> (id, key) in all)
    && (forall key :: key in active ==> active[key] == all[(id, key)])
  }

  ghost predicate Shows(v: View, id: nat, s: State) {
    && v.messages == s.messages && v.conversations == s.conversations
    && ShowsLoaded(v.loaded, id, s.loaded) && ShowsActive(v.active, id, s.active)
  }

  /** Call `c` has come to `at`. */
  ghost predicate Stands(v: View, c: Call, s: State, at: At) {
    && Shows(v, c.id, s) && Inv(s) && ConversationTheorems.Later(c.from, s)
    && ConversationSteps.Holds(s, c.t, at)
    && s.threads[c.t].input == c.input && s.threads[c.t].manager == c.id
    && c.stored == if at.Checking? then c.input.id in s.messages else s.threads[c.t].stored
  }

  /** Call `c` has ended as `pc` and let go of its lock. */
  ghost predicate IsEnded(v: View, c: Call, s: State, pc: Pc) {
    && Shows(v, c.id, s) && Inv(s) && ConversationTheorems.Later(c.from, s)
    && c.t in s.threads && s.threads[c.t].input == c.input && s.threads[c.t].pc == pc
    && c.input.scope.key !in s.locks
  }

  lemma LoadedUpdated(
    loaded: map<Key, string>, id: nat, all: map<(nat, Key), string>, key: Key, session: string)
    requires ShowsLoaded(loaded, id, all)
    ensures ShowsLoaded(loaded[key := session], id, all[(id, key) := session])
  {
  }

  lemma ActiveUpdated(
    active: map<Key, Active>, id: nat, all: map<(nat, Key), Active>, key: Key, turn: Active)
    requires ShowsActive(active, id, all)
    ensures ShowsActive(active[key := turn], id, all[(id, key) := turn])
    ensures ShowsActive(active - {key}, id, all - {(id, key)})
  {
  }

  lemma ActiveAbsent(active: map<Key, Active>, id: nat, all: map<(nat, Key), Active>, key: Key)
    requires ShowsActive(active, id, all) && (id, key) !in all
    ensures active - {key} == active
  {
    assert key !in active;
  }

  /** The session is the one kept for the key. */
  predicate IsKept(loaded: map<Key, string>, key: Key, session: string) {
    key in loaded && loaded[key] == session
  }

  lemma LoadedAgrees(v: View, id: nat, s: State, key: Key, session: string)
    requires Shows(v, id, s)
    ensures IsLoaded(s, id, key, session) <==> IsKept(v.loaded, key, session)
  {
  }

  /** One event of the machine. */
  lemma Advance(from: State, s: State, t: Tid, e: Event)
    requires Inv(s) && ConversationTheorems.Later(from, s) && CanAct(s, t, e)
    ensures Inv(Act(s, t, e)) && ConversationTheorems.Later(from, Act(s, t, e))
  {
    ConversationSteps.ActOk(s, t, e);
    ConversationTheorems.EventIsLater(s, t, e);
    ConversationTheorems.LaterTransitive(from, s, Act(s, t, e));
  }

  // ---- the events, as one manager sees them -----------------------------------

  lemma Locks(v: View, c: Call, s: State)
    requires Shows(v, c.id, s) && Inv(s) && ConversationTheorems.Later(c.from, s)
    requires c.t in s.threads && CallOf(s, c.t).input == c.input && CallOf(s, c.t).pc == Locking
    requires c.input.scope.key !in s.locks && c.stored == (c.input.id in s.messages)
    ensures Stands(v, c, ActLock(s, c.t, c.id), Checking)
    ensures ActLock(s, c.t, c.id).prompts == s.prompts
  {
    hide Inv;
    hide ConversationTheorems.Later;
    hide ShowsLoaded;
    hide ShowsActive;
    Advance(c.from, s, c.t, Event.Lock(c.id));
  }

  /** A read moves the call on and leaves everything as it is. */
  lemma Looks(v: View, c: Call, s: State, at: At, r: ReadEvent)
    requires Stands(v, c, s, at)
    requires FitsRead(at, r) && Observes(s, c.input, c.id, at, r)
    ensures
      var s' := Continue(s, c.t, AfterRead(s, c.input, at, r));
      && Stands(v, c, s', AfterRead(s, c.input, at, r))
      && s'.prompts == s.prompts && s'.messages == s.messages && s'.maxTurns == s.maxTurns
  {
    hide Inv;
    hide ConversationTheorems.Later;
    hide ShowsLoaded;
    hide ShowsActive;
    Advance(c.from, s, c.t, Read(r));
    NotChecking(s, c.input, at, r);
    hide AfterRead;
    hide Observes;
    hide FitsRead;
  }

  lemma NotChecking(s: State, input: Input, at: At, r: ReadEvent)
    requires FitsRead(at, r)
    ensures !at.Checking? && !AfterRead(s, input, at, r).Checking?
  {
  }

  /** Where the reads of a handoff and of a session lead. */
  lemma RootLeads(s: State, input: Input, id: nat, at: At)
    requires (at.Before? || at.After?) && at.got.Unread?
    ensures FitsRead(at, ReadRoot) && Observes(s, input, id, at, ReadRoot)
    ensures AfterRead(s, input, at, ReadRoot) == WithGot(at, RootGot(s, input, at.plan.epoch))
  {
  }

  lemma NoRoot(s: State, input: Input, at: At)
    requires (at.Before? || at.After?) && !IncludesRoot(input, at.plan.epoch)
    ensures RootGot(s, input, at.plan.epoch) == HeadRead(Head(None, None, Excluded(input, at)))
  {
  }

  lemma AnswerLeads(
    s: State, input: Input, id: nat, at: At, root: Option<Message>, answer: Option<Message>)
    requires at.Before? || at.After?
    requires IsFirstAnswer(s.messages, input.scope.rootMessageID, answer)
    ensures FitsRead(WithGot(at, RootRead(root)), ReadAnswer(answer))
    ensures Observes(s, input, id, WithGot(at, RootRead(root)), ReadAnswer(answer))
    ensures AfterRead(s, input, WithGot(at, RootRead(root)), ReadAnswer(answer)) ==
      WithGot(at, HeadRead(Head(root, answer, Excluded(input, at))))
  {
    hide Head;
  }

  lemma SessionLeads(s: State, input: Input, plan: Plan, handoff: seq<Message>, r: ReadEvent)
    requires r.Rotate? || r.Resume? || r.Missing?
    requires FitsRead(Loading(plan, handoff), r)
    ensures AfterRead(s, input, Loading(plan, handoff), r) ==
      if r.Rotate? then Opening(plan, handoff)
      else if r.Resume? then Adding(plan, [])
      else Opening(Plan("", plan.generation + 1, plan.epoch, 0), handoff)
  {
  }

  lemma RecentLeads(
    s: State, input: Input, id: nat, at: At, head: seq<Message>, recent: seq<Message>)
    requires at.Before? || at.After?
    requires IsRecent(ScopeRows(s.messages, input.scope.key, at.plan.epoch, Excluded(input, at)),
      MAX_HANDOFF_MESSAGES, recent)
    ensures FitsRead(WithGot(at, HeadRead(head)), ReadRecent(recent))
    ensures Observes(s, input, id, WithGot(at, HeadRead(head)), ReadRecent(recent))
    ensures
      var selected := head + Unseen(head, Reversed(recent));
      AfterRead(s, input, WithGot(at, HeadRead(head)), ReadRecent(recent)) ==
        if at.Before? then Loading(at.plan, selected) else Closing(at.plan, at.turn, selected)
  {
    hide Unseen;
    hide Reversed;
    hide IsRecent;
    hide ScopeRows;
  }

  lemma Fails(v: View, c: Call, s: State, at: At)
    requires Stands(v, c, s, at)
    ensures IsEnded(v.(active := v.active - {c.input.scope.key}), c, Leave(s, c.t, Failed), Failed)
    ensures Leave(s, c.t, Failed).prompts == s.prompts
  {
    var key := c.input.scope.key;
    Advance(c.from, s, c.t, Event.Fail);
    ActiveIsPrompting(s, c.t, c.id, at);
    hide Inv;
    hide ConversationTheorems.Later;
    if at.Prompting? {
      ActiveUpdated(v.active, c.id, s.active, key, Active.Active("", 0));
    } else {
      ActiveAbsent(v.active, c.id, s.active, key);
    }
    hide ShowsLoaded;
    hide ShowsActive;
  }

  lemma ActiveIsPrompting(s: State, t: Tid, id: nat, at: At)
    requires Inv(s) && ConversationSteps.Holds(s, t, at)
    ensures (id, CallOf(s, t).input.scope.key) in s.active ==> at.Prompting?
  {
    ConversationSteps.ThreadFacts(s, t);
  }

  /** Writes, in the order Handle makes them. */
  function Written(s: State, c: Call, at: At, w: WriteEvent): State {
    ActWrite(s, c.t, c.input, c.id, at, w)
  }

  predicate IsUnsure(w: WriteEvent) { w.StoreUser? && !w.outcome.Done? }

  /** The session that the call is to load is loaded already. */
  predicate HasLoaded(s: State, c: Call, at: At) {
    at.Loading? && IsLoaded(s, c.id, c.input.scope.key, at.plan.session)
  }

  lemma Writes(v: View, c: Call, s: State, at: At, w: WriteEvent)
    requires Stands(v, c, s, at) && FitsWrite(at, w)
    requires w.Loaded? ==> !HasLoaded(s, c, at)
    requires c.stored && !at.Checking? ==> !IsUnsure(w)
    ensures Inv(Written(s, c, at, w))
    ensures ConversationTheorems.Later(c.from, Written(s, c, at, w))
  {
    hide Inv;
    hide ConversationTheorems.Later;
    hide ActWrite;
    hide Shows;
    Advance(c.from, s, c.t, Write(w));
  }

  lemma Checks(v: View, c: Call, s: State)
    requires Stands(v, c, s, Checking)
    ensures
      var s' := ActCheck(s, c.t);
      && Stands(v, c, s', if c.input.id in s.messages then Replying else Reading)
      && s'.prompts == s.prompts
  {
    hide Inv;
    hide ConversationTheorems.Later;
    hide ShowsLoaded;
    hide ShowsActive;
    Writes(v, c, s, Checking, Check);
    hide FitsWrite;
  }

  lemma Caches(v: View, c: Call, s: State, reply: string)
    requires Stands(v, c, s, Cached(reply))
    ensures
      var s', row := ActReadCached(s, c.t, c.input.scope.key, reply), RowOf(s, c.input.scope.key);
      IsEnded(v, c, s', Returned(CachedResult(row, reply))) && s'.prompts == s.prompts
  {
    hide Inv;
    hide ConversationTheorems.Later;
    hide ShowsLoaded;
    hide ShowsActive;
    Writes(v, c, s, Cached(reply), WriteEvent.ReadCached);
  }

  lemma Knows(v: View, c: Call, s: State, plan: Plan,
    handoff: seq<Message>)
    requires Stands(v, c, s, Loading(plan, handoff)) && plan.session != ""
    requires !IsKept(v.loaded, c.input.scope.key, plan.session)
    ensures
      var s' := Written(s, c, Loading(plan, handoff), WriteEvent.Loaded);
      var v' := v.(loaded := v.loaded[c.input.scope.key := plan.session]);
      Stands(v', c, s', Adding(plan, [])) && s'.prompts == s.prompts
  {
    var key := c.input.scope.key;
    var v' := v.(loaded := v.loaded[key := plan.session]);
    hide Inv;
    hide ConversationTheorems.Later;
    hide Shows;
    hide Continue;
    hide WithKnown;
    LoadedAgrees(v, c.id, s, key, plan.session);
    hide IsLoaded;
    Writes(v, c, s, Loading(plan, handoff), WriteEvent.Loaded);
    KnownShows(v, c.id, s, key, plan.session);
    GoesOn(v', c.id, WithKnown(s, c.id, key, plan.session), c.t, Adding(plan, []));
  }

  lemma KnownShows(v: View, id: nat, s: State, key: Key, session: string)
    requires Shows(v, id, s)
    ensures
      var put := WithKnown(s, id, key, session);
      && Shows(v.(loaded := v.loaded[key := session]), id, put)
      && put.threads == s.threads && put.prompts == s.prompts
  {
    LoadedUpdated(v.loaded, id, s.loaded, key, session);
    hide ShowsLoaded;
    hide ShowsActive;
  }

  lemma Opens(v: View, c: Call, s: State, plan: Plan,
    handoff: seq<Message>, session: string)
    requires Stands(v, c, s, Opening(plan, handoff)) && session != ""
    ensures
      var s' := Written(s, c, Opening(plan, handoff), Open(session));
      var v' := v.(loaded := v.loaded[c.input.scope.key := session]);
      && Stands(v', c, s', Putting(plan.(session := session), handoff))
      && s'.prompts == s.prompts
  {
    var v', key := v.(loaded := v.loaded[c.input.scope.key := session]), c.input.scope.key;
    hide Inv;
    hide ConversationTheorems.Later;
    hide Shows;
    hide Continue;
    hide WithKnown;
    Writes(v, c, s, Opening(plan, handoff), Open(session));
    KnownShows(v, c.id, s, key, session);
    GoesOn(v', c.id, WithKnown(s, c.id, key, session), c.t,
      Putting(plan.(session := session), handoff));
  }

  lemma AddShows(v: View, id: nat, s: State, row: Message, outcome: Outcome)
    requires Shows(v, id, s)
    ensures
      var put := WithMessage(s, row, outcome);
      var v' := if outcome.Effective() then v.(messages := AddMessage(v.messages, row)) else v;
      Shows(v', id, put) && put.threads == s.threads && put.prompts == s.prompts
  {
    hide AddMessage;
    hide ShowsLoaded;
    hide ShowsActive;
  }

  lemma PutShows(v: View, id: nat, s: State, row: Conversation)
    requires Shows(v, id, s)
    ensures
      var v' := v.(conversations := v.conversations[row.scope.key := row]);
      && Shows(v', id, Opened(s, row)) && Shows(v', id, Recorded(s, row))
      && Opened(s, row).threads == s.threads == Recorded(s, row).threads
      && Opened(s, row).prompts == s.prompts == Recorded(s, row).prompts
  {
    hide ShowsLoaded;
    hide ShowsActive;
  }

  /** After a write, the call goes on or ends over the written tables. */
  lemma GoesOn(v: View, id: nat, put: State, t: Tid, at: At)
    requires Shows(v, id, put) && t in put.threads
    ensures
      var s' := Continue(put, t, at);
      && Shows(v, id, s') && ConversationSteps.Holds(s', t, at)
      && CallOf(s', t) == CallOf(put, t).(pc := Locked(at)) && s'.prompts == put.prompts
  {
    hide Inv;
    hide ConversationTheorems.Later;
    hide ShowsLoaded;
    hide ShowsActive;
  }

  lemma GivesUp(v: View, id: nat, put: State, t: Tid, pc: Pc)
    requires Shows(v, id, put) && t in put.threads
    requires CallOf(put, t).pc.Locked? && !IsPrompting(CallOf(put, t).pc)
    ensures
      var s' := Leave(put, t, pc);
      && Shows(v, id, s') && t in s'.threads && s'.prompts == put.prompts
      && CallOf(s', t) == CallOf(put, t).(pc := pc)
      && CallOf(put, t).input.scope.key !in s'.locks
  {
    hide Inv;
    hide ConversationTheorems.Later;
    hide ShowsLoaded;
    hide ShowsActive;
  }

  lemma PutsOpened(v: View, c: Call, s: State, plan: Plan,
    handoff: seq<Message>, outcome: Outcome)
    requires Stands(v, c, s, Putting(plan, handoff))
    ensures
      var s' := ActPutOpened(s, c.t, c.input, plan, handoff, outcome);
      var v' := if !outcome.Effective() then v else v.(conversations :=
        v.conversations[c.input.scope.key := OpeningRow(c.input, plan, handoff)]);
      && s'.prompts == s.prompts
      && if outcome.Done? then
           Stands(v', c, s', Adding(plan, if c.input.isFresh then [] else handoff))
         else IsEnded(v', c, s', Failed)
  {
    hide Inv;
    hide ConversationTheorems.Later;
    hide Shows;
    hide Continue;
    hide Leave;
    hide Opened;
    hide Recorded;
    Writes(v, c, s, Putting(plan, handoff), WriteEvent.PutOpened(outcome));
    var s' := ActPutOpened(s, c.t, c.input, plan, handoff, outcome);
    assert Written(s, c, Putting(plan, handoff), WriteEvent.PutOpened(outcome)) == s';
    hide Written;
    hide ActWrite;
    hide FitsWrite;
    var row := OpeningRow(c.input, plan, handoff);
    var put := Opened(s, row);
    var v' := v.(conversations := v.conversations[c.input.scope.key := row]);
    PutShows(v, c.id, s, row);
    if outcome.Done? {
      GoesOn(v', c.id, put, c.t, Adding(plan, if c.input.isFresh then [] else handoff));
    } else if outcome.Unknown? {
      GivesUp(v', c.id, put, c.t, Failed);
    } else {
      GivesUp(v, c.id, s, c.t, Failed);
    }
  }

  lemma StoresUser(v: View, c: Call, s: State, plan: Plan,
    carried: seq<Message>, outcome: Outcome)
    requires Stands(v, c, s, Adding(plan, carried))
    requires c.stored ==> outcome.Done?
    ensures
      var s' := ActStoreUser(s, c.t, c.input, plan, carried, outcome);
      var v' := if c.stored || !outcome.Effective() then v
        else v.(messages := AddMessage(v.messages, UserRow(c.input, plan.epoch)));
      && s'.prompts == s.prompts
      && if outcome.Done? then Stands(v', c, s', Starting(plan, carried))
         else IsEnded(v', c, s', Failed)
  {
    hide Inv;
    hide ConversationTheorems.Later;
    hide Shows;
    hide Continue;
    hide Leave;
    hide WithMessage;
    hide AddMessage;
    Writes(v, c, s, Adding(plan, carried), WriteEvent.StoreUser(outcome));
    var s' := ActStoreUser(s, c.t, c.input, plan, carried, outcome);
    assert Written(s, c, Adding(plan, carried), WriteEvent.StoreUser(outcome)) == s';
    hide Written;
    hide ActWrite;
    hide FitsWrite;
    var put := if c.stored then s
      else WithMessage(s, UserRow(c.input, plan.epoch), outcome);
    var v' := if c.stored || !outcome.Effective() then v
      else v.(messages := AddMessage(v.messages, UserRow(c.input, plan.epoch)));
    AddShows(v, c.id, s, UserRow(c.input, plan.epoch), outcome);
    if outcome.Done? {
      GoesOn(v', c.id, put, c.t, Starting(plan, carried));
    } else {
      GivesUp(v', c.id, put, c.t, Failed);
    }
  }

  lemma Starts(v: View, c: Call, s: State, plan: Plan,
    carried: seq<Message>)
    requires Stands(v, c, s, Starting(plan, carried))
    ensures
      var s', key := ActStart(s, c.t, c.input, c.id, plan, carried), c.input.scope.key;
      var v' := v.(active := v.active[key := Active.Active(plan.session, plan.epoch)]);
      && Stands(v', c, s', Prompting(plan))
      && s'.prompts == s.prompts + [Prompt(
           c.input.scope, c.input.id, c.input.isFresh, c.id, plan.session, plan.epoch, carried)]
  {
    hide Inv;
    hide ConversationTheorems.Later;
    hide ShowsLoaded;
    hide ShowsActive;
    hide Continue;
    Writes(v, c, s, Starting(plan, carried), Start);
    ActiveUpdated(v.active, c.id, s.active, c.input.scope.key,
      Active.Active(plan.session, plan.epoch));
    GoesOn(v, c.id, s, c.t, Prompting(plan));
    hide FitsWrite;
  }

  lemma Prompts(v: View, c: Call, s: State, plan: Plan, turn: Turn)
    requires Stands(v, c, s, Prompting(plan))
    ensures
      var s' := ActPrompted(s, c.t, c.input.scope.key, c.id, plan, turn);
      var v' := v.(active := v.active - {c.input.scope.key});
      Stands(v', c, s', Answering(plan, turn)) && s'.prompts == s.prompts
  {
    hide Inv;
    hide ConversationTheorems.Later;
    hide ShowsLoaded;
    hide ShowsActive;
    hide Continue;
    Writes(v, c, s, Prompting(plan), Prompted(turn));
    ActiveUpdated(v.active, c.id, s.active, c.input.scope.key, Active.Active("", 0));
    GoesOn(v, c.id, s, c.t, Answering(plan, turn));
    hide FitsWrite;
  }

  lemma StoresReply(v: View, c: Call, s: State, plan: Plan,
    turn: Turn, outcome: Outcome, time: string)
    requires Stands(v, c, s, Answering(plan, turn))
    ensures
      var s' := ActStoreReply(s, c.t, c.input, plan, turn, outcome, time);
      var v' := if !outcome.Effective() then v
        else v.(messages := AddMessage(v.messages, ReplyRow(c.input, turn, plan.epoch, time)));
      && s'.prompts == s.prompts
      && if outcome.Done? then Stands(v', c, s', After(plan, turn, Unread))
         else IsEnded(v', c, s', Failed)
  {
    hide Inv;
    hide ConversationTheorems.Later;
    hide Shows;
    hide Continue;
    hide Leave;
    hide WithMessage;
    hide AddMessage;
    Writes(v, c, s, Answering(plan, turn), WriteEvent.StoreReply(outcome, time));
    var s' := ActStoreReply(s, c.t, c.input, plan, turn, outcome, time);
    assert Written(s, c, Answering(plan, turn), WriteEvent.StoreReply(outcome, time)) == s';
    hide Written;
    hide ActWrite;
    hide FitsWrite;
    var put := WithMessage(s, ReplyRow(c.input, turn, plan.epoch, time), outcome);
    var v' := if !outcome.Effective() then v
      else v.(messages := AddMessage(v.messages, ReplyRow(c.input, turn, plan.epoch, time)));
    AddShows(v, c.id, s, ReplyRow(c.input, turn, plan.epoch, time), outcome);
    if outcome.Done? {
      GoesOn(v', c.id, put, c.t, After(plan, turn, Unread));
    } else {
      GivesUp(v', c.id, put, c.t, Failed);
    }
  }

  lemma PutsTurn(v: View, c: Call, s: State, plan: Plan,
    turn: Turn, handoff: seq<Message>, outcome: Outcome)
    requires Stands(v, c, s, Closing(plan, turn, handoff))
    ensures
      var s' := ActPutTurn(s, c.t, c.input.scope, plan, turn, handoff, outcome);
      var v' := if !outcome.Effective() then v else v.(conversations := v.conversations[
        c.input.scope.key := TurnRow(c.input.scope, plan, turn, handoff, s.maxTurns)]);
      && s'.prompts == s.prompts
      && if outcome.Done? then Stands(v', c, s', Finishing(plan, turn))
         else IsEnded(v', c, s', Failed)
  {
    hide Inv;
    hide ConversationTheorems.Later;
    hide Shows;
    hide Continue;
    hide Leave;
    hide Opened;
    hide Recorded;
    Writes(v, c, s, Closing(plan, turn, handoff), WriteEvent.PutTurn(outcome));
    var s' := ActPutTurn(s, c.t, c.input.scope, plan, turn, handoff, outcome);
    assert Written(s, c, Closing(plan, turn, handoff), WriteEvent.PutTurn(outcome)) == s';
    hide Written;
    hide ActWrite;
    hide FitsWrite;
    var row := TurnRow(c.input.scope, plan, turn, handoff, s.maxTurns);
    var put := Recorded(s, row);
    var v' := v.(conversations := v.conversations[c.input.scope.key := row]);
    PutShows(v, c.id, s, row);
    if outcome.Done? {
      GoesOn(v', c.id, put, c.t, Finishing(plan, turn));
    } else if outcome.Unknown? {
      GivesUp(v', c.id, put, c.t, Failed);
    } else {
      GivesUp(v, c.id, s, c.t, Failed);
    }
  }

  lemma Finishes(v: View, c: Call, s: State, plan: Plan, turn: Turn)
    requires Stands(v, c, s, Finishing(plan, turn))
    ensures
      var result := Result(turn.reply, plan.session, plan.generation, false, false);
      var s' := Leave(s, c.t, Returned(result));
      IsEnded(v, c, s', Returned(result)) && s'.prompts == s.prompts
  {
    hide Inv;
    hide ConversationTheorems.Later;
    hide Shows;
    hide Leave;
    Writes(v, c, s, Finishing(plan, turn), WriteEvent.Finish);
    GivesUp(v, c.id, s, c.t, Returned(
      Result(turn.reply, plan.session, plan.generation, false, false)));
    hide FitsWrite;
  }

  // ---- steering ---------------------------------------------------------------

  /** Outside the scope lock, call `c` has come to `pc`. */
  ghost predicate Scans(v: View, c: Call, s: State, pc: Pc) {
    && Shows(v, c.id, s) && Inv(s) && ConversationTheorems.Later(c.from, s)
    && c.t in s.threads && s.threads[c.t].input == c.input && s.threads[c.t].pc == pc
  }

  lemma GotoShows(v: View, id: nat, s: State, t: Tid, pc: Pc)
    requires Shows(v, id, s) && t in s.threads
    ensures
      var s' := Goto(s, t, pc);
      && Shows(v, id, s') && s'.prompts == s.prompts && t in s'.threads
      && CallOf(s', t) == CallOf(s, t).(pc := pc)
  {
    hide ShowsLoaded;
    hide ShowsActive;
  }

  lemma SteerChecks(v: View, c: Call, s: State)
    requires Scans(v, c, s, Steering) && c.input.id !in s.messages
    ensures Scans(v, c, Goto(s, c.t, SteerLook(c.id)), SteerLook(c.id))
    ensures Goto(s, c.t, SteerLook(c.id)).prompts == s.prompts
  {
    hide Inv;
    hide ConversationTheorems.Later;
    hide Shows;
    hide Goto;
    Advance(c.from, s, c.t, SteerCheck(c.id));
    GotoShows(v, c.id, s, c.t, SteerLook(c.id));
  }

  lemma ActiveAgrees(v: View, id: nat, s: State, key: Key)
    requires Shows(v, id, s)
    ensures key in v.active <==> (id, key) in s.active
    ensures key in v.active ==> v.active[key] == s.active[(id, key)]
  {
  }

  lemma SteerFinds(v: View, c: Call, s: State)
    requires Scans(v, c, s, SteerLook(c.id))
    ensures
      var key := c.input.scope.key;
      var pc := if key in v.active then SteerAdd(c.id, v.active[key]) else Steering;
      Scans(v, c, Goto(s, c.t, pc), pc) && Goto(s, c.t, pc).prompts == s.prompts
  {
    var key := c.input.scope.key;
    var pc := if key in v.active then SteerAdd(c.id, v.active[key]) else Steering;
    hide Inv;
    hide ConversationTheorems.Later;
    hide Shows;
    hide Goto;
    Advance(c.from, s, c.t, SteerFind);
    ActiveAgrees(v, c.id, s, key);
    GotoShows(v, c.id, s, c.t, pc);
  }

  lemma SteerStores(v: View, c: Call, s: State, active: Active, outcome: Outcome)
    requires Scans(v, c, s, SteerAdd(c.id, active)) && c.input.id !in s.messages
    ensures
      var s' := ActSteerStore(s, c.t, c.input, c.id, active, outcome);
      var v' := if !outcome.Effective() then v
        else v.(messages := AddMessage(v.messages, UserRow(c.input, active.epoch)));
      && Scans(v', c, s', if outcome.Done? then SteerSend(c.id, active) else Locking)
      && s'.prompts == s.prompts
  {
    var put := WithMessage(s, UserRow(c.input, active.epoch), outcome);
    var v' := if !outcome.Effective() then v
      else v.(messages := AddMessage(v.messages, UserRow(c.input, active.epoch)));
    hide Inv;
    hide ConversationTheorems.Later;
    hide Shows;
    hide AddMessage;
    hide WithMessage;
    hide Goto;
    Advance(c.from, s, c.t, SteerStore(outcome));
    AddShows(v, c.id, s, UserRow(c.input, active.epoch), outcome);
    GotoShows(v', c.id, put, c.t, if outcome.Done? then SteerSend(c.id, active) else Locking);
  }

  lemma SteerAnswers(v: View, c: Call, s: State, active: Active)
    requires Scans(v, c, s, SteerSend(c.id, active))
    ensures
      var result := Result("", active.session, 0, false, true);
      var s' := Leave(s, c.t, Returned(result));
      Scans(v, c, s', Returned(result)) && s'.prompts == s.prompts
  {
    var pc := Returned(Result("", active.session, 0, false, true));
    hide Inv;
    hide ConversationTheorems.Later;
    hide Shows;
    Advance(c.from, s, c.t, SteerAnswer(true));
    GotoShows(v, c.id, s, c.t, pc);
    assert Leave(s, c.t, pc) == Goto(s, c.t, pc);
    hide Goto;
    hide Leave;
  }

  lemma SteerMisses(v: View, c: Call, s: State, active: Active, error: bool)
    requires Scans(v, c, s, SteerSend(c.id, active))
    ensures
      var pc := if error then Locking else Steering;
      Scans(v, c, Goto(s, c.t, pc), pc) && Goto(s, c.t, pc).prompts == s.prompts
  {
    hide Inv;
    hide ConversationTheorems.Later;
    hide Shows;
    hide Goto;
    Advance(c.from, s, c.t, if error then Miss else SteerAnswer(false));
    GotoShows(v, c.id, s, c.t, if error then Locking else Steering);
  }

  // ---- facts about a call that has come somewhere ------------------------------

  /** At most one row answers a message. */
  lemma OneAnswer(
    messages: Messages, conversations: map<Key, Conversation>, id: string, j: string, k: string)
    requires MessagesOk(messages, conversations) && id != ""
    requires j in messages && k in messages
    requires Answers(messages[j], id) && Answers(messages[k], id)
    ensures j == k && messages[k].id == k
    ensures !Less(messages[j].createdAt, messages[k].createdAt)
  {
    assert MessageOk(messages, conversations, j);
    assert MessageOk(messages, conversations, k);
    LessIrreflexive(messages[j].createdAt);
  }

  lemma StoredUnderID(messages: Messages, conversations: map<Key, Conversation>)
    requires MessagesOk(messages, conversations)
    ensures forall id :: id in messages ==> messages[id].id == id
  {
    forall id | id in messages ensures messages[id].id == id {
      assert MessageOk(messages, conversations, id);
    }
  }

  lemma StandingFacts(v: View, c: Call, s: State, at: At)
    requires Stands(v, c, s, at)
    ensures v.messages == s.messages && v.conversations == s.conversations
    ensures MessagesOk(v.messages, v.conversations) && IsIncomingID(c.input.id)
    ensures c.t in s.threads && CallOf(s, c.t).pc == Locked(at) && CallOf(s, c.t).input == c.input
    ensures s.maxTurns == c.from.maxTurns
    ensures at.Checking? ==> c.stored == (c.input.id in s.messages)
  {
    ConversationSteps.ThreadFacts(s, c.t);
  }

  /** What ReplyTo finds means what it should. */
  lemma ReplyFound(v: View, c: Call, s: State,
    reply: Option<string>)
    requires Stands(v, c, s, Replying) && IsReplyTo(v.messages, c.input.id, reply)
    ensures reply.Some? <==> ReplyID(c.input.id) in v.messages
    ensures Observes(s, c.input, c.id, Replying, ReadReply(reply))
  {
    StandingFacts(v, c, s, Replying);
    ConversationSteps.ReplyToIsTheReplyRow(s, c.input.id, reply);
  }

  /** A call that returns without steering has the stored reply. */
  lemma ReturnsTheReply(v: View, c: Call, s: State,
    result: Result)
    requires IsEnded(v, c, s, Returned(result)) && !result.steered
    ensures ConversationTheorems.IsTheReply(v.messages, c.input.id, result.reply)
  {
    ConversationSteps.ThreadFacts(s, c.t);
    ConversationTheorems.AnsweredOnce(s, c.input.id, result.reply);
  }

  class Manager {
    const id: nat
    const maxTurns: nat
    var messages: Messages
    var conversations: map<Key, Conversation>
    var loaded: map<Key, string>
    var active: map<Key, Active>
    ghost var world: State

    ghost function Seen(): View
      reads this
    {
      View(messages, conversations, loaded, active)
    }

    ghost predicate On(c: Call, at: At)
      reads this
    {
      c.id == id && maxTurns == c.from.maxTurns && Stands(Seen(), c, world, at)
    }

    ghost predicate Over(c: Call, pc: Pc)
      reads this
    {
      c.id == id && maxTurns == c.from.maxTurns && IsEnded(Seen(), c, world, pc)
    }

    /** A manager of a process that has just started it. */
    constructor (id: nat, world: State)
      requires Inv(world)
      requires forall key :: (id, key) !in world.loaded && (id, key) !in world.active
      ensures Shows(Seen(), id, world) && this.world == world && this.id == id
      ensures maxTurns == world.maxTurns
    {
      this.id := id;
      this.maxTurns := world.maxTurns;
      messages, conversations := world.messages, world.conversations;
      loaded, active := map[], map[];
      this.world := world;
    }

    // Reading.

    method Lock(c: Call)
      requires Shows(Seen(), id, world) && Inv(world) && ConversationTheorems.Later(c.from, world)
      requires c.id == id && maxTurns == c.from.maxTurns
      requires c.stored == (c.input.id in messages)
      requires c.t in world.threads && world.threads[c.t].input == c.input
      requires world.threads[c.t].pc == Locking && c.input.scope.key !in world.locks
      modifies this`world
      ensures On(c, Checking) && world.prompts == old(world.prompts)
    {
      Locks(Seen(), c, world);
      hide ActLock;
      hide Stands;
      world := ActLock(world, c.t, id);
    }

    /** A read under the lock. */
    ghost method Look(c: Call, at: At, r: ReadEvent)
      requires On(c, at) && FitsRead(at, r) && Observes(world, c.input, id, at, r)
      modifies this`world
      ensures On(c, AfterRead(old(world), c.input, at, r))
      ensures world.prompts == old(world.prompts) && world.messages == old(world.messages)
    {
      hide Continue;
      hide Stands;
      hide Observes;
      hide AfterRead;
      hide FitsRead;
      StandingFacts(Seen(), c, world, at);
      Looks(Seen(), c, world, at, r);
      world := Continue(world, c.t, AfterRead(world, c.input, at, r));
    }

    method FindMessage(c: Call) returns (found: bool)
      requires On(c, Checking)
      modifies this`world
      ensures found == (c.input.id in messages)
      ensures On(c, if found then Replying else Reading)
      ensures found == c.stored && world.prompts == old(world.prompts)
    {
      hide ActCheck;
      hide Stands;
      StandingFacts(Seen(), c, world, Checking);
      Checks(Seen(), c, world);
      found := c.input.id in messages;
      world := ActCheck(world, c.t);
    }

    /** ORDER BY created_at DESC LIMIT 1 among the rows that answer `message`. */
    method ReplyTo(message: string) returns (reply: Option<string>)
      requires MessagesOk(messages, conversations) && message != ""
      ensures IsReplyTo(messages, message, reply)
    {
      reply := None;
      if k :| k in messages && Answers(messages[k], message) {
        forall j | j in messages && Answers(messages[j], message)
          ensures !Less(messages[k].createdAt, messages[j].createdAt)
        {
          OneAnswer(messages, conversations, message, k, j);
        }
        reply := Some(messages[k].text);
      }
    }

    method FindReply(c: Call) returns (reply: Option<string>)
      requires On(c, Replying)
      modifies this`world
      ensures reply.Some? <==> ReplyID(c.input.id) in messages
      ensures On(c, if reply.Some? then Cached(reply.value) else Reading)
      ensures world.prompts == old(world.prompts)
    {
      hide Stands;
      hide MessagesOk;
      hide IsReplyTo;
      hide Observes;
      StandingFacts(Seen(), c, world, Replying);
      reply := ReplyTo(c.input.id);
      ReplyFound(Seen(), c, world, reply);
      Look(c, Replying, ReadReply(reply));
    }

    method ReturnCached(c: Call, reply: string)
      returns (result: Result)
      requires On(c, Cached(reply))
      modifies this`world
      ensures Over(c, Returned(result))
      ensures result.reply == reply && result.cached && !result.steered
      ensures world.prompts == old(world.prompts)
    {
      hide ActReadCached;
      hide Stands;
      hide IsEnded;
      StandingFacts(Seen(), c, world, Cached(reply));
      Caches(Seen(), c, world, reply);
      var key := c.input.scope.key;
      result := if key in conversations
        then Result(reply, conversations[key].sessionID, conversations[key].generation, true, false)
        else Result(reply, "", 0, true, false);
      world := ActReadCached(world, c.t, c.input.scope.key, reply);
    }

    /** The locals that Handle rewrites while it looks at the stored row. */
    method PlanSession(input: Input) returns (plan: Plan)
      ensures plan == PlanFor(
        if input.scope.key in conversations then Some(conversations[input.scope.key]) else None,
        input.isFresh, maxTurns)
    {
      var sessionID, generation, contextEpoch, completedTurns := "", 1, 1, 0;
      if input.scope.key in conversations {
        var row := conversations[input.scope.key];
        generation := row.generation;
        contextEpoch := row.contextEpoch;
        if contextEpoch <= 0 {
          contextEpoch := 1;
        }
        completedTurns := row.completedTurns;
        if input.isFresh {
          generation := generation + 1;
          contextEpoch := contextEpoch + 1;
          completedTurns := 0;
        } else if row.completedTurns >= maxTurns {
          generation := generation + 1;
          completedTurns := 0;
        } else if row.sessionID != "" {
          sessionID := row.sessionID;
        }
      }
      plan := Plan(sessionID, generation, contextEpoch, completedTurns);
    }

    method ChooseSession(c: Call) returns (plan: Plan)
      requires On(c, Reading)
      modifies this`world
      ensures plan == PlanFor(
        if c.input.scope.key in conversations then Some(conversations[c.input.scope.key]) else None,
        c.input.isFresh, maxTurns)
      ensures On(c, At.Before(plan, Unread))
      ensures world.prompts == old(world.prompts)
    {
      hide Stands;
      hide PlanFor;
      StandingFacts(Seen(), c, world, Reading);
      plan := PlanSession(c.input);
      Look(c, Reading, ReadRow);
    }

    // BuildHandoff.

    method FirstAnswer(root: string) returns (answer: Option<Message>)
      requires MessagesOk(messages, conversations) && root != ""
      ensures IsFirstAnswer(messages, root, answer)
    {
      answer := None;
      if k :| k in messages && Answers(messages[k], root) {
        forall j | j in messages && Answers(messages[j], root)
          ensures messages[k].id == k && !Less(messages[j].createdAt, messages[k].createdAt)
        {
          OneAnswer(messages, conversations, root, j, k);
        }
        answer := Some(messages[k]);
      }
    }

    ghost predicate IsUnread(c: Call, at: At)
      reads this
    {
      (at.Before? || at.After?) && at.got.Unread? && On(c, at)
    }

    ghost method LookRoot(c: Call, at: At)
      requires IsUnread(c, at)
      modifies this`world
      ensures On(c, WithGot(at, RootGot(world, c.input, at.plan.epoch)))
      ensures world.messages == messages && world.prompts == old(world.prompts)
    {
      hide AfterRead;
      StandingFacts(Seen(), c, world, at);
      RootLeads(world, c.input, id, at);
      hide FitsRead;
      hide Observes;
      hide On;
      Look(c, at, ReadRoot);
    }

    ghost method LookAnswer(
      c: Call, at: At, root: Option<Message>, answer: Option<Message>)
      requires (at.Before? || at.After?) && On(c, WithGot(at, RootRead(root)))
      requires IsFirstAnswer(messages, c.input.scope.rootMessageID, answer)
      modifies this`world
      ensures On(c, WithGot(at, HeadRead(Head(root, answer, Excluded(c.input, at)))))
      ensures world.prompts == old(world.prompts)
    {
      hide IsFirstAnswer;
      hide Head;
      hide AfterRead;
      StandingFacts(Seen(), c, world, WithGot(at, RootRead(root)));
      AnswerLeads(world, c.input, id, at, root, answer);
      hide FitsRead;
      hide Observes;
      hide WithGot;
      hide Excluded;
      hide On;
      Look(c, WithGot(at, RootRead(root)), ReadAnswer(answer));
    }

    /** The thread root and its first answer. */
    method GatherRoot(c: Call, at: At) returns (root: Option<Message>, answer: Option<Message>)
      requires (at.Before? || at.After?) && MessagesOk(messages, conversations)
      requires IncludesRoot(c.input, at.plan.epoch) && world.messages == messages
      requires On(c, WithGot(at, RootGot(world, c.input, at.plan.epoch)))
      modifies this`world
      ensures On(c, WithGot(at, HeadRead(Head(root, answer, Excluded(c.input, at)))))
      ensures world.prompts == old(world.prompts)
    {
      hide On;
      hide MessagesOk;
      hide IsFirstAnswer;
      hide WithGot;
      hide Excluded;
      hide Head;
      root := None;
      if c.input.scope.rootMessageID in messages {
        root := Some(messages[c.input.scope.rootMessageID]);
      }
      answer := FirstAnswer(c.input.scope.rootMessageID);
      LookAnswer(c, at, root, answer);
    }

    /** The root exchange; one read for the root, one for its answer. */
    method GatherHead(c: Call, at: At)
      returns (root: Option<Message>, answer: Option<Message>)
      requires IsUnread(c, at)
      modifies this`world
      ensures On(c, WithGot(at, HeadRead(Head(root, answer, Excluded(c.input, at)))))
      ensures world.prompts == old(world.prompts)
    {
      StandingFacts(Seen(), c, world, at);
      root, answer := None, None;
      LookRoot(c, at);
      hide On;
      hide IsUnread;
      hide MessagesOk;
      hide WithGot;
      hide Excluded;
      hide RootGot;
      hide Head;
      hide IncludesRoot;
      if IncludesRoot(c.input, at.plan.epoch) {
        root, answer := GatherRoot(c, at);
      } else {
        NoRoot(world, c.input, at);
      }
    }

    ghost method LookRecent(
      c: Call, at: At, head: seq<Message>, recent: seq<Message>)
      requires (at.Before? || at.After?) && On(c, WithGot(at, HeadRead(head)))
      requires IsRecent(ScopeRows(messages, c.input.scope.key, at.plan.epoch, Excluded(c.input, at)),
        MAX_HANDOFF_MESSAGES, recent)
      modifies this`world
      ensures
        var selected := head + Unseen(head, Reversed(recent));
        On(c,
          if at.Before? then Loading(at.plan, selected) else Closing(at.plan, at.turn, selected))
      ensures world.prompts == old(world.prompts)
    {
      hide IsRecent;
      hide ScopeRows;
      hide Unseen;
      hide Reversed;
      hide AfterRead;
      StandingFacts(Seen(), c, world, WithGot(at, HeadRead(head)));
      RecentLeads(world, c.input, id, at, head, recent);
      hide FitsRead;
      hide Observes;
      hide WithGot;
      hide Excluded;
      hide On;
      Look(c, WithGot(at, HeadRead(head)), ReadRecent(recent));
    }

    /** The handoff: which messages it carries, and its text. */
    method Gather(c: Call, at: At)
      returns (selected: seq<Message>, text: string)
      requires IsUnread(c, at)
      modifies this`world
      ensures text == HandoffText(selected, MAX_HANDOFF_CHARS)
      ensures On(c,
        if at.Before? then Loading(at.plan, selected) else Closing(at.plan, at.turn, selected))
      ensures world.prompts == old(world.prompts)
    {
      StandingFacts(Seen(), c, world, at);
      StoredUnderID(messages, conversations);
      var exclude := Excluded(c.input, at);
      var root, answer := GatherHead(c, at);
      var head := Head(root, answer, exclude);
      hide On;
      hide MessagesOk;
      hide Head;
      hide HandoffText;
      hide Unseen;
      hide Reversed;
      hide IsRecent;
      hide ScopeRows;
      var recent := SelectRecent(
        messages, c.input.scope.key, at.plan.epoch, exclude, MAX_HANDOFF_MESSAGES);
      LookRecent(c, at, head, recent);
      selected := head + Unseen(head, Reversed(recent));
      text := Text(root, answer, recent, exclude);
    }

    static method Text(
      root: Option<Message>, answer: Option<Message>, recent: seq<Message>, exclude: string)
      returns (text: string)
      ensures var head := Head(root, answer, exclude);
        text == HandoffText(head + Unseen(head, Reversed(recent)), MAX_HANDOFF_CHARS)
    {
      hide HandoffText;
      hide Unseen;
      hide Head;
      var rows := new Message[|recent|](i requires 0 <= i < |recent| => recent[i]);
      assert rows[..] == recent;
      text := BuildHandoff(root, answer, rows, exclude, MAX_HANDOFF_MESSAGES, MAX_HANDOFF_CHARS);
    }

    // Writes and requests.

    /** An error: the call ends and its turn, if one was running, is over. */
    method Fail(c: Call, ghost at: At)
      requires On(c, at)
      modifies this`world, this`active
      ensures Over(c, Failed) && world.prompts == old(world.prompts)
    {
      hide Leave;
      hide Stands;
      hide IsEnded;
      StandingFacts(Seen(), c, world, at);
      Fails(Seen(), c, world, at);
      world := Leave(world, c.t, Failed);
      active := active - {c.input.scope.key};
    }

    predicate IsKnown(key: Key, session: string)
      reads this
    {
      key in loaded && loaded[key] == session
    }

    ghost method LookSession(
      c: Call, plan: Plan, handoff: seq<Message>, r: ReadEvent)
      requires On(c, Loading(plan, handoff))
      requires r.Rotate? || r.Resume? || r.Missing?
      requires r.Rotate? <==> plan.session == ""
      requires r.Resume? ==> IsKnown(c.input.scope.key, plan.session)
      requires r.Missing? ==> !IsKnown(c.input.scope.key, plan.session)
      modifies this`world
      ensures On(c,
        if r.Rotate? then Opening(plan, handoff)
        else if r.Resume? then Adding(plan, [])
        else Opening(Plan("", plan.generation + 1, plan.epoch, 0), handoff))
      ensures world.prompts == old(world.prompts)
    {
      hide AfterRead;
      hide IsLoaded;
      StandingFacts(Seen(), c, world, Loading(plan, handoff));
      LoadedAgrees(Seen(), id, world, c.input.scope.key, plan.session);
      SessionLeads(world, c.input, plan, handoff, r);
      hide On;
      Look(c, Loading(plan, handoff), r);
    }

    /** session/load succeeded. */
    method MarkLoaded(c: Call, plan: Plan,
      ghost handoff: seq<Message>)
      requires On(c, Loading(plan, handoff))
      requires plan.session != "" && !IsKnown(c.input.scope.key, plan.session)
      modifies this`world, this`loaded
      ensures On(c, Adding(plan, [])) && world.prompts == old(world.prompts)
    {
      hide Stands;
      hide Written;
      StandingFacts(Seen(), c, world, Loading(plan, handoff));
      Knows(Seen(), c, world, plan, handoff);
      world := Written(world, c, Loading(plan, handoff), WriteEvent.Loaded);
      loaded := loaded[c.input.scope.key := plan.session];
    }

    /** session/new: the session is known to this process before it is stored. */
    method NewSession(c: Call, plan: Plan,
      ghost handoff: seq<Message>, session: string) returns (next: Plan)
      requires On(c, Opening(plan, handoff)) && session != ""
      modifies this`world, this`loaded
      ensures next == plan.(session := session)
      ensures On(c, Putting(next, handoff)) && world.prompts == old(world.prompts)
    {
      hide Stands;
      hide Written;
      StandingFacts(Seen(), c, world, Opening(plan, handoff));
      Opens(Seen(), c, world, plan, handoff, session);
      world := Written(world, c, Opening(plan, handoff), Open(session));
      loaded := loaded[c.input.scope.key := session];
      next := plan.(session := session);
    }

    /** PutConversation after opening: a new generation with its epoch. */
    method PutOpened(c: Call, plan: Plan,
      handoff: seq<Message>, outcome: Outcome)
      requires On(c, Putting(plan, handoff))
      modifies this`world, this`conversations
      ensures conversations == if outcome.Effective()
        then old(conversations)[c.input.scope.key := OpeningRow(c.input, plan, handoff)]
        else old(conversations)
      ensures if outcome.Done?
        then On(c, Adding(plan, if c.input.isFresh then [] else handoff))
        else Over(c, Failed)
      ensures world.prompts == old(world.prompts)
    {
      hide ActPutOpened;
      hide Stands;
      hide IsEnded;
      StandingFacts(Seen(), c, world, Putting(plan, handoff));
      PutsOpened(Seen(), c, world, plan, handoff, outcome);
      world := ActPutOpened(world, c.t, c.input, plan, handoff, outcome);
      if outcome.Effective() {
        conversations := conversations[c.input.scope.key := OpeningRow(c.input, plan, handoff)];
      }
    }

    /** The user's message, unless it was stored by an earlier attempt. */
    method StoreUser(c: Call, plan: Plan, ghost carried: seq<Message>, outcome: Outcome)
      requires On(c, Adding(plan, carried)) && (c.stored ==> outcome.Done?)
      modifies this`world, this`messages
      ensures messages == if c.stored || !outcome.Effective() then old(messages)
        else AddMessage(old(messages), UserRow(c.input, plan.epoch))
      ensures if outcome.Done? then On(c, Starting(plan, carried)) else Over(c, Failed)
      ensures world.prompts == old(world.prompts)
    {
      hide ActStoreUser;
      hide Stands;
      hide IsEnded;
      hide AddMessage;
      StandingFacts(Seen(), c, world, Adding(plan, carried));
      StoresUser(Seen(), c, world, plan, carried, outcome);
      world := ActStoreUser(world, c.t, c.input, plan, carried, outcome);
      if !c.stored && outcome.Effective() {
        messages := AddMessage(messages, UserRow(c.input, plan.epoch));
      }
    }

    method SetActive(c: Call, plan: Plan, ghost carried: seq<Message>)
      requires On(c, Starting(plan, carried))
      modifies this`world, this`active
      ensures world.prompts == old(world.prompts) + [Prompt(
        c.input.scope, c.input.id, c.input.isFresh, id, plan.session, plan.epoch, carried)]
      ensures On(c, Prompting(plan))
    {
      hide ActStart;
      hide Stands;
      StandingFacts(Seen(), c, world, Starting(plan, carried));
      Starts(Seen(), c, world, plan, carried);
      world := ActStart(world, c.t, c.input, id, plan, carried);
      active := active[c.input.scope.key := Active.Active(plan.session, plan.epoch)];
    }

    method ClearActive(c: Call, plan: Plan, turn: Turn)
      requires On(c, Prompting(plan))
      modifies this`world, this`active
      ensures On(c, Answering(plan, turn)) && world.prompts == old(world.prompts)
    {
      hide ActPrompted;
      hide Stands;
      StandingFacts(Seen(), c, world, Prompting(plan));
      Prompts(Seen(), c, world, plan, turn);
      world := ActPrompted(world, c.t, c.input.scope.key, id, plan, turn);
      active := active - {c.input.scope.key};
    }

    /** The turn is active while its prompt is out. */
    method RunTurn(c: Call, plan: Plan, ghost carried: seq<Message>, turn: Option<Turn>)
      requires On(c, Starting(plan, carried))
      modifies this`world, this`active
      ensures world.prompts == old(world.prompts) + [Prompt(
        c.input.scope, c.input.id, c.input.isFresh, id, plan.session, plan.epoch, carried)]
      ensures if turn.Some? then On(c, Answering(plan, turn.value)) else Over(c, Failed)
    {
      SetActive(c, plan, carried);
      hide On;
      hide Over;
      if turn.None? {
        Fail(c, Prompting(plan));
      } else {
        ClearActive(c, plan, turn.value);
      }
    }

    method StoreReply(c: Call, plan: Plan, turn: Turn, outcome: Outcome, time: string)
      requires On(c, Answering(plan, turn))
      modifies this`world, this`messages
      ensures messages == if outcome.Effective()
        then AddMessage(old(messages), ReplyRow(c.input, turn, plan.epoch, time))
        else old(messages)
      ensures if outcome.Done? then On(c, After(plan, turn, Unread)) else Over(c, Failed)
      ensures world.prompts == old(world.prompts)
    {
      hide ActStoreReply;
      hide Stands;
      hide IsEnded;
      hide AddMessage;
      StandingFacts(Seen(), c, world, Answering(plan, turn));
      StoresReply(Seen(), c, world, plan, turn, outcome, time);
      world := ActStoreReply(world, c.t, c.input, plan, turn, outcome, time);
      if outcome.Effective() {
        messages := AddMessage(messages, ReplyRow(c.input, turn, plan.epoch, time));
      }
    }

    /** PutConversation after the turn: a turn cut short by a limit uses the session up. */
    method PutTurn(c: Call, plan: Plan, turn: Turn, handoff: seq<Message>, outcome: Outcome)
      requires On(c, Closing(plan, turn, handoff))
      modifies this`world, this`conversations
      ensures conversations == if outcome.Effective()
        then old(conversations)[c.input.scope.key :=
          TurnRow(c.input.scope, plan, turn, handoff, maxTurns)]
        else old(conversations)
      ensures if outcome.Done? then On(c, Finishing(plan, turn)) else Over(c, Failed)
      ensures world.prompts == old(world.prompts)
    {
      hide ActPutTurn;
      hide Stands;
      hide IsEnded;
      var completedTurns := plan.turns + 1;
      if turn.stop == MaxTokens || turn.stop == MaxTurnRequests {
        completedTurns := maxTurns;
      }
      StandingFacts(Seen(), c, world, Closing(plan, turn, handoff));
      PutsTurn(Seen(), c, world, plan, turn, handoff, outcome);
      world := ActPutTurn(world, c.t, c.input.scope, plan, turn, handoff, outcome);
      if outcome.Effective() {
        conversations := conversations[c.input.scope.key := Conversation(
          c.input.scope, plan.session, plan.generation, plan.epoch, completedTurns, handoff)];
      }
    }

    method FinishRun(c: Call, plan: Plan, turn: Turn) returns (result: Result)
      requires On(c, Finishing(plan, turn))
      modifies this`world
      ensures result == Result(turn.reply, plan.session, plan.generation, false, false)
      ensures Over(c, Returned(result)) && world.prompts == old(world.prompts)
    {
      hide Leave;
      hide Stands;
      hide IsEnded;
      StandingFacts(Seen(), c, world, Finishing(plan, turn));
      Finishes(Seen(), c, world, plan, turn);
      result := Result(turn.reply, plan.session, plan.generation, false, false);
      world := Leave(world, c.t, Returned(result));
    }

    // Handle.

    /** Make the planned session known to this process, or open one and store it. */
    method Settle(c: Call, plan: Plan, handoff: seq<Message>, load: Load, session: string,
      put: Outcome) returns (next: Plan, ghost carried: seq<Message>, ok: bool)
      requires On(c, Loading(plan, handoff))
      modifies this`world, this`loaded, this`active, this`conversations
      ensures if ok then On(c, Adding(next, carried)) else Over(c, Failed)
      ensures world.prompts == old(world.prompts)
      ensures next.epoch == plan.epoch && next.generation >= plan.generation
      ensures next.generation == plan.generation && next.session == plan.session != "" ==>
        conversations == old(conversations)
    {
      hide On;
      hide Over;
      hide OpeningRow;
      var key := c.input.scope.key;
      next, carried, ok := plan, [], true;
      if plan.session != "" {
        if IsKnown(key, plan.session) {
          LookSession(c, plan, handoff, ReadEvent.Resume);
          return;
        }
        if load.SessionLoaded? {
          MarkLoaded(c, plan, handoff);
          return;
        }
        if load.LoadError? {
          Fail(c, Loading(plan, handoff));
          ok := false;
          return;
        }
        next := Plan("", plan.generation + 1, plan.epoch, 0);
        LookSession(c, plan, handoff, Missing);
      } else {
        LookSession(c, plan, handoff, Rotate);
      }
      if session == "" {
        Fail(c, Opening(next, handoff));
        ok := false;
        return;
      }
      next := NewSession(c, next, handoff, session);
      PutOpened(c, next, handoff, put);
      carried := if c.input.isFresh then [] else handoff;
      ok := put.Done?;
    }

    /** From the stored row to the stored reply. */
    method Converse(c: Call, w: Weather) returns (plan: Plan, turn: Turn, ok: bool)
      requires On(c, Reading)
      modifies this
      ensures if ok then On(c, After(plan, turn, Unread)) else Over(c, Failed)
      ensures ok ==>
        && plan.epoch == PlanFor(if c.input.scope.key in old(conversations)
             then Some(old(conversations)[c.input.scope.key]) else None,
             c.input.isFresh, maxTurns).epoch
        && |world.prompts| == |old(world.prompts)| + 1
        && world.prompts[..|old(world.prompts)|] == old(world.prompts)
        && IsPromptFor(world.prompts[|old(world.prompts)|], c.input, id, plan)
    {
      hide On;
      hide Over;
      hide PlanFor;
      hide HandoffText;
      plan, turn, ok := Plan("", 1, 1, 0), Turn("", EndTurn), false;
      if !w.row {
        Fail(c, Reading);
        return;
      }
      plan := ChooseSession(c);
      if !w.gather {
        Fail(c, At.Before(plan, Unread));
        return;
      }
      var handoff, text := GatherBefore(c, plan);
      var settled: bool;
      ghost var carried;
      plan, carried, settled := Settle(c, plan, handoff, w.load, w.session, w.putOpened);
      if !settled {
        return;
      }
      turn, ok := Exchange(c, plan, carried, w);
    }

    ghost predicate IsPromptFor(p: Prompt, input: Input, manager: nat, plan: Plan) {
      && p.messageID == input.id && p.scope == input.scope && p.isFresh == input.isFresh
      && p.manager == manager && p.session == plan.session && p.epoch == plan.epoch
    }

    method GatherBefore(c: Call, plan: Plan) returns (handoff: seq<Message>, text: string)
      requires On(c, At.Before(plan, Unread))
      modifies this`world
      ensures text == HandoffText(handoff, MAX_HANDOFF_CHARS)
      ensures On(c, Loading(plan, handoff)) && world.prompts == old(world.prompts)
    {
      assert IsUnread(c, At.Before(plan, Unread));
      hide IsUnread;
      hide On;
      hide HandoffText;
      handoff, text := Gather(c, At.Before(plan, Unread));
    }

    method GatherAfter(c: Call, plan: Plan, turn: Turn) returns (handoff: seq<Message>, text: string)
      requires On(c, After(plan, turn, Unread))
      modifies this`world
      ensures text == HandoffText(handoff, MAX_HANDOFF_CHARS)
      ensures On(c, Closing(plan, turn, handoff)) && world.prompts == old(world.prompts)
    {
      assert IsUnread(c, After(plan, turn, Unread));
      hide IsUnread;
      hide On;
      hide HandoffText;
      handoff, text := Gather(c, After(plan, turn, Unread));
    }

    /** The user's message, the prompt, the reply. */
    method Exchange(c: Call, plan: Plan, ghost carried: seq<Message>, w: Weather)
      returns (turn: Turn, ok: bool)
      requires On(c, Adding(plan, carried))
      modifies this`world, this`messages, this`active
      ensures if ok then On(c, After(plan, turn, Unread)) else Over(c, Failed)
      ensures ok ==>
        && |world.prompts| == |old(world.prompts)| + 1
        && world.prompts[..|old(world.prompts)|] == old(world.prompts)
        && IsPromptFor(world.prompts[|old(world.prompts)|], c.input, id, plan)
    {
      hide On;
      hide Over;
      hide AddMessage;
      turn, ok := Turn("", EndTurn), false;
      var storeUser := if c.stored then Done else w.storeUser;
      StoreUser(c, plan, carried, storeUser);
      if !storeUser.Done? {
        return;
      }
      if !w.start {
        Fail(c, Starting(plan, carried));
        return;
      }
      RunTurn(c, plan, carried, w.turn);
      if w.turn.None? {
        return;
      }
      turn := w.turn.value;
      StoreReply(c, plan, turn, w.storeReply, w.time);
      ok := w.storeReply.Done?;
    }

    /** After the reply: the new handoff, the finished turn, the finished run. */
    method Record(c: Call, plan: Plan, turn: Turn, w: Weather) returns (result: Option<Result>)
      requires On(c, After(plan, turn, Unread))
      modifies this`world, this`active, this`conversations
      ensures Over(c, if result.Some? then Returned(result.value) else Failed)
      ensures world.prompts == old(world.prompts)
      ensures result.Some? ==>
        && result.value == Result(turn.reply, plan.session, plan.generation, false, false)
        && c.input.scope.key in conversations
        && conversations[c.input.scope.key].sessionID == plan.session
        && conversations[c.input.scope.key].generation == plan.generation
        && conversations[c.input.scope.key].contextEpoch == plan.epoch
    {
      hide On;
      hide Over;
      hide HandoffText;
      result := None;
      if !w.gatherAgain {
        Fail(c, After(plan, turn, Unread));
        return;
      }
      var handoff, text := GatherAfter(c, plan, turn);
      PutTurn(c, plan, turn, handoff, w.putTurn);
      if !w.putTurn.Done? {
        return;
      }
      if !w.finish {
        Fail(c, Finishing(plan, turn));
        return;
      }
      var done := FinishRun(c, plan, turn);
      result := Some(done);
    }

    /** The call may set out: it waits for a free scope lock. */
    ghost predicate IsWaiting(c: Call)
      reads this
    {
      && Shows(Seen(), id, world) && Inv(world) && c.from == world
      && c.id == id && maxTurns == world.maxTurns && c.stored == (c.input.id in messages)
      && c.t in world.threads && world.threads[c.t].input == c.input
      && world.threads[c.t].pc == Locking && c.input.scope.key !in world.locks
    }

    /** One message for a persona's conversation, undisturbed by other calls. A result is
        the text of the one row that answers the message. It is cached exactly when the
        message had been answered before; then nothing is written and nobody is asked.
        Otherwise one prompt has been sent for it, and the row stores its session,
        generation and epoch. */
    method Handle(c: Call, w: Weather) returns (result: Option<Result>)
      requires IsWaiting(c)
      modifies this
      ensures Over(c, if result.Some? then Returned(result.value) else Failed)
      ensures result.Some? ==>
        ConversationTheorems.IsTheReply(messages, c.input.id, result.value.reply)
      ensures result.Some? ==> !result.value.steered
      ensures result.Some? ==> (result.value.cached <==> ReplyID(c.input.id) in old(messages))
      ensures result.Some? && result.value.cached ==>
        && messages == old(messages) && conversations == old(conversations)
        && world.prompts == old(world.prompts)
      ensures result.Some? && !result.value.cached ==>
        && |world.prompts| == |old(world.prompts)| + 1
        && world.prompts[|old(world.prompts)|].messageID == c.input.id
        && world.prompts[|old(world.prompts)|].session == result.value.session
        && c.input.scope.key in conversations
        && var row := conversations[c.input.scope.key];
        && row.sessionID == result.value.session && row.generation == result.value.generation
        && row.contextEpoch == PlanFor(if c.input.scope.key in old(conversations)
             then Some(old(conversations)[c.input.scope.key]) else None,
             c.input.isFresh, maxTurns).epoch
    {
      Unasked(c);
      var ended: bool;
      result, ended := TryCached(c, w);
      hide On;
      hide Over;
      hide IsWaiting;
      hide PlanFor;
      hide ConversationTheorems.IsTheReply;
      if ended {
        if result.Some? { Returns(c, result.value); }
        return;
      }
      var plan, turn, ok := Converse(c, w);
      if ok {
        result := Record(c, plan, turn, w);
        if result.Some? { Returns(c, result.value); }
      }
    }

    /** Under the lock: has the message been answered already? */
    method TryCached(c: Call, w: Weather) returns (result: Option<Result>, ended: bool)
      requires IsWaiting(c)
      modifies this`world, this`active
      ensures world.prompts == old(world.prompts)
      ensures ended ==> Over(c, if result.Some? then Returned(result.value) else Failed)
      ensures !ended ==> result.None? && On(c, Reading)
      ensures !ended && c.input.id in messages ==> ReplyID(c.input.id) !in messages
      ensures result.Some? ==> ended && result.value.cached && !result.value.steered
      ensures result.Some? ==> ReplyID(c.input.id) in messages
    {
      ConversationTheorems.LaterReflexive(world);
      hide Inv;
      hide ConversationTheorems.Later;
      hide Shows;
      Lock(c);
      hide On;
      hide Over;
      result, ended := None, true;
      if !w.check {
        Fail(c, Checking);
        return;
      }
      var found := FindMessage(c);
      if found {
        if !w.reply {
          Fail(c, Replying);
          return;
        }
        var reply := FindReply(c);
        if reply.Some? {
          if !w.cachedRow {
            Fail(c, Cached(reply.value));
            return;
          }
          var cached := ReturnCached(c, reply.value);
          return Some(cached), true;
        }
      }
      ended := false;
    }

    lemma Unasked(c: Call)
      requires IsWaiting(c)
      ensures ReplyID(c.input.id) in messages ==> c.input.id in messages
    {
      if ReplyID(c.input.id) in messages { ConversationSteps.ReplyRowAnswers(world, c.input.id); }
    }

    lemma Returns(c: Call, result: Result)
      requires Over(c, Returned(result)) && !result.steered
      ensures ConversationTheorems.IsTheReply(messages, c.input.id, result.reply)
    {
      ReturnsTheReply(Seen(), c, world, result);
    }

    // Steer.

    ghost predicate Out(c: Call, pc: Pc)
      reads this
    {
      c.id == id && Scans(Seen(), c, world, pc)
    }

    lemma OutFacts(c: Call, pc: Pc)
      requires Out(c, pc)
      ensures world.messages == messages && c.t in world.threads
      ensures world.threads[c.t].pc == pc && world.threads[c.t].input == c.input
    {
    }

    /** The message is new: look up the active turn of its conversation. */
    ghost method Find(c: Call)
      requires Out(c, Steering) && c.input.id !in messages
      modifies this`world
      ensures Out(c, if c.input.scope.key in active then SteerAdd(id, active[c.input.scope.key])
                     else Pc.Steering)
      ensures world.prompts == old(world.prompts)
    {
      hide Scans;
      hide Goto;
      OutFacts(c, Steering);
      SteerChecks(Seen(), c, world);
      world := Goto(world, c.t, SteerLook(id));
      OutFacts(c, SteerLook(id));
      SteerFinds(Seen(), c, world);
      world := Goto(world, c.t,
        if c.input.scope.key in active then SteerAdd(id, active[c.input.scope.key])
        else Pc.Steering);
    }

    method StoreSteered(c: Call, turn: Active, store: Outcome)
      requires Out(c, SteerAdd(id, turn)) && c.input.id !in messages
      modifies this`world, this`messages
      ensures messages == if store.Effective()
        then AddMessage(old(messages), UserRow(c.input, turn.epoch)) else old(messages)
      ensures Out(c, if store.Done? then SteerSend(id, turn) else Locking)
      ensures world.prompts == old(world.prompts)
    {
      hide Scans;
      hide AddMessage;
      hide ActSteerStore;
      OutFacts(c, SteerAdd(id, turn));
      SteerStores(Seen(), c, world, turn, store);
      world := ActSteerStore(world, c.t, c.input, id, turn, store);
      if store.Effective() {
        messages := AddMessage(messages, UserRow(c.input, turn.epoch));
      }
    }

    /** The adapter takes the message into the turn, declines, or reports an error. */
    method Send(c: Call, turn: Active, send: Option<bool>) returns (delivered: Option<Result>)
      requires Out(c, SteerSend(id, turn))
      modifies this`world
      ensures delivered ==
        if send == Some(true) then Some(Result("", turn.session, 0, false, true)) else None
      ensures Out(c, if delivered.Some? then Returned(delivered.value)
                     else if send.None? then Locking else Pc.Steering)
      ensures world.prompts == old(world.prompts)
    {
      hide Scans;
      hide Goto;
      hide Leave;
      OutFacts(c, SteerSend(id, turn));
      if send == Some(true) {
        SteerAnswers(Seen(), c, world, turn);
        var result := Result("", turn.session, 0, false, true);
        world := Leave(world, c.t, Returned(result));
        delivered := Some(result);
      } else {
        SteerMisses(Seen(), c, world, turn, send.None?);
        world := Goto(world, c.t, if send.None? then Locking else Pc.Steering);
        delivered := None;
      }
    }

    /** A turn of the conversation is active here and the message is not stored yet. */
    predicate MaySteer(c: Call, supported: bool, readable: bool)
      reads this
    {
      supported && readable && c.input.id !in messages && c.input.scope.key in active
    }

    /** A message that is not stored yet joins the turn that is active on this manager:
        it is stored under that turn's epoch and sent to that turn's session. In every
        other case the caller goes on, to the next slot or to a turn of its own. */
    method Steer(c: Call, supported: bool, readable: bool, store: Outcome, send: Option<bool>)
      returns (delivered: Option<Result>)
      requires Out(c, Steering)
      modifies this`world, this`messages
      ensures delivered.Some? <==>
        (old(MaySteer(c, supported, readable)) && store.Done? && send == Some(true))
      ensures delivered.Some? ==>
        && Out(c, Returned(delivered.value))
        && delivered.value == Result("", active[c.input.scope.key].session, 0, false, true)
      ensures delivered.None? ==> Out(c, Steering) || Out(c, Locking)
      ensures messages == if old(MaySteer(c, supported, readable)) && store.Effective()
        then AddMessage(old(messages), UserRow(c.input, active[c.input.scope.key].epoch))
        else old(messages)
      ensures world.prompts == old(world.prompts)
    {
      hide Out;
      hide AddMessage;
      delivered := None;
      if !supported || !readable || c.input.id in messages {
        return;
      }
      Find(c);
      if c.input.scope.key !in active {
        return;
      }
      var turn := active[c.input.scope.key];
      StoreSteered(c, turn, store);
      if store.Done? {
        delivered := Send(c, turn, send);
      }
    }
  }
}
