/** A call that nothing goes wrong with comes to its prompt; so a message handed to Handle
    can be prompted once more exactly as long as no reply is stored. */
module Retries {
  import opened Wrappers
  import opened Tables
  import opened Handoff
  import opened Conversations
  import opened ConversationInvariant
  import opened Managers
  import ConversationSteps
  import ConversationTheorems
  import Origins
  import Runs
  import Selections

  // ---- paths ------------------------------------------------------------------

  /** One event of the call. */
  ghost predicate Acts(t: Tid, s: State, s': State) {
    exists e :: Origins.Takes(s, s', t, e)
  }

  ghost predicate ActsAt(t: Tid, path: seq<State>, i: nat) {
    i + 1 < |path| ==> Acts(t, path[i], path[i + 1])
  }

  /** Only the call `t` goes on, from `s` to `s'`. */
  ghost predicate IsPath(t: Tid, path: seq<State>, s: State, s': State) {
    && path != [] && path[0] == s && path[|path| - 1] == s'
    && forall i: nat :: ActsAt(t, path, i)
  }

  ghost predicate Leads(t: Tid, s: State, s': State) { exists path :: IsPath(t, path, s, s') }

  lemma LeadsNowhere(t: Tid, s: State)
    ensures Leads(t, s, s)
  {
    assert IsPath(t, [s], s, s);
  }

  lemma ActsOn(s: State, s': State, t: Tid, e: Event)
    requires Leads(t, s, s') && CanAct(s', t, e)
    ensures Leads(t, s, Act(s', t, e))
  {
    var path :| IsPath(t, path, s, s');
    var s'' := Act(s', t, e);
    assert Origins.Takes(s', s'', t, e);
    hide Origins.Takes;
    hide CanAct;
    hide Act;
    var more := path + [s''];
    forall i: nat ensures ActsAt(t, more, i) { assert ActsAt(t, path, i); }
    assert IsPath(t, more, s, s'');
  }

  lemma RunStepsOn(run: seq<State>, s: State, step: Step, s': State) returns (longer: seq<State>)
    requires ConversationTheorems.IsRun(run) && Runs.IsLast(run, s) && Do(s, step, s')
    ensures ConversationTheorems.IsRun(longer) && Runs.IsLast(longer, s') && run <= longer
  {
    assert Next(s, s');
    hide Do;
    hide Next;
    hide Init;
    longer := run + [s'];
    forall i: nat ensures Runs.StepAt(Next, longer, i) { assert Runs.StepAt(Next, run, i); }
  }

  /** A run goes on with a call's events from its last state. */
  lemma RunCallsOn(run: seq<State>, s: State, t: Tid, s': State) returns (longer: seq<State>)
    requires ConversationTheorems.IsRun(run) && Runs.IsLast(run, s) && Leads(t, s, s')
    ensures ConversationTheorems.IsRun(longer) && Runs.IsLast(longer, s') && run <= longer
  {
    hide Next;
    hide Init;
    assert Runs.Leads(Next, s, s') by { CallLeads(s, t, s'); }
    hide Leads;
    hide Runs.Leads;
    longer := Runs.RunLeadsOn(Init, Next, run, s, s');
  }

  lemma CallLeads(s: State, t: Tid, s': State)
    requires Leads(t, s, s')
    ensures Runs.Leads(Next, s, s')
  {
    var path :| IsPath(t, path, s, s');
    hide Acts;
    hide Next;
    forall i: nat ensures Runs.StepAt(Next, path, i) {
      assert ActsAt(t, path, i);
      if i + 1 < |path| { ActsIsNext(t, path[i], path[i + 1]); }
    }
    assert Runs.IsPath(Next, path, s, s');
  }

  lemma ActsIsNext(t: Tid, s: State, s': State)
    requires Acts(t, s, s')
    ensures Next(s, s')
  {
    var e :| Origins.Takes(s, s', t, e);
    assert Do(s, ActStep(t, e), s');
  }

  // ---- one attempt, up to its prompt ------------------------------------------

  /** What the machine shows to the first manager. */
  ghost function ViewOf(s: State): View {
    View(s.messages, s.conversations,
      map p | p in s.loaded && p.0 == 0 :: p.1 := s.loaded[p],
      map p | p in s.active && p.0 == 0 :: p.1 := s.active[p])
  }

  lemma ViewShows(s: State)
    ensures Shows(ViewOf(s), 0, s)
  {
    assert forall key :: (0, key) in s.loaded ==> (0, key).1 == key;
    assert forall key :: (0, key) in s.active ==> (0, key).1 == key;
  }

  /** Nothing answers a message whose reply row is not there. */
  lemma NoReply(s: State, id: string)
    requires MessagesOk(s.messages, s.conversations) && IsIncomingID(id)
    requires Unanswered(s.messages, id)
    ensures IsReplyTo(s.messages, id, None)
  {
    forall k | k in s.messages ensures !Answers(s.messages[k], id) {
      assert MessageOk(s.messages, s.conversations, k);
    }
  }

  lemma SomeAnswer(s: State, root: string) returns (answer: Option<Message>)
    requires MessagesOk(s.messages, s.conversations) && root != ""
    ensures IsFirstAnswer(s.messages, root, answer)
  {
    answer := None;
    if k :| k in s.messages && Answers(s.messages[k], root) {
      forall j | j in s.messages && Answers(s.messages[j], root)
        ensures s.messages[k].id == k && !Less(s.messages[j].createdAt, s.messages[k].createdAt)
      {
        OneAnswer(s.messages, s.conversations, root, j, k);
      }
      answer := Some(s.messages[k]);
    }
  }

  lemma SomeRecent(s: State, key: Key, epoch: int, exclude: string) returns (recent: seq<Message>)
    requires MessagesOk(s.messages, s.conversations)
    ensures IsRecent(ScopeRows(s.messages, key, epoch, exclude), MAX_HANDOFF_MESSAGES, recent)
  {
    StoredUnderID(s.messages, s.conversations);
    var rows := ScopeRows(s.messages, key, epoch, exclude);
    ListingExists(rows);
    var all :| ListsDown(all, rows);
    recent := Limited(all, MAX_HANDOFF_MESSAGES);
  }

  /** The call reads, and stands where the read leads. */
  lemma Reads(from: State, v: View, c: Call, s: State, at: At, r: ReadEvent) returns (s': State)
    requires Leads(c.t, from, s) && Stands(v, c, s, at)
    requires FitsRead(at, r) && Observes(s, c.input, c.id, at, r)
    ensures Leads(c.t, from, s') && Stands(v, c, s', AfterRead(s, c.input, at, r))
    ensures s'.prompts == s.prompts && s'.messages == s.messages
    ensures s'.conversations == s.conversations && s'.maxTurns == s.maxTurns
  {
    Looks(v, c, s, at, r);
    CanRead(v, c, s, at, r);
    hide *;
    s' := Continue(s, c.t, AfterRead(s, c.input, at, r));
    ActsOn(from, s, c.t, Read(r));
  }

  lemma CanRead(v: View, c: Call, s: State, at: At, r: ReadEvent)
    requires Stands(v, c, s, at) && FitsRead(at, r) && Observes(s, c.input, c.id, at, r)
    ensures CanAct(s, c.t, Read(r))
    ensures Act(s, c.t, Read(r)) == Continue(s, c.t, AfterRead(s, c.input, at, r))
  {
    hide Inv;
    hide ConversationTheorems.Later;
    hide Shows;
    hide AfterRead;
    hide Observes;
    hide FitsRead;
  }

  lemma WritesOn(from: State, v: View, c: Call, s: State, at: At, w: WriteEvent)
    requires Leads(c.t, from, s) && Stands(v, c, s, at) && FitsWrite(at, w)
    requires w.Loaded? ==> !HasLoaded(s, c, at)
    requires !IsUnsure(w)
    ensures Leads(c.t, from, Written(s, c, at, w))
  {
    hide Leads;
    hide Inv;
    hide ConversationTheorems.Later;
    hide Shows;
    hide ActWrite;
    ActsOn(from, s, c.t, Write(w));
  }

  /** Under the lock, an unanswered message comes to the stored row. */
  lemma ToReading(from: State, v: View, c: Call, s: State) returns (s': State)
    requires Leads(c.t, from, s) && Stands(v, c, s, Checking) && Unanswered(s.messages, c.input.id)
    ensures Leads(c.t, from, s') && Stands(v, c, s', Reading) && s'.prompts == s.prompts
    ensures s'.conversations == s.conversations && s'.maxTurns == s.maxTurns
    ensures s'.messages == s.messages
  {
    hide *;
    StandingFacts(v, c, s, Checking);
    CheckWritten(s, c);
    WritesOn(from, v, c, s, Checking, Check);
    Checks(v, c, s);
    s' := ActCheck(s, c.t);
    if c.input.id in s.messages {
      StandingFacts(v, c, s', Replying);
      NoReply(s', c.input.id);
      NoneLeads(s', c);
      s' := Reads(from, v, c, s', Replying, ReadReply(None));
    }
  }

  lemma CheckWritten(s: State, c: Call)
    ensures FitsWrite(Checking, Check) && !IsUnsure(Check)
    ensures Written(s, c, Checking, Check) == ActCheck(s, c.t)
    ensures ActCheck(s, c.t).messages == s.messages
    ensures ActCheck(s, c.t).conversations == s.conversations
    ensures ActCheck(s, c.t).maxTurns == s.maxTurns
  {
  }

  lemma NoneLeads(s: State, c: Call)
    requires IsReplyTo(s.messages, c.input.id, None)
    ensures FitsRead(Replying, ReadReply(None))
    ensures Observes(s, c.input, c.id, Replying, ReadReply(None))
    ensures AfterRead(s, c.input, Replying, ReadReply(None)) == Reading
  {
    hide IsReplyTo;
  }

  /** The first message of the thread is stored, and is not the call's own. */
  predicate HasRoot(s: State, input: Input) {
    && input.scope.rootMessageID in s.messages
    && s.messages[input.scope.rootMessageID].id == input.scope.rootMessageID != input.id
  }

  /** In the first epoch of a thread its first message comes first. */
  predicate StartsWithRoot(s: State, input: Input, epoch: int, handoff: seq<Message>) {
    IncludesRoot(input, epoch) && HasRoot(s, input) ==>
      s.messages[input.scope.rootMessageID] in handoff
  }

  /** It reads the row and gathers its handoff. */
  lemma ToLoading(from: State, v: View, c: Call, s: State)
    returns (plan: Plan, handoff: seq<Message>, s': State)
    requires Leads(c.t, from, s) && Stands(v, c, s, Reading)
    ensures Leads(c.t, from, s') && Stands(v, c, s', Loading(plan, handoff))
    ensures s'.prompts == s.prompts
    ensures plan == PlanFor(RowOf(s, c.input.scope.key), c.input.isFresh, s.maxTurns)
    ensures s'.messages == s.messages && StartsWithRoot(s, c.input, plan.epoch, handoff)
  {
    hide Leads;
    hide Stands;
    s' := Reads(from, v, c, s, Reading, ReadRow);
    plan := PlanFor(RowOf(s, c.input.scope.key), c.input.isFresh, s.maxTurns);
    hide PlanFor;
    var head: seq<Message>;
    head, s' := ToHead(from, v, c, s', plan);
    StandingFacts(v, c, s', At.Before(plan, HeadRead(head)));
    var recent := SomeRecent(s', c.input.scope.key, plan.epoch, c.input.id);
    hide IsRecent;
    hide ScopeRows;
    hide MessagesOk;
    RecentLeads(s', c.input, c.id, At.Before(plan, Unread), head, recent);
    handoff := head + Unseen(head, Reversed(recent));
    s' := Reads(from, v, c, s', At.Before(plan, HeadRead(head)), ReadRecent(recent));
  }

  lemma ToHead(from: State, v: View, c: Call, s: State, plan: Plan)
    returns (head: seq<Message>, s': State)
    requires Leads(c.t, from, s) && Stands(v, c, s, At.Before(plan, Unread))
    ensures Leads(c.t, from, s') && Stands(v, c, s', At.Before(plan, HeadRead(head)))
    ensures s'.prompts == s.prompts && s'.messages == s.messages
    ensures StartsWithRoot(s, c.input, plan.epoch, head)
  {
    var at := At.Before(plan, Unread);
    hide Leads;
    hide Stands;
    RootLeads(s, c.input, c.id, at);
    s' := Reads(from, v, c, s, at, ReadRoot);
    hide AfterRead;
    head := [];
    if IncludesRoot(c.input, plan.epoch) {
      var rootID := c.input.scope.rootMessageID;
      var root := if rootID in s.messages then Some(s.messages[rootID]) else None;
      StandingFacts(v, c, s', At.Before(plan, RootRead(root)));
      var answer := SomeAnswer(s', rootID);
      hide IsFirstAnswer;
      hide MessagesOk;
      AnswerLeads(s', c.input, c.id, at, root, answer);
      head := Head(root, answer, c.input.id);
      s' := Reads(from, v, c, s', At.Before(plan, RootRead(root)), ReadAnswer(answer));
    }
  }

  /** The adapter takes the saved session up again or opens a new one. */
  lemma ToAdding(from: State, v: View, c: Call, s: State, plan: Plan, handoff: seq<Message>)
    returns (v': View, plan': Plan, carried: seq<Message>, s': State)
    requires Leads(c.t, from, s) && Stands(v, c, s, Loading(plan, handoff))
    ensures Leads(c.t, from, s') && Stands(v', c, s', Adding(plan', carried))
    ensures s'.prompts == s.prompts && s'.messages == s.messages
    ensures plan.session != "" ==> plan' == plan && carried == []
    ensures plan.session == "" ==> carried == if c.input.isFresh then [] else handoff
  {
    var key := c.input.scope.key;
    v', plan', carried := v, plan, [];
    hide Leads;
    hide Stands;
    if plan.session == "" {
      SessionLeads(s, c.input, plan, handoff, Rotate);
      s' := Reads(from, v, c, s, Loading(plan, handoff), Rotate);
      v', plan', carried, s' := ToOpened(from, v, c, s', plan, handoff);
    } else if IsLoaded(s, c.id, key, plan.session) {
      SessionLeads(s, c.input, plan, handoff, ReadEvent.Resume);
      s' := Reads(from, v, c, s, Loading(plan, handoff), ReadEvent.Resume);
    } else {
      LoadedShows(v, c, s, plan, handoff);
      WritesOn(from, v, c, s, Loading(plan, handoff), WriteEvent.Loaded);
      Knows(v, c, s, plan, handoff);
      v' := v.(loaded := v.loaded[key := plan.session]);
      s' := Written(s, c, Loading(plan, handoff), WriteEvent.Loaded);
    }
  }

  lemma LoadedShows(v: View, c: Call, s: State, plan: Plan, handoff: seq<Message>)
    requires Stands(v, c, s, Loading(plan, handoff))
    requires !IsLoaded(s, c.id, c.input.scope.key, plan.session)
    ensures !IsKept(v.loaded, c.input.scope.key, plan.session)
  {
    LoadedAgrees(v, c.id, s, c.input.scope.key, plan.session);
  }

  lemma ToOpened(from: State, v: View, c: Call, s: State, plan: Plan, handoff: seq<Message>)
    returns (v': View, plan': Plan, carried: seq<Message>, s': State)
    requires Leads(c.t, from, s) && Stands(v, c, s, Opening(plan, handoff))
    ensures Leads(c.t, from, s') && Stands(v', c, s', Adding(plan', carried))
    ensures carried == (if c.input.isFresh then [] else handoff)
    ensures s'.prompts == s.prompts && s'.messages == s.messages
  {
    hide *;
    OpenWritten(s, c, plan, handoff);
    WritesOn(from, v, c, s, Opening(plan, handoff), Open("session"));
    Opens(v, c, s, plan, handoff, "session");
    plan' := plan.(session := "session");
    v' := v.(loaded := v.loaded[c.input.scope.key := "session"]);
    s' := Written(s, c, Opening(plan, handoff), Open("session"));
    carried := if c.input.isFresh then [] else handoff;
    v', s' := ToStored(from, v', c, s', plan', handoff);
  }

  lemma OpenWritten(s: State, c: Call, plan: Plan, handoff: seq<Message>)
    ensures FitsWrite(Opening(plan, handoff), Open("session")) && !IsUnsure(Open("session"))
    ensures Written(s, c, Opening(plan, handoff), Open("session")).messages == s.messages
  {
  }

  lemma ToStored(from: State, v: View, c: Call, s: State, plan: Plan, handoff: seq<Message>)
    returns (v': View, s': State)
    requires Leads(c.t, from, s) && Stands(v, c, s, Putting(plan, handoff))
    ensures Leads(c.t, from, s') && s'.prompts == s.prompts && s'.messages == s.messages
    ensures Stands(v', c, s', Adding(plan, if c.input.isFresh then [] else handoff))
  {
    hide *;
    PutWritten(s, c, plan, handoff);
    WritesOn(from, v, c, s, Putting(plan, handoff), WriteEvent.PutOpened(Done));
    PutsOpened(v, c, s, plan, handoff, Done);
    v' := v.(conversations :=
      v.conversations[c.input.scope.key := OpeningRow(c.input, plan, handoff)]);
    s' := ActPutOpened(s, c.t, c.input, plan, handoff, Done);
  }

  lemma PutWritten(s: State, c: Call, plan: Plan, handoff: seq<Message>)
    ensures FitsWrite(Putting(plan, handoff), WriteEvent.PutOpened(Done))
    ensures !IsUnsure(WriteEvent.PutOpened(Done)) && Outcome.Done.Effective()
    ensures Written(s, c, Putting(plan, handoff), WriteEvent.PutOpened(Done)) ==
      ActPutOpened(s, c.t, c.input, plan, handoff, Done)
    ensures ActPutOpened(s, c.t, c.input, plan, handoff, Done).messages == s.messages
  {
    hide OpeningRow;
  }

  predicate IsPromptOf(p: Prompt, id: string, session: string, carried: seq<Message>) {
    p.messageID == id && p.session == session && p.carried == carried
  }

  /** One prompt was sent, of this kind. */
  ghost predicate PromptsFor(
    before: seq<Prompt>, after: seq<Prompt>, id: string, session: string, carried: seq<Message>)
  {
    exists p :: after == before + [p] && IsPromptOf(p, id, session, carried)
  }

  /** The message is stored and the prompt goes out. */
  lemma ToPrompt(from: State, v: View, c: Call, s: State, plan: Plan, carried: seq<Message>)
    returns (v': View, s': State)
    requires Leads(c.t, from, s) && Stands(v, c, s, Adding(plan, carried))
    ensures Leads(c.t, from, s') && Stands(v', c, s', Prompting(plan))
    ensures PromptsFor(s.prompts, s'.prompts, c.input.id, plan.session, carried)
    ensures IsStoredAs(s'.messages, s.messages, c.input)
  {
    hide *;
    UserWritten(s, c, plan, carried);
    WritesOn(from, v, c, s, Adding(plan, carried), WriteEvent.StoreUser(Done));
    StoresUser(v, c, s, plan, carried, Done);
    StoresOwn(v, c, s, plan, carried);
    v' := if c.stored then v
      else v.(messages := AddMessage(v.messages, UserRow(c.input, plan.epoch)));
    s' := ActStoreUser(s, c.t, c.input, plan, carried, Done);
    v', s' := ToSent(from, v', c, s', plan, carried);
  }

  lemma UserWritten(s: State, c: Call, plan: Plan, carried: seq<Message>)
    ensures Written(s, c, Adding(plan, carried), WriteEvent.StoreUser(Done)) ==
      ActStoreUser(s, c.t, c.input, plan, carried, Done)
    ensures FitsWrite(Adding(plan, carried), WriteEvent.StoreUser(Done))
    ensures !IsUnsure(WriteEvent.StoreUser(Done)) && Outcome.Done.Effective()
  {
    hide ActStoreUser;
  }

  /** A message that was not stored before is the call's own row. */
  predicate IsStoredAs(after: Messages, before: Messages, input: Input) {
    && input.id in after
    && (input.id !in before ==> after[input.id].scope == input.scope)
    && (input.id in before ==> after[input.id] == before[input.id])
  }

  lemma StoresOwn(v: View, c: Call, s: State, plan: Plan, carried: seq<Message>)
    requires Stands(v, c, s, Adding(plan, carried))
    ensures IsStoredAs(
      ActStoreUser(s, c.t, c.input, plan, carried, Done).messages, s.messages, c.input)
  {
    ConversationSteps.ThreadFacts(s, c.t);
    hide SharedOk;
    hide LocksOk;
    hide ActiveOk;
    hide ConversationTheorems.Later;
    hide Shows;
    hide PromptingOk;
  }

  lemma ToSent(from: State, v: View, c: Call, s: State, plan: Plan, carried: seq<Message>)
    returns (v': View, s': State)
    requires Leads(c.t, from, s) && Stands(v, c, s, Starting(plan, carried))
    ensures Leads(c.t, from, s') && Stands(v', c, s', Prompting(plan))
    ensures PromptsFor(s.prompts, s'.prompts, c.input.id, plan.session, carried)
    ensures s'.messages == s.messages
  {
    hide *;
    StartSends(s, c, plan, carried);
    WritesOn(from, v, c, s, Starting(plan, carried), Start);
    Starts(v, c, s, plan, carried);
    v' := v.(active := v.active[c.input.scope.key := Active.Active(plan.session, plan.epoch)]);
    s' := ActStart(s, c.t, c.input, c.id, plan, carried);
  }

  lemma StartSends(s: State, c: Call, plan: Plan, carried: seq<Message>)
    ensures FitsWrite(Starting(plan, carried), Start) && !IsUnsure(Start)
    ensures
      var s' := ActStart(s, c.t, c.input, c.id, plan, carried);
      && PromptsFor(s.prompts, s'.prompts, c.input.id, plan.session, carried)
      && s'.messages == s.messages && s' == Written(s, c, Starting(plan, carried), Start)
  {
    var p := Prompt(c.input.scope, c.input.id, c.input.isFresh, c.id, plan.session, plan.epoch,
      carried);
    assert ActStart(s, c.t, c.input, c.id, plan, carried).prompts == s.prompts + [p];
    assert IsPromptOf(p, c.input.id, plan.session, carried);
  }

  /** The call waits for the lock, whether or not it could have steered. */
  lemma ToWaiting(s: State, t: Tid, input: Input) returns (s': State)
    requires Inv(s) && HasBegun(s, t, input)
    ensures Leads(t, s, s') && Inv(s')
    ensures s'.messages == s.messages && s'.prompts == s.prompts && s'.locks == s.locks
    ensures s'.conversations == s.conversations && s'.maxTurns == s.maxTurns
    ensures t in s'.threads && CallOf(s', t).input == input && CallOf(s', t).pc == Locking
  {
    LeadsNowhere(t, s);
    hide Leads;
    hide Inv;
    s' := s;
    if !input.isFresh {
      ActsOn(s, s, t, Miss);
      ConversationSteps.ActOk(s, t, Miss);
      s' := Goto(s, t, Locking);
    }
  }

  lemma ToLocked(from: State, s: State, t: Tid, input: Input) returns (c: Call, s': State)
    requires Leads(t, from, s) && Inv(s) && input.scope.key !in s.locks
    requires t in s.threads && CallOf(s, t).input == input && CallOf(s, t).pc == Locking
    ensures c == Call(0, t, input, input.id in s.messages, s)
    ensures Leads(t, from, s') && Stands(ViewOf(s), c, s', Checking)
    ensures s'.messages == s.messages && s'.prompts == s.prompts
    ensures s'.conversations == s.conversations && s'.maxTurns == s.maxTurns
  {
    c := Call(0, t, input, input.id in s.messages, s);
    ViewShows(s);
    ConversationTheorems.LaterReflexive(s);
    hide Inv;
    hide ConversationTheorems.Later;
    hide Shows;
    hide ViewOf;
    hide Leads;
    Locks(ViewOf(s), c, s);
    CanLock(s, t);
    hide Act;
    hide CanAct;
    ActsOn(from, s, t, Event.Lock(0));
    s' := ActLock(s, t, 0);
  }

  lemma CanLock(s: State, t: Tid)
    requires t in s.threads && CallOf(s, t).pc == Locking
    requires CallOf(s, t).input.scope.key !in s.locks
    ensures CanAct(s, t, Event.Lock(0)) && Act(s, t, Event.Lock(0)) == ActLock(s, t, 0)
  {
  }

  ghost predicate HasBegun(s: State, t: Tid, input: Input) {
    && t in s.threads && s.threads[t].input == input
    && s.threads[t].pc == (if input.isFresh then Locking else Steering)
  }

  ghost predicate IsAtPrompt(s: State, t: Tid, input: Input) {
    && Inv(s) && t in s.threads && s.threads[t].input == input && IsPrompting(s.threads[t].pc)
    && Unanswered(s.messages, input.id)
  }

  /** The stored session can be taken up again. */
  predicate HasSession(s: State, input: Input) {
    && !input.isFresh && input.scope.key in s.conversations
    && s.conversations[input.scope.key].sessionID != ""
    && s.conversations[input.scope.key].completedTurns < s.maxTurns
  }

  /** The call is the first of its thread, whose first message is stored. */
  predicate StartsThread(s: State, input: Input) {
    && !input.isFresh && input.scope.rootMessageID != "" && HasRoot(s, input)
    && input.scope.key !in s.conversations
  }

  /** What a call carries that has found the row and the log so: nothing when it takes up a
      session, and the first message of its thread when it starts one. */
  ghost predicate CarriesSo(s: State, input: Input, p: Prompt) {
    && p.messageID == input.id
    && (HasSession(s, input) ==>
          p.session == s.conversations[input.scope.key].sessionID && p.carried == [])
    && (StartsThread(s, input) ==> s.messages[input.scope.rootMessageID] in p.carried)
  }

  /** A call that has begun, whose conversation is not locked and whose message has no
      reply, can come to its prompt by its own events alone. If there is a session to take
      up it prompts that one, and nothing is carried. In a new thread the first message of
      the thread is carried. */
  lemma ComesToPrompt(s: State, t: Tid, input: Input) returns (s': State, p: Prompt)
    requires Inv(s) && HasBegun(s, t, input)
    requires input.scope.key !in s.locks && Unanswered(s.messages, input.id)
    ensures Leads(t, s, s') && IsAtPrompt(s', t, input)
    ensures s'.prompts == s.prompts + [p] && CarriesSo(s, input, p)
    ensures IsStoredAs(s'.messages, s.messages, input)
  {
    var s1 := ToWaiting(s, t, input);
    hide *;
    var c, s2 := ToLocked(s, s1, t, input);
    var v := ViewOf(s1);
    var s3 := ToReading(s, v, c, s2);
    var plan, handoff, s4 := ToLoading(s, v, c, s3);
    var v5, plan', carried, s5 := ToAdding(s, v, c, s4, plan, handoff);
    var v6;
    v6, s' := ToPrompt(s, v5, c, s5, plan', carried);
    PromptingFacts(v6, c, s', plan');
    p := CarriesIt(s, s3, s5, s', input, plan, handoff, plan', carried);
  }

  lemma CarriesIt(
    s: State, s3: State, s5: State, s': State, input: Input, plan: Plan, handoff: seq<Message>,
    plan': Plan, carried: seq<Message>)
    returns (p: Prompt)
    requires s3.conversations == s.conversations && s3.maxTurns == s.maxTurns
    requires s3.messages == s.messages && s5.prompts == s.prompts
    requires plan == PlanFor(RowOf(s3, input.scope.key), input.isFresh, s3.maxTurns)
    requires StartsWithRoot(s3, input, plan.epoch, handoff)
    requires plan.session != "" ==> plan' == plan && carried == []
    requires plan.session == "" ==> carried == if input.isFresh then [] else handoff
    requires PromptsFor(s5.prompts, s'.prompts, input.id, plan'.session, carried)
    ensures s'.prompts == s.prompts + [p] && CarriesSo(s, input, p)
  {
    p :| s'.prompts == s5.prompts + [p] && IsPromptOf(p, input.id, plan'.session, carried);
  }

  lemma PromptingFacts(v: View, c: Call, s: State, plan: Plan)
    requires Stands(v, c, s, Prompting(plan))
    ensures IsAtPrompt(s, c.t, c.input)
  {
    ConversationSteps.ThreadFacts(s, c.t);
  }

  // ---- one whole attempt whose prompt fails -----------------------------------

  /** Nobody is at work on the message or its conversation, and it has no reply. */
  ghost predicate MayTry(s: State, t: Tid, input: Input) {
    CanBegin(s, t, input) && input.scope.key !in s.locks && Unanswered(s.messages, input.id)
  }

  /** A call at its prompt that then fails leaves everything ready for the next try. */
  lemma FailsAtPrompt(s: State, t: Tid, input: Input) returns (failed: State, ended: State)
    requires IsAtPrompt(s, t, input) && IsOwnKey(input.scope.key)
    ensures Do(s, ActStep(t, Event.Fail), failed) && Do(failed, EndStep(t), ended)
    ensures MayTry(ended, t, input) && ended.prompts == s.prompts && ended.messages == s.messages
    ensures ended.conversations == s.conversations && ended.maxTurns == s.maxTurns
  {
    AtPromptFacts(s, t, input);
    hide Inv;
    hide IsOwnKey;
    hide IsIncomingID;
    failed := Act(s, t, Event.Fail);
    ended := End(failed, t);
    assert failed == Leave(s, t, Failed);
  }

  lemma AtPromptFacts(s: State, t: Tid, input: Input)
    requires IsAtPrompt(s, t, input)
    ensures IsIncomingID(input.id) && IsOwnID(s, t, input.id)
  {
    ConversationSteps.ThreadFacts(s, t);
    hide SharedOk;
    hide LocksOk;
    hide ActiveOk;
    hide PcOk;
  }

  /** No other call carries the message. */
  predicate IsOwnID(s: State, t: Tid, id: string) {
    forall u :: u in s.threads && u != t ==> s.threads[u].input.id != id
  }

  /** A call begins and comes to its prompt. */
  lemma IsTried(run: seq<State>, s: State, t: Tid, input: Input)
    returns (longer: seq<State>, s': State, p: Prompt)
    requires ConversationTheorems.IsRun(run) && Runs.IsLast(run, s) && MayTry(s, t, input)
    ensures ConversationTheorems.IsRun(longer) && Runs.IsLast(longer, s') && run <= longer
    ensures IsAtPrompt(s', t, input) && IsStoredAs(s'.messages, s.messages, input)
    ensures s'.prompts == s.prompts + [p] && CarriesSo(s, input, p)
  {
    hide *;
    LastIsOk(run, s);
    var begun := Begins(s, t, input);
    longer := RunStepsOn(run, s, BeginStep(t, input), begun);
    s', p := ComesToPrompt(begun, t, input);
    longer := RunCallsOn(longer, begun, t, s');
    SameTables(s, begun, input, p);
  }

  lemma LastIsOk(run: seq<State>, s: State)
    requires ConversationTheorems.IsRun(run) && Runs.IsLast(run, s)
    ensures s in run && Inv(s)
  {
    hide ConversationTheorems.IsRun;
    hide Inv;
    ConversationTheorems.StateOk(run, s);
  }

  lemma Begins(s: State, t: Tid, input: Input) returns (begun: State)
    requires Inv(s) && MayTry(s, t, input)
    ensures Do(s, BeginStep(t, input), begun) && Inv(begun) && HasBegun(begun, t, input)
    ensures begun.prompts == s.prompts && begun.messages == s.messages
    ensures begun.conversations == s.conversations && begun.maxTurns == s.maxTurns
    ensures input.scope.key !in begun.locks && Unanswered(begun.messages, input.id)
  {
    ConversationSteps.BeginOk(s, t, input);
    hide Inv;
    begun := Begin(s, t, input);
  }

  lemma SameTables(s: State, begun: State, input: Input, p: Prompt)
    requires begun.messages == s.messages && begun.conversations == s.conversations
    requires begun.maxTurns == s.maxTurns && CarriesSo(begun, input, p)
    ensures CarriesSo(s, input, p)
  {
  }

  /** From any reachable state an unanswered message can be prompted, and be no more
      answered than before when that fails. */
  lemma Attempt(run: seq<State>, s: State, t: Tid, input: Input)
    returns (longer: seq<State>, s': State, p: Prompt)
    requires ConversationTheorems.IsRun(run) && Runs.IsLast(run, s) && MayTry(s, t, input)
    ensures ConversationTheorems.IsRun(longer) && Runs.IsLast(longer, s') && run <= longer
    ensures MayTry(s', t, input) && IsStoredAs(s'.messages, s.messages, input)
    ensures s'.prompts == s.prompts + [p] && p.messageID == input.id
  {
    hide *;
    var prompting;
    longer, prompting, p := IsTried(run, s, t, input);
    assert IsOwnKey(input.scope.key) by { TriesOwnKey(s, t, input); }
    var failed;
    failed, s' := FailsAtPrompt(prompting, t, input);
    longer := RunStepsOn(longer, prompting, ActStep(t, Event.Fail), failed);
    longer := RunStepsOn(longer, failed, EndStep(t), s');
    CarriesItself(s, input, p);
  }

  lemma TriesOwnKey(s: State, t: Tid, input: Input)
    requires MayTry(s, t, input)
    ensures IsOwnKey(input.scope.key)
  {
  }

  lemma CarriesItself(s: State, input: Input, p: Prompt)
    requires CarriesSo(s, input, p)
    ensures p.messageID == input.id
  {
  }

  // ---- the handoff of a session whose first prompt fails -----------------------

  /** When a prompt fails, a retry of its message can prompt the same session, and then
      carries nothing: whatever the failed prompt `p` carried is lost to the session. */
  lemma RetryCarriesNothing(run: seq<State>, s: State, t: Tid, input: Input)
    returns (
      i: nat, g: nat, n: nat, p: Prompt, longer: seq<State>, s': State, again: Prompt)
    requires ConversationTheorems.IsRun(run) && Runs.IsLast(run, s)
    requires IsAtPrompt(s, t, input) && !input.isFresh
    ensures Runs.IsAt(run, i, s) && Selections.IsWaitingFor(run, i, t, g, n)
    ensures Selections.IsPrompt(s, n, p)
    ensures ConversationTheorems.IsRun(longer) && Runs.IsLast(longer, s') && run <= longer
    ensures s'.prompts == s.prompts + [again]
    ensures IsPromptOf(again, p.messageID, p.session, [])
  {
    hide *;
    i, g, n := WaitsFor(run, s, t, input);
    p := PromptFacts(run, i, s, t, input, g, n);
    assert IsOwnKey(input.scope.key) by { WaitsInOwn(run, s, t, input); }
    var failed, ended := FailsAtPrompt(s, t, input);
    longer := RunStepsOn(run, s, ActStep(t, Event.Fail), failed);
    longer := RunStepsOn(longer, failed, EndStep(t), ended);
    longer, s', again := IsTried(longer, ended, t, input);
    SessionStays(s, ended, t, input, p, again);
  }

  lemma WaitsFor(run: seq<State>, s: State, t: Tid, input: Input)
    returns (i: nat, g: nat, n: nat)
    requires ConversationTheorems.IsRun(run) && Runs.IsLast(run, s) && IsAtPrompt(s, t, input)
    ensures Runs.IsAt(run, i, s) && Selections.IsWaitingFor(run, i, t, g, n)
  {
    hide ConversationTheorems.IsRun;
    hide Inv;
    i := |run| - 1;
    g, n := Selections.PromptOfCall(run, i, s, t);
  }

  lemma WaitsInOwn(run: seq<State>, s: State, t: Tid, input: Input)
    requires ConversationTheorems.IsRun(run) && Runs.IsLast(run, s) && IsAtPrompt(s, t, input)
    ensures IsOwnKey(input.scope.key)
  {
    hide ConversationTheorems.IsRun;
    Origins.StateOk(run, s);
    hide Inv;
  }

  /** The session of a plan, while the call waits for its prompt. */
  predicate AimsAt(s: State, t: Tid, session: string) {
    IsPrompting(CallOf(s, t).pc) && CallOf(s, t).pc.at.plan.session == session
  }

  lemma PromptFacts(
    run: seq<State>, i: nat, s: State, t: Tid, input: Input, g: nat, n: nat)
    returns (p: Prompt)
    requires Runs.IsAt(run, i, s) && IsAtPrompt(s, t, input)
    requires Selections.IsWaitingFor(run, i, t, g, n)
    ensures Selections.IsPrompt(s, n, p) && p.messageID == input.id && AimsAt(s, t, p.session)
  {
    hide Inv;
    hide Selections.IsSending;
    hide Origins.IsOwnPrompt;
    p := s.prompts[n];
  }

  /** Failing, ending and beginning again leave the session where it is. */
  lemma SessionStays(s: State, ended: State, t: Tid, input: Input, p: Prompt, again: Prompt)
    requires IsAtPrompt(s, t, input) && !input.isFresh
    requires p.messageID == input.id && AimsAt(s, t, p.session)
    requires ended.conversations == s.conversations && ended.maxTurns == s.maxTurns
    requires CarriesSo(ended, input, again)
    ensures IsPromptOf(again, p.messageID, p.session, [])
  {
    ConversationSteps.ThreadFacts(s, t);
    assert Settled(s, s.threads[t].manager, input.scope.key, s.threads[t].pc.at.plan);
    hide Inv;
  }

  predicate CarriesRoot(p: Prompt, root: Message) {
    exists m :: m in p.carried && m.id == root.id && m.text == root.text
  }

  /** The first message of a thread, and another one of the thread. */
  predicate AreOfThread(root: Message, input: Input) {
    && IsThreadRoot(root) && IsOwnKey(input.scope.key) && IsIncomingID(input.id)
    && !input.isFresh && input.scope.rootMessageID == root.id != input.id
  }

  /** It happens: the first message of a thread is stored, the next one opens a session and
      carries it, the prompt fails, and the retry prompts the session without it. */
  lemma LosesHandoff(root: Message, t: Tid, input: Input, maxTurns: nat)
    returns (run: seq<State>, s: State, first: Prompt, second: Prompt)
    requires maxTurns > 0 && AreOfThread(root, input)
    ensures ConversationTheorems.IsRun(run) && Runs.IsLast(run, s) && s.prompts == [first, second]
    ensures first.messageID == input.id && CarriesRoot(first, root)
    ensures IsPromptOf(second, input.id, first.session, [])
  {
    hide *;
    var prompting;
    run, prompting, first := ThreadPrompts(root, t, input, maxTurns);
    assert !input.isFresh by { ThreadIsNotFresh(root, input); }
    var i, g, n, p;
    i, g, n, p, run, s, second := RetryCarriesNothing(run, prompting, t, input);
    OnlyPrompt(prompting, n, p, first);
  }

  lemma ThreadIsNotFresh(root: Message, input: Input)
    requires AreOfThread(root, input)
    ensures !input.isFresh
  {
  }

  lemma OnlyPrompt(s: State, n: nat, p: Prompt, first: Prompt)
    requires s.prompts == [first] && Selections.IsPrompt(s, n, p)
    ensures p == first
  {
  }

  lemma ThreadPrompts(root: Message, t: Tid, input: Input, maxTurns: nat)
    returns (run: seq<State>, s: State, p: Prompt)
    requires maxTurns > 0 && AreOfThread(root, input)
    ensures ConversationTheorems.IsRun(run) && Runs.IsLast(run, s) && IsAtPrompt(s, t, input)
    ensures s.prompts == [p] && p.messageID == input.id && CarriesRoot(p, root)
  {
    hide *;
    var start, empty := Opened(maxTurns);
    var stored := ThreadMayStart(empty, root, t, input);
    run := RunStepsOn(start, empty, SaveRootStep(root, Done), stored);
    run, s, p := IsTried(run, stored, t, input);
    RootIsCarried(stored, root, input, p);
  }

  lemma Opened(maxTurns: nat) returns (run: seq<State>, s: State)
    requires maxTurns > 0
    ensures ConversationTheorems.IsRun(run) && Runs.IsLast(run, s) && Init(s)
  {
    s := State(map[], map[], map[], map[], map[], map[], {}, map[], map[], [], maxTurns);
    run := [s];
    hide Next;
  }

  lemma ThreadMayStart(empty: State, root: Message, t: Tid, input: Input) returns (stored: State)
    requires Init(empty) && AreOfThread(root, input)
    ensures Do(empty, SaveRootStep(root, Done), stored) && stored.prompts == []
    ensures MayTry(stored, t, input) && StartsThread(stored, input) && HasText(stored, root)
  {
    stored := WithMessage(empty, root, Done);
  }

  predicate HasText(s: State, m: Message) {
    m.id in s.messages && s.messages[m.id].id == m.id && s.messages[m.id].text == m.text
  }

  lemma RootIsCarried(s: State, root: Message, input: Input, p: Prompt)
    requires AreOfThread(root, input) && StartsThread(s, input) && HasText(s, root)
    requires CarriesSo(s, input, p)
    ensures p.messageID == input.id && CarriesRoot(p, root)
  {
    hide IsThreadRoot;
    assert s.messages[root.id] in p.carried;
  }

  // ---- the exact condition ----------------------------------------------------

  ghost predicate IsPromptedBy(longer: seq<State>, s: State, s': State, id: string) {
    && ConversationTheorems.IsRun(longer) && Runs.IsLast(longer, s')
    && exists p :: ConversationTheorems.IsNewPrompt(s, s', p) && p.messageID == id
  }

  /** Some continuation of the run, whose last state is `s`, prompts the message once more. */
  ghost predicate CanBePrompted(run: seq<State>, s: State, id: string) {
    exists longer, s' :: run <= longer && IsPromptedBy(longer, s, s', id)
  }

  /** A message that is handed to Handle directly, as a Webex event is on every retry, and
      that nobody is at work on can be prompted from here on, once more if it has been
      before, exactly when no reply to it is stored. */
  lemma PromptedAgainExactly(run: seq<State>, s: State, t: Tid, input: Input)
    requires ConversationTheorems.IsRun(run) && Runs.IsLast(run, s)
    requires CanBegin(s, t, input) && input.scope.key !in s.locks
    ensures CanBePrompted(run, s, input.id) <==> ReplyID(input.id) !in s.messages
  {
    hide ConversationTheorems.IsRun;
    hide CanBegin;
    hide ReplyID;
    if ReplyID(input.id) !in s.messages {
      assert MayTry(s, t, input);
      var longer, s', p := Attempt(run, s, t, input);
      hide *;
      IsPrompted(run, s, longer, s', p, input.id);
    } else {
      hide *;
      NotPrompted(run, s, input.id);
    }
  }

  lemma IsPrompted(
    run: seq<State>, s: State, longer: seq<State>, s': State, p: Prompt, id: string)
    requires ConversationTheorems.IsRun(longer) && Runs.IsLast(longer, s') && run <= longer
    requires s'.prompts == s.prompts + [p] && p.messageID == id
    ensures CanBePrompted(run, s, id)
  {
    hide ConversationTheorems.IsRun;
    assert s'.prompts[|s.prompts|] == p;
    assert ConversationTheorems.IsNewPrompt(s, s', p);
    assert IsPromptedBy(longer, s, s', id);
  }

  lemma NotPrompted(run: seq<State>, s: State, id: string)
    requires Runs.IsLast(run, s) && ReplyID(id) in s.messages
    ensures !CanBePrompted(run, s, id)
  {
    hide ConversationTheorems.IsRun;
    hide ConversationTheorems.IsNewPrompt;
    hide ReplyID;
    forall longer, s' | run <= longer ensures !IsPromptedBy(longer, s, s', id) {
      if ConversationTheorems.IsRun(longer) && Runs.IsLast(longer, s') {
        forall p | ConversationTheorems.IsNewPrompt(s, s', p) ensures p.messageID != id {
          ConversationTheorems.AnsweredIsNotPromptedAgain(
            longer, |run| - 1, s, |longer| - 1, s', id, p);
        }
      }
    }
  }

  /** An attempt whose prompt fails is followed by another that prompts the same message. */
  lemma PromptedTwice(t: Tid, input: Input, maxTurns: nat)
    returns (run: seq<State>, s: State, first: Prompt, second: Prompt)
    requires maxTurns > 0 && IsOwnKey(input.scope.key) && IsIncomingID(input.id)
    ensures ConversationTheorems.IsRun(run) && Runs.IsLast(run, s) && s.prompts == [first, second]
    ensures first.messageID == input.id == second.messageID
  {
    var start, empty := Opened(maxTurns);
    assert MayTry(empty, t, input) && empty.prompts == [];
    hide *;
    var tried;
    run, tried, first := Attempt(start, empty, t, input);
    run, s, second := Attempt(run, tried, t, input);
  }
}
