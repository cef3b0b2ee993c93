/** What every step of queue, routing and conversations together leaves as it is, and what it
    can change: enough to follow a submitted message through a run. */
module Transitions {
  import opened Wrappers
  import opened Tables
  import opened EndToEnd
  import C = Conversations
  import ConversationInvariant
  import ConversationSteps
  import ConversationTheorems
  import MessageRuns
  import Origins
  import P = Personas
  import Routing
  import RunQueue
  import Runs

  // ---- one state --------------------------------------------------------------

  predicate AreOfOneMessage(rows: MessageRuns.Rows, a: string, b: string) {
    a in rows && b in rows && rows[a].request.messageID == rows[b].request.messageID
  }

  /** Submitted messages are none of Webex's, and each has one row. */
  ghost predicate RowsStand(s: State) {
    && (forall id :: id in s.queue.rows ==>
          && C.IsIncomingID(s.queue.rows[id].request.messageID)
          && s.queue.rows[id].request.messageID !in s.site.webex)
    && (forall a, b :: AreOfOneMessage(s.queue.rows, a, b) ==> a == b)
  }

  ghost predicate HeldStands(s: State, w: nat, run: MessageRuns.Run) {
    run.id in s.queue.rows && s.queue.rows[run.id] == run && run.status.Running?
  }

  /** A run that is held is in the table, running, and held once. */
  ghost predicate HeldStand(s: State) {
    && (forall w: nat, run :: Holds(s, w, run) ==> HeldStands(s, w, run))
    && (forall v: nat, w: nat, a, b :: Holds(s, v, a) && Holds(s, w, b) && v != w ==>
          a.request.messageID != b.request.messageID)
  }

  predicate Carries(s: State, t: C.Tid, input: C.Input) {
    t in s.talk.threads && s.talk.threads[t].input == input
  }

  /** The call is for the request, in a conversation of its own key. */
  predicate IsForRequest(input: C.Input, request: MessageRuns.Request) {
    && input.id == request.messageID && input.text == request.text
    && input.scope.key.Own? && input.scope.key.base == KeyText(request.scope.key)
  }

  predicate IsAnswering(s: State, t: C.Tid) {
    t in s.talk.threads && s.talk.threads[t].pc.Locked? && s.talk.threads[t].pc.at.Answering?
  }

  /** A worker's call is for the run it holds, a Webex call for a Webex message; two calls
      carry two messages. */
  ghost predicate CallStands(s: State, t: C.Tid, input: C.Input) {
    && C.IsIncomingID(input.id)
    && (match t
        case Worker(w) =>
          HoldsRun(s, w) && IsForRequest(input, s.queue.workers[w].run.request)
        case Webex(_) => input.id in s.site.webex)
    && (IsAnswering(s, t) ==> input.id in s.talk.messages)
  }

  ghost predicate CallsStand(s: State) {
    forall t, input :: Carries(s, t, input) ==> CallStands(s, t, input)
  }

  predicate IsWriting(s: State, w: nat) { w < |s.queue.workers| && s.queue.workers[w].Completing? }

  /** What a worker completes is in the table. */
  ghost predicate WritersStand(s: State) {
    forall w: nat :: IsWriting(s, w) ==> s.queue.workers[w].id in s.queue.rows
  }

  ghost predicate Stands(s: State) {
    RowsStand(s) && HeldStand(s) && CallsStand(s) && WritersStand(s)
  }

  /** The message `id` or the reply to it is in the log under this key. */
  predicate IsLogged(s: State, id: string, key: Key) {
    id in s.talk.messages && s.talk.messages[id].scope.key == key
  }

  /** The message and the reply to it are in the log under these keys. */
  predicate AreLogged(s: State, id: string, key: Key, reply: Key) {
    IsLogged(s, id, key) && IsLogged(s, ReplyID(id), reply)
  }

  lemma InvStands(s: State)
    requires Inv(s)
    ensures Stands(s)
  {
    forall id | id in s.queue.rows ensures RowLinked(s, id) {}
    assert MessageRuns.TableOk(s.queue.rows) && ConversationInvariant.ThreadsOk(s.talk);
    forall w: nat, run | Holds(s, w, run) ensures HeldStands(s, w, run) {
      HeldRow(s, w, run);
      assert RunQueue.WorkerOk(s.queue.rows, s.queue.workers[w]);
    }
    forall v: nat, w: nat, a, b | Holds(s, v, a) && Holds(s, w, b) && v != w
      ensures a.request.messageID != b.request.messageID
    {
      HeldApart(s, v, a, w, b);
    }
    forall w: nat | IsWriting(s, w) ensures s.queue.workers[w].id in s.queue.rows {
      assert RunQueue.WorkerOk(s.queue.rows, s.queue.workers[w]);
    }
    forall t | t in s.talk.threads ensures CallLinked(s, t) {}
    hide Inv;
    RowsDoStand(s);
    forall t, input | Carries(s, t, input) ensures CallStands(s, t, input) { CallDoesStand(s, t); }
    assert WritersStand(s);
    hide *;
    Standing(s);
  }

  lemma RowsDoStand(s: State)
    requires MessageRuns.TableOk(s.queue.rows)
    requires forall id :: id in s.queue.rows ==> RowLinked(s, id)
    ensures RowsStand(s)
  {
    forall a, b | AreOfOneMessage(s.queue.rows, a, b) ensures a == b
    {
      assert MessageRuns.SameMessage(s.queue.rows[a], s.queue.rows[b]);
    }
    forall id | id in s.queue.rows ensures C.IsIncomingID(s.queue.rows[id].request.messageID) {
      assert RowLinked(s, id);
    }
  }

  lemma CallDoesStand(s: State, t: C.Tid)
    requires ConversationInvariant.ThreadsOk(s.talk) && t in s.talk.threads && CallLinked(s, t)
    ensures CallStands(s, t, C.CallOf(s.talk, t).input)
  {
    ConversationSteps.ThreadFacts(s.talk, t);
    hide ConversationInvariant.ThreadsOk;
    hide KeyText;
  }

  lemma Standing(s: State)
    requires RowsStand(s)
    requires forall w: nat, run :: Holds(s, w, run) ==> HeldStands(s, w, run)
    requires forall v: nat, w: nat, a, b :: Holds(s, v, a) && Holds(s, w, b) && v != w ==>
      a.request.messageID != b.request.messageID
    requires forall t, input :: Carries(s, t, input) ==> CallStands(s, t, input)
    requires WritersStand(s)
    ensures Stands(s)
  {
  }

  // ---- two states -------------------------------------------------------------

  /** Everything that only grows, and what never changes. */
  ghost predicate Keeps(s: State, s': State) {
    && s'.site == s.site
    && RunQueue.RowsLater(s.queue.rows, s'.queue.rows)
    && ConversationTheorems.RowsKept(s.talk, s'.talk)
  }

  /** The call `t` stores the member it has chosen as the owner of its key. */
  predicate Saves(s: State, s': State, t: C.Tid) {
    && t in s.routing.attempts && s.routing.attempts[t].Chosen?
    && var a := s.routing.attempts[t];
    && s'.routing.owners == s.routing.owners[a.asked.base := a.member.name]
    && s'.routing.saved == s.routing.saved + {(a.asked.base, a.member.name)}
  }

  ghost predicate OwnersPass(s: State, s': State) {
    || (s'.routing.owners == s.routing.owners && s'.routing.saved == s.routing.saved)
    || exists t :: Saves(s, s', t)
  }

  /** An attempt is the one that was there, its route may have been stored meanwhile, or it
      has just been chosen by the owner saved so far. */
  ghost predicate AttemptPasses(s: State, s': State, t: C.Tid) {
    t in s'.routing.attempts ==>
      if t in s.routing.attempts then AttemptGoesOn(s, s', t) else AttemptBegins(s, s', t)
  }

  ghost predicate AttemptGoesOn(s: State, s': State, t: C.Tid)
    requires t in s.routing.attempts && t in s'.routing.attempts
  {
    var a, a' := s.routing.attempts[t], s'.routing.attempts[t];
    || a' == a
    || (a.Chosen? && a'.Refused?)
    || (&& a.Chosen? && a' == Routing.Routed(a.asked, a.owner, a.member)
        && (a.asked.base, a.member.name) in s'.routing.saved)
  }

  ghost predicate AttemptBegins(s: State, s': State, t: C.Tid)
    requires t in s'.routing.attempts
  {
    var a := s'.routing.attempts[t];
    && a.Chosen? && a.owner == Routing.Owner(s.routing, a.asked.base)
    && Routing.IsChoice(s.site.roster, a.asked, a.owner, a.member)
    && s'.talk.messages == s.talk.messages
    && (t.Worker? ==>
          HoldsRun(s', t.index) && a.asked == AskedFor(s'.queue.workers[t.index].run.request))
  }

  /** A worker holds its run as long as its attempt goes on. */
  ghost predicate HoldPasses(s: State, s': State, w: nat) {
    HoldsRun(s, w) && C.Worker(w) in s'.routing.attempts ==>
      HoldsRun(s', w) && s'.queue.workers[w] == s.queue.workers[w]
  }

  predicate IsRouted(s: State, t: C.Tid) {
    && t in s.talk.threads && t in s.routing.attempts && s.routing.attempts[t].Routed?
    && s.talk.threads[t].input.scope.key ==
         Own(s.routing.attempts[t].member.name, s.routing.attempts[t].asked.base)
  }

  /** A worker's call was there, with its attempt, or begins where it was routed to. */
  ghost predicate CallPasses(s: State, s': State, t: C.Tid) {
    t.Worker? && t in s'.talk.threads ==>
      || IsRouted(s', t)
      || (&& t in s.talk.threads && s'.talk.threads[t].input == s.talk.threads[t].input
          && (t in s.routing.attempts ==>
                t in s'.routing.attempts && s'.routing.attempts[t] == s.routing.attempts[t]))
  }

  predicate Adds(s: State, s': State, u: C.Tid, k: string) {
    && u in s.talk.threads && k in s'.talk.messages
    && var input := s.talk.threads[u].input;
    && s'.talk.messages[k].scope == input.scope
    && (k == input.id || (k == ReplyID(input.id) && IsAnswering(s, u)))
  }

  /** A new row of the log is a call's own, or the first message of a Webex thread. */
  ghost predicate LogPasses(s: State, s': State, k: string) {
    k in s'.talk.messages && k !in s.talk.messages ==>
      || (exists u :: Adds(s, s', u, k))
      || (k in s.site.webex && C.IsIncomingID(k))
  }

  predicate Sends(s: State, s': State, u: C.Tid) {
    && u in s.talk.threads && |s'.talk.prompts| == |s.talk.prompts| + 1
    && s'.talk.prompts[..|s.talk.prompts|] == s.talk.prompts
    && s'.talk.prompts[|s.talk.prompts|].messageID == s.talk.threads[u].input.id
    && ReplyID(s.talk.threads[u].input.id) !in s.talk.messages
  }

  ghost predicate PromptsPass(s: State, s': State) {
    s'.talk.prompts == s.talk.prompts || exists u :: Sends(s, s', u)
  }

  /** A row that has become completed is what a worker was writing. */
  ghost predicate RowPasses(s: State, s': State, id: string) {
    id in s'.queue.rows && s'.queue.rows[id].status.Completed? ==>
      || (id in s.queue.rows && s'.queue.rows[id] == s.queue.rows[id])
      || RunQueue.Completing(id, s'.queue.rows[id].result) in s.queue.workers
  }

  /** What a worker writes for a completed run is what its call returned. */
  ghost predicate ResultPasses(s: State, s': State, w: nat) {
    w < |s'.queue.workers| && s'.queue.workers[w].Completing? ==>
      || (w < |s.queue.workers| && s.queue.workers[w] == s'.queue.workers[w])
      || HasReturned(s, w, s'.queue.workers[w].id, s'.queue.workers[w].result)
  }

  predicate HasReturned(s: State, w: nat, id: string, result: MessageRuns.Result) {
    && HoldsRun(s, w) && s.queue.workers[w].run.id == id
    && C.Worker(w) in s.talk.threads
    && s.talk.threads[C.Worker(w)].pc.Returned?
    && Reports(result, s.talk.threads[C.Worker(w)].pc.result)
  }

  ghost predicate RoutesPass(s: State, s': State) {
    && OwnersPass(s, s')
    && (forall t :: AttemptPasses(s, s', t))
    && (forall w: nat :: HoldPasses(s, s', w))
    && (forall t :: CallPasses(s, s', t))
  }

  ghost predicate QueuePasses(s: State, s': State) {
    && (forall id :: RowPasses(s, s', id))
    && (forall w: nat :: ResultPasses(s, s', w))
  }

  ghost predicate TalkPasses(s: State, s': State) {
    (forall k :: LogPasses(s, s', k)) && PromptsPass(s, s')
  }

  ghost predicate Passes(s: State, s': State) {
    Keeps(s, s') && RoutesPass(s, s') && QueuePasses(s, s') && TalkPasses(s, s')
  }

  // ---- every step -------------------------------------------------------------

  lemma QueueIsSame(s: State, s': State)
    requires s'.queue == s.queue
    ensures QueuePasses(s, s') && forall w: nat :: HoldPasses(s, s', w)
  {
  }

  lemma TalkIsSame(s: State, s': State)
    requires s'.talk.messages == s.talk.messages && s'.talk.prompts == s.talk.prompts
    ensures TalkPasses(s, s')
  {
    hide Adds;
  }

  /** Calls come and go with their attempts; owners stay. */
  lemma RoutesStay(s: State, s': State)
    requires s'.routing.owners == s.routing.owners && s'.routing.saved == s.routing.saved
    requires forall t :: t in s'.routing.attempts ==>
      t in s.routing.attempts && s'.routing.attempts[t] == s.routing.attempts[t]
    requires forall w: nat :: HoldPasses(s, s', w)
    requires forall t :: CallPasses(s, s', t)
    ensures RoutesPass(s, s')
  {
    hide HoldPasses;
    hide CallPasses;
    hide Saves;
    forall t ensures AttemptPasses(s, s', t) {}
  }

  /** The calls of workers are those that were there. */
  lemma CallsStay(s: State, s': State)
    requires forall t: C.Tid :: t.Worker? && t in s'.talk.threads ==> StaysWith(s, s', t)
    ensures forall t :: CallPasses(s, s', t)
  {
    forall t ensures CallPasses(s, s', t) {
      if t.Worker? && t in s'.talk.threads { assert StaysWith(s, s', t); }
    }
  }

  predicate StaysWith(s: State, s': State, t: C.Tid) {
    && t in s'.talk.threads
    && t in s.talk.threads && s'.talk.threads[t].input == s.talk.threads[t].input
    && (t in s.routing.attempts ==>
          t in s'.routing.attempts && s'.routing.attempts[t] == s.routing.attempts[t])
  }

  lemma QueueStepPasses(s: State, s': State, q: RunQueue.Step)
    requires Inv(s) && Do(s, QueueStep(q), s')
    ensures RoutesPass(s, s') && QueuePasses(s, s') && TalkPasses(s, s')
  {
    WorkersAreMoved(s, s', q);
    hide *;
    OnlyQueueMoves(s, s');
  }

  lemma WorkersAreMoved(s: State, s': State, q: RunQueue.Step)
    requires Inv(s) && Do(s, QueueStep(q), s')
    ensures s'.talk == s.talk && s'.routing == s.routing
    ensures AllMoved(s, s') && RowsExplained(s, s')
  {
    hide Inv;
    QueueExplained(s, s', q);
    forall w: nat ensures Moved(s.queue, s'.queue, w) { QueueMovesOne(s.queue, s.site, q, w); }
    hide RowsExplained;
    hide Moved;
    hide RunQueue.After;
    hide RunQueue.Enabled;
    hide IsQueueOnly;
  }

  ghost predicate AllMoved(s: State, s': State) { forall w: nat :: Moved(s.queue, s'.queue, w) }

  lemma OnlyQueueMoves(s: State, s': State)
    requires s'.talk == s.talk && s'.routing == s.routing
    requires AllMoved(s, s') && RowsExplained(s, s')
    ensures RoutesPass(s, s') && QueuePasses(s, s') && TalkPasses(s, s')
  {
    TalkIsSame(s, s');
    WorkersMove(s, s');
    CallsStay(s, s');
    hide AllMoved;
    hide RowsExplained;
    RoutesStay(s, s');
  }

  lemma WorkersMove(s: State, s': State)
    requires AllMoved(s, s') && RowsExplained(s, s')
    ensures QueuePasses(s, s') && forall w: nat :: HoldPasses(s, s', w)
  {
    forall id ensures RowPasses(s, s', id) {
      if id in s'.queue.rows { assert RowExplained(s, s', id); }
    }
    forall w: nat ensures ResultPasses(s, s', w) && HoldPasses(s, s', w) {
      assert Moved(s.queue, s'.queue, w);
    }
    hide *;
    assert QueuePasses(s, s') by { ManyPass(s, s'); }
  }

  lemma ManyPass(s: State, s': State)
    requires forall id :: RowPasses(s, s', id)
    requires forall w: nat :: ResultPasses(s, s', w)
    ensures QueuePasses(s, s')
  {
    hide RowPasses;
    hide ResultPasses;
  }

  lemma ActPasses(s: State, s': State, u: C.Tid, e: C.Event)
    requires Inv(s) && Do(s, TalkStep(C.ActStep(u, e)), s')
    ensures RoutesPass(s, s') && QueuePasses(s, s') && TalkPasses(s, s')
  {
    TouchesOwn(s, s', u, e);
    assert ConversationInvariant.Inv(s.talk);
    hide *;
    PromptsUnanswered(s.talk, u);
    OnlyCallMoves(s, s', u);
    OwnTouches(s, s', u);
  }

  lemma TouchesOwn(s: State, s': State, u: C.Tid, e: C.Event)
    requires Do(s, TalkStep(C.ActStep(u, e)), s')
    ensures s'.queue == s.queue && s'.routing == s.routing
    ensures Origins.KeepsCalls(s.talk, s'.talk, u) && Origins.AddsOwnRows(s.talk, s'.talk, u)
    ensures Origins.SendsOwnPrompt(s.talk, s'.talk, u)
  {
    Origins.EventTouches(s.talk, u, e);
    hide C.CanAct;
    hide C.Act;
  }

  lemma OnlyCallMoves(s: State, s': State, u: C.Tid)
    requires s'.queue == s.queue && s'.routing == s.routing
    requires Origins.KeepsCalls(s.talk, s'.talk, u)
    ensures RoutesPass(s, s') && QueuePasses(s, s')
  {
    QueueIsSame(s, s');
    CallsStay(s, s');
    RoutesStay(s, s');
  }

  /** A prompt is sent for a message without a reply. */
  lemma PromptsUnanswered(c: C.State, u: C.Tid)
    requires ConversationInvariant.Inv(c)
    ensures IsUnanswered(c, u)
  {
    if u in c.threads { ConversationSteps.ThreadFacts(c, u); }
    hide ConversationInvariant.Inv;
  }

  /** If the call is about to send its prompt, its message has no reply. */
  ghost predicate IsUnanswered(c: C.State, u: C.Tid) {
    var pc := C.CallOf(c, u).pc;
    pc.Locked? && pc.at.Starting? ==> ReplyID(C.CallOf(c, u).input.id) !in c.messages
  }

  lemma OwnTouches(s: State, s': State, u: C.Tid)
    requires u in s.talk.threads && IsUnanswered(s.talk, u)
    requires Origins.AddsOwnRows(s.talk, s'.talk, u) && Origins.SendsOwnPrompt(s.talk, s'.talk, u)
    ensures TalkPasses(s, s')
  {
    hide ReplyID;
    forall k ensures LogPasses(s, s', k) {
      if k in s'.talk.messages && k !in s.talk.messages { assert Adds(s, s', u, k); }
    }
    if s'.talk.prompts != s.talk.prompts { assert Sends(s, s', u); }
  }

  lemma OtherTalkPasses(s: State, s': State, c: C.Step)
    requires Do(s, TalkStep(c), s') && !c.ActStep?
    ensures RoutesPass(s, s') && QueuePasses(s, s') && TalkPasses(s, s')
  {
    hide IsRoutedInput;
    hide C.CanBegin;
    hide C.CanEnd;
    QueueIsSame(s, s');
    CallsStay(s, s');
    RoutesStay(s, s');
    if c.SaveRootStep? {
      RootPasses(s, s', c.message, c.outcome);
    } else {
      TalkIsSame(s, s');
    }
  }

  lemma RootPasses(s: State, s': State, message: Message, outcome: Outcome)
    requires s'.talk == C.WithMessage(s.talk, message, outcome)
    requires C.IsThreadRoot(message) && message.id in s.site.webex
    ensures TalkPasses(s, s')
  {
    hide C.IsIncomingID;
    forall k ensures LogPasses(s, s', k) {}
  }

  lemma RouteStepPasses(s: State, s': State, t: C.Tid, e: Routing.Event)
    requires Do(s, RouteStep(t, e), s')
    ensures RoutesPass(s, s') && QueuePasses(s, s') && TalkPasses(s, s')
  {
    hide AskedFor;
    hide Routing.IsChoice;
    QueueIsSame(s, s');
    TalkIsSame(s, s');
    CallsStay(s, s');
    forall u ensures AttemptPasses(s, s', u) {}
    if e.Save? && e.outcome.Effective() { assert Saves(s, s', t); }
    hide CallPasses;
    hide HoldPasses;
    hide AttemptPasses;
  }

  lemma BeginPasses(s: State, s': State, w: nat, persona: string)
    requires Do(s, CallHandle(w, persona), s')
    ensures RoutesPass(s, s') && QueuePasses(s, s') && TalkPasses(s, s')
  {
    hide KeyText;
    QueueIsSame(s, s');
    TalkIsSame(s, s');
    forall t ensures CallPasses(s, s', t) {}
    RoutesStay(s, s');
  }

  lemma ReturnPasses(
    s: State, s': State, w: nat, run: MessageRuns.Run, turn: RunQueue.TurnOutcome)
    requires Returns(s, w, turn, s') && Holds(s, w, run)
    requires s'.talk == s.talk || s'.talk == C.End(s.talk, C.Worker(w))
    requires C.Worker(w) !in s'.talk.threads
    requires turn.TurnOk? ==> HasReturned(s, w, run.id, turn.result)
    ensures RoutesPass(s, s') && QueuePasses(s, s') && TalkPasses(s, s')
  {
    hide Reports;
    TalkIsSame(s, s');
    CallsStay(s, s');
    forall v: nat ensures HoldPasses(s, s', v) {}
    RoutesStay(s, s');
    forall v: nat ensures ResultPasses(s, s', v) {}
    forall id ensures RowPasses(s, s', id) {}
    hide RowPasses;
    hide ResultPasses;
  }

  lemma CallEndPasses(s: State, step: Step, s': State)
    requires Do(s, step, s')
    requires step.RouteFailed? || step.HandleReturned? || step.HandleFailed?
    ensures RoutesPass(s, s') && QueuePasses(s, s') && TalkPasses(s, s')
  {
    hide Reports;
    hide Routing.CanFail;
    hide RunQueue.AfterReturn;
    var run := s.queue.workers[step.w].run;
    if step.RouteFailed? {
      ReturnPasses(s, s', step.w, run, RunQueue.TurnErr(step.failure));
    } else if step.HandleReturned? {
      ReturnPasses(s, s', step.w, run, RunQueue.TurnOk(step.result));
    } else {
      ReturnPasses(s, s', step.w, run, RunQueue.TurnErr(step.failure));
    }
  }

  lemma CrashPasses(s: State, s': State, n: nat)
    requires Do(s, Crash(n), s')
    ensures RoutesPass(s, s') && QueuePasses(s, s') && TalkPasses(s, s')
  {
    TalkIsSame(s, s');
    forall w: nat ensures HoldPasses(s, s', w) {}
    CallsStay(s, s');
    RoutesStay(s, s');
    forall w: nat ensures ResultPasses(s, s', w) {}
    forall id ensures RowPasses(s, s', id) {}
    hide RowPasses;
    hide ResultPasses;
  }

  lemma NextPasses(s: State, s': State)
    requires Inv(s) && Next(s, s')
    ensures Passes(s, s')
  {
    var step :| Do(s, step, s');
    NextIsLater(s, s');
    SiteStays(s, s');
    hide Next;
    hide Inv;
    hide Do;
    hide RoutesPass;
    hide QueuePasses;
    hide TalkPasses;
    hide RunQueue.RowsLater;
    hide ConversationTheorems.RowsKept;
    if step.QueueStep? {
      QueueStepPasses(s, s', step.queueStep);
    } else if step.TalkStep? && step.talkStep.ActStep? {
      ActPasses(s, s', step.talkStep.t, step.talkStep.event);
    } else if step.TalkStep? {
      OtherTalkPasses(s, s', step.talkStep);
    } else if step.RouteStep? {
      RouteStepPasses(s, s', step.t, step.event);
    } else if step.CallHandle? {
      BeginPasses(s, s', step.w, step.persona);
    } else if step.Crash? {
      CrashPasses(s, s', step.workers);
    } else {
      CallEndPasses(s, step, s');
    }
  }

  lemma SiteStays(s: State, s': State)
    requires Next(s, s')
    ensures s'.site == s.site
  {
  }

  // ---- runs -------------------------------------------------------------------

  /** Nothing has happened yet. */
  ghost predicate StartsEmpty(s: State) {
    && s.queue.rows == map[] && s.talk.messages == map[] && s.talk.prompts == []
    && s.talk.threads == map[] && s.routing == Routing.NOTHING
    && Routing.IsLoaded(s.site.roster)
    && forall w :: 0 <= w < |s.queue.workers| ==> s.queue.workers[w].Idle?
  }

  ghost predicate TracedAt(run: seq<State>, i: nat) {
    i < |run| ==>
      && Stands(run[i])
      && (if i == 0 then StartsEmpty(run[i]) else Passes(run[i - 1], run[i]))
  }

  /** All that the theorems about submitted messages use of a run. */
  ghost predicate IsTraced(run: seq<State>) { forall i: nat :: TracedAt(run, i) }

  /** Every run is such a trace. */
  lemma RunIsTraced(run: seq<State>)
    requires IsRun(run)
    ensures IsTraced(run)
  {
    hide IsRun;
    hide TracedAt;
    forall i: nat ensures TracedAt(run, i) { StateIsTraced(run, i); }
  }

  lemma StateIsTraced(run: seq<State>, i: nat)
    requires IsRun(run)
    ensures TracedAt(run, i)
  {
    hide IsRun;
    hide Inv;
    hide Stands;
    hide StartsEmpty;
    hide Passes;
    hide Next;
    if i < |run| {
      StateOk(run, run[i]);
      InvStands(run[i]);
      if i == 0 {
        StartIsEmpty(run, i, run[i]);
      } else {
        StateOk(run, run[i - 1]);
        StepIsNext(run, i - 1, run[i - 1], i, run[i]);
        NextPasses(run[i - 1], run[i]);
      }
    }
  }

  lemma StepIsNext(run: seq<State>, i: nat, s: State, j: nat, s': State)
    requires IsRun(run) && Runs.AreNext(run, i, s, j, s')
    ensures Next(s, s')
  {
    hide Next;
    hide Init;
    assert Runs.StepAt(Next, run, i);
  }

  lemma StartIsEmpty(run: seq<State>, i: nat, s: State)
    requires IsRun(run) && Runs.IsAt(run, i, s) && i == 0
    ensures StartsEmpty(s)
  {
    hide Next;
    hide Routing.IsLoaded;
  }

  // ---- time -------------------------------------------------------------------

  /** What a trace says of one state. */
  lemma TracedState(run: seq<State>, i: nat, s: State)
    requires IsTraced(run) && Runs.IsAt(run, i, s)
    ensures Stands(s)
  {
    assert TracedAt(run, i);
    hide Stands;
  }

  /** A moment is the first, at which nothing has happened, or there is one before. */
  lemma TracedBack(run: seq<State>, i: nat, s: State) returns (h: nat, before: State)
    requires IsTraced(run) && Runs.IsAt(run, i, s)
    ensures i > 0 ==>
      h + 1 == i && Runs.IsAt(run, h, before) && Runs.AreNext(run, h, before, i, s)
    ensures i > 0 ==> Stands(before) && Stands(s) && Passes(before, s)
    ensures i == 0 ==> StartsEmpty(s)
  {
    assert TracedAt(run, i);
    h, before := i, s;
    if i > 0 {
      h, before := i - 1, run[i - 1];
      assert TracedAt(run, h);
    }
    hide Stands;
    hide Passes;
    hide StartsEmpty;
  }

  /** Everything that only grows does so along the trace. */
  lemma {:induction false} KeptFrom(run: seq<State>, k: nat, s: State, i: nat, s': State)
    requires IsTraced(run) && Runs.IsAt(run, k, s) && Runs.IsAt(run, i, s') && k <= i
    ensures Keeps(s, s')
    decreases i
  {
    hide *;
    if k == i {
      SameMoment(run, k, s, s');
      KeepsItself(s);
    } else {
      var h, before := TracedBack(run, i, s');
      KeptFrom(run, k, s, h, before);
      PassesKeeps(before, s');
      KeepsOn(s, before, s');
    }
  }

  lemma SameMoment(run: seq<State>, k: nat, s: State, s': State)
    requires Runs.IsAt(run, k, s) && Runs.IsAt(run, k, s')
    ensures s == s'
  {
  }

  lemma PassesKeeps(s: State, s': State)
    requires Passes(s, s')
    ensures Keeps(s, s')
  {
    hide Keeps;
  }

  lemma KeepsItself(s: State)
    ensures Keeps(s, s)
  {
  }

  lemma KeepsOn(s: State, t: State, u: State)
    requires Keeps(s, t) && Keeps(t, u)
    ensures Keeps(s, u)
  {
  }
}
