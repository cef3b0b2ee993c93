/** The queue and the conversations together: each worker runs one Handle call for the
    row it holds, Webex calls come in beside them, and a crash takes both down. */
module EndToEnd {
  import opened Wrappers
  import opened Tables
  import MessageRuns
  import RunQueue
  import P = Personas
  import Routing
  import C = Conversations
  import ConversationInvariant
  import ConversationSteps
  import ConversationTheorems
  import Origins
  import Runs
  import Text

  /** What is fixed: the message IDs that Webex can deliver, and the personas. */
  datatype Site = Site(webex: iset<string>, roster: seq<P.Persona>)

  datatype State = State(
    queue: RunQueue.State, talk: C.State, site: Site, routing: Routing.State)

  /** Submitted message IDs are ordinary and none of Webex's; the service checks the key and
      the persona asked for. */
  ghost predicate IsOwnMessage(site: Site, run: MessageRuns.Run) {
    && C.IsIncomingID(run.request.messageID) && run.request.messageID !in site.webex
    && run.request.scope.key != Shared("")
    && Routing.IsKnown(site.roster, run.request.persona)
  }

  /** What routing looks at for a run. */
  function AskedFor(request: MessageRuns.Request): Routing.Asked {
    Routing.Asked(KeyText(request.scope.key), request.persona, request.text)
  }

  /** What the runtime hands to the persona's conversation. */
  function InputFor(run: MessageRuns.Run, persona: string): C.Input {
    var request := run.request;
    var key := Own(persona, KeyText(request.scope.key));
    C.Input(request.scope.(key := key), request.messageID, request.mode == "fresh",
      request.senderID, request.text, run.createdAt)
  }

  /** What Handle was given for the run, whatever persona it was routed to. */
  predicate IsFor(input: C.Input, run: MessageRuns.Run) {
    input.scope.key.Own? && input == InputFor(run, input.scope.key.persona)
  }

  /** What the worker writes for a turn that returned. */
  predicate Reports(result: MessageRuns.Result, turn: C.Result) {
    && result.reply == turn.reply && result.generation == turn.generation
    && result.cached == turn.cached && result.steered == turn.steered
  }

  datatype Step =
    | QueueStep(queueStep: RunQueue.Step)
    | TalkStep(talkStep: C.Step)
    | RouteStep(t: C.Tid, event: Routing.Event)
    | CallHandle(w: nat, persona: string)         // routed; the call begins
    | RouteFailed(w: nat, failure: string)
    | HandleReturned(w: nat, result: MessageRuns.Result)
    | HandleFailed(w: nat, failure: string)
    | Crash(workers: nat)

  /** The queue's steps in which no call begins or ends. */
  ghost predicate IsQueueOnly(site: Site, step: RunQueue.Step) {
    && !step.Crash?
    && (step.Work? ==> !step.action.Return?)
    && (step.Client? ==> InsertsOwn(site, step.call))
  }

  /** The conversation steps that do not begin or end a worker's call. A Webex call begins
      as it was routed; its text has been trimmed. */
  ghost predicate IsTalkOnly(site: Site, routing: Routing.State, step: C.Step) {
    match step
    case BeginStep(t, input) =>
      t.Webex? && input.id in site.webex && IsRoutedInput(routing, t, input)
    case ActStep(_, _) => true
    case EndStep(t) => t.Webex?
    case SaveRootStep(message, _) => message.id in site.webex
    case CrashStep => false
  }

  predicate IsRoutedInput(routing: Routing.State, t: C.Tid, input: C.Input) {
    && t in routing.attempts && routing.attempts[t].Routed?
    && var a := routing.attempts[t];
    input.scope.key == Own(a.member.name, a.asked.base) && input.text == Text.TrimSpace(a.asked.text)
  }

  function RoutingAfter(routing: Routing.State, step: C.Step): Routing.State {
    if step.EndStep? then Routing.Ended(routing, step.t) else routing
  }

  /** A worker's call is routed for the run it holds, a Webex call for no persona. */
  ghost predicate CanRoute(s: State, t: C.Tid, e: Routing.Event) {
    && Routing.CanDo(s.site.roster, s.routing, t, e) && t !in s.talk.threads
    && (e.Choose? && t.Worker? ==>
          HoldsRun(s, t.index) && e.asked == AskedFor(s.queue.workers[t.index].run.request))
    && (e.Choose? && t.Webex? ==> e.asked.persona == "")
  }

  predicate HasRow(s: State, row: MessageRuns.Run) {
    row.id in s.queue.rows && s.queue.rows[row.id] == row
  }

  /** Worker `w` is in Handle, or on its way there, for the run. */
  predicate Holds(s: State, w: nat, run: MessageRuns.Run) {
    RunQueue.PcOf(s.queue, w) == RunQueue.Holding(run)
  }

  predicate HoldsRun(s: State, w: nat) {
    w < |s.queue.workers| && s.queue.workers[w].Holding?
  }

  ghost predicate Returns(s: State, w: nat, turn: RunQueue.TurnOutcome, s': State) {
    && HoldsRun(s, w)
    && s'.queue == RunQueue.AfterReturn(s.queue, w, turn)
    && s'.routing == Routing.Ended(s.routing, C.Worker(w))
  }

  ghost predicate Do(s: State, step: Step, s': State) {
    && s'.site == s.site
    && match step
       case QueueStep(q) =>
         && IsQueueOnly(s.site, q) && RunQueue.Enabled(s.queue, q)
         && s'.queue == RunQueue.After(s.queue, q) && s'.talk == s.talk && s'.routing == s.routing
       case TalkStep(c) =>
         && IsTalkOnly(s.site, s.routing, c) && C.Do(s.talk, c, s'.talk) && s'.queue == s.queue
         && s'.routing == RoutingAfter(s.routing, c)
       case RouteStep(t, e) =>
         && CanRoute(s, t, e) && s'.queue == s.queue && s'.talk == s.talk
         && s'.routing == Routing.After(s.site.roster, s.routing, t, e)
       case CallHandle(w, persona) =>
         && HoldsRun(s, w) && C.Worker(w) !in s.talk.threads
         && var run := s.queue.workers[w].run;
         && Routing.IsRoutedTo(s.routing, C.Worker(w), AskedFor(run.request), persona)
         && s'.talk == C.Begin(s.talk, C.Worker(w), InputFor(run, persona))
         && s'.queue == s.queue && s'.routing == s.routing
       case RouteFailed(w, failure) =>
         && Returns(s, w, RunQueue.TurnErr(failure), s')
         && C.Worker(w) !in s.talk.threads && s'.talk == s.talk
         && Routing.CanFail(s.site.roster, s.routing, C.Worker(w),
              AskedFor(s.queue.workers[w].run.request))
       case HandleReturned(w, result) =>
         && Returns(s, w, RunQueue.TurnOk(result), s')
         && C.Worker(w) in s.talk.threads
         && var pc := s.talk.threads[C.Worker(w)].pc;
         && pc.Returned? && Reports(result, pc.result) && s'.talk == C.End(s.talk, C.Worker(w))
       case HandleFailed(w, failure) =>
         && Returns(s, w, RunQueue.TurnErr(failure), s')
         && C.Worker(w) in s.talk.threads
         && s.talk.threads[C.Worker(w)].pc.Failed? && s'.talk == C.End(s.talk, C.Worker(w))
       case Crash(n) =>
         && n > 0 && s'.queue == RunQueue.Restarted(s.queue.rows, n)
         && s'.talk == C.Crash(s.talk) && s'.routing == Routing.Crashed(s.routing)
  }

  ghost predicate Init(s: State) {
    && RunQueue.Init(s.queue) && C.Init(s.talk) && Routing.IsLoaded(s.site.roster)
    && s.routing == Routing.NOTHING
  }

  ghost predicate Next(s: State, s': State) { exists step :: Do(s, step, s') }

  // ---- the invariant ----------------------------------------------------------

  /** The outcome of a turn is the stored answer, or, if the message was steered into
      another turn, its row in the log. */
  ghost predicate ReplyKept(messages: Messages, id: string, result: MessageRuns.Result) {
    if result.steered then id in messages && IsUserRow(messages[id])
    else ConversationInvariant.Answered(messages, id, result.reply)
  }

  predicate IsUserRow(m: Message) { m.role == User && m.inReplyTo == "" && m.scope.key.Own? }

  ghost predicate RowLinked(s: State, id: string) {
    && id in s.queue.rows
    && var row := s.queue.rows[id];
    && IsOwnMessage(s.site, row)
    && (row.status.Completed? ==> ReplyKept(s.talk.messages, row.request.messageID, row.result))
  }

  ghost predicate RowsLinked(s: State) {
    forall id :: id in s.queue.rows ==> RowLinked(s, id)
  }

  ghost predicate WorkerLinked(s: State, w: nat) {
    var pc := RunQueue.PcOf(s.queue, w);
    pc.Completing? && pc.id in s.queue.rows ==>
      ReplyKept(s.talk.messages, s.queue.rows[pc.id].request.messageID, pc.result)
  }

  ghost predicate WorkersLinked(s: State) {
    forall w: nat :: WorkerLinked(s, w)
  }

  /** A worker's call is for the run it holds; a Webex call is for a Webex message. */
  ghost predicate CallLinked(s: State, t: C.Tid) {
    && t in s.talk.threads
    && match t
       case Worker(w) =>
         HoldsRun(s, w) && IsFor(s.talk.threads[t].input, s.queue.workers[w].run)
       case Webex(_) => s.talk.threads[t].input.id in s.site.webex
  }

  ghost predicate CallsLinked(s: State) {
    forall t :: t in s.talk.threads ==> CallLinked(s, t)
  }

  /** Whom a call goes to is a member of the roster, so that its key is in order. */
  ghost predicate RoutesOk(s: State) {
    && Routing.IsLoaded(s.site.roster)
    && forall t :: t in s.routing.attempts ==> AttemptOk(s, t)
  }

  ghost predicate AttemptOk(s: State, t: C.Tid) {
    && t in s.routing.attempts
    && var a := s.routing.attempts[t];
    !a.Refused? ==> Routing.IsMember(s.site.roster, a.member)
  }

  ghost predicate Parts(s: State) {
    RunQueue.Inv(s.queue) && ConversationInvariant.Inv(s.talk)
  }

  ghost predicate Linked(s: State) { RowsLinked(s) && WorkersLinked(s) && CallsLinked(s) }

  ghost predicate Inv(s: State) { Parts(s) && RoutesOk(s) && Linked(s) }

  // ---- the parts --------------------------------------------------------------

  lemma QueueStepOk(q: RunQueue.State, step: RunQueue.Step)
    requires RunQueue.Inv(q) && RunQueue.Enabled(q, step)
    ensures RunQueue.Inv(RunQueue.After(q, step)) && RunQueue.Later(q, RunQueue.After(q, step))
  {
    assert RunQueue.Next(q, RunQueue.After(q, step));
    RunQueue.NextOk(q, RunQueue.After(q, step));
    RunQueue.NextIsLater(q, RunQueue.After(q, step));
  }

  lemma TalkStepOk(c: C.State, step: C.Step, c': C.State)
    requires ConversationInvariant.Inv(c) && C.Do(c, step, c')
    ensures ConversationInvariant.Inv(c') && ConversationTheorems.Later(c, c')
  {
    assert C.Next(c, c');
    ConversationSteps.NextOk(c, c');
    ConversationTheorems.NextIsLater(c, c');
  }

  /** The message held by one worker is nobody else's: the claim is exclusive and a
      message names one row. So a call may begin as the conversations demand. */
  lemma CallMayBegin(s: State, w: nat, run: MessageRuns.Run, persona: string)
    requires Inv(s) && Holds(s, w, run) && C.Worker(w) !in s.talk.threads
    requires Routing.IsRoutedTo(s.routing, C.Worker(w), AskedFor(run.request), persona)
    ensures C.CanBegin(s.talk, C.Worker(w), InputFor(run, persona))
  {
    HeldRow(s, w, run);
    assert AttemptOk(s, C.Worker(w));
    assert Routing.IsTidy(s.routing.attempts[C.Worker(w)].member);
    forall u | u in s.talk.threads
      ensures s.talk.threads[u].input.id != run.request.messageID
    {
      assert CallLinked(s, u);
      if u.Worker? { HeldApart(s, w, run, u.index, s.queue.workers[u.index].run); }
    }
  }

  lemma HeldRow(s: State, w: nat, run: MessageRuns.Run)
    requires Inv(s) && Holds(s, w, run)
    ensures HasRow(s, run) && run.status.Running? && IsOwnMessage(s.site, run)
  {
    assert RunQueue.WorkerOk(s.queue.rows, s.queue.workers[w]);
    assert RowLinked(s, run.id);
    hide RoutesOk;
    hide ConversationInvariant.Inv;
  }

  lemma HeldApart(s: State, v: nat, a: MessageRuns.Run, w: nat, b: MessageRuns.Run)
    requires Inv(s) && Holds(s, v, a) && Holds(s, w, b) && v != w
    ensures a.request.messageID != b.request.messageID
  {
    HeldRow(s, v, a);
    HeldRow(s, w, b);
    assert RunQueue.Held(s.queue.workers[v]) != RunQueue.Held(s.queue.workers[w]);
    hide RoutesOk;
    hide ConversationInvariant.Inv;
  }

  /** Steps choose members only, and never change the roster. */
  lemma RoutesStayOk(s: State, step: Step, s': State)
    requires RoutesOk(s) && Do(s, step, s')
    ensures RoutesOk(s')
  {
    if step.RouteStep? && step.event.Choose? {
      Routing.ChoiceIsMember(s.site.roster, step.event.asked,
        Routing.Owner(s.routing, step.event.asked.base), step.event.member);
    }
    hide Routing.IsLoaded;
    hide Routing.IsMember;
    hide Routing.IsChoice;
    forall t | t in s'.routing.attempts ensures AttemptOk(s', t) {
      if t in s.routing.attempts { assert AttemptOk(s, t); }
    }
  }

  // ---- the links --------------------------------------------------------------

  lemma KeptLater(c: C.State, c': C.State, id: string, result: MessageRuns.Result)
    requires ConversationTheorems.Later(c, c') && ReplyKept(c.messages, id, result)
    ensures ReplyKept(c'.messages, id, result)
  {
  }

  /** Where a row of the later table comes from: it is new and queued, or it keeps its
      request and, if completed, was so before or is what a worker was writing. */
  ghost predicate RowExplained(s: State, s': State, id: string) {
    && id in s'.queue.rows
    && var row := s'.queue.rows[id];
    if id !in s.queue.rows then IsOwnMessage(s.site, row) && row.status.Queued?
    else
      && row.request == s.queue.rows[id].request
      && (row.status.Completed? && row != s.queue.rows[id] ==>
            RunQueue.Completing(id, row.result) in s.queue.workers)
  }

  ghost predicate RowsExplained(s: State, s': State) {
    forall id :: id in s'.queue.rows ==> RowExplained(s, s', id)
  }

  lemma RowsStayLinked(s: State, s': State)
    requires RowsLinked(s) && WorkersLinked(s) && s'.site == s.site
    requires ConversationTheorems.Later(s.talk, s'.talk)
    requires RowsExplained(s, s')
    ensures RowsLinked(s')
  {
    hide ConversationTheorems.Later;
    forall id | id in s'.queue.rows ensures RowLinked(s', id) {
      assert RowExplained(s, s', id);
      if id in s.queue.rows && s'.queue.rows[id].status.Completed? {
        var row := s'.queue.rows[id];
        assert RowLinked(s, id);
        if row != s.queue.rows[id] {
          var w: nat :| w < |s.queue.workers| &&
            s.queue.workers[w] == RunQueue.Completing(id, row.result);
          assert WorkerLinked(s, w);
        }
        KeptLater(s.talk, s'.talk, row.request.messageID, row.result);
      }
    }
  }

  lemma WorkersStayLinked(s: State, s': State)
    requires WorkersLinked(s) && s'.queue == s.queue
    requires ConversationTheorems.Later(s.talk, s'.talk)
    ensures WorkersLinked(s')
  {
    hide ConversationTheorems.Later;
    forall w: nat ensures WorkerLinked(s', w) {
      assert WorkerLinked(s, w);
      var pc := RunQueue.PcOf(s.queue, w);
      if pc.Completing? && pc.id in s.queue.rows && WorkerLinked(s, w) {
        KeptLater(s.talk, s'.talk, s.queue.rows[pc.id].request.messageID, pc.result);
      }
    }
  }

  // ---- every step -------------------------------------------------------------

  /** Any later table of the same queue explains its rows when only requests of rows
      that were there, and no completed row, differ. */
  lemma SameRowsExplained(s: State, s': State)
    requires s'.queue.rows == s.queue.rows
    ensures RowsExplained(s, s')
  {
  }

  lemma FinishExplained(s: State, s': State, w: nat, outcome: Outcome, now: string)
    requires RunQueue.CanWork(s.queue, w, RunQueue.Finish(outcome, now))
    requires s'.queue == RunQueue.AfterFinish(s.queue, w, outcome, now)
    ensures RowsExplained(s, s')
  {
    assert s.queue.workers[w] in s.queue.workers;
  }

  lemma ClaimExplained(s: State, s': State, id: string, now: string)
    requires id in s.queue.rows
    requires s'.queue.rows == MessageRuns.Claimed(s.queue.rows, id, now)
    ensures RowsExplained(s, s')
  {
  }

  lemma WorkExplained(s: State, s': State, w: nat, action: RunQueue.Action)
    requires RunQueue.CanWork(s.queue, w, action)
    requires s'.queue == RunQueue.AfterWork(s.queue, w, action)
    ensures RowsExplained(s, s')
  {
    if action.Finish? {
      FinishExplained(s, s', w, action.outcome, action.now);
    } else if action.ClaimOne? && action.commit.Effective() {
      ClaimExplained(s, s', action.id, action.now);
    } else {
      hide RowExplained;
      SameRowsExplained(s, s');
    }
  }

  lemma InsertExplained(s: State, s': State, run: MessageRuns.Run)
    requires IsOwnMessage(s.site, run)
    requires s'.queue.rows == MessageRuns.Inserted(s.queue.rows, run)
    ensures RowsExplained(s, s')
  {
  }

  ghost predicate InsertsOwn(site: Site, call: RunQueue.Call) {
    call.Insert? ==> IsOwnMessage(site, call.run)
  }

  lemma CallExplained(s: State, s': State, k: nat, call: RunQueue.Call)
    requires RunQueue.CanCall(s.queue, k, call)
    requires InsertsOwn(s.site, call)
    requires s'.queue == RunQueue.AfterCall(s.queue, k, call)
    ensures RowsExplained(s, s')
  {
    hide RowExplained;
    hide IsOwnMessage;
    hide MessageRuns.Inserted;
    if call.Insert? && call.outcome.Effective() {
      InsertExplained(s, s', call.run);
    } else {
      SameRowsExplained(s, s');
    }
  }

  lemma QueueExplained(s: State, s': State, q: RunQueue.Step)
    requires IsQueueOnly(s.site, q) && RunQueue.Enabled(s.queue, q)
    requires s'.queue == RunQueue.After(s.queue, q)
    ensures RowsExplained(s, s')
  {
    hide RowExplained;
    hide RunQueue.CanCall;
    hide RunQueue.AfterCall;
    hide RunQueue.CanWork;
    hide RunQueue.AfterWork;
    match q {
      case Client(k, call) => CallExplained(s, s', k, call);
      case Work(w, action) => WorkExplained(s, s', w, action);
      case StarterWake => SameRowsExplained(s, s');
      case Cancel => SameRowsExplained(s, s');
      case Crash(_) => assert false;
    }
  }

  /** A queue step moves one worker at most, not one that is in Handle, and starts no
      completion. */
  lemma QueueMovesOne(q: RunQueue.State, site: Site, step: RunQueue.Step, w: nat)
    requires IsQueueOnly(site, step) && RunQueue.Enabled(q, step)
    ensures Moved(q, RunQueue.After(q, step), w)
  {
    hide RunQueue.CanWork;
    hide RunQueue.AfterWork;
    hide RunQueue.AfterCall;
    hide RunQueue.CanCall;
    if step.Work? {
      WorkMovesOne(q, step.w, step.action, w);
    } else if step.Client? {
      CallMovesNone(q, step.k, step.call);
    }
  }

  ghost predicate Moved(q: RunQueue.State, q': RunQueue.State, w: nat) {
    && |q'.workers| == |q.workers|
    && var pc, pc' := RunQueue.PcOf(q, w), RunQueue.PcOf(q', w);
    pc' == pc || (!pc.Holding? && !pc'.Completing?)
  }

  lemma CallMovesNone(q: RunQueue.State, k: nat, call: RunQueue.Call)
    ensures RunQueue.AfterCall(q, k, call).workers == q.workers
  {
    hide MessageRuns.Inserted;
  }

  lemma WorkMovesOne(q: RunQueue.State, v: nat, action: RunQueue.Action, w: nat)
    requires RunQueue.CanWork(q, v, action) && !action.Return?
    ensures Moved(q, RunQueue.AfterWork(q, v, action), w)
  {
    hide RunQueue.HasQueued;
    hide MessageRuns.IsOldestQueued;
    hide MessageRuns.Claimed;
    hide RunQueue.FinishedRows;
    match action {
      case TakeToken => {}
      case Tick => {}
      case Exit => {}
      case ClaimOne(_, _, _) => {}
      case ClaimNone => {}
      case ClaimError => {}
      case Fetch(_) => {}
      case Return(_) => assert false;
      case Finish(_, _) => {}
    }
  }

  lemma QueueOnlyOk(s: State, s': State, q: RunQueue.Step)
    requires Inv(s) && Do(s, QueueStep(q), s')
    ensures Inv(s')
  {
    RoutesStayOk(s, QueueStep(q), s');
    hide RoutesOk;
    QueueStepOk(s.queue, q);
    hide RunQueue.Inv;
    hide ConversationInvariant.Inv;
    hide RunQueue.Enabled;
    hide RunQueue.After;
    hide IsQueueOnly;
    QueueRowsLinked(s, s', q);
    hide RowsLinked;
    QueueWorkersLinked(s, s', q);
    hide WorkersLinked;
    QueueCallsLinked(s, s', q);
  }

  lemma QueueRowsLinked(s: State, s': State, q: RunQueue.Step)
    requires RowsLinked(s) && WorkersLinked(s) && Do(s, QueueStep(q), s')
    ensures RowsLinked(s')
  {
    QueueExplained(s, s', q);
    ConversationTheorems.LaterReflexive(s.talk);
    hide RowsLinked;
    hide WorkersLinked;
    hide ConversationTheorems.Later;
    RowsStayLinked(s, s');
  }

  lemma QueueWorkersLinked(s: State, s': State, q: RunQueue.Step)
    requires WorkersLinked(s) && Do(s, QueueStep(q), s') && RunQueue.Later(s.queue, s'.queue)
    requires RunQueue.Inv(s.queue)
    ensures WorkersLinked(s')
  {
    hide RunQueue.After;
    hide RunQueue.Enabled;
    hide IsQueueOnly;
    hide MessageRuns.TableOk;
    hide RunQueue.NoLostWakeup;
    forall w: nat ensures WorkerLinked(s', w) {
      QueueMovesOne(s.queue, s.site, q, w);
      QueueWorkerLinked(s, s', w);
    }
  }

  lemma QueueWorkerLinked(s: State, s': State, w: nat)
    requires WorkersLinked(s) && s'.talk == s.talk && RunQueue.Later(s.queue, s'.queue)
    requires RunQueue.WorkersOk(s.queue) && Moved(s.queue, s'.queue, w)
    ensures WorkerLinked(s', w)
  {
    assert WorkerLinked(s, w);
    if w < |s.queue.workers| { assert RunQueue.WorkerOk(s.queue.rows, s.queue.workers[w]); }
  }

  lemma QueueCallsLinked(s: State, s': State, q: RunQueue.Step)
    requires CallsLinked(s) && Do(s, QueueStep(q), s')
    ensures CallsLinked(s')
  {
    forall t | t in s'.talk.threads ensures CallLinked(s', t) {
      assert CallLinked(s, t);
      if t.Worker? { QueueMovesOne(s.queue, s.site, q, t.index); }
    }
  }

  lemma TalkOnlyOk(s: State, s': State, c: C.Step)
    requires Inv(s) && Do(s, TalkStep(c), s')
    ensures Inv(s')
  {
    RoutesStayOk(s, TalkStep(c), s');
    hide RoutesOk;
    TalkStepOk(s.talk, c, s'.talk);
    hide RunQueue.Inv;
    hide ConversationInvariant.Inv;
    TalkCallsLinked(s, s', c);
    hide C.Do;
    hide CallsLinked;
    SameRowsExplained(s, s');
    RowsStayLinked(s, s');
    hide RowsLinked;
    WorkersStayLinked(s, s');
  }

  lemma TalkCallsLinked(s: State, s': State, c: C.Step)
    requires CallsLinked(s) && Do(s, TalkStep(c), s')
    ensures CallsLinked(s')
  {
    if c.ActStep? { Origins.EventTouches(s.talk, c.t, c.event); }
    hide C.Act;
    hide C.CanAct;
    forall t | t in s'.talk.threads ensures CallLinked(s', t) {
      if t in s.talk.threads { assert CallLinked(s, t); }
    }
  }

  lemma RouteStepOk(s: State, s': State, t: C.Tid, e: Routing.Event)
    requires Inv(s) && Do(s, RouteStep(t, e), s')
    ensures Inv(s')
  {
    RoutesStayOk(s, RouteStep(t, e), s');
    hide RoutesOk;
    hide Routing.After;
    hide CanRoute;
    hide RunQueue.Inv;
    hide ConversationInvariant.Inv;
    SameLinked(s, s');
  }

  lemma SameLinked(s: State, s': State)
    requires Linked(s) && s'.queue == s.queue && s'.talk == s.talk && s'.site == s.site
    ensures Linked(s')
  {
    forall id | id in s'.queue.rows ensures RowLinked(s', id) { assert RowLinked(s, id); }
    forall w: nat ensures WorkerLinked(s', w) { assert WorkerLinked(s, w); }
    forall t | t in s'.talk.threads ensures CallLinked(s', t) { assert CallLinked(s, t); }
  }

  // Calls begin and end.

  lemma CallHandleOk(s: State, s': State, w: nat, persona: string)
    requires Inv(s) && Do(s, CallHandle(w, persona), s')
    ensures Inv(s')
  {
    var run := s.queue.workers[w].run;
    var input := InputFor(run, persona);
    CallMayBegin(s, w, run, persona);
    RoutesStayOk(s, CallHandle(w, persona), s');
    hide RoutesOk;
    hide Routing.IsRoutedTo;
    assert C.Do(s.talk, C.BeginStep(C.Worker(w), input), s'.talk);
    TalkStepOk(s.talk, C.BeginStep(C.Worker(w), input), s'.talk);
    hide RunQueue.Inv;
    hide ConversationInvariant.Inv;
    SameRowsExplained(s, s');
    RowsStayLinked(s, s');
    WorkersStayLinked(s, s');
    hide RowsLinked;
    hide WorkersLinked;
    forall t | t in s'.talk.threads ensures CallLinked(s', t) {
      if t != C.Worker(w) { assert CallLinked(s, t); }
    }
  }

  /** What a turn is written down as is what the log has. */
  ghost predicate TurnKept(s: State, run: MessageRuns.Run, turn: RunQueue.TurnOutcome) {
    turn.TurnOk? ==> ReplyKept(s.talk.messages, run.request.messageID, turn.result)
  }

  /** The queue's half of a call that ends. */
  lemma ReturnLinked(
    s: State, s': State, w: nat, run: MessageRuns.Run, turn: RunQueue.TurnOutcome)
    requires Inv(s) && Returns(s, w, turn, s') && s'.site == s.site && Holds(s, w, run)
    requires s'.talk.messages == s.talk.messages && TurnKept(s, run, turn)
    ensures RunQueue.Inv(s'.queue) && RowsLinked(s') && WorkersLinked(s')
  {
    RunQueue.ReturnOk(s.queue, w, turn);
    HeldRow(s, w, run);
    assert RowsLinked(s) && WorkersLinked(s);
    hide Inv;
    hide RunQueue.Inv;
    hide RowsLinked;
    hide WorkersLinked;
    hide RunQueue.AfterReturn;
    ReturnRowsLinked(s, s', w, run, turn);
  }

  lemma ReturnRowsLinked(
    s: State, s': State, w: nat, run: MessageRuns.Run, turn: RunQueue.TurnOutcome)
    requires RowsLinked(s) && WorkersLinked(s) && Holds(s, w, run) && HasRow(s, run)
    requires Returns(s, w, turn, s') && s'.site == s.site
    requires s'.talk.messages == s.talk.messages && TurnKept(s, run, turn)
    ensures RowsLinked(s') && WorkersLinked(s')
  {
    hide ReplyKept;
    hide IsOwnMessage;
    forall id | id in s'.queue.rows ensures RowLinked(s', id) { assert RowLinked(s, id); }
    forall v: nat ensures WorkerLinked(s', v) { assert WorkerLinked(s, v); }
  }

  /** A worker's call ended with its thread gone: the other calls keep their links. */
  lemma ReturnCallsLinked(s: State, s': State, w: nat, turn: RunQueue.TurnOutcome)
    requires CallsLinked(s) && Returns(s, w, turn, s') && s'.site == s.site
    requires s'.talk.threads == s.talk.threads - {C.Worker(w)}
    ensures CallsLinked(s')
  {
    forall t | t in s'.talk.threads ensures CallLinked(s', t) { assert CallLinked(s, t); }
  }

  lemma RouteFailedOk(s: State, s': State, w: nat, failure: string)
    requires Inv(s) && Do(s, RouteFailed(w, failure), s')
    ensures Inv(s')
  {
    RoutesStayOk(s, RouteFailed(w, failure), s');
    hide RoutesOk;
    hide Routing.CanFail;
    ReturnLinked(s, s', w, s.queue.workers[w].run, RunQueue.TurnErr(failure));
    hide Parts;
    hide RowsLinked;
    hide WorkersLinked;
    assert s.talk.threads - {C.Worker(w)} == s.talk.threads;
    ReturnCallsLinked(s, s', w, RunQueue.TurnErr(failure));
    assert Parts(s') by { assert Parts(s); TalkSame(s, s'); }
  }

  lemma TalkSame(s: State, s': State)
    requires Parts(s) && RunQueue.Inv(s'.queue) && s'.talk == s.talk
    ensures Parts(s')
  {
  }

  lemma TalkEnds(s: State, s': State, w: nat)
    requires Parts(s) && RunQueue.Inv(s'.queue) && s'.talk == C.End(s.talk, C.Worker(w))
    requires C.CanEnd(s.talk, C.Worker(w))
    ensures Parts(s')
  {
    TalkStepOk(s.talk, C.EndStep(C.Worker(w)), s'.talk);
  }

  lemma HandleEndedOk(
    s: State, s': State, w: nat, run: MessageRuns.Run, turn: RunQueue.TurnOutcome)
    requires Inv(s) && Returns(s, w, turn, s') && s'.site == s.site && Holds(s, w, run)
    requires C.CanEnd(s.talk, C.Worker(w)) && s'.talk == C.End(s.talk, C.Worker(w))
    requires RoutesOk(s') && TurnKept(s, run, turn)
    ensures Inv(s')
  {
    ReturnLinked(s, s', w, run, turn);
    TalkEnds(s, s', w);
    ReturnCallsLinked(s, s', w, turn);
  }

  lemma HandleReturnedOk(s: State, s': State, w: nat, result: MessageRuns.Result)
    requires Inv(s) && Do(s, HandleReturned(w, result), s')
    ensures Inv(s')
  {
    RoutesStayOk(s, HandleReturned(w, result), s');
    var run, turn := s.queue.workers[w].run, s.talk.threads[C.Worker(w)].pc.result;
    ReturnedKept(s, w, run, result, turn);
    hide Inv;
    hide RoutesOk;
    hide ReplyKept;
    HandleEndedOk(s, s', w, run, RunQueue.TurnOk(result));
  }

  lemma ReturnedKept(
    s: State, w: nat, run: MessageRuns.Run, result: MessageRuns.Result, turn: C.Result)
    requires Inv(s) && Holds(s, w, run) && C.Worker(w) in s.talk.threads
    requires C.CallOf(s.talk, C.Worker(w)).pc == C.Returned(turn) && Reports(result, turn)
    ensures ReplyKept(s.talk.messages, run.request.messageID, result)
  {
    var t := C.Worker(w);
    assert CallLinked(s, t);
    ConversationSteps.ThreadFacts(s.talk, t);
    hide RoutesOk;
  }

  lemma HandleFailedOk(s: State, s': State, w: nat, failure: string)
    requires Inv(s) && Do(s, HandleFailed(w, failure), s')
    ensures Inv(s')
  {
    RoutesStayOk(s, HandleFailed(w, failure), s');
    hide Inv;
    HandleEndedOk(s, s', w, s.queue.workers[w].run, RunQueue.TurnErr(failure));
  }

  lemma CrashOk(s: State, s': State, n: nat)
    requires Inv(s) && Do(s, Crash(n), s')
    ensures Inv(s')
  {
    RoutesStayOk(s, Crash(n), s');
    hide RoutesOk;
    RunQueue.RestartOk(s.queue.rows, n);
    TalkStepOk(s.talk, C.CrashStep, s'.talk);
    CrashExplained(s, s', n);
    hide RunQueue.Inv;
    hide ConversationInvariant.Inv;
    hide RowExplained;
    hide MessageRuns.Recovered;
    RowsStayLinked(s, s');
  }

  lemma CrashExplained(s: State, s': State, n: nat)
    requires Do(s, Crash(n), s')
    ensures RowsExplained(s, s')
  {
  }

  lemma InitOk(s: State)
    requires Init(s)
    ensures Inv(s)
  {
    RunQueue.RestartOk(map[], |s.queue.workers|);
    ConversationTheorems.InitOk(s.talk);
  }

  lemma NextOk(s: State, s': State)
    requires Inv(s) && Next(s, s')
    ensures Inv(s')
  {
    var step :| Do(s, step, s');
    hide Inv;
    hide Do;
    if step.QueueStep? {
      QueueOnlyOk(s, s', step.queueStep);
    } else if step.TalkStep? {
      TalkOnlyOk(s, s', step.talkStep);
    } else if step.RouteStep? {
      RouteStepOk(s, s', step.t, step.event);
    } else if step.CallHandle? {
      CallHandleOk(s, s', step.w, step.persona);
    } else if step.RouteFailed? {
      RouteFailedOk(s, s', step.w, step.failure);
    } else if step.HandleReturned? {
      HandleReturnedOk(s, s', step.w, step.result);
    } else if step.HandleFailed? {
      HandleFailedOk(s, s', step.w, step.failure);
    } else {
      CrashOk(s, s', step.workers);
    }
  }

  // ---- whole runs -------------------------------------------------------------

  ghost predicate IsRun(run: seq<State>) { Runs.IsRun(Init, Next, run) }

  lemma StateOk(run: seq<State>, s: State)
    requires IsRun(run) && s in run
    ensures Inv(s)
  {
    forall s | Init(s) ensures Inv(s) { InitOk(s); }
    forall s, s' | Inv(s) && Next(s, s') ensures Inv(s') { NextOk(s, s'); }
    hide Init;
    hide Inv;
    hide Next;
    var i: nat :| i < |run| && run[i] == s;
    Runs.Invariant(Init, Next, Inv, run, i);
  }

  /** Both halves only go forward. */
  ghost predicate Later(s: State, s': State) {
    RunQueue.Later(s.queue, s'.queue) && ConversationTheorems.Later(s.talk, s'.talk)
  }

  /** Beginning and ending calls writes nothing. */
  lemma CallStepIsLater(s: State, step: Step, s': State)
    requires Do(s, step, s')
    requires !step.QueueStep? && !step.TalkStep? && !step.Crash?
    ensures Later(s, s')
  {
    RunQueue.RowsSame(s.queue.rows);
    hide RunQueue.RowsLater;
    hide ConversationTheorems.Later;
    hide IsQueueOnly;
    hide IsTalkOnly;
    hide RunQueue.Enabled;
    hide RunQueue.After;
    hide C.Do;
    hide CanRoute;
    hide Routing.After;
    hide Routing.CanFail;
    hide Routing.IsRoutedTo;
    hide Reports;
    hide InputFor;
    ConversationTheorems.SameIsLater(s.talk, s'.talk);
  }

  lemma NextIsLater(s: State, s': State)
    requires Inv(s) && Next(s, s')
    ensures Later(s, s')
  {
    var step :| Do(s, step, s');
    RunQueue.RowsSame(s.queue.rows);
    ConversationTheorems.LaterReflexive(s.talk);
    assert Parts(s);
    hide Inv;
    hide RunQueue.RowsLater;
    hide ConversationTheorems.Later;
    if step.QueueStep? {
      hide C.Do;
      hide IsQueueOnly;
      QueueStepOk(s.queue, step.queueStep);
    } else if step.TalkStep? {
      hide C.Do;
      TalkStepOk(s.talk, step.talkStep, s'.talk);
    } else if step.Crash? {
      RunQueue.RecoveredLater(s.queue.rows);
      ConversationTheorems.SameIsLater(s.talk, s'.talk);
    } else {
      CallStepIsLater(s, step, s');
    }
  }

  lemma RunIsLater(run: seq<State>, i: nat, s: State, j: nat, s': State)
    requires IsRun(run) && Runs.IsAt(run, i, s) && Runs.IsAt(run, j, s') && i <= j
    ensures Later(s, s')
  {
    forall k: nat | k < |run| ensures Inv(run[k]) { StateOk(run, run[k]); }
    forall s ensures Later(s, s) { ConversationTheorems.LaterReflexive(s.talk); }
    forall s, t, u | Later(s, t) && Later(t, u) ensures Later(s, u) {
      ConversationTheorems.LaterTransitive(s.talk, t.talk, u.talk);
    }
    forall s, t | Inv(s) && Next(s, t) ensures Later(s, t) { NextIsLater(s, t); }
    hide Init;
    hide Inv;
    hide Next;
    hide Later;
    Runs.Progress(Init, Next, Inv, Later, run, i, j);
  }

  predicate HasCompleted(row: MessageRuns.Run) { row.status.Completed? && !row.result.steered }

  /** A completed run that was not steered into another turn reports the text of the
      one stored row that answers its message, whatever crashed, was retried or was
      requeued on the way. */
  lemma CompletedRunHasTheReply(run: seq<State>, s: State, row: MessageRuns.Run)
    requires IsRun(run) && s in run && HasRow(s, row) && HasCompleted(row)
    ensures ConversationTheorems.IsTheReply(
      s.talk.messages, row.request.messageID, row.result.reply)
  {
    hide *;
    StateOk(run, s);
    ReplyIsThere(s, row);
  }

  lemma ReplyIsThere(s: State, row: MessageRuns.Run)
    requires Inv(s) && HasRow(s, row) && HasCompleted(row)
    ensures ConversationTheorems.IsTheReply(
      s.talk.messages, row.request.messageID, row.result.reply)
  {
    assert RowLinked(s, row.id);
    hide RoutesOk;
    hide RunQueue.Inv;
    hide ConversationInvariant.Inv;
    ConversationTheorems.AnsweredOnce(s.talk, row.request.messageID, row.result.reply);
  }

  predicate HasSteered(row: MessageRuns.Run) { row.status.Completed? && row.result.steered }

  predicate IsStoredUserRow(s: State, messageID: string) {
    messageID in s.talk.messages && IsUserRow(s.talk.messages[messageID])
  }

  /** A completed run that was steered has its message in the log of a conversation. */
  lemma SteeredRunIsStored(run: seq<State>, s: State, row: MessageRuns.Run)
    requires IsRun(run) && s in run && HasRow(s, row) && HasSteered(row)
    ensures IsStoredUserRow(s, row.request.messageID)
  {
    hide *;
    StateOk(run, s);
    SteeredIsThere(s, row);
  }

  lemma SteeredIsThere(s: State, row: MessageRuns.Run)
    requires Inv(s) && HasRow(s, row) && HasSteered(row)
    ensures IsStoredUserRow(s, row.request.messageID)
  {
    assert RowLinked(s, row.id);
    hide RoutesOk;
    hide Parts;
  }

  /** From then on nothing changes: the row stays as it is, its reply stays the stored
      answer, and the message is never prompted again. */
  lemma CompletedForGood(
    run: seq<State>, i: nat, s: State, j: nat, s': State, row: MessageRuns.Run, p: C.Prompt)
    requires IsRun(run) && Runs.IsAt(run, i, s) && Runs.IsAt(run, j, s') && i <= j
    requires HasRow(s, row) && HasCompleted(row)
    ensures HasRow(s', row)
    ensures ConversationTheorems.IsTheReply(
      s'.talk.messages, row.request.messageID, row.result.reply)
    ensures ConversationTheorems.IsNewPrompt(s.talk, s'.talk, p) ==>
      p.messageID != row.request.messageID
  {
    assert s in run && s' in run;
    hide *;
    RunIsLater(run, i, s, j, s');
    CompletedRunHasTheReply(run, s, row);
    RowStays(s, s', row, p);
    CompletedRunHasTheReply(run, s', row);
  }

  lemma RowStays(s: State, s': State, row: MessageRuns.Run, p: C.Prompt)
    requires Later(s, s') && HasRow(s, row) && HasCompleted(row)
    requires ConversationTheorems.IsTheReply(
      s.talk.messages, row.request.messageID, row.result.reply)
    ensures HasRow(s', row)
    ensures ConversationTheorems.IsNewPrompt(s.talk, s'.talk, p) ==>
      p.messageID != row.request.messageID
  {
    assert RunQueue.RowLater(s.queue.rows[row.id], s'.queue.rows[row.id]);
    hide ReplyID;
    hide ConversationTheorems.RowsKept;
  }
}
