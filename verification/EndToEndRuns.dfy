/** A run of queue and conversations together shows a run of either half, so that what
    holds along those runs holds along it; and what it says of submitted messages. */
module EndToEndRuns {
  import opened Wrappers
  import opened Tables
  import opened EndToEnd
  import opened Transitions
  import MessageRuns
  import RunQueue
  import C = Conversations
  import ConversationTheorems
  import Managers
  import Origins
  import Runs
  import Service
  import Steers
  import Text

  // ---- the halves -------------------------------------------------------------

  ghost function Queue(s: State): RunQueue.State { s.queue }

  ghost function Talk(s: State): C.State { s.talk }

  lemma QueuePart(s: State, s': State)
    requires Inv(s) && Next(s, s')
    ensures s.queue == s'.queue || RunQueue.Next(s.queue, s'.queue)
  {
    var step :| Do(s, step, s');
    hide Inv;
    hide RunQueue.CanWork;
    hide RunQueue.AfterWork;
    hide RunQueue.AfterCall;
    hide C.Do;
    hide C.Begin;
    if step.QueueStep? {
      IsQueueStep(s.queue, step.queueStep);
    } else if step.RouteFailed? {
      ReturnIsStep(s, step.w, RunQueue.TurnErr(step.failure), s');
    } else if step.HandleReturned? {
      ReturnIsStep(s, step.w, RunQueue.TurnOk(step.result), s');
    } else if step.HandleFailed? {
      ReturnIsStep(s, step.w, RunQueue.TurnErr(step.failure), s');
    } else if step.Crash? {
      IsQueueStep(s.queue, RunQueue.Crash(step.workers));
    }
  }

  lemma IsQueueStep(q: RunQueue.State, step: RunQueue.Step)
    requires RunQueue.Enabled(q, step)
    ensures RunQueue.Next(q, RunQueue.After(q, step))
  {
  }

  lemma ReturnIsStep(s: State, w: nat, turn: RunQueue.TurnOutcome, s': State)
    requires Returns(s, w, turn, s')
    ensures RunQueue.Next(s.queue, s'.queue)
  {
    IsQueueStep(s.queue, RunQueue.Work(w, RunQueue.Return(turn)));
  }

  lemma TalkPart(s: State, s': State)
    requires Inv(s) && Next(s, s')
    ensures s.talk == s'.talk || C.Next(s.talk, s'.talk)
  {
    var step :| Do(s, step, s');
    if step.CallHandle? {
      CallMayBegin(s, step.w, s.queue.workers[step.w].run, step.persona);
    }
    hide Inv;
    hide IsQueueOnly;
    hide RunQueue.Enabled;
    hide RunQueue.After;
    hide C.CanAct;
    hide C.Act;
    hide C.CanBegin;
    hide InputFor;
    if step.TalkStep? {
      IsTalkStep(s.talk, step.talkStep, s'.talk);
    } else if step.CallHandle? {
      var input := InputFor(s.queue.workers[step.w].run, step.persona);
      IsTalkStep(s.talk, C.BeginStep(C.Worker(step.w), input), s'.talk);
    } else if step.HandleReturned? || step.HandleFailed? {
      IsTalkStep(s.talk, C.EndStep(C.Worker(step.w)), s'.talk);
    } else if step.Crash? {
      IsTalkStep(s.talk, C.CrashStep, s'.talk);
    }
  }

  lemma IsTalkStep(c: C.State, step: C.Step, c': C.State)
    requires C.Do(c, step, c')
    ensures C.Next(c, c')
  {
  }

  lemma {:induction false} QueueIsRun(run: seq<State>)
    requires IsRun(run)
    ensures RunQueue.IsRun(Runs.Image(Queue, run))
  {
    forall s | s in run ensures Inv(s) { StateOk(run, s); }
    forall s, t | Inv(s) && Next(s, t)
      ensures Queue(s) == Queue(t) || RunQueue.Next(Queue(s), Queue(t))
    {
      QueuePart(s, t);
    }
    forall s | Init(s) ensures RunQueue.Init(Queue(s)) {}
    hide Init;
    hide Inv;
    hide Next;
    hide RunQueue.Next;
    hide RunQueue.Init;
    Runs.ImageIsRun(Init, Next, Inv, Queue, RunQueue.Init, RunQueue.Next, run);
  }

  lemma {:induction false} TalkIsRun(run: seq<State>)
    requires IsRun(run)
    ensures ConversationTheorems.IsRun(Runs.Image(Talk, run))
  {
    forall s | s in run ensures Inv(s) { StateOk(run, s); }
    forall s, t | Inv(s) && Next(s, t) ensures Talk(s) == Talk(t) || C.Next(Talk(s), Talk(t)) {
      TalkPart(s, t);
    }
    forall s | Init(s) ensures C.Init(Talk(s)) {}
    hide Init;
    hide Inv;
    hide Next;
    hide C.Next;
    hide C.Init;
    Runs.ImageIsRun(Init, Next, Inv, Talk, C.Init, C.Next, run);
  }

  /** Two moments of a run are two moments, in this order, of a run of the queue alone. */
  lemma QueueOfRun(run: seq<State>, i: nat, s: State, j: nat, s': State)
    returns (queue: seq<RunQueue.State>, k: nat, l: nat)
    requires IsRun(run) && Runs.IsAt(run, i, s) && Runs.IsAt(run, j, s') && i <= j
    ensures RunQueue.IsRun(queue) && k <= l
    ensures Runs.IsAt(queue, k, s.queue) && Runs.IsAt(queue, l, s'.queue)
  {
    hide Init;
    hide Next;
    hide RunQueue.IsRun;
    FrontIsRun(run, j);
    QueueIsRun(run[..j + 1]);
    Runs.ImageGrows(Queue, run, i, j);
    queue := Runs.Image(Queue, run[..j + 1]);
    k, l := |Runs.Image(Queue, run[..i + 1])| - 1, |queue| - 1;
  }

  /** And of a run of the conversations alone. */
  lemma TalkOfRun(run: seq<State>, i: nat, s: State, j: nat, s': State)
    returns (talk: seq<C.State>, k: nat, l: nat)
    requires IsRun(run) && Runs.IsAt(run, i, s) && Runs.IsAt(run, j, s') && i <= j
    ensures ConversationTheorems.IsRun(talk) && k <= l
    ensures Runs.IsAt(talk, k, s.talk) && Runs.IsAt(talk, l, s'.talk)
  {
    hide Init;
    hide Next;
    hide ConversationTheorems.IsRun;
    FrontIsRun(run, j);
    TalkIsRun(run[..j + 1]);
    Runs.ImageGrows(Talk, run, i, j);
    talk := Runs.Image(Talk, run[..j + 1]);
    k, l := |Runs.Image(Talk, run[..i + 1])| - 1, |talk| - 1;
  }

  // ---- what was submitted is handled ------------------------------------------

  /** The message that the worker hands on, for the persona it was routed to. */
  function RawFor(run: MessageRuns.Run, persona: string): Managers.Raw {
    var request := run.request;
    Managers.Raw(request.scope.(key := Own(persona, KeyText(request.scope.key))),
      request.messageID, request.mode, request.senderID, request.text, run.createdAt)
  }

  /** What Submit accepts never fails Handle's own checks, and trimming the text again and
      parsing the mode again give what the row says. */
  lemma SubmittedIsAdmissible(
    input: Service.Input, messageID: string, runID: string, persona: string,
    random: Option<string>)
    requires Service.IsAcceptable(input) && messageID != ""
    ensures
      var run := Service.Wanted(input, messageID, runID);
      var raw, handled := RawFor(run, persona), InputFor(run, persona);
      && Managers.IsAdmissible(raw, random)
      && handled.text == Text.TrimSpace(raw.text) && handled.id == raw.id != ""
      && (handled.isFresh <==> raw.mode == "fresh")
      && handled.scope == raw.scope && handled.senderID == raw.senderID
  {
    Text.TrimSpaceTwice(input.text);
  }

  // ---- where a steered message went -------------------------------------------

  predicate ReturnsSteered(run: seq<State>, k: nat, t: C.Tid, request: MessageRuns.Request) {
    k < |run| && IsSteered(run[k], t, request)
  }

  /** The call for the request has returned as steered. */
  predicate IsSteered(s: State, t: C.Tid, request: MessageRuns.Request) {
    && t in s.talk.threads && IsForRequest(s.talk.threads[t].input, request)
    && s.talk.threads[t].pc.Returned? && s.talk.threads[t].pc.result.steered
  }

  predicate IsSteeredRow(s: State, id: string, request: MessageRuns.Request) {
    && id in s.queue.rows && s.queue.rows[id].request == request
    && s.queue.rows[id].status.Completed? && s.queue.rows[id].result.steered
  }

  /** A worker is about to write that the run was steered. */
  predicate IsFinishing(s: State, w: nat, id: string, request: MessageRuns.Request) {
    && w < |s.queue.workers| && s.queue.workers[w].Completing?
    && s.queue.workers[w].id == id && s.queue.workers[w].result.steered
    && id in s.queue.rows && s.queue.rows[id].request == request
  }

  /** What the worker writes was returned by a call for the request. */
  lemma {:induction false} ResultReturned(
    run: seq<State>, i: nat, s': State, w: nat, id: string, request: MessageRuns.Request)
    returns (k: nat, t: C.Tid)
    requires IsTraced(run) && Runs.IsAt(run, i, s') && IsFinishing(s', w, id, request)
    ensures k <= i && ReturnsSteered(run, k, t, request)
  {
    hide *;
    var h, s := TracedBack(run, i, s');
    assert i > 0 by { if i == 0 { NobodyFinishes(s', w, id, request); } }
    if IsFinishing(s, w, id, request) {
      k, t := ResultReturned(run, h, s, w, id, request);
    } else {
      ResultIsNew(s, s', w, id, request);
      k, t := h, C.Worker(w);
      ReturnsThere(run, h, s, t, request);
    }
  }

  lemma NobodyFinishes(s: State, w: nat, id: string, request: MessageRuns.Request)
    requires StartsEmpty(s)
    ensures !IsFinishing(s, w, id, request)
  {
  }

  lemma ReturnsThere(
    run: seq<State>, k: nat, s: State, t: C.Tid, request: MessageRuns.Request)
    requires Runs.IsAt(run, k, s) && IsSteered(s, t, request)
    ensures ReturnsSteered(run, k, t, request)
  {
  }

  /** A worker writes that the run was steered, and did not before: its call has returned. */
  lemma ResultIsNew(s: State, s': State, w: nat, id: string, request: MessageRuns.Request)
    requires Stands(s) && Passes(s, s') && IsFinishing(s', w, id, request)
    requires !IsFinishing(s, w, id, request)
    ensures IsSteered(s, C.Worker(w), request)
  {
    assert ResultPasses(s, s', w) && Keeps(s, s') by { ResultIsOf(s, s', w); }
    hide Passes;
    if w < |s.queue.workers| && s.queue.workers[w] == s'.queue.workers[w] {
      RowWasThere(s, s', w, id, request);
    } else {
      HasReturnedSteered(s, s', w, id, request);
    }
    hide Stands;
  }

  lemma ResultIsOf(s: State, s': State, w: nat)
    requires Passes(s, s')
    ensures ResultPasses(s, s', w) && Keeps(s, s')
  {
    hide ResultPasses;
    hide Keeps;
    hide RoutesPass;
    hide RowPasses;
    hide TalkPasses;
  }

  /** The row that is written was there before. */
  lemma RowWasThere(s: State, s': State, w: nat, id: string, request: MessageRuns.Request)
    requires Stands(s) && Keeps(s, s') && IsFinishing(s', w, id, request)
    requires RunQueue.PcOf(s.queue, w) == RunQueue.PcOf(s'.queue, w)
    ensures IsFinishing(s, w, id, request)
  {
    assert IsWriting(s, w);
    assert RunQueue.RowLater(s.queue.rows[id], s'.queue.rows[id]);
    hide RowsStand;
    hide HeldStand;
    hide CallsStand;
  }

  lemma HasReturnedSteered(s: State, s': State, w: nat, id: string, request: MessageRuns.Request)
    requires Stands(s) && Keeps(s, s') && IsFinishing(s', w, id, request)
    requires ResultPasses(s, s', w)
    requires RunQueue.PcOf(s.queue, w) != RunQueue.PcOf(s'.queue, w)
    ensures IsSteered(s, C.Worker(w), request)
  {
    var t, held := C.Worker(w), s.queue.workers[w].run;
    assert Holds(s, w, held) && HeldStands(s, w, held);
    assert Carries(s, t, s.talk.threads[t].input);
    assert CallStands(s, t, s.talk.threads[t].input);
    assert RunQueue.RowLater(s.queue.rows[id], s'.queue.rows[id]);
    hide Stands;
    hide KeyText;
  }

  /** A completed run that was steered: a call for its request has returned so. */
  lemma {:induction false} RowReturned(
    run: seq<State>, i: nat, s': State, id: string, request: MessageRuns.Request)
    returns (k: nat, t: C.Tid)
    requires IsTraced(run) && Runs.IsAt(run, i, s') && IsSteeredRow(s', id, request)
    ensures k <= i && ReturnsSteered(run, k, t, request)
  {
    hide *;
    var h, s := TracedBack(run, i, s');
    assert i > 0 by { if i == 0 { NothingCompleted(s', id, request); } }
    if IsSteeredRow(s, id, request) {
      k, t := RowReturned(run, h, s, id, request);
    } else {
      RowIsOf(s, s', id);
      var w := IsWritten(s, s', id, request);
      k, t := ResultReturned(run, h, s, w, id, request);
    }
  }

  lemma NothingCompleted(s: State, id: string, request: MessageRuns.Request)
    requires StartsEmpty(s)
    ensures !IsSteeredRow(s, id, request)
  {
  }

  lemma RowIsOf(s: State, s': State, id: string)
    requires Passes(s, s')
    ensures RowPasses(s, s', id) && Keeps(s, s')
  {
    hide ResultPasses;
    hide Keeps;
    hide RoutesPass;
    hide RowPasses;
    hide TalkPasses;
  }

  lemma IsWritten(s: State, s': State, id: string, request: MessageRuns.Request)
    returns (w: nat)
    requires RowPasses(s, s', id) && Keeps(s, s') && Stands(s)
    requires IsSteeredRow(s', id, request) && !IsSteeredRow(s, id, request)
    ensures IsFinishing(s, w, id, request)
  {
    var result := s'.queue.rows[id].result;
    w :| w < |s.queue.workers| && s.queue.workers[w] == RunQueue.Completing(id, result);
    assert IsWriting(s, w);
    assert RunQueue.RowLater(s.queue.rows[id], s'.queue.rows[id]);
    hide RowsStand;
    hide HeldStand;
    hide CallsStand;
  }

  /** The call found an active turn of its own conversation. */
  predicate LooksUp(
    run: seq<State>, h: nat, t: C.Tid, input: C.Input, m: nat, active: C.Active)
  {
    && h < |run| && Carries(run[h], t, input)
    && (m, input.scope.key) in run[h].talk.active
    && run[h].talk.active[(m, input.scope.key)] == active
  }

  /** The call handed its message to the turn's session, and the adapter took it. */
  predicate Delivers(
    run: seq<State>, g: nat, t: C.Tid, input: C.Input, m: nat, active: C.Active)
  {
    && g + 1 < |run| && Carries(run[g], t, input)
    && run[g].talk.threads[t].pc == C.SteerSend(m, active)
    && run[g + 1].talk == C.ActSteerAnswer(run[g].talk, t, active, true)
  }

  /** A completed run that was steered: some manager had an active turn for a conversation
      with the run's own key, a call with the run's message looked it up, stored the message
      under that turn's epoch and handed it to that turn's session, and the adapter took it. */
  lemma SteeredRunWasDelivered(
    run: seq<State>, i: nat, s: State, id: string, request: MessageRuns.Request)
    returns (h: nat, g: nat, t: C.Tid, m: nat, active: C.Active, input: C.Input)
    requires IsRun(run) && Runs.IsAt(run, i, s) && IsSteeredRow(s, id, request)
    ensures h < g < i && IsForRequest(input, request)
    ensures LooksUp(run, h, t, input, m, active) && Delivers(run, g, t, input, m, active)
    ensures Steers.IsStoredUnder(s.talk.messages, input, active.epoch)
  {
    hide *;
    RunIsTraced(run);
    var k;
    k, t := RowReturned(run, i, s, id, request);
    var returned, result;
    returned, input, result := SteeredInput(run, k, t, request);
    h, g, m, active := CallWasDelivered(run, k, returned, t, input, result);
    KeptFrom(run, k, returned, i, s);
    StoredStays(returned, s, input, active.epoch);
  }

  lemma SteeredInput(run: seq<State>, k: nat, t: C.Tid, request: MessageRuns.Request)
    returns (s: State, input: C.Input, result: C.Result)
    requires ReturnsSteered(run, k, t, request)
    ensures Runs.IsAt(run, k, s) && IsForRequest(input, request)
    ensures HasSteered(s.talk, t, input, result)
  {
    s := run[k];
    input, result := s.talk.threads[t].input, s.talk.threads[t].pc.result;
  }

  predicate HasSteered(c: C.State, t: C.Tid, input: C.Input, result: C.Result) {
    && t in c.threads && c.threads[t].input == input
    && c.threads[t].pc == C.Returned(result) && result.steered
  }

  lemma StoredStays(s: State, s': State, input: C.Input, epoch: int)
    requires Keeps(s, s') && Steers.IsStoredUnder(s.talk.messages, input, epoch)
    ensures Steers.IsStoredUnder(s'.talk.messages, input, epoch)
  {
    hide RunQueue.RowsLater;
    hide C.UserRow;
  }

  lemma CallWasDelivered(
    run: seq<State>, k: nat, s: State, t: C.Tid, input: C.Input, result: C.Result)
    returns (h: nat, g: nat, m: nat, active: C.Active)
    requires IsRun(run) && Runs.IsAt(run, k, s) && HasSteered(s.talk, t, input, result)
    ensures h < g < k
    ensures LooksUp(run, h, t, input, m, active) && Delivers(run, g, t, input, m, active)
    ensures Steers.IsStoredUnder(s.talk.messages, input, active.epoch)
  {
    hide *;
    assert k < |run| && run[k] == s by { IsThere(run, k, s); }
    var front := run[..k + 1];
    FrontIsRun(run, k);
    TalkIsRun(front);
    LastIsShown(front);
    var talk := Runs.Image(Talk, front);
    var h', g';
    h', g', m, active := SteeredOf(talk, s.talk, t, input, result);
    StepsAreThere(talk, h', g', t, input, m, active);
    g := Runs.ImageStep(Talk, front, g');
    h := Runs.ImageStep(Talk, front[..g + 1], h');
    StepsShown(front, talk, h', g', h, g, t, input, m, active);
    StepsAreOfRun(run, k, h, g, t, input, m, active);
  }

  lemma IsThere(run: seq<State>, k: nat, s: State)
    requires Runs.IsAt(run, k, s)
    ensures k < |run| && run[k] == s
  {
  }

  lemma FrontIsRun(run: seq<State>, k: nat)
    requires IsRun(run) && k < |run|
    ensures IsRun(run[..k + 1])
  {
    hide Init;
    hide Next;
    Runs.FrontIsRun(Init, Next, run, k + 1);
  }

  lemma {:induction false} LastIsShown(run: seq<State>)
    requires run != []
    ensures Runs.IsLast(Runs.Image(Talk, run), run[|run| - 1].talk)
  {
  }

  lemma SteeredOf(
    talk: seq<C.State>, last: C.State, t: C.Tid, input: C.Input, result: C.Result)
    returns (h: nat, g: nat, m: nat, active: C.Active)
    requires ConversationTheorems.IsRun(talk) && Runs.IsLast(talk, last)
    requires HasSteered(last, t, input, result)
    ensures h < g && g + 1 < |talk|
    ensures Steers.LooksUpAt(talk, t, input, h, m, active)
    ensures Steers.DeliversAt(talk, t, input, g, m, active)
    ensures Steers.IsStoredUnder(last.messages, input, active.epoch)
  {
    hide ConversationTheorems.IsRun;
    h, g, m, active := Steers.SteeredWasDelivered(talk, |talk| - 1, last, t, result);
    hide Steers.LooksUpAt;
    hide Steers.DeliversAt;
    hide Steers.IsStoredUnder;
  }

  predicate TalkLooksUp(c: C.State, t: C.Tid, input: C.Input, m: nat, active: C.Active) {
    && t in c.threads && c.threads[t].input == input
    && (m, input.scope.key) in c.active && c.active[(m, input.scope.key)] == active
  }

  predicate TalkDelivers(
    c: C.State, c': C.State, t: C.Tid, input: C.Input, m: nat, active: C.Active)
  {
    && t in c.threads && c.threads[t].input == input
    && c.threads[t].pc == C.SteerSend(m, active)
    && c' == C.ActSteerAnswer(c, t, active, true)
  }

  lemma StepsAreThere(
    talk: seq<C.State>, h: nat, g: nat, t: C.Tid, input: C.Input, m: nat, active: C.Active)
    requires h < g && g + 1 < |talk|
    requires Steers.LooksUpAt(talk, t, input, h, m, active)
    requires Steers.DeliversAt(talk, t, input, g, m, active)
    ensures TalkLooksUp(talk[h], t, input, m, active)
    ensures TalkDelivers(talk[g], talk[g + 1], t, input, m, active)
  {
    hide C.ActSteerAnswer;
    hide C.ActSteerFind;
    hide Steers.HasLookedUp;
  }

  lemma {:induction false} StepsShown(
    run: seq<State>, talk: seq<C.State>, h': nat, g': nat, h: nat, g: nat, t: C.Tid,
    input: C.Input, m: nat, active: C.Active)
    requires h' < g' && g' + 1 < |talk| && g + 1 < |run| && h + 1 < |run[..g + 1]|
    requires Talk(run[..g + 1][h]) == talk[h']
    requires Talk(run[g]) == talk[g'] && Talk(run[g + 1]) == talk[g' + 1]
    requires TalkLooksUp(talk[h'], t, input, m, active)
    requires TalkDelivers(talk[g'], talk[g' + 1], t, input, m, active)
    ensures h < g && LooksUp(run, h, t, input, m, active)
    ensures Delivers(run, g, t, input, m, active)
  {
    hide C.ActSteerAnswer;
  }

  lemma StepsAreOfRun(
    run: seq<State>, k: nat, h: nat, g: nat, t: C.Tid, input: C.Input, m: nat, active: C.Active)
    requires k < |run| && h < g
    requires LooksUp(run[..k + 1], h, t, input, m, active)
    requires Delivers(run[..k + 1], g, t, input, m, active)
    ensures LooksUp(run, h, t, input, m, active) && Delivers(run, g, t, input, m, active)
    ensures g < k
  {
    hide C.ActSteerAnswer;
  }

  // ---- how often a submitted message is prompted ------------------------------

  /** The message is answered, or its row is over. */
  ghost predicate IsClosed(s: State, messageID: string) {
    ReplyID(messageID) in s.talk.messages || exists id :: IsOver(s, id, messageID)
  }

  predicate IsOver(s: State, id: string, messageID: string) {
    && id in s.queue.rows && s.queue.rows[id].request.messageID == messageID
    && MessageRuns.IsTerminal(s.queue.rows[id].status)
  }

  lemma ClosedStays(s: State, s': State, messageID: string)
    requires IsClosed(s, messageID) && Keeps(s, s')
    ensures IsClosed(s', messageID)
  {
    hide ReplyID;
    if ReplyID(messageID) !in s.talk.messages {
      var id :| IsOver(s, id, messageID);
      assert RunQueue.RowLater(s.queue.rows[id], s'.queue.rows[id]);
      assert IsOver(s', id, messageID);
    }
  }

  /** From `s` to `s'` no prompt for the message is sent. */
  predicate SendsNone(s: State, s': State, messageID: string) {
    && s.talk.prompts <= s'.talk.prompts
    && forall n :: |s.talk.prompts| <= n < |s'.talk.prompts| ==>
         s'.talk.prompts[n].messageID != messageID
  }

  /** A call that prompts belongs to a row that a worker holds running, or to Webex. */
  lemma SenderIsOpen(s: State, u: C.Tid, input: C.Input, messageID: string)
    requires Stands(s) && IsClosed(s, messageID)
    requires Carries(s, u, input) && ReplyID(input.id) !in s.talk.messages
    ensures input.id != messageID
  {
    assert CallStands(s, u, input);
    hide ReplyID;
    hide KeyText;
    if ReplyID(messageID) !in s.talk.messages {
      var id :| IsOver(s, id, messageID);
      if u.Worker? { HeldIsNotOver(s, u.index, s.queue.workers[u.index].run, id, messageID); }
    }
  }

  lemma HeldIsNotOver(s: State, w: nat, held: MessageRuns.Run, id: string, messageID: string)
    requires RowsStand(s) && HeldStand(s) && Holds(s, w, held) && IsOver(s, id, messageID)
    ensures held.request.messageID != messageID
  {
    assert HeldStands(s, w, held);
    assert AreOfOneMessage(s.queue.rows, held.id, id) ==> held.id == id;
  }

  lemma StepSendsNone(s: State, s': State, messageID: string)
    requires Stands(s) && Passes(s, s') && IsClosed(s, messageID)
    ensures SendsNone(s, s', messageID) && Keeps(s, s')
  {
    assert PromptsPass(s, s');
    hide RoutesPass;
    hide QueuePasses;
    hide Keeps;
    hide IsClosed;
    hide ReplyID;
    hide Stands;
    if u :| Sends(s, s', u) {
      SenderIsOpen(s, u, s.talk.threads[u].input, messageID);
    }
  }

  lemma SendsOn(s: State, t: State, u: State, messageID: string)
    requires SendsNone(s, t, messageID) && SendsNone(t, u, messageID)
    ensures SendsNone(s, u, messageID)
  {
    forall n | |s.talk.prompts| <= n < |u.talk.prompts|
      ensures u.talk.prompts[n].messageID != messageID
    {
      if n < |t.talk.prompts| { assert u.talk.prompts[n] == t.talk.prompts[n]; }
    }
  }

  lemma {:induction false} NonePrompted(
    run: seq<State>, i: nat, s: State, j: nat, s': State, messageID: string)
    requires IsTraced(run) && Runs.IsAt(run, i, s) && Runs.IsAt(run, j, s') && i <= j
    requires IsClosed(s, messageID)
    ensures SendsNone(s, s', messageID) && IsClosed(s', messageID)
    decreases j
  {
    hide *;
    if i < j {
      var h, before := TracedBack(run, j, s');
      NonePrompted(run, i, s, h, before, messageID);
      StepSendsNone(before, s', messageID);
      ClosedStays(before, s', messageID);
      SendsOn(s, before, s', messageID);
    } else {
      SameMoment(run, i, s, s');
      SendsNothing(s, messageID);
    }
  }

  lemma SendsNothing(s: State, messageID: string)
    ensures SendsNone(s, s, messageID)
  {
  }

  /** Once a message is answered, or the row of a submitted message is over, completed,
      steered or failed, no prompt for the message is ever sent again. */
  lemma ClosedIsNotPrompted(run: seq<State>, i: nat, j: nat, s: State, s': State, messageID: string)
    requires IsRun(run) && i <= j && Runs.IsAt(run, i, s) && Runs.IsAt(run, j, s')
    requires IsClosed(s, messageID)
    ensures SendsNone(s, s', messageID) && IsClosed(s', messageID)
  {
    hide *;
    RunIsTraced(run);
    NonePrompted(run, i, s, j, s', messageID);
  }

  /** And it was prompted at least once if its row completed without being steered. */
  lemma CompletedWasPrompted(run: seq<State>, s: State, row: MessageRuns.Run)
    requires IsRun(run) && s in run && HasRow(s, row) && HasCompleted(row)
    ensures Origins.WasPrompted(s.talk, row.request.messageID)
  {
    var i: nat :| i < |run| && run[i] == s;
    assert Runs.IsAt(run, i, s);
    hide *;
    CompletedRunHasTheReply(run, s, row);
    var talk, k, _ := TalkOfRun(run, i, s, i, s);
    AnsweredInRun(talk, k, s.talk, row.request.messageID, row.result.reply);
  }

  lemma AnsweredInRun(
    talk: seq<C.State>, k: nat, c: C.State, messageID: string, reply: string)
    requires ConversationTheorems.IsRun(talk) && Runs.IsAt(talk, k, c)
    requires ConversationTheorems.IsTheReply(c.messages, messageID, reply)
    ensures Origins.WasPrompted(c, messageID)
  {
    hide ConversationTheorems.IsRun;
    Origins.AnsweredWasPrompted(talk, c, messageID);
  }
}
