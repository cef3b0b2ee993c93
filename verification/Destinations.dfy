/** To which persona's conversation a submitted message and its reply go, along every run,
    and when these are two. */
module Destinations {
  import opened Wrappers
  import opened Tables
  import opened EndToEnd
  import opened Transitions
  import C = Conversations
  import ConversationTheorems
  import MessageRuns
  import P = Personas
  import Routing
  import RunQueue
  import Runs

  // ---- the invariant ----------------------------------------------------------

  function Base(request: MessageRuns.Request): string { KeyText(request.scope.key) }

  /** The key is that of a persona to which the request was routed, by some saved owner, and
      which was stored as the owner of the transport key. */
  ghost predicate IsPlaced(s: State, key: Key, request: MessageRuns.Request) {
    exists owner, m :: IsPlacedBy(s, key, request, owner, m)
  }

  ghost predicate IsPlacedBy(
    s: State, key: Key, request: MessageRuns.Request, owner: string, m: P.Persona)
  {
    && Routing.IsChoice(s.site.roster, AskedFor(request), owner, m)
    && key == Own(m.name, Base(request)) && (Base(request), m.name) in s.routing.saved
  }

  ghost predicate IsMemberName(roster: seq<P.Persona>, name: string) {
    exists m :: Routing.IsMember(roster, m) && m.name == name
  }

  /** Owners are names of enabled members, and a key once stored has an owner. */
  ghost predicate OwnersOk(s: State) {
    && Routing.IsLoaded(s.site.roster)
    && (forall base :: base in s.routing.owners ==>
          && (base, s.routing.owners[base]) in s.routing.saved
          && IsMemberName(s.site.roster, s.routing.owners[base]))
    && (forall base, name :: (base, name) in s.routing.saved ==> base in s.routing.owners)
  }

  /** An attempt is chosen as the runtime does; a worker's is for the run it holds. */
  ghost predicate AttemptFits(s: State, t: C.Tid) {
    t in s.routing.attempts && !s.routing.attempts[t].Refused? ==>
      var a := s.routing.attempts[t];
      && Routing.IsChoice(s.site.roster, a.asked, a.owner, a.member)
      && (a.Routed? ==> (a.asked.base, a.member.name) in s.routing.saved)
      && (t.Worker? ==>
            HoldsRun(s, t.index) && a.asked == AskedFor(s.queue.workers[t.index].run.request))
  }

  ghost predicate AttemptsFit(s: State) { forall t :: AttemptFits(s, t) }

  /** A worker's call is in the conversation it was routed to. */
  ghost predicate CallsFit(s: State) {
    forall t: C.Tid :: t.Worker? && t in s.talk.threads ==> IsRouted(s, t)
  }

  ghost predicate IsRowFor(s: State, id: string, messageID: string, key: Key) {
    && id in s.queue.rows && s.queue.rows[id].request.messageID == messageID
    && IsPlaced(s, key, s.queue.rows[id].request)
  }

  /** A message of Webex, or a submitted one in a conversation it was routed to. */
  ghost predicate IsAtHome(s: State, messageID: string, key: Key) {
    && C.IsIncomingID(messageID)
    && (messageID in s.site.webex || exists id :: IsRowFor(s, id, messageID, key))
  }

  /** Every row of the log is such a message or the reply to one. */
  ghost predicate MessageFits(s: State, k: string) {
    k in s.talk.messages ==>
      var key := s.talk.messages[k].scope.key;
      IsAtHome(s, k, key) || exists id :: k == ReplyID(id) && IsAtHome(s, id, key)
  }

  ghost predicate MessagesFit(s: State) { forall k :: MessageFits(s, k) }

  ghost predicate Fits(s: State) {
    OwnersOk(s) && AttemptsFit(s) && CallsFit(s) && MessagesFit(s)
  }

  // ---- every step -------------------------------------------------------------

  lemma PlacedStays(s: State, s': State, key: Key, request: MessageRuns.Request)
    requires IsPlaced(s, key, request) && Keeps(s, s') && OwnersPass(s, s')
    ensures IsPlaced(s', key, request)
  {
    hide Routing.IsChoice;
    hide RunQueue.RowsLater;
    var owner, m :| IsPlacedBy(s, key, request, owner, m);
    assert IsPlacedBy(s', key, request, owner, m);
  }

  lemma HomeStays(s: State, s': State, id: string, key: Key)
    requires IsAtHome(s, id, key) && Keeps(s, s') && OwnersPass(s, s')
    ensures IsAtHome(s', id, key)
  {
    hide IsPlaced;
    hide OwnersPass;
    if id !in s.site.webex {
      var row :| IsRowFor(s, row, id, key);
      assert RunQueue.RowLater(s.queue.rows[row], s'.queue.rows[row]);
      PlacedStays(s, s', key, s.queue.rows[row].request);
      assert IsRowFor(s', row, id, key);
    }
  }

  lemma MessageStays(s: State, s': State, k: string)
    requires Keeps(s, s') && OwnersPass(s, s') && MessageFits(s, k) && k in s.talk.messages
    ensures MessageFits(s', k)
  {
    hide IsAtHome;
    hide OwnersPass;
    hide ReplyID;
    hide RunQueue.RowsLater;
    var key := s.talk.messages[k].scope.key;
    if IsAtHome(s, k, key) {
      HomeStays(s, s', k, key);
    } else {
      var id :| k == ReplyID(id) && IsAtHome(s, id, key);
      HomeStays(s, s', id, key);
    }
  }

  /** A call's message is at home in the call's conversation. */
  lemma CallIsAtHome(s: State, t: C.Tid, input: C.Input)
    requires Stands(s) && Fits(s) && Carries(s, t, input)
    ensures IsAtHome(s, input.id, input.scope.key)
  {
    if t.Worker? {
      var run, a := s.queue.workers[t.index].run, s.routing.attempts[t];
      assert AttemptFits(s, t) && Holds(s, t.index, run);
      hide Fits;
      hide KeyText;
      hide Routing.IsChoice;
      assert IsPlacedBy(s, input.scope.key, run.request, a.owner, a.member);
      assert IsRowFor(s, run.id, input.id, input.scope.key);
    }
  }

  lemma MessagesStayFit(s: State, s': State)
    requires Stands(s) && Fits(s) && Passes(s, s')
    ensures MessagesFit(s')
  {
    forall k ensures MessageFits(s', k) {
      assert MessageFits(s, k) && LogPasses(s, s', k);
      if k in s.talk.messages {
        hide *;
        TheyPass(s, s');
        MessageStays(s, s', k);
      } else if k in s'.talk.messages {
        hide Stands;
        hide Fits;
        hide Passes;
        NewMessageFits(s, s', k);
      }
    }
  }

  lemma TheyPass(s: State, s': State)
    requires Passes(s, s')
    ensures Keeps(s, s') && OwnersPass(s, s')
    ensures forall k :: LogPasses(s, s', k)
    ensures forall t :: AttemptPasses(s, s', t) && CallPasses(s, s', t)
    ensures forall w: nat :: HoldPasses(s, s', w)
  {
    hide Keeps;
    hide OwnersPass;
    hide LogPasses;
    hide AttemptPasses;
    hide CallPasses;
    hide HoldPasses;
    hide QueuePasses;
    hide PromptsPass;
  }

  lemma NewMessageFits(s: State, s': State, k: string)
    requires Stands(s) && Fits(s) && Passes(s, s') && LogPasses(s, s', k)
    requires k in s'.talk.messages && k !in s.talk.messages
    ensures MessageFits(s', k)
  {
    TheyPass(s, s');
    if u :| Adds(s, s', u, k) {
      CallIsAtHome(s, u, s.talk.threads[u].input);
      hide Stands;
      hide Fits;
      hide Passes;
      HomeStays(s, s', s.talk.threads[u].input.id, s.talk.threads[u].input.scope.key);
      hide IsAtHome;
      hide ReplyID;
      hide Keeps;
      hide OwnersPass;
    } else {
      hide Stands;
      hide Fits;
      hide Passes;
      hide OwnersPass;
      hide C.IsIncomingID;
    }
  }

  lemma MemberHasName(roster: seq<P.Persona>, m: P.Persona)
    requires Routing.IsMember(roster, m)
    ensures IsMemberName(roster, m.name)
  {
  }

  lemma OwnersStayOk(s: State, s': State)
    requires OwnersOk(s) && AttemptsFit(s) && OwnersPass(s, s') && s'.site == s.site
    ensures OwnersOk(s')
  {
    if t :| Saves(s, s', t) {
      var a := s.routing.attempts[t];
      assert AttemptFits(s, t);
      Routing.ChoiceIsMember(s.site.roster, a.asked, a.owner, a.member);
      MemberHasName(s.site.roster, a.member);
    }
    hide IsMemberName;
    hide Routing.IsLoaded;
    hide Routing.IsChoice;
    hide AttemptsFit;
  }

  lemma AttemptStaysFit(s: State, s': State, t: C.Tid)
    requires AttemptFits(s, t) && AttemptPasses(s, s', t)
    requires t.Worker? ==> HoldPasses(s, s', t.index)
    requires s'.site == s.site && OwnersPass(s, s')
    ensures AttemptFits(s', t)
  {
    hide Routing.IsChoice;
    hide AskedFor;
  }

  lemma PassesFit(s: State, s': State)
    requires Stands(s) && Fits(s) && Passes(s, s')
    ensures Fits(s')
  {
    TheyPass(s, s');
    MessagesStayFit(s, s');
    assert s'.site == s.site;
    hide Passes;
    hide Keeps;
    hide MessagesFit;
    OwnersStayOk(s, s');
    forall t ensures AttemptFits(s', t) {
      assert AttemptFits(s, t) && AttemptPasses(s, s', t);
      if t.Worker? { assert HoldPasses(s, s', t.index); }
      hide AttemptFits;
      hide AttemptPasses;
      AttemptStaysFit(s, s', t);
    }
    forall t: C.Tid | t.Worker? && t in s'.talk.threads ensures IsRouted(s', t) {
      assert CallPasses(s, s', t);
    }
    hide OwnersOk;
    hide AttemptFits;
  }

  lemma {:induction false} EveryStateFits(run: seq<State>, i: nat, s': State)
    requires IsTraced(run) && Runs.IsAt(run, i, s')
    ensures Stands(s') && Fits(s')
  {
    hide *;
    TracedState(run, i, s');
    var h, s := TracedBack(run, i, s');
    if i > 0 {
      EveryStateFits(run, h, s);
      PassesFit(s, s');
    } else {
      EmptyFits(s');
    }
  }

  lemma EmptyFits(s: State)
    requires StartsEmpty(s)
    ensures Fits(s)
  {
    hide Routing.IsLoaded;
  }

  // ---- where a submitted message and its reply are -----------------------------

  /** The table has a row for the request. */
  predicate HasRequest(s: State, request: MessageRuns.Request) {
    exists id :: id in s.queue.rows && s.queue.rows[id].request == request
  }

  /** The message itself or its reply. */
  lemma HasHome(s: State, messageID: string, k: string, key: Key)
    requires IsLogged(s, k, key) && MessageFits(s, k) && C.IsIncomingID(messageID)
    requires k == messageID || k == ReplyID(messageID)
    ensures IsAtHome(s, messageID, key)
  {
    assert IsReplyID(ReplyID(messageID));
    hide IsRowFor;
    if k == messageID {
      forall x ensures k != ReplyID(x) { assert IsReplyID(ReplyID(x)); }
    } else {
      forall x | k == ReplyID(x) ensures x == messageID { ReplyIDInjective(x, messageID); }
      hide ReplyID;
    }
  }

  /** A message or reply that is in the log of `s` is where the row, which may have come
      later, was routed. */
  lemma RequestIsPlaced(
    s: State, now: State, request: MessageRuns.Request, k: string, key: Key)
    requires MessagesFit(s) && RowsStand(now) && HasRequest(now, request)
    requires RunQueue.RowsLater(s.queue.rows, now.queue.rows) && s.site == now.site
    requires IsLogged(s, k, key) && (k == request.messageID || k == ReplyID(request.messageID))
    ensures IsPlaced(s, key, request)
  {
    var id :| id in now.queue.rows && now.queue.rows[id].request == request;
    assert MessageFits(s, k);
    HasHome(s, request.messageID, k, key);
    hide IsPlaced;
    hide MessagesFit;
    hide ReplyID;
    var row :| IsRowFor(s, row, request.messageID, key);
    assert RunQueue.RowLater(s.queue.rows[row], now.queue.rows[row]);
    assert AreOfOneMessage(now.queue.rows, row, id);
  }

  /** The conversation is one of the request's own transport key and of an enabled member,
      and of the one it asks for if it asks for one. */
  ghost predicate IsOwnConversation(s: State, key: Key, request: MessageRuns.Request) {
    && key.Own? && key.base == Base(request) && IsMemberName(s.site.roster, key.persona)
    && (request.persona != "" ==> key.persona == P.Normal(request.persona))
  }

  lemma PlacedIsOwn(s: State, key: Key, request: MessageRuns.Request)
    requires IsPlaced(s, key, request)
    ensures IsOwnConversation(s, key, request)
  {
    var owner, m :| IsPlacedBy(s, key, request, owner, m);
    Routing.ChoiceIsMember(s.site.roster, AskedFor(request), owner, m);
    MemberHasName(s.site.roster, m);
    hide P.Normal;
  }

  lemma RowsAreLater(s: State)
    ensures RunQueue.RowsLater(s.queue.rows, s.queue.rows)
  {
  }

  lemma MomentOf(run: seq<State>, s: State) returns (i: nat)
    requires s in run
    ensures Runs.IsAt(run, i, s)
  {
    i :| i < |run| && run[i] == s;
  }

  /** Whatever a submitted message asks for, it and its reply are in conversations of its own
      transport key and of enabled members; and if it asks for a persona, both are in that
      persona's, retries and crashes included. */
  lemma AskedIsKept(run: seq<State>, s: State, request: MessageRuns.Request, k: string, key: Key)
    requires IsRun(run) && s in run && HasRequest(s, request) && IsLogged(s, k, key)
    requires k == request.messageID || k == ReplyID(request.messageID)
    ensures IsOwnConversation(s, key, request)
  {
    hide *;
    RunIsTraced(run);
    var i := MomentOf(run, s);
    EveryStateFits(run, i, s);
    TheyFit(s);
    RowsAreLater(s);
    RequestIsPlaced(s, s, request, k, key);
    PlacedIsOwn(s, key, request);
  }

  lemma TheyFit(s: State)
    requires Stands(s) && Fits(s)
    ensures RowsStand(s) && HeldStand(s) && CallsStand(s)
    ensures OwnersOk(s) && AttemptsFit(s) && CallsFit(s) && MessagesFit(s)
  {
    hide RowsStand;
    hide HeldStand;
    hide CallsStand;
    hide OwnersOk;
    hide AttemptsFit;
    hide CallsFit;
    hide MessagesFit;
  }

  // ---- the attempt behind a reply ----------------------------------------------

  /** What an attempt is about: a run, its worker, the saved owner it read and the member it
      chose. */
  datatype Try = Try(w: nat, held: MessageRuns.Run, owner: string, member: P.Persona)

  /** The worker holds the run and has routed it, or is about to. */
  predicate IsTrying(s: State, a: Try) {
    && Holds(s, a.w, a.held)
    && C.Worker(a.w) in s.routing.attempts
    && var b := s.routing.attempts[C.Worker(a.w)];
    !b.Refused? && b.asked == AskedFor(a.held.request) && b.owner == a.owner && b.member == a.member
  }

  predicate IsTryingAt(run: seq<State>, i: nat, a: Try) { i < |run| && IsTrying(run[i], a) }

  /** The conversation it goes to. */
  function Goal(a: Try): Key { Own(a.member.name, Base(a.held.request)) }

  /** A message in the log was there before or is in this conversation. */
  predicate IsExplained(before: Messages, now: Messages, id: string, key: Key) {
    && (id in before ==> id in now && now[id] == before[id])
    && (id in now && id !in before ==> now[id].scope.key == key)
  }

  /** The attempt that is going on at `g` read, with step `r`, the owner saved then; and the
      message was in the log by then, or is where the attempt goes. */
  ghost predicate HasTried(run: seq<State>, a: Try, r: nat, before: State, g: nat) {
    && r < g < |run| && Runs.IsAt(run, r, before)
    && C.Worker(a.w) !in before.routing.attempts
    && a.owner == Routing.Owner(before.routing, Base(a.held.request))
    && (forall k: nat :: r < k <= g ==> IsTryingAt(run, k, a))
    && IsExplained(
         before.talk.messages, run[g].talk.messages, a.held.request.messageID, Goal(a))
  }

  /** While a worker is at a run, only its own call stores the run's message. */
  lemma OnlyOwnStores(s: State, s': State, a: Try)
    requires Stands(s) && Fits(s) && Passes(s, s') && IsTrying(s, a)
    ensures IsExplained(s.talk.messages, s'.talk.messages, a.held.request.messageID, Goal(a))
  {
    var id := a.held.request.messageID;
    TheyPass(s, s');
    TheyFit(s);
    HeldIsSubmitted(s, a.w, a.held);
    assert LogPasses(s, s', id);
    hide Passes;
    hide Stands;
    hide Fits;
    if id in s'.talk.messages && id !in s.talk.messages {
      var u :| Adds(s, s', u, id);
      assert IsReplyID(ReplyID(s.talk.threads[u].input.id));
      CallIsOwn(s, u, s.talk.threads[u].input, a);
    }
    hide RunQueue.RowsLater;
    hide ReplyID;
  }

  lemma HeldIsSubmitted(s: State, w: nat, held: MessageRuns.Run)
    requires RowsStand(s) && HeldStand(s) && Holds(s, w, held)
    ensures C.IsIncomingID(held.request.messageID) && held.request.messageID !in s.site.webex
    ensures HasRequest(s, held.request)
  {
    assert HeldStands(s, w, held);
    hide C.IsIncomingID;
  }

  /** The call that carries the held run's message is the worker's own. */
  lemma CallIsOwn(s: State, u: C.Tid, input: C.Input, a: Try)
    requires HeldStand(s) && CallsStand(s) && AttemptsFit(s) && CallsFit(s) && IsTrying(s, a)
    requires a.held.request.messageID !in s.site.webex
    requires Carries(s, u, input) && input.id == a.held.request.messageID
    ensures u == C.Worker(a.w) && IsRouted(s, u) && input.scope.key == Goal(a)
  {
    assert CallStands(s, u, input);
    assert u.Worker?;
    assert Holds(s, u.index, s.queue.workers[u.index].run);
    assert AttemptFits(s, u);
    hide KeyText;
    hide Routing.IsChoice;
  }

  /** What is going on after a step went on before it or has just been chosen. */
  lemma WasTrying(s: State, s': State, a: Try)
    requires Fits(s) && Passes(s, s') && IsTrying(s', a)
    ensures if C.Worker(a.w) in s.routing.attempts then IsTrying(s, a)
      else
        && a.owner == Routing.Owner(s.routing, Base(a.held.request))
        && s'.talk.messages == s.talk.messages
  {
    var t := C.Worker(a.w);
    TheyPass(s, s');
    TheyFitToo(s, t);
    assert AttemptPasses(s, s', t) && HoldPasses(s, s', a.w);
    hide Passes;
    hide Fits;
    hide Routing.IsChoice;
    hide KeyText;
    hide Keeps;
  }

  lemma TheyFitToo(s: State, t: C.Tid)
    requires Fits(s)
    ensures AttemptFits(s, t)
  {
    hide AttemptFits;
    hide OwnersOk;
    hide CallsFit;
    hide MessagesFit;
  }

  lemma {:induction false} TryBegan(run: seq<State>, i: nat, s': State, a: Try)
    returns (r: nat, before: State)
    requires IsTraced(run) && Runs.IsAt(run, i, s') && IsTrying(s', a)
    ensures HasTried(run, a, r, before, i)
  {
    hide *;
    var h, s := TracedBack(run, i, s');
    assert i > 0 by { if i == 0 { NobodyTries(s', a); } }
    EveryStateFits(run, h, s);
    WasTrying(s, s', a);
    if C.Worker(a.w) in s.routing.attempts {
      r, before := TryBegan(run, h, s, a);
      OnlyOwnStores(s, s', a);
      TryGoesOn(run, a, r, before, h, s, i, s');
    } else {
      r, before := h, s;
      TryIsNew(run, a, r, before, i, s');
    }
  }

  lemma NobodyTries(s: State, a: Try)
    requires StartsEmpty(s)
    ensures !IsTrying(s, a)
  {
  }

  lemma TryGoesOn(
    run: seq<State>, a: Try, r: nat, before: State, i: nat, s: State, j: nat, s': State)
    requires HasTried(run, a, r, before, i) && Runs.AreNext(run, i, s, j, s')
    requires IsTrying(s', a)
    requires IsExplained(s.talk.messages, s'.talk.messages, a.held.request.messageID, Goal(a))
    ensures HasTried(run, a, r, before, j)
  {
    hide IsTrying;
    hide Base;
  }

  lemma TryIsNew(run: seq<State>, a: Try, r: nat, before: State, i: nat, s: State)
    requires Runs.AreNext(run, r, before, i, s) && IsTrying(s, a)
    requires C.Worker(a.w) !in before.routing.attempts
    requires a.owner == Routing.Owner(before.routing, Base(a.held.request))
    requires s.talk.messages == before.talk.messages
    ensures HasTried(run, a, r, before, i)
  {
    hide IsTrying;
    hide Base;
  }

  // ---- the reply ----------------------------------------------------------------

  /** With this step the worker's call stores the reply to its message, in the conversation
      the attempt goes to. */
  predicate StoresReply(s: State, s': State, a: Try) {
    var id := a.held.request.messageID;
    && IsAnswering(s, C.Worker(a.w)) && IsTrying(s, a)
    && ReplyID(id) !in s.talk.messages && id in s.talk.messages
    && IsLogged(s', ReplyID(id), Goal(a))
  }

  predicate Replies(run: seq<State>, g: nat, a: Try) {
    g + 1 < |run| && StoresReply(run[g], run[g + 1], a)
  }

  /** The reply to a submitted message was stored by a worker that held its run and had
      routed it; `now` is a later state, which has the row of the request. */
  lemma {:induction false} ReplyCameFrom(
    run: seq<State>, i: nat, s': State, now: State, request: MessageRuns.Request)
    returns (g: nat, s: State, replied: State, a: Try)
    requires IsTraced(run) && Runs.IsAt(run, i, s') && Keeps(s', now)
    requires RowsStand(now) && HasRequest(now, request)
    requires ReplyID(request.messageID) in s'.talk.messages
    ensures g < i && Replies(run, g, a) && a.held.request == request
    ensures Runs.IsAt(run, g, s) && Runs.IsAt(run, g + 1, replied) && StoresReply(s, replied, a)
  {
    hide *;
    var h, before := TracedBack(run, i, s');
    assert i > 0 by { if i == 0 { NothingLogged(s'); } }
    PassesKeeps(before, s');
    KeepsOn(before, s', now);
    if ReplyID(request.messageID) in before.talk.messages {
      g, s, replied, a := ReplyCameFrom(run, h, before, now, request);
    } else {
      EveryStateFits(run, h, before);
      g, s, replied := h, before, s';
      a := NewReply(s, s', now, request);
      RepliesThere(run, g, s, i, s', a);
    }
  }

  lemma NothingLogged(s: State)
    requires StartsEmpty(s)
    ensures s.talk.messages == map[]
  {
  }

  lemma RepliesThere(run: seq<State>, g: nat, s: State, j: nat, s': State, a: Try)
    requires Runs.AreNext(run, g, s, j, s') && StoresReply(s, s', a)
    ensures Replies(run, g, a)
  {
    hide StoresReply;
  }

  lemma NewReply(s: State, s': State, now: State, request: MessageRuns.Request) returns (a: Try)
    requires Stands(s) && Fits(s) && Passes(s, s') && Keeps(s, now)
    requires RowsStand(now) && HasRequest(now, request)
    requires ReplyID(request.messageID) !in s.talk.messages
    requires ReplyID(request.messageID) in s'.talk.messages
    ensures StoresReply(s, s', a) && a.held.request == request
  {
    var k := ReplyID(request.messageID);
    TheyPass(s, s');
    TheyFit(s);
    RequestIsSubmitted(now, request);
    assert LogPasses(s, s', k);
    assert IsReplyID(k);
    hide Passes;
    hide Stands;
    hide Fits;
    var u :| Adds(s, s', u, k);
    var input := s.talk.threads[u].input;
    assert Carries(s, u, input) && CallStands(s, u, input);
    ReplyIDInjective(request.messageID, input.id);
    hide ReplyID;
    a := AttemptOf(s, u, input, now, request);
  }

  lemma RequestIsSubmitted(s: State, request: MessageRuns.Request)
    requires RowsStand(s) && HasRequest(s, request)
    ensures C.IsIncomingID(request.messageID) && request.messageID !in s.site.webex
  {
    hide C.IsIncomingID;
  }

  lemma AttemptOf(
    s: State, u: C.Tid, input: C.Input, now: State, request: MessageRuns.Request)
    returns (a: Try)
    requires HeldStand(s) && AttemptsFit(s) && CallsFit(s) && Keeps(s, now)
    requires RowsStand(now) && HasRequest(now, request) && request.messageID !in s.site.webex
    requires Carries(s, u, input) && CallStands(s, u, input) && input.id == request.messageID
    ensures u == C.Worker(a.w) && IsTrying(s, a) && a.held.request == request
    ensures input.scope.key == Goal(a)
  {
    assert u.Worker? && IsRouted(s, u) && AttemptFits(s, u);
    var held, b := s.queue.workers[u.index].run, s.routing.attempts[u];
    a := Try(u.index, held, b.owner, b.member);
    assert Holds(s, a.w, held) && HeldStands(s, a.w, held);
    var id :| id in now.queue.rows && now.queue.rows[id].request == request;
    assert RunQueue.RowLater(s.queue.rows[held.id], now.queue.rows[held.id]);
    assert AreOfOneMessage(now.queue.rows, held.id, id);
    hide KeyText;
    hide Routing.IsChoice;
  }

  // ---- together or apart -------------------------------------------------------

  /** The message is in the log, and not in its owner's conversation. */
  predicate IsElsewhere(s: State, request: MessageRuns.Request) {
    && request.messageID in s.talk.messages
    && s.talk.messages[request.messageID].scope.key !=
         Own(Routing.Owner(s.routing, Base(request)), Base(request))
  }

  ghost predicate MentionsNobody(s: State, request: MessageRuns.Request) {
    P.NoHit(s.site.roster, P.MentionsFrom(request.text, 0))
  }

  /** Two attempts at one request, the second of which read the owner saved in `s`. */
  lemma AttemptsApart(s: State, key: Key, request: MessageRuns.Request, member: P.Persona)
    requires OwnersOk(s) && IsPlaced(s, key, request)
    requires Routing.IsChoice(
      s.site.roster, AskedFor(request), Routing.Owner(s.routing, Base(request)), member)
    ensures key != Own(member.name, Base(request)) <==>
      && request.persona == "" && MentionsNobody(s, request)
      && key != Own(Routing.Owner(s.routing, Base(request)), Base(request))
  {
    var base, roster := Base(request), s.site.roster;
    hide Routing.IsChoice;
    hide KeyText;
    hide P.NoHit;
    hide P.MentionsFrom;
    var first, a :| IsPlacedBy(s, key, request, first, a);
    var owner :| Routing.IsMember(roster, owner) && owner.name == s.routing.owners[base];
    hide Routing.IsMember;
    hide Routing.IsLoaded;
    Routing.ChoicesApart(roster, AskedFor(request), first, a, owner, member);
  }

  /** A submitted message and its reply lie in different conversations exactly when the
      message asks for no persona and mentions no enabled member, and was in the log, in
      another conversation than that of the saved owner of its transport key, when the
      attempt that answered it read that owner (step `r`). */
  lemma ApartExactly(run: seq<State>, i: nat, s: State, request: MessageRuns.Request)
    returns (before: State, r: nat, g: nat, a: Try, key: Key, reply: Key)
    requires IsRun(run) && Runs.IsAt(run, i, s) && HasRequest(s, request)
    requires ReplyID(request.messageID) in s.talk.messages
    ensures g < i && Replies(run, g, a) && a.held.request == request
    ensures HasTried(run, a, r, before, g)
    ensures AreLogged(s, request.messageID, key, reply)
    ensures key != reply <==>
      request.persona == "" && MentionsNobody(s, request) && IsElsewhere(before, request)
  {
    hide *;
    RunIsTraced(run);
    before, r, g, a, key, reply := ApartAt(run, i, s, request);
  }

  lemma ApartAt(run: seq<State>, i: nat, s: State, request: MessageRuns.Request)
    returns (before: State, r: nat, g: nat, a: Try, key: Key, reply: Key)
    requires IsTraced(run) && Runs.IsAt(run, i, s) && HasRequest(s, request)
    requires ReplyID(request.messageID) in s.talk.messages
    ensures g < i && Replies(run, g, a) && a.held.request == request
    ensures HasTried(run, a, r, before, g)
    ensures AreLogged(s, request.messageID, key, reply)
    ensures key != reply <==>
      request.persona == "" && MentionsNobody(s, request) && IsElsewhere(before, request)
  {
    hide *;
    EveryStateFits(run, i, s);
    TheyFit(s);
    KeepsItself(s);
    var answering, replied;
    g, answering, replied, a := ReplyCameFrom(run, i, s, s, request);
    IsAtIt(answering, replied, a);
    r, before := TryBegan(run, g, answering, a);
    TriedBefore(run, a, r, before, g, answering);
    EveryStateFits(run, r, before);
    EveryStateFits(run, g, answering);
    TheyFit(before);
    TheyFitToo(answering, C.Worker(a.w));
    KeptFrom(run, r, before, i, s);
    KeptFrom(run, g, answering, i, s);
    KeptFrom(run, g + 1, replied, i, s);
    key, reply := ApartThere(s, before, answering, replied, request, a);
  }

  lemma IsAtIt(s: State, s': State, a: Try)
    requires StoresReply(s, s', a)
    ensures IsTrying(s, a)
  {
    hide IsTrying;
  }

  lemma ApartThere(
    s: State, before: State, answering: State, replied: State, request: MessageRuns.Request,
    a: Try)
    returns (key: Key, reply: Key)
    requires StoresReply(answering, replied, a) && a.held.request == request
    requires a.owner == Routing.Owner(before.routing, Base(request))
    requires IsExplained(
      before.talk.messages, answering.talk.messages, request.messageID, Goal(a))
    requires HasRequest(s, request) && RowsStand(s)
    requires OwnersOk(before) && MessagesFit(before) && AttemptFits(answering, C.Worker(a.w))
    requires Keeps(before, s) && Keeps(answering, s) && Keeps(replied, s)
    ensures AreLogged(s, request.messageID, key, reply)
    ensures key != reply <==>
      request.persona == "" && MentionsNobody(s, request) && IsElsewhere(before, request)
  {
    var id := request.messageID;
    key, reply := s.talk.messages[id].scope.key, Goal(a);
    assert Routing.IsChoice(s.site.roster, AskedFor(request), a.owner, a.member);
    if id in before.talk.messages {
      hide Routing.IsChoice;
      hide KeyText;
      hide P.NoHit;
      hide P.MentionsFrom;
      RequestIsPlaced(before, s, request, id, key);
      AttemptsApart(before, key, request, a.member);
    }
    hide MessagesFit;
    hide OwnersOk;
    hide RowsStand;
    hide ReplyID;
    hide Routing.IsChoice;
    hide RunQueue.RowsLater;
  }

  lemma TriedBefore(run: seq<State>, a: Try, r: nat, before: State, g: nat, s: State)
    requires HasTried(run, a, r, before, g) && Runs.IsAt(run, g, s)
    ensures r < g && Runs.IsAt(run, r, before)
    ensures a.owner == Routing.Owner(before.routing, Base(a.held.request))
    ensures IsExplained(
      before.talk.messages, s.talk.messages, a.held.request.messageID, Goal(a))
  {
    hide IsTryingAt;
    hide Base;
  }

  // ---- which takes another owner -----------------------------------------------

  /** With this step the call `t` makes another member the owner of a key that `name` owned. */
  predicate TakesOver(s: State, s': State, t: C.Tid, base: string, name: string) {
    && base in s.routing.owners && s.routing.owners[base] == name
    && t in s.routing.attempts && s.routing.attempts[t].Chosen?
    && s.routing.attempts[t].asked.base == base && s.routing.attempts[t].member.name != name
    && s'.routing.owners == s.routing.owners[base := s.routing.attempts[t].member.name]
  }

  predicate IsTakenOver(run: seq<State>, k: nat, t: C.Tid, base: string, name: string) {
    k + 1 < |run| && TakesOver(run[k], run[k + 1], t, base, name)
  }

  predicate Owns(s: State, base: string, name: string) {
    base in s.routing.owners && s.routing.owners[base] == name
  }

  /** What is saved together was owned at some time. */
  lemma {:induction false} WasOwner(
    run: seq<State>, i: nat, s': State, base: string, name: string)
    returns (j: nat, s: State)
    requires IsTraced(run) && Runs.IsAt(run, i, s') && (base, name) in s'.routing.saved
    ensures j <= i && Runs.IsAt(run, j, s) && Owns(s, base, name)
  {
    hide *;
    var h, before := TracedBack(run, i, s');
    assert i > 0 by { if i == 0 { NothingSaved(s'); } }
    if (base, name) in before.routing.saved {
      j, s := WasOwner(run, h, before, base, name);
    } else {
      j, s := i, s';
      TheyPass(before, s');
      NewOwner(before, s', base, name);
    }
  }

  lemma NothingSaved(s: State)
    requires StartsEmpty(s)
    ensures s.routing.saved == {}
  {
  }

  lemma NewOwner(s: State, s': State, base: string, name: string)
    requires OwnersPass(s, s') && (base, name) in s'.routing.saved - s.routing.saved
    ensures Owns(s', base, name)
  {
  }

  /** From an owner to another: some step took the key over. */
  lemma {:induction false} OwnerChanged(
    run: seq<State>, j: nat, owned: State, r: nat, s': State, base: string, name: string)
    returns (k: nat, t: C.Tid)
    requires IsTraced(run) && Runs.IsAt(run, j, owned) && Runs.IsAt(run, r, s') && j <= r
    requires Owns(owned, base, name) && Routing.Owner(s'.routing, base) != name
    ensures j <= k < r && IsTakenOver(run, k, t, base, name)
    decreases r
  {
    hide *;
    assert j < r by { if j == r { StillOwned(run, j, owned, s', base, name); } }
    var h, s := TracedBack(run, r, s');
    TheyPass(s, s');
    if Routing.Owner(s.routing, base) != name {
      k, t := OwnerChanged(run, j, owned, h, s, base, name);
    } else {
      k := h;
      StaysOwned(run, j, owned, k, s, base, name);
      t := IsTaken(run, k, s, r, s', base, name);
    }
  }

  lemma StillOwned(
    run: seq<State>, j: nat, s: State, s': State, base: string, name: string)
    requires Runs.IsAt(run, j, s) && Runs.IsAt(run, j, s') && Owns(s, base, name)
    ensures Routing.Owner(s'.routing, base) == name
  {
  }

  lemma IsTaken(
    run: seq<State>, k: nat, s: State, r: nat, s': State, base: string, name: string)
    returns (t: C.Tid)
    requires Runs.AreNext(run, k, s, r, s') && OwnersPass(s, s') && base in s.routing.owners
    requires Routing.Owner(s.routing, base) == name != Routing.Owner(s'.routing, base)
    ensures IsTakenOver(run, k, t, base, name)
  {
    t :| Saves(s, s', t);
  }

  /** A key never loses its owner without getting another. */
  lemma {:induction false} StaysOwned(
    run: seq<State>, j: nat, owned: State, k: nat, s': State, base: string, name: string)
    requires IsTraced(run) && Runs.IsAt(run, j, owned) && Runs.IsAt(run, k, s') && j <= k
    requires Owns(owned, base, name)
    ensures base in s'.routing.owners
    decreases k
  {
    hide *;
    if j < k {
      var h, s := TracedBack(run, k, s');
      StaysOwned(run, j, owned, h, s, base, name);
      TheyPass(s, s');
      OwnerIsKept(s, s', base);
    } else {
      SameMoment(run, j, owned, s');
      IsOwned(owned, base, name);
    }
  }

  lemma OwnerIsKept(s: State, s': State, base: string)
    requires OwnersPass(s, s') && base in s.routing.owners
    ensures base in s'.routing.owners
  {
  }

  lemma IsOwned(s: State, base: string, name: string)
    requires Owns(s, base, name)
    ensures base in s.routing.owners
  {
  }

  /** So a message and its reply come apart only when, before the answering attempt read the
      owner, a call had taken the key over from the persona whose conversation has the
      message. */
  lemma ApartNeedsTakeover(
    run: seq<State>, i: nat, s: State, request: MessageRuns.Request, key: Key, reply: Key)
    returns (k: nat, t: C.Tid, r: nat, before: State, g: nat, a: Try, p: string)
    requires IsRun(run) && Runs.IsAt(run, i, s) && HasRequest(s, request)
    requires AreLogged(s, request.messageID, key, reply) && key != reply
    ensures k < r && g < i && Replies(run, g, a) && a.held.request == request
    ensures HasTried(run, a, r, before, g) && key == Own(p, Base(request))
    ensures IsTakenOver(run, k, t, Base(request), p)
  {
    hide *;
    RunIsTraced(run);
    LoggedIs(s, request.messageID, key, reply);
    var key', reply';
    before, r, g, a, key', reply' := ApartAt(run, i, s, request);
    SameKeys(s, request.messageID, key, reply, key', reply');
    TriedAt(run, a, r, before, g);
    EveryStateFits(run, r, before);
    EveryStateFits(run, i, s);
    TheyFit(before);
    TheyFit(s);
    KeptFrom(run, r, before, i, s);
    p := WasSaved(before, s, request, key);
    var j, owned := WasOwner(run, r, before, Base(request), p);
    k, t := OwnerChanged(run, j, owned, r, before, Base(request), p);
  }

  lemma TriedAt(run: seq<State>, a: Try, r: nat, before: State, g: nat)
    requires HasTried(run, a, r, before, g)
    ensures r < g && Runs.IsAt(run, r, before)
  {
    hide IsTryingAt;
    hide Base;
  }

  lemma LoggedIs(s: State, id: string, key: Key, reply: Key)
    requires AreLogged(s, id, key, reply)
    ensures id in s.talk.messages && ReplyID(id) in s.talk.messages
    ensures IsLogged(s, id, key)
  {
  }

  lemma SameKeys(s: State, id: string, key: Key, reply: Key, key': Key, reply': Key)
    requires AreLogged(s, id, key, reply) && AreLogged(s, id, key', reply')
    ensures key == key' && reply == reply'
  {
  }

  lemma WasSaved(s: State, now: State, request: MessageRuns.Request, key: Key) returns (p: string)
    requires MessagesFit(s) && RowsStand(now) && HasRequest(now, request) && Keeps(s, now)
    requires IsElsewhere(s, request) && IsLogged(now, request.messageID, key)
    ensures key == Own(p, Base(request)) && (Base(request), p) in s.routing.saved
    ensures Routing.Owner(s.routing, Base(request)) != p
  {
    assert IsLogged(s, request.messageID, key);
    RequestIsPlaced(s, now, request, request.messageID, key);
    hide MessagesFit;
    hide RowsStand;
    hide Keeps;
    hide Routing.IsChoice;
    hide KeyText;
    var owner, m :| IsPlacedBy(s, key, request, owner, m);
    p := m.name;
  }
}
