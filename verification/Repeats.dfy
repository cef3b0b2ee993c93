/** A submitted message is prompted again for as long as its row is not over and its reply
    is not stored; and no longer. */
module Repeats {
  import opened Wrappers
  import opened Tables
  import opened EndToEnd
  import opened Transitions
  import C = Conversations
  import ConversationInvariant
  import EndToEndRuns
  import MessageRuns
  import Origins
  import P = Personas
  import Retries
  import Routing
  import RunQueue
  import Runs

  /** The one worker of a restart, and the second of two. */
  const FIRST: nat := 0
  const SECOND: nat := 1

  // ---- paths ------------------------------------------------------------------

  /** Steps of the machine lead from one state to the other, which keeps the invariant. */
  ghost predicate Comes(from: State, s: State) { Runs.Leads(Next, from, s) && Inv(s) }

  lemma ComesItself(s: State)
    requires Inv(s)
    ensures Comes(s, s)
  {
    hide Inv;
    Runs.LeadsItself(Next, s);
  }

  /** One step more. */
  lemma GoesOn(from: State, s: State, s': State)
    requires Comes(from, s) && Next(s, s')
    ensures Comes(from, s')
  {
    hide Inv;
    hide Next;
    hide Runs.Leads;
    NextOk(s, s');
    Runs.LeadsOn(Next, from, s, s');
  }

  lemma IsStep(s: State, step: Step, s': State)
    requires Do(s, step, s')
    ensures Next(s, s')
  {
    hide Do;
  }

  lemma RunGoesOn(run: seq<State>, s: State, s': State) returns (longer: seq<State>)
    requires IsRun(run) && Runs.IsLast(run, s) && Comes(s, s')
    ensures IsRun(longer) && Runs.IsLast(longer, s') && run <= longer
  {
    hide Runs.IsRun;
    hide Runs.Leads;
    hide Inv;
    hide Next;
    hide Init;
    longer := Runs.RunLeadsOn(Init, Next, run, s, s');
  }

  lemma LastIsOk(run: seq<State>, s: State)
    requires IsRun(run) && Runs.IsLast(run, s)
    ensures Inv(s)
  {
    hide IsRun;
    hide Inv;
    StateOk(run, s);
  }

  // ---- single steps -----------------------------------------------------------

  ghost predicate Works(s: State, s': State, w: nat, action: RunQueue.Action) {
    && RunQueue.CanWork(s.queue, w, action)
    && s' == s.(queue := RunQueue.AfterWork(s.queue, w, action))
  }

  /** A worker takes a step of the queue. */
  lemma WorkerSteps(from: State, s: State, w: nat, action: RunQueue.Action) returns (s': State)
    requires Comes(from, s) && RunQueue.CanWork(s.queue, w, action) && !action.Return?
    ensures Comes(from, s') && Works(s, s', w, action)
  {
    hide Comes;
    hide RunQueue.CanWork;
    hide RunQueue.AfterWork;
    s' := s.(queue := RunQueue.AfterWork(s.queue, w, action));
    IsStep(s, QueueStep(RunQueue.Work(w, action)), s');
    GoesOn(from, s, s');
  }

  ghost predicate HasTaken(s: State, s': State, t: C.Tid, e: Routing.Event) {
    && Routing.CanDo(s.site.roster, s.routing, t, e)
    && s' == s.(routing := Routing.After(s.site.roster, s.routing, t, e))
  }

  /** A call takes a step of its routing. */
  lemma Routes(from: State, s: State, t: C.Tid, e: Routing.Event) returns (s': State)
    requires Comes(from, s) && CanRoute(s, t, e)
    ensures Comes(from, s') && HasTaken(s, s', t, e)
  {
    hide Comes;
    s' := s.(routing := Routing.After(s.site.roster, s.routing, t, e));
    IsStep(s, RouteStep(t, e), s');
    GoesOn(from, s, s');
  }

  lemma ActsOn(from: State, s: State, t: C.Tid, e: C.Event) returns (s': State)
    requires Comes(from, s) && C.CanAct(s.talk, t, e)
    ensures Comes(from, s') && s' == s.(talk := C.Act(s.talk, t, e))
  {
    hide Comes;
    s' := s.(talk := C.Act(s.talk, t, e));
    IsStep(s, TalkStep(C.ActStep(t, e)), s');
    GoesOn(from, s, s');
  }

  // ---- routing ----------------------------------------------------------------

  /** The accepted request of a row can be routed. */
  lemma RowIsKnown(s: State, row: MessageRuns.Run)
    requires Inv(s) && HasRow(s, row)
    ensures Routing.IsLoaded(s.site.roster) && Routing.IsKnown(s.site.roster, row.request.persona)
    ensures KeyText(row.request.scope.key) != ""
  {
    assert RowLinked(s, row.id);
    hide Parts;
    hide Linked;
  }

  /** Whom the request is routed to by the owners saved. */
  ghost predicate IsChosen(
    roster: seq<P.Persona>, owners: map<string, string>, request: MessageRuns.Request,
    member: P.Persona)
  {
    var base := KeyText(request.scope.key);
    Routing.IsChoice(roster, AskedFor(request), if base in owners then owners[base] else "", member)
  }

  function Chosen(
    routing: Routing.State, request: MessageRuns.Request, member: P.Persona): Routing.Attempt
  {
    var asked := AskedFor(request);
    Routing.Chosen(asked, Routing.Owner(routing, asked.base), member)
  }

  /** The worker's call is routed to the member; the outcome of storing that is given. */
  predicate IsSaved(
    s: State, s': State, w: nat, request: MessageRuns.Request, member: P.Persona,
    outcome: Outcome)
  {
    s' == s.(routing :=
      Routing.AfterSave(s.routing, C.Worker(w), Chosen(s.routing, request, member), outcome))
  }

  predicate IsUnrouted(s: State, t: C.Tid) { t !in s.talk.threads && t !in s.routing.attempts }

  /** The run that a worker holds is routed, by the owner saved so far, to somebody. */
  lemma RunIsRouted(from: State, s: State, w: nat, row: MessageRuns.Run, outcome: Outcome)
    returns (member: P.Persona, s': State)
    requires Comes(from, s) && Holds(s, w, row) && HasRow(s, row) && IsUnrouted(s, C.Worker(w))
    ensures Comes(from, s') && IsSaved(s, s', w, row.request, member, outcome)
    ensures IsChosen(s.site.roster, s.routing.owners, row.request, member)
  {
    hide *;
    var t := C.Worker(w);
    member := SomebodyChosen(from, s, w, row);
    var s1 := Routes(from, s, t, Routing.Choose(AskedFor(row.request), member));
    ChosenIsThere(s, s1, w, row.request, member);
    s' := Routes(from, s1, t, Routing.Save(outcome));
    ThenSaved(s, s1, s', w, row.request, member, outcome);
  }

  lemma SomebodyChosen(from: State, s: State, w: nat, row: MessageRuns.Run)
    returns (member: P.Persona)
    requires Comes(from, s) && Holds(s, w, row) && HasRow(s, row) && IsUnrouted(s, C.Worker(w))
    ensures IsChosen(s.site.roster, s.routing.owners, row.request, member)
    ensures CanRoute(s, C.Worker(w), Routing.Choose(AskedFor(row.request), member))
  {
    RowIsKnown(s, row);
    hide Comes;
    var asked := AskedFor(row.request);
    member := Routing.ChoiceExists(s.site.roster, asked, Routing.Owner(s.routing, asked.base));
    hide Routing.IsChoice;
    hide Routing.IsLoaded;
    hide KeyText;
  }

  predicate IsChosenBy(
    s: State, s1: State, w: nat, request: MessageRuns.Request, member: P.Persona)
  {
    s1 == s.(routing := s.routing.(attempts :=
      s.routing.attempts[C.Worker(w) := Chosen(s.routing, request, member)]))
  }

  lemma ChosenIsThere(
    s: State, s1: State, w: nat, request: MessageRuns.Request, member: P.Persona)
    requires HasTaken(s, s1, C.Worker(w), Routing.Choose(AskedFor(request), member))
    requires IsUnrouted(s, C.Worker(w))
    ensures IsChosenBy(s, s1, w, request, member)
    ensures forall outcome :: CanRoute(s1, C.Worker(w), Routing.Save(outcome))
  {
    hide Routing.IsChoice;
    hide KeyText;
  }

  lemma ThenSaved(
    s: State, s1: State, s': State, w: nat, request: MessageRuns.Request, member: P.Persona,
    outcome: Outcome)
    requires IsChosenBy(s, s1, w, request, member)
    requires HasTaken(s1, s', C.Worker(w), Routing.Save(outcome))
    ensures IsSaved(s, s', w, request, member, outcome)
  {
    hide KeyText;
    var t := C.Worker(w);
    assert s1.routing.attempts[t := s'.routing.attempts[t]] ==
      s.routing.attempts[t := s'.routing.attempts[t]];
  }

  // ---- a restart and its one worker -------------------------------------------

  predicate IsQueuedAs(s: State, id: string, request: MessageRuns.Request) {
    id in s.queue.rows && s.queue.rows[id].status.Queued? && s.queue.rows[id].request == request
  }

  /** What a restart leaves of the conversations and the routes. */
  datatype Rest = Rest(talk: C.State, owners: map<string, string>)

  predicate IsAtRest(s: State, rest: Rest) {
    && s.talk == rest.talk && rest.talk.threads == map[] && rest.talk.locks == map[]
    && s.routing.owners == rest.owners && s.routing.attempts == map[]
  }

  /** One worker is about to claim, the row is queued, and no call is in progress. */
  predicate IsReady(s: State, rest: Rest, id: string, request: MessageRuns.Request) {
    IsWaiting(s, rest) && IsQueuedAs(s, id, request)
  }

  predicate IsWaiting(s: State, rest: Rest) {
    IsAtRest(s, rest) && s.queue.workers == [RunQueue.Claiming] && !s.queue.cancelled
  }

  /** The row is there and not over. */
  predicate IsUnfinished(s: State, id: string, request: MessageRuns.Request) {
    && id in s.queue.rows && s.queue.rows[id].request == request
    && !MessageRuns.IsTerminal(s.queue.rows[id].status)
  }

  /** The process stops and starts again with one worker, which is woken. */
  lemma Restarts(s: State, id: string, request: MessageRuns.Request) returns (s': State)
    requires Inv(s) && IsUnfinished(s, id, request)
    ensures Comes(s, s') && s'.site == s.site
    ensures IsReady(s', Rest(C.Crash(s.talk), s.routing.owners), id, request)
  {
    hide *;
    ComesItself(s);
    var s1 := Crashes(s, id, request);
    GoesOn(s, s, s1);
    var s2 := Wakes(s1);
    GoesOn(s, s1, s2);
    MayTake(s1, s2);
    s' := WorkerSteps(s, s2, FIRST, RunQueue.TakeToken);
    ThenReady(s1, s2, s', Rest(C.Crash(s.talk), s.routing.owners), id, request);
  }

  /** Woken, its one worker can take the token. */
  lemma MayTake(s: State, s': State)
    requires s.queue.workers == [RunQueue.Idle] && s.queue.starter && !s.queue.cancelled
    requires s' == s.(queue := s.queue.(wake := true, starter := false))
    ensures RunQueue.CanWork(s'.queue, FIRST, RunQueue.TakeToken)
  {
  }

  lemma ThenReady(
    s1: State, s2: State, s': State, rest: Rest, id: string, request: MessageRuns.Request)
    requires IsAtRest(s1, rest) && IsQueuedAs(s1, id, request) && !s1.queue.cancelled
    requires s1.queue.workers == [RunQueue.Idle]
    requires s2 == s1.(queue := s1.queue.(wake := true, starter := false))
    requires Works(s2, s', FIRST, RunQueue.TakeToken)
    ensures IsReady(s', rest, id, request) && s'.site == s1.site
  {
    assert s'.queue.workers == [RunQueue.Claiming];
  }

  lemma Crashes(s: State, id: string, request: MessageRuns.Request) returns (s': State)
    requires IsUnfinished(s, id, request)
    ensures Next(s, s') && s'.site == s.site
    ensures IsAtRest(s', Rest(C.Crash(s.talk), s.routing.owners)) && IsQueuedAs(s', id, request)
    ensures s'.queue.workers == [RunQueue.Idle] && s'.queue.starter && !s'.queue.cancelled
  {
    s' := s.(queue := RunQueue.Restarted(s.queue.rows, 1), talk := C.Crash(s.talk),
      routing := Routing.Crashed(s.routing));
    assert s'.queue.workers == [RunQueue.Idle];
    IsStep(s, Crash(1), s');
  }

  lemma Wakes(s: State) returns (s': State)
    requires s.queue.starter
    ensures Next(s, s')
    ensures s' == s.(queue := s.queue.(wake := true, starter := false))
  {
    s' := s.(queue := s.queue.(wake := true, starter := false));
    IsStep(s, QueueStep(RunQueue.StarterWake), s');
  }

  /** What claiming and reading a run leaves. */
  predicate IsClaimedBy(s: State, s': State, w: nat, id: string, row: MessageRuns.Run) {
    && id in s.queue.rows && w < |s.queue.workers|
    && row == s.queue.rows[id].(status := MessageRuns.Running, startedAt := "")
    && s' == s.(queue := s.queue.(rows := s.queue.rows[id := row],
         workers := s.queue.workers[w := RunQueue.Holding(row)]))
  }

  predicate IsClaiming(s: State, w: nat) {
    w < |s.queue.workers| && s.queue.workers[w].Claiming?
  }

  /** The oldest run is claimed and read. */
  lemma Claims(from: State, s: State, w: nat, id: string) returns (row: MessageRuns.Run, s': State)
    requires Comes(from, s) && IsClaiming(s, w) && MessageRuns.IsOldestQueued(s.queue.rows, id)
    ensures Comes(from, s') && IsClaimedBy(s, s', w, id, row)
  {
    hide Comes;
    var s1 := WorkerSteps(from, s, w, RunQueue.ClaimOne(id, Done, ""));
    hide MessageRuns.IsOldestQueued;
    assert RunQueue.CanWork(s1.queue, w, RunQueue.Fetch(true));
    s' := WorkerSteps(from, s1, w, RunQueue.Fetch(true));
    row := s1.queue.rows[id];
    assert s1.queue.workers[w := RunQueue.Holding(row)] ==
      s.queue.workers[w := RunQueue.Holding(row)];
  }

  /** Every run is stored under its own ID. */
  lemma KeptID(from: State, s: State, k: string)
    requires Comes(from, s)
    ensures IsUnderID(s, k)
  {
    assert MessageRuns.TableOk(s.queue.rows);
    hide Comes;
  }

  predicate IsUnderID(s: State, k: string) { k in s.queue.rows ==> s.queue.rows[k].id == k }

  /** The worker holds the row, and nothing else goes on. */
  predicate IsHeld(s: State, rest: Rest, row: MessageRuns.Run) {
    && IsAtRest(s, rest) && Holds(s, FIRST, row) && HasRow(s, row) && row.status.Running?
    && IsUnrouted(s, C.Worker(FIRST))
  }

  /** The waiting worker claims the oldest run. */
  lemma IsTaken(from: State, s: State, rest: Rest, k: string)
    returns (row: MessageRuns.Run, s': State)
    requires Comes(from, s) && IsWaiting(s, rest) && MessageRuns.IsOldestQueued(s.queue.rows, k)
    ensures Comes(from, s') && IsHeld(s', rest, row) && IsClaimedBy(s, s', FIRST, k, row)
    ensures row.id == k
  {
    hide *;
    assert IsClaiming(s, FIRST) by { OneClaims(s, rest); }
    row, s' := Claims(from, s, FIRST, k);
    KeptID(from, s, k);
    ThenHeld(s, s', rest, k, row);
  }

  lemma OneClaims(s: State, rest: Rest)
    requires IsWaiting(s, rest)
    ensures IsClaiming(s, FIRST)
  {
  }

  lemma ThenHeld(s: State, s': State, rest: Rest, k: string, row: MessageRuns.Run)
    requires IsWaiting(s, rest) && IsClaimedBy(s, s', FIRST, k, row) && IsUnderID(s, k)
    ensures IsHeld(s', rest, row) && row.id == k
  {
  }

  /** A run in front of the queue is claimed, its route cannot be stored, it fails, and the
      worker looks for the next. */
  lemma FrontFails(
    from: State, s: State, rest: Rest, id: string, request: MessageRuns.Request, k: string)
    returns (s': State)
    requires Comes(from, s) && IsReady(s, rest, id, request) && k != id
    requires MessageRuns.IsOldestQueued(s.queue.rows, k)
    ensures Comes(from, s') && IsReady(s', rest, id, request) && s'.site == s.site
    ensures |MessageRuns.QueuedIDs(s'.queue.rows)| < |MessageRuns.QueuedIDs(s.queue.rows)|
  {
    hide *;
    assert IsWaiting(s, rest) by { ReadyWaits(s, rest, id, request); }
    var row, s1 := IsTaken(from, s, rest, k);
    HeldFacts(s1, rest, row);
    var member, s2 := RunIsRouted(from, s1, FIRST, row, Lost);
    var s3 := MayFail(s, s1, s2, rest, k, row, member);
    GoesOn(from, s2, s3);
    MayFinish(s, s3, rest, row);
    s' := WorkerSteps(from, s3, FIRST, RunQueue.Finish(Done, ""));
    NextInFront(s, s1, s3, s', rest, id, request, k, row);
  }

  lemma ReadyWaits(s: State, rest: Rest, id: string, request: MessageRuns.Request)
    requires IsReady(s, rest, id, request)
    ensures IsWaiting(s, rest)
  {
  }

  lemma HeldFacts(s: State, rest: Rest, row: MessageRuns.Run)
    requires IsHeld(s, rest, row)
    ensures Holds(s, FIRST, row) && HasRow(s, row) && IsUnrouted(s, C.Worker(FIRST))
  {
  }

  /** The worker is about to write that the run failed; otherwise only the run is claimed. */
  predicate IsFailing(s: State, s': State, row: MessageRuns.Run) {
    && s'.queue == s.queue.(
         rows := s.queue.rows[row.id := row], workers := [RunQueue.Failing(row.id, "")])
    && s'.talk == s.talk && s'.site == s.site
    && s'.routing.owners == s.routing.owners && s'.routing.attempts == map[]
  }

  lemma MayFail(
    s: State, s1: State, s2: State, rest: Rest, k: string, row: MessageRuns.Run,
    member: P.Persona)
    returns (s': State)
    requires IsWaiting(s, rest) && IsClaimedBy(s, s1, FIRST, k, row) && IsHeld(s1, rest, row)
    requires IsSaved(s1, s2, FIRST, row.request, member, Lost) && row.id == k
    ensures Next(s2, s') && IsFailing(s, s', row)
  {
    hide P.Found;
    hide KeyText;
    s' := s2.(queue := RunQueue.AfterReturn(s1.queue, FIRST, RunQueue.TurnErr("")),
      routing := Routing.Ended(s2.routing, C.Worker(FIRST)));
    assert s'.queue.workers == [RunQueue.Failing(row.id, "")];
    assert s'.routing.attempts == map[];
    IsStep(s2, RouteFailed(FIRST, ""), s');
  }

  lemma MayFinish(s: State, s': State, rest: Rest, row: MessageRuns.Run)
    requires IsWaiting(s, rest) && IsFailing(s, s', row)
    ensures RunQueue.CanWork(s'.queue, FIRST, RunQueue.Finish(Done, ""))
  {
  }

  /** The failed run is over, and the worker looks again. */
  lemma NextInFront(
    s: State, s1: State, s3: State, s': State, rest: Rest, id: string,
    request: MessageRuns.Request, k: string, row: MessageRuns.Run)
    requires IsReady(s, rest, id, request) && MessageRuns.IsOldestQueued(s.queue.rows, k)
    requires IsClaimedBy(s, s1, FIRST, k, row) && row.id == k && k != id
    requires IsFailing(s, s3, row) && Works(s3, s', FIRST, RunQueue.Finish(Done, ""))
    ensures IsReady(s', rest, id, request) && s'.site == s.site
    ensures |MessageRuns.QueuedIDs(s'.queue.rows)| < |MessageRuns.QueuedIDs(s.queue.rows)|
  {
    assert s'.queue.workers == [RunQueue.Claiming];
    FewerQueued(s.queue.rows, s'.queue.rows, row.id);
  }

  lemma FewerQueued(rows: MessageRuns.Rows, rows': MessageRuns.Rows, k: string)
    requires k in rows && rows[k].status.Queued?
    requires k in rows' && rows' == rows[k := rows'[k]] && !rows'[k].status.Queued?
    ensures |MessageRuns.QueuedIDs(rows')| < |MessageRuns.QueuedIDs(rows)|
  {
    assert MessageRuns.QueuedIDs(rows') == MessageRuns.QueuedIDs(rows) - {k};
    assert k in MessageRuns.QueuedIDs(rows);
  }

  /** Runs in front of it fail until it is the oldest. */
  lemma {:induction false} ComesFirst(
    from: State, s: State, rest: Rest, id: string, request: MessageRuns.Request)
    returns (s': State)
    requires Comes(from, s) && IsReady(s, rest, id, request)
    ensures Comes(from, s') && IsReady(s', rest, id, request) && s'.site == s.site
    ensures MessageRuns.IsOldestQueued(s'.queue.rows, id)
    decreases |MessageRuns.QueuedIDs(s.queue.rows)|
  {
    hide *;
    s' := s;
    if !MessageRuns.IsOldestQueued(s.queue.rows, id) {
      var k := FrontOf(from, s, rest, id, request);
      s' := FrontFails(from, s, rest, id, request, k);
      s' := ComesFirst(from, s', rest, id, request);
    }
  }

  lemma FrontOf(
    from: State, s: State, rest: Rest, id: string, request: MessageRuns.Request)
    returns (k: string)
    requires Comes(from, s) && IsReady(s, rest, id, request)
    requires !MessageRuns.IsOldestQueued(s.queue.rows, id)
    ensures MessageRuns.IsOldestQueued(s.queue.rows, k) && k != id
  {
    assert MessageRuns.TableOk(s.queue.rows);
    hide Comes;
    MessageRuns.OldestQueuedExists(s.queue.rows, id);
    k :| MessageRuns.IsOldestQueued(s.queue.rows, k);
  }

  // ---- its turn ---------------------------------------------------------------

  /** After a restart the run is claimed, those in front of it having failed. */
  lemma IsHeldAgain(s: State, id: string, request: MessageRuns.Request)
    returns (row: MessageRuns.Run, s': State)
    requires Inv(s) && IsUnfinished(s, id, request)
    ensures Comes(s, s') && s'.site == s.site && row.request == request && row.id == id
    ensures IsHeld(s', Rest(C.Crash(s.talk), s.routing.owners), row)
  {
    hide *;
    var rest := Rest(C.Crash(s.talk), s.routing.owners);
    s' := Restarts(s, id, request);
    s' := ComesFirst(s, s', rest, id, request);
    var ready := s';
    ReadyWaits(ready, rest, id, request);
    row, s' := IsTaken(s, ready, rest, id);
    RowOf(ready, s', rest, id, request, row);
  }

  lemma RowOf(
    s: State, s': State, rest: Rest, id: string, request: MessageRuns.Request,
    row: MessageRuns.Run)
    requires IsReady(s, rest, id, request) && IsClaimedBy(s, s', FIRST, id, row)
    ensures row.request == request && s'.site == s.site
  {
  }

  /** The events of one call are steps of the whole. */
  lemma {:induction false} CallGoesOn(
    from: State, s: State, t: C.Tid, path: seq<C.State>, c: C.State) returns (s': State)
    requires Comes(from, s) && Retries.IsPath(t, path, s.talk, c)
    ensures Comes(from, s') && s' == s.(talk := c) && c.threads.Keys == s.talk.threads.Keys
    decreases |path|
  {
    hide *;
    s' := s;
    if |path| > 1 {
      var e, next, rest := FirstEvent(t, path, s.talk, c);
      s' := ActsOn(from, s, t, e);
      EventKeepsCalls(s.talk, t, e);
      s' := CallGoesOn(from, s', t, rest, c);
    } else {
      PathStays(t, path, s.talk, c);
    }
  }

  lemma FirstEvent(t: C.Tid, path: seq<C.State>, s: C.State, c: C.State)
    returns (e: C.Event, next: C.State, rest: seq<C.State>)
    requires Retries.IsPath(t, path, s, c) && |path| > 1
    ensures C.CanAct(s, t, e) && next == C.Act(s, t, e)
    ensures |rest| < |path| && Retries.IsPath(t, rest, next, c)
  {
    next, rest := path[1], path[1..];
    assert Retries.ActsAt(t, path, 0);
    e :| Origins.Takes(s, next, t, e);
    hide C.CanAct;
    hide C.Act;
    forall i: nat ensures Retries.ActsAt(t, rest, i) { assert Retries.ActsAt(t, path, i + 1); }
  }

  lemma PathStays(t: C.Tid, path: seq<C.State>, s: C.State, c: C.State)
    requires Retries.IsPath(t, path, s, c) && |path| <= 1
    ensures c == s
  {
    hide Retries.ActsAt;
  }

  lemma EventKeepsCalls(s: C.State, t: C.Tid, e: C.Event)
    requires C.CanAct(s, t, e)
    ensures C.Act(s, t, e).threads.Keys == s.threads.Keys
  {
    Origins.EventTouches(s, t, e);
    hide C.CanAct;
    hide C.Act;
  }

  /** Handle has been called for the request, for this member. */
  ghost predicate HasCalled(
    s: State, s': State, rest: Rest, request: MessageRuns.Request, member: P.Persona,
    input: C.Input)
  {
    && s' == s.(talk := C.Begin(rest.talk, C.Worker(FIRST), input), routing := s'.routing)
    && s'.routing.owners == rest.owners[KeyText(request.scope.key) := member.name]
    && C.Worker(SECOND) !in s'.routing.attempts
    && input.id == request.messageID
    && input.scope.key == Own(member.name, KeyText(request.scope.key))
  }

  /** The held run is routed, and Handle called for it. */
  lemma IsCalled(from: State, s: State, rest: Rest, row: MessageRuns.Run)
    returns (member: P.Persona, input: C.Input, s': State)
    requires Comes(from, s) && IsHeld(s, rest, row)
    ensures Comes(from, s') && HasCalled(s, s', rest, row.request, member, input)
    ensures IsChosen(s.site.roster, rest.owners, row.request, member)
  {
    hide *;
    HeldFacts(s, rest, row);
    var s1;
    member, s1 := RunIsRouted(from, s, FIRST, row, Done);
    input, s' := MayCall(s, s1, rest, row, member);
    GoesOn(from, s1, s');
    HeldOwners(s, rest, row);
  }

  lemma HeldOwners(s: State, rest: Rest, row: MessageRuns.Run)
    requires IsHeld(s, rest, row)
    ensures s.routing.owners == rest.owners
  {
  }

  lemma MayCall(s: State, s1: State, rest: Rest, row: MessageRuns.Run, member: P.Persona)
    returns (input: C.Input, s': State)
    requires IsHeld(s, rest, row) && IsSaved(s, s1, FIRST, row.request, member, Done)
    ensures Next(s1, s')
    ensures HasCalled(s, s', rest, row.request, member, input)
  {
    hide KeyText;
    hide C.Begin;
    input := InputFor(row, member.name);
    s' := s1.(talk := C.Begin(rest.talk, C.Worker(FIRST), input));
    IsStep(s1, CallHandle(FIRST, member.name), s');
  }

  /** The row is not over and its message has no reply. */
  predicate IsOpen(s: State, id: string, request: MessageRuns.Request) {
    IsUnfinished(s, id, request) && ReplyID(request.messageID) !in s.talk.messages
  }

  ghost predicate OneMorePrompt(s: State, s': State, messageID: string) {
    exists p :: s'.talk.prompts == s.talk.prompts + [p] && p.messageID == messageID
  }

  /** The worker's call waits for its prompt. */
  ghost predicate HasPrompted(s: State, s': State, input: C.Input) {
    && s' == s.(talk := s'.talk) && OneMorePrompt(s, s', input.id)
    && Retries.IsAtPrompt(s'.talk, C.Worker(FIRST), input)
    && Retries.IsStoredAs(s'.talk.messages, s.talk.messages, input)
    && s'.talk.threads.Keys == s.talk.threads.Keys
    && ReplyID(input.id) !in s'.talk.messages
  }

  lemma TurnStarts(from: State, s: State, c: C.State, input: C.Input) returns (s': State)
    requires Comes(from, s) && s.talk == C.Begin(c, C.Worker(FIRST), input) && c.locks == map[]
    requires ReplyID(input.id) !in c.messages
    ensures Comes(from, s') && HasPrompted(s, s', input)
  {
    hide *;
    var t := C.Worker(FIRST);
    TalkIsOk(from, s);
    HasJustBegun(c, t, input);
    var talk, p := Retries.ComesToPrompt(s.talk, t, input);
    var path := PathOf(t, s.talk, talk);
    s' := CallGoesOn(from, s, t, path, talk);
    ThenWaiting(s, s', input, p);
  }

  lemma TalkIsOk(from: State, s: State)
    requires Comes(from, s)
    ensures ConversationInvariant.Inv(s.talk)
  {
    hide ConversationInvariant.Inv;
  }

  lemma HasJustBegun(c: C.State, t: C.Tid, input: C.Input)
    requires c.locks == map[] && ReplyID(input.id) !in c.messages
    ensures Retries.HasBegun(C.Begin(c, t, input), t, input)
    ensures input.scope.key !in C.Begin(c, t, input).locks
    ensures ConversationInvariant.Unanswered(C.Begin(c, t, input).messages, input.id)
  {
  }

  lemma PathOf(t: C.Tid, c: C.State, c': C.State) returns (path: seq<C.State>)
    requires Retries.Leads(t, c, c')
    ensures Retries.IsPath(t, path, c, c')
  {
    hide Retries.IsPath;
    path :| Retries.IsPath(t, path, c, c');
  }

  lemma ThenWaiting(s: State, s': State, input: C.Input, p: C.Prompt)
    requires s' == s.(talk := s'.talk) && s'.talk.threads.Keys == s.talk.threads.Keys
    requires s'.talk.prompts == s.talk.prompts + [p] && Retries.CarriesSo(s.talk, input, p)
    requires Retries.IsAtPrompt(s'.talk, C.Worker(FIRST), input)
    requires Retries.IsStoredAs(s'.talk.messages, s.talk.messages, input)
    ensures HasPrompted(s, s', input)
  {
    hide ConversationInvariant.Inv;
    hide ReplyID;
    hide Retries.IsStoredAs;
  }

  /** The worker's call for the message, routed to this persona, waits for its prompt; a
      message that was not in the log before is in this persona's conversation. */
  ghost predicate IsPromptedFor(
    s: State, s': State, request: MessageRuns.Request, persona: string)
  {
    && C.Worker(FIRST) in s'.talk.threads
    && Retries.IsAtPrompt(s'.talk, C.Worker(FIRST), s'.talk.threads[C.Worker(FIRST)].input)
    && var input := s'.talk.threads[C.Worker(FIRST)].input;
    && input.id == request.messageID
    && input.scope.key == Own(persona, KeyText(request.scope.key))
    && Retries.IsStoredAs(s'.talk.messages, s.talk.messages, input)
  }

  /** From any reachable state in which the row of an unanswered message is not over, the
      message can be prompted once more, by whomever it is routed to; its row is not over
      then either, and the message is as unanswered as before. */
  lemma PromptedOnceMore(s: State, id: string, request: MessageRuns.Request)
    returns (member: P.Persona, s': State)
    requires Inv(s) && IsOpen(s, id, request)
    ensures Comes(s, s') && s'.site == s.site
    ensures IsOpen(s', id, request) && OneMorePrompt(s, s', request.messageID)
    ensures IsChosen(s.site.roster, s.routing.owners, request, member)
    ensures IsPromptedFor(s, s', request, member.name)
  {
    hide *;
    var rest := Rest(C.Crash(s.talk), s.routing.owners);
    assert IsUnfinished(s, id, request) by { OpenIsUnfinished(s, id, request); }
    var row, held := IsHeldAgain(s, id, request);
    var input, begun;
    member, input, begun := IsCalled(s, held, rest, row);
    MayStart(s, held, begun, rest, id, request, row, member, input);
    s' := TurnStarts(s, begun, rest.talk, input);
    ThenPrompted(s, held, begun, s', rest, id, request, row, member, input);
  }

  lemma OpenIsUnfinished(s: State, id: string, request: MessageRuns.Request)
    requires IsOpen(s, id, request)
    ensures IsUnfinished(s, id, request)
  {
  }

  lemma MayStart(
    s: State, held: State, begun: State, rest: Rest, id: string, request: MessageRuns.Request,
    row: MessageRuns.Run, member: P.Persona, input: C.Input)
    requires IsOpen(s, id, request) && IsHeld(held, rest, row)
    requires rest.talk == C.Crash(s.talk) && row.request == request
    requires HasCalled(held, begun, rest, request, member, input)
    ensures begun.talk == C.Begin(rest.talk, C.Worker(FIRST), input) && rest.talk.locks == map[]
    ensures ReplyID(input.id) !in rest.talk.messages
  {
    hide C.Begin;
    hide ReplyID;
    hide KeyText;
  }

  lemma ThenPrompted(
    s: State, held: State, begun: State, s': State, rest: Rest, id: string,
    request: MessageRuns.Request, row: MessageRuns.Run, member: P.Persona, input: C.Input)
    requires IsHeld(held, rest, row) && row.id == id && row.request == request
    requires rest == Rest(C.Crash(s.talk), s.routing.owners) && held.site == s.site
    requires HasCalled(held, begun, rest, request, member, input)
    requires HasPrompted(begun, s', input)
    ensures s'.site == s.site && IsOpen(s', id, request)
    ensures OneMorePrompt(s, s', request.messageID)
    ensures IsPromptedFor(s, s', request, member.name)
  {
    hide ReplyID;
    hide KeyText;
    hide Retries.IsStoredAs;
  }

  lemma RunPromptsOnceMore(run: seq<State>, s: State, id: string, request: MessageRuns.Request)
    returns (member: P.Persona, longer: seq<State>, s': State)
    requires IsRun(run) && Runs.IsLast(run, s) && IsOpen(s, id, request)
    ensures IsRun(longer) && Runs.IsLast(longer, s') && run <= longer && s'.site == s.site
    ensures IsOpen(s', id, request) && OneMorePrompt(s, s', request.messageID)
    ensures IsChosen(s.site.roster, s.routing.owners, request, member)
    ensures IsPromptedFor(s, s', request, member.name)
  {
    hide *;
    LastIsOk(run, s);
    member, s' := PromptedOnceMore(s, id, request);
    longer := RunGoesOn(run, s, s');
  }

  // ---- the exact condition ----------------------------------------------------

  function Prompts(run: seq<State>): seq<C.Prompt> {
    if run == [] then [] else run[|run| - 1].talk.prompts
  }

  predicate IsSentSince(before: seq<C.Prompt>, after: seq<C.Prompt>, messageID: string) {
    exists n :: |before| <= n < |after| && after[n].messageID == messageID
  }

  ghost predicate IsPromptedBy(run: seq<State>, longer: seq<State>, messageID: string) {
    && IsRun(longer) && run != [] && run <= longer
    && IsSentSince(Prompts(run), Prompts(longer), messageID)
  }

  /** Some continuation of the run prompts the message. */
  ghost predicate CanBePrompted(run: seq<State>, messageID: string) {
    exists longer :: IsPromptedBy(run, longer, messageID)
  }

  /** A submitted message can be prompted from here on, once more if it has been before,
      exactly when no reply to it is stored and its row is queued or running. */
  lemma PromptedAgainExactly(run: seq<State>, s: State, row: MessageRuns.Run)
    requires IsRun(run) && Runs.IsLast(run, s) && HasRow(s, row)
    ensures CanBePrompted(run, row.request.messageID) <==>
      && ReplyID(row.request.messageID) !in s.talk.messages
      && (row.status.Queued? || row.status.Running?)
  {
    var messageID := row.request.messageID;
    hide IsRun;
    hide ReplyID;
    if ReplyID(messageID) !in s.talk.messages && !MessageRuns.IsTerminal(row.status) {
      var _, longer, s' := RunPromptsOnceMore(run, s, row.id, row.request);
      PromptsIt(run, s, longer, s', messageID);
    } else {
      assert EndToEndRuns.IsOver(s, row.id, messageID) || ReplyID(messageID) in s.talk.messages;
      assert EndToEndRuns.IsClosed(s, messageID);
      hide *;
      NotPrompted(run, s, messageID);
    }
  }

  lemma PromptsIt(
    run: seq<State>, s: State, longer: seq<State>, s': State, messageID: string)
    requires Runs.IsLast(run, s) && IsRun(longer) && Runs.IsLast(longer, s') && run <= longer
    requires OneMorePrompt(s, s', messageID)
    ensures CanBePrompted(run, messageID)
  {
    hide IsRun;
    assert s'.talk.prompts[|s.talk.prompts|].messageID == messageID;
    assert IsPromptedBy(run, longer, messageID);
  }

  lemma NotPrompted(run: seq<State>, s: State, messageID: string)
    requires IsRun(run) && Runs.IsLast(run, s) && EndToEndRuns.IsClosed(s, messageID)
    ensures !CanBePrompted(run, messageID)
  {
    hide IsRun;
    hide EndToEndRuns.IsClosed;
    forall longer ensures !IsPromptedBy(run, longer, messageID) {
      if IsRun(longer) && run <= longer {
        var i, j := |run| - 1, |longer| - 1;
        EndToEndRuns.ClosedIsNotPrompted(longer, i, j, s, longer[j], messageID);
      }
    }
  }

  ghost predicate IsSubmission(site: Site, wanted: MessageRuns.Run) {
    MessageRuns.IsComplete(wanted) && IsOwnMessage(site, wanted)
  }

  /** The message has been prompted for so often, and nothing else has. */
  predicate IsPromptedOnly(s: State, messageID: string, count: int) {
    && |s.talk.prompts| == count
    && forall n :: 0 <= n < count ==> s.talk.prompts[n].messageID == messageID
  }

  /** So a submitted message ID does not preserve one turn: there are runs with one row and
      as many prompts for its message as one likes, each after a crash. */
  lemma {:induction false} PromptedManyTimes(
    wanted: MessageRuns.Run, site: Site, maxTurns: nat, count: nat)
    returns (run: seq<State>, s: State)
    requires IsSubmission(site, wanted) && maxTurns > 0 && Routing.IsLoaded(site.roster)
    ensures IsRun(run) && Runs.IsLast(run, s) && IsOpen(s, wanted.id, wanted.request)
    ensures IsPromptedOnly(s, wanted.request.messageID, count)
  {
    hide *;
    if count == 0 {
      run, s := Submitted(wanted, site, maxTurns);
    } else {
      var before;
      run, before := PromptedManyTimes(wanted, site, maxTurns, count - 1);
      var m, longer, s1 := RunPromptsOnceMore(run, before, wanted.id, wanted.request);
      run, s := longer, s1;
      OneMoreOf(before, s, wanted.request.messageID, count - 1);
    }
  }

  lemma OneMoreOf(s: State, s': State, messageID: string, count: int)
    requires IsPromptedOnly(s, messageID, count) && OneMorePrompt(s, s', messageID)
    ensures IsPromptedOnly(s', messageID, count + 1)
  {
  }

  lemma Submitted(wanted: MessageRuns.Run, site: Site, maxTurns: nat)
    returns (run: seq<State>, s: State)
    requires IsSubmission(site, wanted) && maxTurns > 0 && Routing.IsLoaded(site.roster)
    ensures IsRun(run) && Runs.IsLast(run, s) && IsOpen(s, wanted.id, wanted.request)
    ensures IsPromptedOnly(s, wanted.request.messageID, 0)
  {
    hide *;
    var start, from := Opened(site, maxTurns, 1);
    ComesItself(from);
    MayCome(from, wanted);
    s := IsSubmitted(from, from, FIRST, wanted);
    run := RunGoesOn(start, from, s);
    ThenOpen(from, s, wanted);
  }

  lemma MayCome(from: State, wanted: MessageRuns.Run)
    requires IsEmpty(from)
    ensures FIRST !in from.queue.submits && IsNew(from, wanted)
  {
  }

  lemma ThenOpen(from: State, s: State, wanted: MessageRuns.Run)
    requires IsEmpty(from) && HasSubmitted(from, s, FIRST, wanted)
    ensures IsOpen(s, wanted.id, wanted.request)
    ensures IsPromptedOnly(s, wanted.request.messageID, 0)
  {
  }

  // ---- and its reply stored -----------------------------------------------------

  /** The log keeps what it had, and the message has its reply where the call was. */
  predicate HasAnswered(s: State, s': State, input: C.Input) {
    && s'.site == s.site && KeepsLog(s.talk, s'.talk)
    && IsLogged(s', ReplyID(input.id), input.scope.key)
  }

  predicate HasReply(c: C.State, input: C.Input) {
    ReplyID(input.id) in c.messages && c.messages[ReplyID(input.id)].scope == input.scope
  }

  predicate KeepsLog(c: C.State, c': C.State) {
    forall id :: id in c.messages ==> id in c'.messages && c'.messages[id] == c.messages[id]
  }

  /** The prompt returns and its reply is stored. */
  lemma IsAnswered(from: State, s: State, input: C.Input) returns (s': State)
    requires Comes(from, s) && Retries.IsAtPrompt(s.talk, C.Worker(FIRST), input)
    ensures Comes(from, s') && HasAnswered(s, s', input)
  {
    hide *;
    var t, turn := C.Worker(FIRST), C.Turn("", C.EndTurn);
    assert IsWaitingCall(s.talk, t, input) by { AtPromptWaits(s.talk, t, input); }
    var c := Prompted(s.talk, t, input, turn);
    var c' := Replied(c, t, input);
    var s1 := ActsOn(from, s, t, C.Write(C.WriteEvent.Prompted(turn)));
    s' := ActsOn(from, s1, t, C.Write(C.StoreReply(Done, "")));
    ThenAnswered(s, s', c, input);
  }

  lemma ThenAnswered(s: State, s': State, c: C.State, input: C.Input)
    requires s' == s.(talk := s'.talk) && c.messages == s.talk.messages
    requires KeepsLog(c, s'.talk) && HasReply(s'.talk, input)
    ensures HasAnswered(s, s', input)
  {
    hide ReplyID;
  }

  predicate IsWaitingCall(c: C.State, t: C.Tid, input: C.Input) {
    && t in c.threads && c.threads[t].input == input && C.IsPrompting(c.threads[t].pc)
    && ReplyID(input.id) !in c.messages
  }

  lemma AtPromptWaits(c: C.State, t: C.Tid, input: C.Input)
    requires Retries.IsAtPrompt(c, t, input)
    ensures IsWaitingCall(c, t, input)
  {
    hide ConversationInvariant.Inv;
  }

  /** The call has its answer and is about to store it. */
  predicate IsReplying(c: C.State, t: C.Tid, input: C.Input) {
    && t in c.threads && c.threads[t].input == input
    && Origins.IsAnswering(c.threads[t].pc) && ReplyID(input.id) !in c.messages
  }

  lemma Prompted(c: C.State, t: C.Tid, input: C.Input, turn: C.Turn) returns (c': C.State)
    requires IsWaitingCall(c, t, input)
    ensures C.CanAct(c, t, C.Write(C.WriteEvent.Prompted(turn)))
    ensures c' == C.Act(c, t, C.Write(C.WriteEvent.Prompted(turn)))
    ensures c'.messages == c.messages && IsReplying(c', t, input)
  {
    c' := C.Act(c, t, C.Write(C.WriteEvent.Prompted(turn)));
    hide ReplyID;
  }

  lemma Replied(c: C.State, t: C.Tid, input: C.Input) returns (c': C.State)
    requires IsReplying(c, t, input)
    ensures C.CanAct(c, t, C.Write(C.StoreReply(Done, "")))
    ensures c' == C.Act(c, t, C.Write(C.StoreReply(Done, "")))
    ensures KeepsLog(c, c') && HasReply(c', input)
  {
    c' := C.Act(c, t, C.Write(C.StoreReply(Done, "")));
    hide ReplyID;
  }

  // ---- by another persona, because of a second message -------------------------

  /** Nothing has been submitted, and no call is in progress. */
  predicate IsEmpty(s: State) {
    && s.queue.rows == map[] && s.queue.submits == map[] && !s.queue.cancelled
    && s.talk.messages == map[] && s.talk.prompts == [] && IsAtRest(s, Rest(s.talk, map[]))
  }

  /** A new installation whose workers wait. */
  lemma Opened(site: Site, maxTurns: nat, workers: nat) returns (run: seq<State>, s: State)
    requires Routing.IsLoaded(site.roster) && maxTurns > 0 && workers > 0
    ensures IsRun(run) && Runs.IsLast(run, s) && Inv(s) && s.site == site && IsEmpty(s)
    ensures AllIdle(s, workers)
  {
    var talk := C.State(
      map[], map[], map[], map[], map[], map[], {}, map[], map[], [], maxTurns);
    s := State(RunQueue.Restarted(map[], workers), talk, site, Routing.NOTHING);
    run := [s];
    assert Init(s);
    InitOk(s);
    hide Inv;
    hide Routing.IsLoaded;
  }

  predicate AllIdle(s: State, n: int) {
    |s.queue.workers| == n && forall w: nat :: w < n ==> IsIdle(s, w)
  }

  predicate HasSubmitted(s: State, s': State, k: nat, wanted: MessageRuns.Run) {
    s' == s.(queue := s.queue.(
      rows := s.queue.rows[wanted.id := MessageRuns.Fresh(wanted)],
      submits := s.queue.submits[k := RunQueue.Reading(wanted, true)]))
  }

  /** Neither the ID of the run nor that of its message is known. */
  ghost predicate IsNew(s: State, wanted: MessageRuns.Run) {
    && wanted.id !in s.queue.rows
    && !MessageRuns.HasMessage(s.queue.rows, wanted.request.messageID)
  }

  /** A message is submitted. */
  lemma IsSubmitted(from: State, s: State, k: nat, wanted: MessageRuns.Run) returns (s': State)
    requires Comes(from, s) && IsSubmission(s.site, wanted) && k !in s.queue.submits
    requires IsNew(s, wanted)
    ensures Comes(from, s') && HasSubmitted(s, s', k, wanted)
  {
    hide Comes;
    hide IsOwnMessage;
    hide MessageRuns.HasMessage;
    var call := RunQueue.Client(k, RunQueue.Insert(wanted, Done));
    s' := s.(queue := RunQueue.After(s.queue, call));
    assert s'.queue.rows != s.queue.rows by { assert wanted.id in s'.queue.rows; }
    IsStep(s, QueueStep(call), s');
    GoesOn(from, s, s');
  }

  /** No run is queued, and these are the workers. */
  predicate IsBusy(s: State, workers: seq<RunQueue.WorkerPc>) {
    && s.queue.workers == workers && !s.queue.cancelled
    && forall k :: k in s.queue.rows ==> !s.queue.rows[k].status.Queued?
  }

  predicate IsIdle(s: State, w: nat) { w < |s.queue.workers| && s.queue.workers[w].Idle? }

  /** The run of a submission is the only thing that has changed, and the worker holds it. */
  predicate IsTakenBy(s: State, s': State, w: nat, wanted: MessageRuns.Run, run: MessageRuns.Run) {
    && run.id == wanted.id && run.request == wanted.request && run.status.Running?
    && w < |s.queue.workers| && IsBusy(s', s.queue.workers[w := RunQueue.Holding(run)])
    && s' == s.(queue := s'.queue) && s'.queue.rows == s.queue.rows[wanted.id := run]
    && s'.queue.submits.Keys == s.queue.submits.Keys + {w}
  }

  /** A message is submitted, and a waiting worker claims it. */
  lemma SubmittedToWorker(from: State, s: State, w: nat, wanted: MessageRuns.Run)
    returns (run: MessageRuns.Run, s': State)
    requires Comes(from, s) && IsBusy(s, s.queue.workers) && IsIdle(s, w)
    requires IsSubmission(s.site, wanted) && w !in s.queue.submits && IsNew(s, wanted)
    ensures Comes(from, s') && IsTakenBy(s, s', w, wanted, run)
  {
    hide Comes;
    hide IsSubmission;
    hide MessageRuns.HasMessage;
    var s1 := IsSubmitted(from, s, w, wanted);
    var s2 := WorkerSteps(from, s1, w, RunQueue.Tick);
    run, s' := Claims(from, s2, w, wanted.id);
    assert s'.queue.workers == s.queue.workers[w := RunQueue.Holding(run)];
  }

  /** Two messages with an ID and a run each. */
  ghost predicate AreTwo(site: Site, first: MessageRuns.Run, second: MessageRuns.Run) {
    && IsSubmission(site, first) && IsSubmission(site, second)
    && first.id != second.id && first.request.messageID != second.request.messageID
  }

  /** Two messages are submitted, one after the other, and each worker holds a run. */
  lemma BothHeld(from: State, first: MessageRuns.Run, second: MessageRuns.Run)
    returns (a: MessageRuns.Run, b: MessageRuns.Run, s: State)
    requires Inv(from) && IsEmpty(from) && AllIdle(from, 2) && AreTwo(from.site, first, second)
    ensures Comes(from, s) && s == from.(queue := s.queue)
    ensures IsHeld(s, Rest(from.talk, map[]), a) && a.id == first.id && a.request == first.request
    ensures Holds(s, SECOND, b) && HasRow(s, b) && b.request == second.request
  {
    hide *;
    ComesItself(from);
    FirstMayCome(from, first, second);
    MayCome(from, first);
    var s1;
    a, s1 := SubmittedToWorker(from, from, FIRST, first);
    SecondMayCome(from, s1, first, second, a);
    b, s := SubmittedToWorker(from, s1, SECOND, second);
    ThenBothHeld(from, s1, s, first, second, a, b);
  }

  lemma FirstMayCome(from: State, first: MessageRuns.Run, second: MessageRuns.Run)
    requires IsEmpty(from) && AllIdle(from, 2) && AreTwo(from.site, first, second)
    ensures IsBusy(from, from.queue.workers) && IsIdle(from, FIRST)
    ensures IsSubmission(from.site, first)
  {
    hide IsSubmission;
  }

  lemma SecondMayCome(
    from: State, s1: State, first: MessageRuns.Run, second: MessageRuns.Run, a: MessageRuns.Run)
    requires IsEmpty(from) && AllIdle(from, 2) && AreTwo(from.site, first, second)
    requires IsTakenBy(from, s1, FIRST, first, a)
    ensures IsBusy(s1, s1.queue.workers) && IsIdle(s1, SECOND) && IsNew(s1, second)
    ensures IsSubmission(s1.site, second) && SECOND !in s1.queue.submits
  {
    hide IsSubmission;
    assert s1.site == from.site;
    assert IsIdle(from, SECOND) && s1.queue.workers[1] == from.queue.workers[1];
    assert SECOND !in s1.queue.submits.Keys;
  }

  lemma ThenBothHeld(
    from: State, s1: State, s: State, first: MessageRuns.Run, second: MessageRuns.Run,
    a: MessageRuns.Run, b: MessageRuns.Run)
    requires IsEmpty(from) && AllIdle(from, 2) && AreTwo(from.site, first, second)
    requires IsTakenBy(from, s1, FIRST, first, a) && IsTakenBy(s1, s, SECOND, second, b)
    ensures s == from.(queue := s.queue)
    ensures IsHeld(s, Rest(from.talk, map[]), a) && a.id == first.id && a.request == first.request
    ensures Holds(s, SECOND, b) && HasRow(s, b) && b.request == second.request
  {
    hide IsSubmission;
    assert s1.queue.workers[0] == RunQueue.Holding(a) && s.queue.workers[0] == s1.queue.workers[0];
    assert s.queue.workers[1] == RunQueue.Holding(b);
  }

  /** The first is stored and prompted for; then the second is routed. */
  lemma SecondTakesOver(first: MessageRuns.Run, second: MessageRuns.Run, site: Site, maxTurns: nat)
    returns (
      p: P.Persona, q: P.Persona, owners: map<string, string>, run: seq<State>, s: State)
    requires Routing.IsLoaded(site.roster) && maxTurns > 0 && AreTwo(site, first, second)
    ensures IsRun(run) && Runs.IsLast(run, s) && s.site == site
    ensures IsOpen(s, first.id, first.request)
    ensures IsChosen(site.roster, map[], first.request, p)
    ensures IsChosen(site.roster, owners, second.request, q)
    ensures s.routing.owners == owners[KeyText(second.request.scope.key) := q.name]
    ensures IsLogged(s, first.request.messageID, Own(p.name, KeyText(first.request.scope.key)))
  {
    hide *;
    var start, from := Opened(site, maxTurns, 2);
    p, q, owners, s := TakesOver(from, first, second);
    run := RunGoesOn(start, from, s);
  }

  lemma TakesOver(from: State, first: MessageRuns.Run, second: MessageRuns.Run)
    returns (p: P.Persona, q: P.Persona, owners: map<string, string>, s: State)
    requires Inv(from) && IsEmpty(from) && AllIdle(from, 2) && AreTwo(from.site, first, second)
    ensures Comes(from, s) && s.site == from.site && IsOpen(s, first.id, first.request)
    ensures IsChosen(s.site.roster, map[], first.request, p)
    ensures IsChosen(s.site.roster, owners, second.request, q)
    ensures s.routing.owners == owners[KeyText(second.request.scope.key) := q.name]
    ensures IsLogged(s, first.request.messageID, Own(p.name, KeyText(first.request.scope.key)))
  {
    hide *;
    var rest := Rest(from.talk, map[]);
    var a, b, s0 := BothHeld(from, first, second);
    var input, s1;
    p, input, s1 := IsCalled(from, s0, rest, a);
    FirstMayStart(from, s0, s1, a, p, input);
    var s2 := TurnStarts(from, s1, from.talk, input);
    SecondMayRoute(s0, s1, s2, rest, a, b, p, input);
    owners := s2.routing.owners;
    q, s := RunIsRouted(from, s2, SECOND, b, Done);
    ThenTaken(from, s0, s1, s2, s, first, second, a, b, p, q, input);
  }

  lemma FirstMayStart(
    from: State, s0: State, s1: State, a: MessageRuns.Run, p: P.Persona, input: C.Input)
    requires IsEmpty(from) && HasCalled(s0, s1, Rest(from.talk, map[]), a.request, p, input)
    ensures s1.talk == C.Begin(from.talk, C.Worker(FIRST), input) && from.talk.locks == map[]
    ensures ReplyID(input.id) !in from.talk.messages
  {
    hide ReplyID;
    hide KeyText;
    hide C.Begin;
  }

  lemma SecondMayRoute(
    s0: State, s1: State, s2: State, rest: Rest, a: MessageRuns.Run, b: MessageRuns.Run,
    p: P.Persona, input: C.Input)
    requires IsHeld(s0, rest, a) && Holds(s0, SECOND, b) && HasRow(s0, b)
    requires HasCalled(s0, s1, rest, a.request, p, input) && HasPrompted(s1, s2, input)
    ensures Holds(s2, SECOND, b) && HasRow(s2, b) && IsUnrouted(s2, C.Worker(SECOND))
    ensures s2.site == s0.site
  {
    hide ReplyID;
    hide KeyText;
    hide Retries.IsAtPrompt;
    assert C.Worker(SECOND) !in s1.talk.threads.Keys;
  }

  lemma ThenTaken(
    from: State, s0: State, s1: State, s2: State, s: State, first: MessageRuns.Run,
    second: MessageRuns.Run, a: MessageRuns.Run, b: MessageRuns.Run, p: P.Persona, q: P.Persona,
    input: C.Input)
    requires IsEmpty(from) && s0 == from.(queue := s0.queue) && s2.site == s0.site
    requires IsHeld(s0, Rest(from.talk, map[]), a) && a.id == first.id && a.request == first.request
    requires b.request == second.request
    requires HasCalled(s0, s1, Rest(from.talk, map[]), a.request, p, input)
    requires HasPrompted(s1, s2, input) && IsSaved(s2, s, SECOND, b.request, q, Done)
    ensures s.site == from.site && IsOpen(s, first.id, first.request)
    ensures s.routing.owners == s2.routing.owners[KeyText(second.request.scope.key) := q.name]
    ensures IsLogged(s, first.request.messageID, Own(p.name, KeyText(first.request.scope.key)))
  {
    hide ReplyID;
    hide KeyText;
    hide Retries.IsAtPrompt;
    hide C.CanBegin;
  }

  /** A message and its reply can lie in the conversations of two personas, and this is how:
      the message is stored by the default, since it asks for nobody and mentions nobody; a
      second message of the same transport key asks for another persona, which becomes the
      saved owner; the process stops, and the retry of the first goes to that owner. */
  lemma PersonasSplit(
    first: MessageRuns.Run, second: MessageRuns.Run, site: Site, maxTurns: nat,
    p: P.Persona, q: P.Persona)
    returns (run: seq<State>, s: State)
    requires Routing.IsLoaded(site.roster) && maxTurns > 0 && AreTwo(site, first, second)
    requires KeyText(second.request.scope.key) == KeyText(first.request.scope.key)
    requires AsksForNobody(site.roster, first.request) && AsksFor(site.roster, second.request, q)
    requires p in site.roster && P.IsEnabledDefault(p) && p != q
    ensures IsRun(run) && Runs.IsLast(run, s) && s.site == site && p.name != q.name
    ensures AreLogged(s, first.request.messageID,
      Own(p.name, KeyText(first.request.scope.key)), Own(q.name, KeyText(first.request.scope.key)))
  {
    hide *;
    var a, b, owners, s0, m, s1;
    a, b, owners, run, s0 := SecondTakesOver(first, second, site, maxTurns);
    GoesToDefault(site.roster, first.request, a, p);
    GoesToAsked(site.roster, owners, second.request, b, q);
    m, run, s1 := RunPromptsOnceMore(run, s0, first.id, first.request);
    GoesToOwner(site.roster, s0.routing.owners, first.request, m, q);
    NamesDiffer(site.roster, p, q);
    run, s := RunIsAnswered(run, s0, s1, first.request, q.name);
    BothAreLogged(s0, s1, s, first.request, p.name, q.name);
  }

  /** The request asks for no persona and mentions no enabled member. */
  ghost predicate AsksForNobody(roster: seq<P.Persona>, request: MessageRuns.Request) {
    request.persona == "" && P.NoHit(roster, P.MentionsFrom(request.text, 0))
  }

  ghost predicate AsksFor(roster: seq<P.Persona>, request: MessageRuns.Request, q: P.Persona) {
    request.persona != "" && P.Found(roster, P.Normal(request.persona)) == Some(q)
  }

  lemma NamesDiffer(roster: seq<P.Persona>, p: P.Persona, q: P.Persona)
    requires Routing.IsLoaded(roster) && p in roster && q in roster && p != q
    ensures p.name != q.name
  {
    var i :| 0 <= i < |roster| && roster[i] == p;
    var j :| 0 <= j < |roster| && roster[j] == q;
  }

  /** While no owner is saved, a message that asks for nobody and mentions nobody. */
  lemma GoesToDefault(
    roster: seq<P.Persona>, request: MessageRuns.Request, member: P.Persona, p: P.Persona)
    requires Routing.IsLoaded(roster) && IsChosen(roster, map[], request, member)
    requires AsksForNobody(roster, request) && p in roster && P.IsEnabledDefault(p)
    ensures member == p
  {
    forall m | m in roster ensures m.name != "" { assert Routing.IsTidy(m); }
    assert P.Found(roster, P.Normal("")).None?;
    hide P.MentionsFrom;
    P.DefaultUnique(roster, p);
  }

  lemma GoesToAsked(
    roster: seq<P.Persona>, owners: map<string, string>, request: MessageRuns.Request,
    member: P.Persona, q: P.Persona)
    requires IsChosen(roster, owners, request, member) && AsksFor(roster, request, q)
    ensures member == q && q in roster && Routing.IsMember(roster, q)
  {
    hide P.Normal;
  }

  /** Once another persona is the saved owner. */
  lemma GoesToOwner(
    roster: seq<P.Persona>, owners: map<string, string>, request: MessageRuns.Request,
    member: P.Persona, owner: P.Persona)
    requires Routing.IsLoaded(roster) && IsChosen(roster, owners, request, member)
    requires AsksForNobody(roster, request) && KeyText(request.scope.key) in owners
    requires owners[KeyText(request.scope.key)] == owner.name && Routing.IsMember(roster, owner)
    ensures member == owner
  {
    Routing.MemberFound(roster, owner);
    hide P.MentionsFrom;
    hide P.Normal;
  }

  lemma RunIsAnswered(
    run: seq<State>, before: State, s: State, request: MessageRuns.Request, persona: string)
    returns (longer: seq<State>, s': State)
    requires IsRun(run) && Runs.IsLast(run, s) && IsPromptedFor(before, s, request, persona)
    ensures IsRun(longer) && Runs.IsLast(longer, s')
    ensures s'.site == s.site && KeepsLog(s.talk, s'.talk)
    ensures IsLogged(s', ReplyID(request.messageID), Own(persona, KeyText(request.scope.key)))
  {
    hide *;
    LastIsOk(run, s);
    ComesItself(s);
    var input := PromptedCall(before, s, request, persona);
    s' := IsAnswered(s, s, input);
    longer := RunGoesOn(run, s, s');
    CallIsAnswered(s, s', request, persona, input);
  }

  lemma PromptedCall(before: State, s: State, request: MessageRuns.Request, persona: string)
    returns (input: C.Input)
    requires IsPromptedFor(before, s, request, persona)
    ensures Retries.IsAtPrompt(s.talk, C.Worker(FIRST), input) && input.id == request.messageID
    ensures input.scope.key == Own(persona, KeyText(request.scope.key))
  {
    input := s.talk.threads[C.Worker(FIRST)].input;
    hide Retries.IsAtPrompt;
    hide KeyText;
  }

  lemma CallIsAnswered(
    s: State, s': State, request: MessageRuns.Request, persona: string, input: C.Input)
    requires HasAnswered(s, s', input) && input.id == request.messageID
    requires input.scope.key == Own(persona, KeyText(request.scope.key))
    ensures s'.site == s.site && KeepsLog(s.talk, s'.talk)
    ensures IsLogged(s', ReplyID(request.messageID), Own(persona, KeyText(request.scope.key)))
  {
  }

  lemma BothAreLogged(
    before: State, s: State, s': State, request: MessageRuns.Request, p: string, q: string)
    requires IsPromptedFor(before, s, request, q) && KeepsLog(s.talk, s'.talk)
    requires IsLogged(before, request.messageID, Own(p, KeyText(request.scope.key)))
    requires IsLogged(s', ReplyID(request.messageID), Own(q, KeyText(request.scope.key)))
    ensures AreLogged(s', request.messageID,
      Own(p, KeyText(request.scope.key)), Own(q, KeyText(request.scope.key)))
  {
    hide Retries.IsAtPrompt;
    hide KeyText;
    hide ReplyID;
  }
}
