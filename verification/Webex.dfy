/** Webex deliveries: the event table, its retrying workers, and what one event does. */
module Webex {
  import opened Wrappers
  import opened Tables
  import Runs
  import Text

  const MAX_ATTEMPTS: nat := 5
  const MAX_SHIFT: nat := 6
  const MAX_ERROR_BYTES: nat := 1000

  datatype Status = Pending | Processing | Done | Failed

  /** `due` and `createdAt` are stamps, compared as text; `delay` is the number of
      seconds by which the last retry put the event off. */
  datatype Event = Event(
    room: string, status: Status, attempts: nat, due: string, delay: nat, error: string,
    createdAt: string)

  type Rows = map<string, Event>

  // ---- the statements ---------------------------------------------------------

  function Enqueued(rows: Rows, id: string, room: string, now: string): Rows {
    if id in rows then rows else rows[id := Event(room, Pending, 0, now, 0, "", now)]
  }

  predicate IsClaimable(rows: Rows, id: string, now: string) {
    id in rows && rows[id].status.Pending? && !Less(now, rows[id].due)
  }

  /** ORDER BY created_at LIMIT 1 among the pending events that are due. */
  predicate IsNextEvent(rows: Rows, id: string, now: string) {
    && IsClaimable(rows, id, now)
    && forall k :: k in rows && IsClaimable(rows, k, now) ==>
         !Less(rows[k].createdAt, rows[id].createdAt)
  }

  function Claimed(rows: Rows, id: string): Rows
    requires id in rows
  {
    rows[id := rows[id].(status := Processing)]
  }

  function Completed(rows: Rows, id: string): Rows {
    if id in rows then rows[id := rows[id].(status := Status.Done, error := "")] else rows
  }

  function Power(n: nat): nat { if n == 0 then 1 else 2 * Power(n - 1) }

  function Delay(attempts: nat): nat {
    Power(if attempts < MAX_SHIFT then attempts else MAX_SHIFT)
  }

  /** The attempt count comes from the claim, not from the row; the status is not
      looked at. */
  function Retried(rows: Rows, id: string, attempts: nat, failure: string, due: string): Rows {
    if id !in rows then rows
    else rows[id := rows[id].(
      status := if attempts + 1 >= MAX_ATTEMPTS then Failed else Pending,
      attempts := attempts + 1, due := due, delay := Delay(attempts + 1),
      error := Text.Truncated(failure, MAX_ERROR_BYTES))]
  }

  /** Opening the database. */
  function Recovered(rows: Rows): Rows {
    map id | id in rows ::
      if rows[id].status.Processing? then rows[id].(status := Pending) else rows[id]
  }

  // ---- the table --------------------------------------------------------------

  predicate IsOpen(event: Event) { event.status.Pending? || event.status.Processing? }

  /** An open event has failed fewer than five times, a failed one exactly five times;
      the delay of an event that failed is two to the number of its failures. */
  ghost predicate EventOk(event: Event) {
    && (if event.status.Failed? then event.attempts == MAX_ATTEMPTS
        else event.attempts < MAX_ATTEMPTS)
    && (event.attempts > 0 ==> event.delay == Power(event.attempts))
    && |event.error| <= MAX_ERROR_BYTES
  }

  ghost predicate TableOk(rows: Rows) { forall id :: id in rows ==> EventOk(rows[id]) }

  /** The cap on the delay never applies: five failures end an event before six. */
  lemma CapNeverBinds(rows: Rows, id: string, failure: string, due: string)
    requires TableOk(rows) && id in rows && IsOpen(rows[id])
    ensures
      var after := Retried(rows, id, rows[id].attempts, failure, due)[id];
      && after.attempts == rows[id].attempts + 1 <= MAX_ATTEMPTS < MAX_SHIFT
      && after.delay == Power(after.attempts)
      && (after.status.Failed? <==> after.attempts == MAX_ATTEMPTS)
      && (after.status.Pending? <==> after.attempts < MAX_ATTEMPTS)
  {
  }

  // ---- workers ----------------------------------------------------------------

  /** `Working` is inside process; `room` and `attempts` are what the claim read. */
  datatype Worker =
    | Free
    | Working(id: string, room: string, attempts: nat)
    | Succeeded(id: string)
    | Stumbled(id: string, attempts: nat, failure: string)

  /** Who the bot is, and what Webex has under each message ID. */
  datatype Inbox = Inbox(bot: string, sent: map<string, Delivery>)

  /** `log` is the store's messages table. `claims` counts, since the start, how often each
      event was handed to a worker. `posts` lists, for each reply posted, the event it
      answers; those from `since` on belong to this start. */
  datatype State = State(
    rows: Rows, workers: seq<Worker>, claims: map<string, nat>, posts: seq<string>, since: nat,
    log: Messages, inbox: Inbox)

  datatype Step =
    | Enqueue(id: string, room: string, now: string, outcome: Outcome)
    | Claim(w: nat, id: string, now: string, commit: Outcome)
    | Work(w: nat, o: Answers, failure: string)
    | Complete(w: nat, outcome: Outcome)
    | Retry(w: nat, due: string, outcome: Outcome)
    | Store(message: Message, outcome: Outcome)
    | Restart(workers: nat)

  /** The API returns what Webex has, or fails; Handle has no reply to a message without
      text. */
  predicate CanAnswer(inbox: Inbox, id: string, o: Answers) {
    o.fetched.Some? ==>
      && id in inbox.sent && o.fetched.value == inbox.sent[id]
      && (Text.TrimSpace(o.fetched.value.text) == "" ==> !o.handled.Reply?)
  }

  /** `Store` is what the conversations beside the workers write. */
  ghost predicate Enabled(s: State, step: Step) {
    match step
    case Enqueue(id, room, _, _) => id != "" && room != ""
    case Claim(w, id, now, _) =>
      w < |s.workers| && s.workers[w].Free? && IsNextEvent(s.rows, id, now)
    case Work(w, o, _) =>
      w < |s.workers| && s.workers[w].Working? && CanAnswer(s.inbox, s.workers[w].id, o)
    case Complete(w, _) => w < |s.workers| && s.workers[w].Succeeded?
    case Retry(w, _, _) => w < |s.workers| && s.workers[w].Stumbled?
    case Store(_, _) => true
    case Restart(n) => n > 0
  }

  function Count(claims: map<string, nat>, id: string): nat {
    if id in claims then claims[id] else 0
  }

  function AfterClaim(s: State, w: nat, id: string, commit: Outcome): State
    requires w < |s.workers| && id in s.rows
  {
    if commit.Done? then
      s.(rows := Claimed(s.rows, id),
         workers := s.workers[w := Working(id, s.rows[id].room, s.rows[id].attempts)],
         claims := s.claims[id := Count(s.claims, id) + 1])
    else if commit.Unknown? then s.(rows := Claimed(s.rows, id))
    else s
  }

  /** A worker may have posted and still report an error. */
  function AfterWork(s: State, w: nat, o: Answers, failure: string): State
    requires w < |s.workers| && s.workers[w].Working?
  {
    var worker, bot := s.workers[w], s.inbox.bot;
    var ok := Succeeds(bot, s.log, worker.room, o);
    var posted := PostsFor(bot, s.log, worker.room, o) != [];
    s.(workers := s.workers[w :=
         if ok then Succeeded(worker.id) else Stumbled(worker.id, worker.attempts, failure)],
       posts := s.posts + (if posted then [worker.id] else []),
       log := MessagesAfter(bot, s.log, worker.room, o))
  }

  ghost function After(s: State, step: Step): State {
    if !Enabled(s, step) then s else match step
    case Enqueue(id, room, now, outcome) =>
      if outcome.Effective() then s.(rows := Enqueued(s.rows, id, room, now)) else s
    case Claim(w, id, _, commit) => AfterClaim(s, w, id, commit)
    case Work(w, o, failure) => AfterWork(s, w, o, failure)
    case Complete(w, outcome) =>
      s.(workers := s.workers[w := Free],
         rows := if outcome.Effective() then Completed(s.rows, s.workers[w].id) else s.rows)
    case Retry(w, due, outcome) =>
      var worker := s.workers[w];
      s.(workers := s.workers[w := Free],
         rows := if outcome.Effective()
                 then Retried(s.rows, worker.id, worker.attempts, worker.failure, due)
                 else s.rows)
    case Store(message, outcome) =>
      if outcome.Effective() then s.(log := AddMessage(s.log, message)) else s
    case Restart(n) =>
      State(Recovered(s.rows), seq(n, i => Free), map[], s.posts, |s.posts|, s.log, s.inbox)
  }

  ghost predicate Init(s: State) {
    && |s.workers| > 0 && (forall w :: 0 <= w < |s.workers| ==> s.workers[w].Free?)
    && s.rows == map[] && s.claims == map[] && s.posts == [] && s.since == 0 && s.log == map[]
  }

  ghost predicate Next(s: State, s': State) {
    exists step :: Enabled(s, step) && s' == After(s, step)
  }

  // ---- the invariant ----------------------------------------------------------

  /** A worker's event is processing, and its failures are what the claim read. */
  ghost predicate WorkerOk(rows: Rows, worker: Worker) {
    && (worker.Free? || (worker.id in rows && rows[worker.id].status.Processing?))
    && (worker.Working? ==> rows[worker.id].room == worker.room)
    && (worker.Working? || worker.Stumbled? ==> rows[worker.id].attempts == worker.attempts)
  }

  ghost predicate WorkersOk(s: State) {
    && (forall w :: 0 <= w < |s.workers| ==> WorkerOk(s.rows, s.workers[w]))
    && (forall v, w :: 0 <= v < w < |s.workers| && !s.workers[v].Free? && !s.workers[w].Free? ==>
          s.workers[v].id != s.workers[w].id)
  }

  /** Each claim but the last has led to a failure. */
  ghost predicate ClaimsOk(s: State) {
    forall id :: id in s.claims ==>
      && id in s.rows
      && s.claims[id] <= s.rows[id].attempts +
           (if s.rows[id].status.Processing? || s.rows[id].status.Done? then 1 else 0)
  }

  /** A worker is at the event and may post for it. */
  predicate IsWorkedOn(s: State, id: string) {
    exists w :: 0 <= w < |s.workers| && s.workers[w].Working? && s.workers[w].id == id
  }

  /** How often this start has posted for the event. */
  function Posts(s: State, id: string): nat {
    if s.since <= |s.posts| then multiset(s.posts[s.since..])[id] else 0
  }

  /** Each claim leads to one post at most. */
  ghost predicate PostsOk(s: State) {
    && s.since <= |s.posts|
    && forall id :: Posts(s, id) + (if IsWorkedOn(s, id) then 1 else 0) <= Count(s.claims, id)
  }

  ghost predicate EventsOk(s: State) {
    |s.workers| > 0 && TableOk(s.rows) && WorkersOk(s) && ClaimsOk(s)
  }

  ghost predicate Inv(s: State) { EventsOk(s) && PostsOk(s) }

  /** A step of worker `w` that leaves the events of the others alone. */
  lemma OthersStay(s: State, s': State, w: nat)
    requires WorkersOk(s) && w < |s.workers|
    requires |s'.workers| == |s.workers| && s'.workers == s.workers[w := s'.workers[w]]
    requires WorkerOk(s'.rows, s'.workers[w])
    requires s'.workers[w].Free? ||
      forall v :: 0 <= v < |s.workers| && v != w && !s.workers[v].Free? ==>
        s.workers[v].id != s'.workers[w].id
    requires forall v :: 0 <= v < |s.workers| && v != w && !s.workers[v].Free? ==>
      s.workers[v].id in s'.rows && s'.rows[s.workers[v].id] == s.rows[s.workers[v].id]
    ensures WorkersOk(s')
  {
    forall v | 0 <= v < |s'.workers| ensures WorkerOk(s'.rows, s'.workers[v]) {
      assert WorkerOk(s.rows, s.workers[v]);
    }
  }

  lemma EnqueueOk(s: State, step: Step)
    requires EventsOk(s) && step.Enqueue? && Enabled(s, step)
    ensures EventsOk(After(s, step))
  {
    var s' := After(s, step);
    forall w | 0 <= w < |s'.workers| ensures WorkerOk(s'.rows, s'.workers[w]) {
      assert WorkerOk(s.rows, s.workers[w]);
    }
    assert Power(0) == 1;
  }

  lemma ClaimOk(s: State, step: Step)
    requires EventsOk(s) && step.Claim? && Enabled(s, step)
    ensures EventsOk(After(s, step))
  {
    var s' := After(s, step);
    assert EventOk(s.rows[step.id]);
    forall v | 0 <= v < |s.workers| && !s.workers[v].Free?
      ensures s.workers[v].id != step.id && s.workers[v].id in s.rows
    {
      assert WorkerOk(s.rows, s.workers[v]);
    }
    hide TableOk;
    hide ClaimsOk;
    OthersStay(s, s', step.w);
    ClaimCounts(s, step);
    ClaimRows(s, step);
  }

  lemma ClaimRows(s: State, step: Step)
    requires TableOk(s.rows) && step.Claim? && Enabled(s, step)
    ensures TableOk(After(s, step).rows)
  {
    assert EventOk(s.rows[step.id]);
  }

  lemma ClaimCounts(s: State, step: Step)
    requires ClaimsOk(s) && step.Claim? && Enabled(s, step)
    ensures ClaimsOk(After(s, step))
  {
  }

  lemma WorkOk(s: State, step: Step)
    requires EventsOk(s) && step.Work? && Enabled(s, step)
    ensures EventsOk(After(s, step))
  {
    assert WorkerOk(s.rows, s.workers[step.w]);
    forall v | 0 <= v < |s.workers| && !s.workers[v].Free? ensures s.workers[v].id in s.rows {
      assert WorkerOk(s.rows, s.workers[v]);
    }
    hide TableOk;
    OthersStay(s, After(s, step), step.w);
  }

  lemma FinishOk(s: State, step: Step)
    requires EventsOk(s) && (step.Complete? || step.Retry?) && Enabled(s, step)
    ensures EventsOk(After(s, step))
  {
    var s', worker := After(s, step), s.workers[step.w];
    assert WorkerOk(s.rows, worker);
    assert EventOk(s.rows[worker.id]);
    FinishRows(s, step);
    FinishCounts(s, step);
    forall v | 0 <= v < |s.workers| && v != step.w && !s.workers[v].Free?
      ensures s.workers[v].id != worker.id && s.workers[v].id in s.rows
    {
      assert WorkerOk(s.rows, s.workers[v]);
    }
    hide TableOk;
    hide ClaimsOk;
    OthersStay(s, s', step.w);
  }

  lemma FinishRows(s: State, step: Step)
    requires TableOk(s.rows) && (step.Complete? || step.Retry?) && Enabled(s, step)
    requires WorkerOk(s.rows, s.workers[step.w])
    ensures TableOk(After(s, step).rows)
  {
    var worker := s.workers[step.w];
    assert EventOk(s.rows[worker.id]);
    if step.Retry? { CapNeverBinds(s.rows, worker.id, worker.failure, step.due); }
  }

  lemma FinishCounts(s: State, step: Step)
    requires ClaimsOk(s) && (step.Complete? || step.Retry?) && Enabled(s, step)
    requires WorkerOk(s.rows, s.workers[step.w])
    ensures ClaimsOk(After(s, step))
  {
  }

  lemma StoreOk(s: State, step: Step)
    requires EventsOk(s) && step.Store? && Enabled(s, step)
    ensures EventsOk(After(s, step))
  {
  }

  lemma RestartOk(s: State, n: nat)
    requires EventsOk(s) && n > 0
    ensures EventsOk(After(s, Restart(n)))
  {
    forall id | id in s.rows ensures EventOk(Recovered(s.rows)[id]) { assert EventOk(s.rows[id]); }
  }

  // ---- posts ------------------------------------------------------------------

  lemma ClaimPosts(s: State, step: Step)
    requires PostsOk(s) && step.Claim? && Enabled(s, step)
    ensures PostsOk(After(s, step))
  {
    var s' := After(s, step);
    forall id ensures Posts(s', id) + (if IsWorkedOn(s', id) then 1 else 0) <= Count(s'.claims, id)
    {
      assert Posts(s', id) == Posts(s, id);
      if IsWorkedOn(s', id) && !(step.commit.Done? && id == step.id) {
        var w :| 0 <= w < |s'.workers| && s'.workers[w].Working? && s'.workers[w].id == id;
        assert s.workers[w] == s'.workers[w];
      }
    }
  }

  /** The event of a working worker is nobody else's. */
  lemma WorkPosts(s: State, step: Step)
    requires PostsOk(s) && WorkersOk(s) && step.Work? && Enabled(s, step)
    ensures PostsOk(After(s, step))
  {
    var s', own := After(s, step), s.workers[step.w].id;
    hide Succeeds;
    hide PostsFor;
    hide MessagesAfter;
    hide CanAnswer;
    var added := s'.posts[|s.posts|..];
    assert added == [] || added == [own];
    assert s'.posts[s'.since..] == s.posts[s.since..] + added;
    forall id ensures Posts(s', id) + (if IsWorkedOn(s', id) then 1 else 0) <= Count(s'.claims, id)
    {
      if IsWorkedOn(s', id) {
        var w :| 0 <= w < |s'.workers| && s'.workers[w].Working? && s'.workers[w].id == id;
        assert s.workers[w] == s'.workers[w];
      }
      assert IsWorkedOn(s, own);
    }
  }

  lemma OtherPosts(s: State, step: Step)
    requires PostsOk(s) && Enabled(s, step) && !step.Claim? && !step.Work?
    ensures PostsOk(After(s, step))
  {
    var s' := After(s, step);
    forall id ensures Posts(s', id) + (if IsWorkedOn(s', id) then 1 else 0) <= Count(s'.claims, id)
    {
      if IsWorkedOn(s', id) {
        var w :| 0 <= w < |s'.workers| && s'.workers[w].Working? && s'.workers[w].id == id;
        assert s.workers[w] == s'.workers[w];
      }
    }
  }

  lemma NextOk(s: State, s': State)
    requires Inv(s) && Next(s, s')
    ensures Inv(s')
  {
    var step :| Enabled(s, step) && s' == After(s, step);
    assert WorkersOk(s);
    hide EventsOk;
    hide WorkersOk;
    hide PostsOk;
    match step {
      case Enqueue(_, _, _, _) => EnqueueOk(s, step); OtherPosts(s, step);
      case Claim(_, _, _, _) => ClaimOk(s, step); ClaimPosts(s, step);
      case Work(_, _, _) => WorkOk(s, step); WorkPosts(s, step);
      case Complete(_, _) => FinishOk(s, step); OtherPosts(s, step);
      case Retry(_, _, _) => FinishOk(s, step); OtherPosts(s, step);
      case Store(_, _) => StoreOk(s, step); OtherPosts(s, step);
      case Restart(n) => RestartOk(s, n); OtherPosts(s, step);
    }
  }

  // ---- whole runs -------------------------------------------------------------

  ghost predicate IsRun(run: seq<State>) { Runs.IsRun(Init, Next, run) }

  lemma StateOk(run: seq<State>, s: State)
    requires IsRun(run) && s in run
    ensures Inv(s)
  {
    forall s, s' | Inv(s) && Next(s, s') ensures Inv(s') { NextOk(s, s'); }
    var i: nat :| i < |run| && run[i] == s;
    Runs.Invariant(Init, Next, Inv, run, i);
  }

  predicate IsRow(s: State, id: string, event: Event) { id in s.rows && s.rows[id] == event }

  /** Open events have failed fewer than five times, failed ones five times; since the
      start no event has been handed to a worker more than five times, nor has a reply
      been posted for it more often than that. */
  lemma AttemptsBounded(run: seq<State>, s: State, id: string, event: Event)
    requires IsRun(run) && s in run && IsRow(s, id, event)
    ensures IsOpen(event) ==> event.attempts < MAX_ATTEMPTS
    ensures event.status.Failed? ==> event.attempts == MAX_ATTEMPTS
    ensures s.since <= |s.posts| && Posts(s, id) <= Count(s.claims, id) <= MAX_ATTEMPTS
  {
    StateOk(run, s);
    hide IsRun;
    assert EventOk(event);
  }

  predicate IsLaterEvent(before: Event, after: Event) {
    && after.room == before.room && after.createdAt == before.createdAt
    && before.attempts <= after.attempts
    && (!IsOpen(before) ==> after == before)
  }

  ghost predicate Later(s: State, s': State) {
    forall id :: id in s.rows ==> id in s'.rows && IsLaterEvent(s.rows[id], s'.rows[id])
  }

  lemma FinishIsLater(s: State, step: Step)
    requires (step.Complete? || step.Retry?) && Enabled(s, step)
    requires WorkerOk(s.rows, s.workers[step.w])
    ensures Later(s, After(s, step))
  {
    hide Text.Truncated;
  }

  lemma NextIsLater(s: State, s': State)
    requires Inv(s) && Next(s, s')
    ensures Later(s, s')
  {
    var step :| Enabled(s, step) && s' == After(s, step);
    if step.Complete? || step.Retry? {
      assert WorkerOk(s.rows, s.workers[step.w]);
      FinishIsLater(s, step);
    } else {
      hide Inv;
      OtherIsLater(s, step);
    }
  }

  lemma OtherIsLater(s: State, step: Step)
    requires Enabled(s, step) && !step.Complete? && !step.Retry?
    ensures Later(s, After(s, step))
  {
  }

  /** Along every run an event is kept with its room, its failures only add up, and once
      it is done or failed it never changes again, restarts included. */
  lemma DoneAndFailedStay(
    run: seq<State>, i: nat, s: State, j: nat, s': State, id: string, event: Event)
    returns (after: Event)
    requires IsRun(run) && Runs.IsAt(run, i, s) && Runs.IsAt(run, j, s') && i <= j
    requires IsRow(s, id, event)
    ensures IsRow(s', id, after) && IsLaterEvent(event, after)
  {
    forall k: nat | k < |run| ensures Inv(run[k]) { StateOk(run, run[k]); }
    forall s, t | Inv(s) && Next(s, t) ensures Later(s, t) { NextIsLater(s, t); }
    Runs.Progress(Init, Next, Inv, Later, run, i, j);
    after := s'.rows[id];
  }

  predicate HasEvent(worker: Worker, id: string) { !worker.Free? && worker.id == id }

  /** An event whose completion took effect is over: it stays as the worker left it,
      whatever fails, is retried or restarted later, is never due again, and no worker
      has it. */
  lemma CompletedIsOver(
    run: seq<State>, i: nat, s: State, k: nat, done: State, j: nat, s': State, w: nat,
    id: string, outcome: Outcome, now: string)
    returns (event: Event)
    requires IsRun(run) && Runs.AreNext(run, i, s, k, done) && Runs.IsAt(run, j, s') && k <= j
    requires Enabled(s, Complete(w, outcome)) && outcome.Effective()
    requires done == After(s, Complete(w, outcome)) && IsAtEvent(s, w, id)
    ensures IsRow(s, id, event)
    ensures IsRow(s', id, event.(status := Status.Done, error := ""))
    ensures !IsClaimable(s'.rows, id, now)
    ensures forall worker :: worker in s'.workers ==> !HasEvent(worker, id)
  {
    StateOk(run, s);
    StateOk(run, s');
    assert WorkerOk(s.rows, s.workers[w]);
    event := s.rows[id];
    var after := DoneAndFailedStay(run, k, done, j, s', id, done.rows[id]);
    hide IsRun;
    forall worker | worker in s'.workers ensures !HasEvent(worker, id) {
      assert WorkerOk(s'.rows, worker);
    }
  }

  predicate IsAtEvent(s: State, w: nat, id: string) {
    w < |s.workers| && HasEvent(s.workers[w], id)
  }

  /** What a worker may still do for an event without a restart. */
  function Energy(event: Event): nat {
    if !IsOpen(event) || event.attempts >= MAX_ATTEMPTS then 0
    else 2 * (MAX_ATTEMPTS - event.attempts) + (if event.status.Pending? then 1 else 0)
  }

  /** Claims and their outcomes use energy up and nothing but a restart gives any back:
      every statement that takes effect on an event costs it some. */
  lemma EnergyShrinks(s: State, step: Step, id: string)
    requires Inv(s) && Enabled(s, step) && !step.Restart? && id in s.rows
    ensures id in After(s, step).rows
    ensures After(s, step).rows[id] == s.rows[id] ||
      Energy(After(s, step).rows[id]) < Energy(s.rows[id])
  {
    assert EventOk(s.rows[id]);
    if step.Complete? || step.Retry? { assert WorkerOk(s.rows, s.workers[step.w]); }
    hide Inv;
    hide WorkerOk;
    match step {
      case Enqueue(_, _, _, _) => {}
      case Claim(_, _, _, _) => {}
      case Work(_, _, _) => {}
      case Complete(_, _) => {}
      case Retry(_, _, _) => {}
      case Store(_, _) => {}
      case Restart(n) => assert false;
    }
  }

  // ---- the store and one worker -----------------------------------------------

  datatype Delivery = Delivery(
    id: string, room: string, parent: string, sender: string, text: string, created: string)

  datatype Handled = Reply(persona: string, text: string) | Steered | HandleError

  /** What one event meets outside: what the API returns for the message and for the first
      one of its thread, how reading and adding that root end, what the conversation makes
      of the message, and how the post ends. */
  datatype Answers = Answers(
    fetched: Option<Delivery>, readable: bool, root: Option<Delivery>, add: Outcome,
    handled: Handled, send: Outcome)

  /** What Handle is given: always in continue mode. */
  datatype Given = Given(scope: Scope, id: string, sender: string, text: string, created: string)

  datatype Post = Post(room: string, parent: string, text: string)

  function RoomScope(room: string): Scope { Scope(Shared("room:" + room), room, "") }

  function ThreadScope(room: string, root: string): Scope {
    Scope(Shared("thread:" + room + ":" + root), room, root)
  }

  function ScopeOf(message: Delivery): Scope {
    if message.parent == "" then RoomScope(message.room)
    else ThreadScope(message.room, message.parent)
  }

  function GivenOf(message: Delivery): Given {
    Given(ScopeOf(message), message.id, message.sender, message.text, message.created)
  }

  /** Two messages come to one conversation exactly when they are of one room and thread;
      the IDs of rooms hold no colon. */
  lemma ScopesApart(a: Delivery, b: Delivery)
    requires ':' !in a.room && ':' !in b.room
    ensures ScopeOf(a).key == ScopeOf(b).key <==> a.room == b.room && a.parent == b.parent
  {
    var s, t := ScopeOf(a).key.name, ScopeOf(b).key.name;
    assert "room:"[0] != "thread:"[0];
    if s == t {
      assert s[0] == t[0];
      if a.parent == "" {
        assert a.room == s[5..] && b.room == t[5..];
      } else {
        assert s[7..] == a.room + ":" + a.parent && t[7..] == b.room + ":" + b.parent;
        FirstColon(a.room, a.parent, b.room, b.parent);
      }
    }
  }

  lemma FirstColon(a: string, p: string, b: string, q: string)
    requires a + ":" + p == b + ":" + q && ':' !in a && ':' !in b
    ensures a == b && p == q
  {
    var s, t := a + ":" + p, b + ":" + q;
    assert s[|a|] == ':' && t[|b|] == ':';
    assert a == s[..|a|] && b == t[..|b|] && p == s[|a| + 1..] && q == t[|b| + 1..];
  }

  function RootRow(root: Delivery, bot: string): Message {
    Message(root.id, RoomScope(root.room), if root.sender == bot then Assistant else User,
      root.sender, root.text, "", 0, root.created)
  }

  function Posted(message: Delivery, persona: string, reply: string): Post {
    Post(message.room, message.parent, (if persona != "" then "[" + persona + "] " else "") + reply)
  }

  /** What a claim of `id` does to the table and tells the worker. */
  ghost predicate IsClaimOf(
    before: Rows, after: Rows, id: string, commit: Outcome, claimed: Option<string>)
    requires id in before
  {
    && after == (if commit.Effective() then Claimed(before, id) else before)
    && claimed == if commit.Done? then Some(id) else None
  }

  /** Some event is next whenever one is due. */
  lemma NextEventExists(rows: Rows, id: string, now: string)
    requires IsClaimable(rows, id, now)
    ensures exists k :: IsNextEvent(rows, k, now)
  {
    var due := set k | k in rows && IsClaimable(rows, k, now);
    assert id in due;
    EarliestAmong(rows, due);
    var k :| k in due && forall j :: j in due ==> !Less(rows[j].createdAt, rows[k].createdAt);
    assert IsNextEvent(rows, k, now);
  }

  lemma {:induction false} EarliestAmong(rows: Rows, ids: set<string>)
    requires ids != {} && ids <= rows.Keys
    ensures exists k :: k in ids && forall j :: j in ids ==>
      !Less(rows[j].createdAt, rows[k].createdAt)
    decreases |ids|
  {
    var a :| a in ids;
    LessIrreflexive(rows[a].createdAt);
    if ids == {a} {
      assert forall j :: j in ids ==> !Less(rows[j].createdAt, rows[a].createdAt);
    } else {
      EarliestAmong(rows, ids - {a});
      var b :| b in ids - {a} &&
        forall j :: j in ids - {a} ==> !Less(rows[j].createdAt, rows[b].createdAt);
      var k := if Less(rows[a].createdAt, rows[b].createdAt) then a else b;
      forall j | j in ids ensures !Less(rows[j].createdAt, rows[k].createdAt) {
        if k == a && j != a && Less(rows[j].createdAt, rows[a].createdAt) {
          LessTransitive(rows[j].createdAt, rows[a].createdAt, rows[b].createdAt);
        }
      }
    }
  }

  class EventWorker {
    const bot: string
    var rows: Rows
    var messages: Messages
    var posts: seq<Post>

    ghost predicate Valid()
      reads this
    {
      TableOk(rows)
    }

    constructor (bot: string, stored: Rows, messages: Messages)
      requires TableOk(stored)
      ensures Valid() && rows == Recovered(stored) && this.messages == messages && posts == []
      ensures this.bot == bot
    {
      this.bot := bot;
      this.messages := messages;
      posts := [];
      forall id | id in stored ensures EventOk(Recovered(stored)[id]) { assert EventOk(stored[id]); }
      rows := Recovered(stored);
    }

    /** Claim the pending event that has been due longest. */
    method ClaimWebex(now: string, commit: Outcome) returns (claimed: Option<string>)
      requires Valid()
      modifies this`rows
      ensures Valid()
      ensures (forall k :: !IsClaimable(old(rows), k, now)) ==>
        claimed.None? && rows == old(rows)
      ensures (exists k :: IsClaimable(old(rows), k, now)) ==>
        (exists id ::
          && IsNextEvent(old(rows), id, now)
          && IsClaimOf(old(rows), rows, id, commit, claimed))
      ensures claimed.Some? ==> claimed.value in rows && rows[claimed.value].status.Processing?
    {
      claimed := None;
      if k :| k in rows && IsClaimable(rows, k, now) {
        NextEventExists(rows, k, now);
        var id :| id in rows && IsNextEvent(rows, id, now);
        ghost var before := rows;
        if commit.Effective() {
          assert EventOk(rows[id]);
          rows := Claimed(rows, id);
        }
        if commit.Done? {
          claimed := Some(id);
        }
        assert IsClaimOf(before, rows, id, commit, claimed);
      }
    }

    /** The status is not looked at. The event is done for good (see `CompletedIsOver`). */
    method CompleteWebex(id: string, outcome: Outcome)
      requires Valid()
      modifies this`rows
      ensures (id in old(rows) ==> !old(rows)[id].status.Failed?) ==> Valid()
      ensures rows == if outcome.Effective() then Completed(old(rows), id) else old(rows)
    {
      if outcome.Effective() {
        if id in rows { assert EventOk(rows[id]); }
        rows := Completed(rows, id);
      }
    }

    /** The status and the count in the row are not looked at: `attempts` is what the
        claim read. */
    method RetryWebex(id: string, attempts: nat, failure: string, due: string, outcome: Outcome)
      requires Valid()
      modifies this`rows
      ensures attempts < MAX_ATTEMPTS ==> Valid()
      ensures rows ==
        if outcome.Effective() then Retried(old(rows), id, attempts, failure, due) else old(rows)
    {
      var failures := attempts + 1;
      var status := Pending;
      if failures >= MAX_ATTEMPTS {
        status := Failed;
      }
      var error := Text.TruncateUTF8(failure, MAX_ERROR_BYTES);
      if outcome.Effective() && id in rows {
        rows := rows[id := rows[id].(status := status, attempts := failures, due := due,
          delay := Delay(failures), error := error)];
      }
    }

    /** The thread's first message is stored once, outside every persona's conversation. */
    method SaveThreadRoot(
      message: Delivery, readable: bool, root: Option<Delivery>, add: Outcome) returns (ok: bool)
      modifies this`messages
      ensures ok ==
        (readable && (message.parent in old(messages) || (root.Some? && add.Done?)))
      ensures messages ==
        if readable && message.parent !in old(messages) && root.Some? && add.Effective()
        then AddMessage(old(messages), RootRow(root.value, bot)) else old(messages)
    {
      if !readable {
        return false;
      }
      if message.parent in messages {
        return true;
      }
      if root.None? {
        return false;
      }
      if add.Effective() {
        messages := AddMessage(messages, RootRow(root.value, bot));
      }
      return add.Done?;
    }

    /** One event. The message comes to the conversation under its room's or its thread's
        key, exactly when it is another person's, of the event's room, and the first message
        of its thread is stored. A reply is posted exactly for a handled message, not
        steered, once, to its own room and thread. */
    method Process(room: string, o: Answers) returns (ok: bool, given: Option<Given>)
      modifies this`messages, this`posts
      ensures given == if Reaches(bot, old(messages), room, o)
        then Some(GivenOf(o.fetched.value)) else None
      ensures ok <==> Succeeds(bot, old(messages), room, o)
      ensures posts == old(posts) + PostsFor(bot, old(messages), room, o)
      ensures messages == MessagesAfter(bot, old(messages), room, o)
    {
      given := None;
      ok := false;
      if o.fetched.None? {
        return;
      }
      var message := o.fetched.value;
      if message.room != room {
        return;
      }
      if message.sender == bot {
        ok := true;
        return;
      }
      var scope := RoomScope(message.room);
      if message.parent != "" {
        scope := ThreadScope(message.room, message.parent);
        var saved := SaveThreadRoot(message, o.readable, o.root, o.add);
        if !saved {
          return;
        }
      }
      given := Some(Given(scope, message.id, message.sender, message.text, message.created));
      match o.handled {
        case HandleError => {}
        case Steered =>
          ok := true;
        case Reply(persona, text) =>
          var reply := text;
          if persona != "" {
            reply := "[" + persona + "] " + reply;
          }
          assert "" + text == text;
          assert reply == Posted(message, persona, text).text;
          if o.send.Effective() {
            posts := posts + [Post(message.room, message.parent, reply)];
          }
          ok := o.send.Done?;
      }
    }

    /** One round of a worker: claim, process, and write how it went. There is a round
        exactly when an event is due and its claim is learned of; the event is completed
        exactly when it was processed without error, and retried otherwise. */
    method ProcessNext(
      now: string, commit: Outcome, o: Answers, failure: string, due: string, finish: Outcome)
      returns (more: bool)
      requires Valid()
      modifies this
      ensures Valid()
      ensures more <==> commit.Done? && exists k :: IsClaimable(old(rows), k, now)
      ensures !more ==> posts == old(posts) && messages == old(messages)
      ensures !more ==> rows == old(rows) || (commit.Unknown? && exists id ::
        IsNextEvent(old(rows), id, now) && rows == Claimed(old(rows), id))
      ensures more ==> (exists id ::
        && IsNextEvent(old(rows), id, now)
        && var room := old(rows)[id].room;
        && IsRound(old(rows), rows, id, Succeeds(bot, old(messages), room, o), failure, due, finish)
        && posts == old(posts) + PostsFor(bot, old(messages), room, o)
        && messages == MessagesAfter(bot, old(messages), room, o))
    {
      ghost var before := rows;
      var claimed := ClaimWebex(now, commit);
      if claimed.None? {
        return false;
      }
      var id := claimed.value;
      ghost var claim := rows;
      ghost var stored := messages;
      assert IsNextEvent(before, id, now) && claim == Claimed(before, id);
      var ok, _ := Process(rows[id].room, o);
      if ok {
        CompleteWebex(id, finish);
      } else {
        assert EventOk(before[id]);
        RetryWebex(id, rows[id].attempts, failure, due, finish);
      }
      assert ok == Succeeds(bot, stored, before[id].room, o);
      assert IsRound(before, rows, id, ok, failure, due, finish);
      return true;
    }
  }

  /** The fetched message is another person's, of the event's own room. */
  predicate IsMeant(bot: string, room: string, o: Answers) {
    o.fetched.Some? && o.fetched.value.room == room && o.fetched.value.sender != bot
  }

  /** It comes to the conversation: the first message of its thread is stored. */
  predicate Reaches(bot: string, messages: Messages, room: string, o: Answers) {
    && IsMeant(bot, room, o)
    && (|| o.fetched.value.parent == ""
        || (o.readable && (o.fetched.value.parent in messages || (o.root.Some? && o.add.Done?))))
  }

  /** When processing an event reports no error. */
  predicate Succeeds(bot: string, messages: Messages, room: string, o: Answers) {
    || (o.fetched.Some? && o.fetched.value.room == room && o.fetched.value.sender == bot)
    || (Reaches(bot, messages, room, o) && (o.handled.Steered? || (o.handled.Reply? && o.send.Done?)))
  }

  /** A reply that was posted may still count as an error. */
  function PostsFor(bot: string, messages: Messages, room: string, o: Answers): seq<Post> {
    if Reaches(bot, messages, room, o) && o.handled.Reply? && o.send.Effective()
    then [Posted(o.fetched.value, o.handled.persona, o.handled.text)]
    else []
  }

  function MessagesAfter(bot: string, messages: Messages, room: string, o: Answers): Messages {
    if IsMeant(bot, room, o) && o.fetched.value.parent != "" && o.readable &&
       o.fetched.value.parent !in messages && o.root.Some? && o.add.Effective()
    then AddMessage(messages, RootRow(o.root.value, bot))
    else messages
  }

  ghost predicate IsRound(
    before: Rows, after: Rows, id: string, ok: bool, failure: string, due: string,
    finish: Outcome)
    requires id in before
  {
    var claimed := Claimed(before, id);
    after ==
      if !finish.Effective() then claimed
      else if ok then Completed(claimed, id)
      else Retried(claimed, id, before[id].attempts, failure, due)
  }
}
