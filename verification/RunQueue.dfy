/** The run queue service: submitters, workers and one wake token over the durable
    queue, with failing statements, shutdown, and crash plus restart at any point. */
module RunQueue {
  import opened Wrappers
  import opened MessageRuns
  import Runs

  /** Submit between its statements: the insert is done, the stored run is read, and
      `Waking` is about to call Wake. */
  datatype SubmitPc = Reading(run: Run, created: bool) | Waking

  datatype WorkerPc =
    | Idle                                    // in select
    | Claiming                                // in the claim loop
    | Fetching(id: string)                    // the claim is committed, the read is not done
    | Holding(run: Run)                       // in Handle
    | Completing(id: string, result: Result)
    | Failing(id: string, failure: string)
    | Requeueing(id: string)
    | Exited

  /** `starter` is run() before its Wake. `claimFailed` and `submitFailed` are history:
      since the start, a claim reported an error, or a submitter failed although its
      row was inserted. */
  datatype State = State(
    rows: Rows, workers: seq<WorkerPc>, submits: map<nat, SubmitPc>,
    starter: bool, wake: bool, cancelled: bool, claimFailed: bool, submitFailed: bool)

  datatype TurnOutcome = TurnOk(result: Result) | TurnErr(failure: string)

  /** What one caller of Submit does next. */
  datatype Call =
    | Insert(run: Run, outcome: Outcome)
    | ReadBack(readable: bool)
    | CallWake

  /** What one worker does next. */
  datatype Action =
    | TakeToken
    | Tick
    | Exit
    | ClaimOne(id: string, commit: Outcome, now: string)
    | ClaimNone
    | ClaimError
    | Fetch(readable: bool)
    | Return(turn: TurnOutcome)
    | Finish(outcome: Outcome, now: string)

  datatype Step =
    | Client(k: nat, call: Call)
    | Work(w: nat, action: Action)
    | StarterWake
    | Cancel
    | Crash(workers: nat)

  predicate HasQueued(rows: Rows) { exists id :: id in rows && rows[id].status.Queued? }

  /** Where worker `w` is; one that is not there is not in the loop either. */
  function PcOf(s: State, w: nat): WorkerPc {
    if w < |s.workers| then s.workers[w] else Exited
  }

  function WithWorker(s: State, w: nat, pc: WorkerPc): State {
    if w < |s.workers| then s.(workers := s.workers[w := pc]) else s
  }

  function Idlers(n: nat): (workers: seq<WorkerPc>)
    ensures |workers| == n && forall w :: 0 <= w < n ==> workers[w] == Idle
  {
    seq(n, i => Idle)
  }

  predicate IsFinishing(pc: WorkerPc) { pc.Completing? || pc.Failing? || pc.Requeueing? }

  function FinishedRows(rows: Rows, pc: WorkerPc, now: string): Rows {
    match pc
    case Completing(id, result) => Finished(rows, id, result, now)
    case Failing(id, failure) => Broken(rows, id, failure, now)
    case Requeueing(id) => Requeued(rows, id)
    case _ => rows
  }

  ghost predicate CanCall(s: State, k: nat, call: Call) {
    match call
    case Insert(run, _) => k !in s.submits && IsComplete(run)
    case ReadBack(_) => k in s.submits && s.submits[k].Reading?
    case CallWake => k in s.submits && s.submits[k].Waking?
  }

  ghost predicate CanWork(s: State, w: nat, action: Action) {
    && w < |s.workers|
    && var pc := s.workers[w];
    match action
    case TakeToken => pc.Idle? && s.wake
    case Tick => pc.Idle?
    case Exit => pc.Idle? && s.cancelled
    case ClaimOne(id, _, _) => pc.Claiming? && IsOldestQueued(s.rows, id)
    case ClaimNone => pc.Claiming? && !HasQueued(s.rows)
    case ClaimError => pc.Claiming?
    case Fetch(_) => pc.Fetching?
    case Return(_) => pc.Holding?
    case Finish(_, _) => IsFinishing(pc)
  }

  ghost predicate Enabled(s: State, step: Step) {
    match step
    case Client(k, call) => CanCall(s, k, call)
    case Work(w, action) => CanWork(s, w, action)
    case StarterWake => s.starter
    case Cancel => true
    case Crash(n) => n > 0
  }

  function AfterSubmit(s: State, k: nat, run: Run, outcome: Outcome): State {
    var rows := if outcome.Effective() then Inserted(s.rows, run) else s.rows;
    var created := rows != s.rows;
    match outcome
    case Done => s.(rows := rows, submits := s.submits[k := Reading(run, created)])
    case Lost => s
    case Unknown => s.(rows := rows, submitFailed := s.submitFailed || created)
  }

  function AfterSubmitRead(s: State, k: nat, readable: bool): State {
    var created := k in s.submits && s.submits[k].Reading? && s.submits[k].created;
    if readable && created then s.(submits := s.submits[k := Waking])
    else s.(submits := s.submits - {k}, submitFailed := s.submitFailed || created)
  }

  function AfterClaim(s: State, w: nat, id: string, commit: Outcome, now: string): State {
    match commit
    case Done => WithWorker(s, w, Fetching(id)).(rows := Claimed(s.rows, id, now))
    case Lost => WithWorker(s, w, Idle).(claimFailed := true)
    case Unknown => WithWorker(s, w, Idle).(claimFailed := true, rows := Claimed(s.rows, id, now))
  }

  function AfterFetch(s: State, w: nat, readable: bool): State {
    match PcOf(s, w)
    case Fetching(id) =>
      if readable && id in s.rows then WithWorker(s, w, Holding(s.rows[id]))
      else WithWorker(s, w, Idle).(claimFailed := true)
    case _ => s
  }

  /** What is written for a turn: an error after shutdown began requeues the run, any
      other error fails it. */
  function Ending(id: string, turn: TurnOutcome, cancelled: bool): (pc: WorkerPc)
    ensures IsFinishing(pc)
  {
    if turn.TurnOk? then Completing(id, turn.result)
    else if cancelled then Requeueing(id)
    else Failing(id, turn.failure)
  }

  function AfterReturn(s: State, w: nat, turn: TurnOutcome): State {
    match PcOf(s, w)
    case Holding(run) => WithWorker(s, w, Ending(run.id, turn, s.cancelled))
    case _ => s
  }

  function AfterFinish(s: State, w: nat, outcome: Outcome, now: string): State {
    WithWorker(s, w, Claiming).(
      rows := if outcome.Effective() then FinishedRows(s.rows, PcOf(s, w), now) else s.rows)
  }

  function Restarted(rows: Rows, n: nat): State {
    State(Recovered(rows), Idlers(n), map[], true, false, false, false, false)
  }

  function AfterCall(s: State, k: nat, call: Call): State {
    match call
    case Insert(run, outcome) => AfterSubmit(s, k, run, outcome)
    case ReadBack(readable) => AfterSubmitRead(s, k, readable)
    case CallWake => s.(wake := true, submits := s.submits - {k})
  }

  function AfterWork(s: State, w: nat, action: Action): State {
    match action
    case TakeToken => WithWorker(s, w, Claiming).(wake := false)
    case Tick => WithWorker(s, w, Claiming)
    case Exit => WithWorker(s, w, Exited)
    case ClaimOne(id, commit, now) => AfterClaim(s, w, id, commit, now)
    case ClaimNone => WithWorker(s, w, Idle)
    case ClaimError => WithWorker(s, w, Idle).(claimFailed := true)
    case Fetch(readable) => AfterFetch(s, w, readable)
    case Return(turn) => AfterReturn(s, w, turn)
    case Finish(outcome, now) => AfterFinish(s, w, outcome, now)
  }

  function After(s: State, step: Step): State {
    match step
    case Client(k, call) => AfterCall(s, k, call)
    case Work(w, action) => AfterWork(s, w, action)
    case StarterWake => s.(wake := true, starter := false)
    case Cancel => s.(cancelled := true)
    case Crash(n) => Restarted(s.rows, n)
  }

  ghost predicate Init(s: State) {
    |s.workers| > 0 && s == Restarted(map[], |s.workers|)
  }

  ghost predicate Next(s: State, s': State) {
    exists step :: Enabled(s, step) && s' == After(s, step)
  }

  // ---- the invariant ----------------------------------------------------------

  /** The run a worker has claimed and not yet let go of. */
  function Held(pc: WorkerPc): Option<string> {
    match pc
    case Fetching(id) => Some(id)
    case Holding(run) => Some(run.id)
    case Completing(id, _) => Some(id)
    case Failing(id, _) => Some(id)
    case Requeueing(id) => Some(id)
    case Idle => None
    case Claiming => None
    case Exited => None
  }

  predicate InLoop(pc: WorkerPc) { !pc.Idle? && !pc.Exited? }

  ghost predicate WorkerOk(rows: Rows, pc: WorkerPc) {
    && (Held(pc).Some? ==> Held(pc).value in rows && rows[Held(pc).value].status.Running?)
    && (pc.Holding? ==> pc.run.id in rows && rows[pc.run.id] == pc.run)
  }

  /** What only happens once shutdown has begun. */
  predicate IsStopping(pc: WorkerPc) { pc.Exited? || pc.Requeueing? }

  ghost predicate WorkersOk(s: State) {
    && (forall w :: 0 <= w < |s.workers| ==> WorkerOk(s.rows, s.workers[w]))
    && (forall v, w :: 0 <= v < w < |s.workers| && Held(s.workers[v]).Some? ==>
          Held(s.workers[v]) != Held(s.workers[w]))
    && (forall w :: 0 <= w < |s.workers| && IsStopping(s.workers[w]) ==> s.cancelled)
  }

  /** Somebody is about to look at the queue without waiting for a timer. */
  ghost predicate WakeupPending(s: State) {
    || s.wake
    || s.starter
    || (exists w :: 0 <= w < |s.workers| && InLoop(s.workers[w]))
    || (exists k :: k in s.submits && IsWaker(s.submits[k]))
  }

  predicate IsWaker(pc: SubmitPc) { pc.Waking? || pc.created }

  ghost predicate NoLostWakeup(s: State) {
    HasQueued(s.rows) && !s.cancelled && !s.claimFailed && !s.submitFailed ==> WakeupPending(s)
  }

  ghost predicate Inv(s: State) {
    && |s.workers| > 0
    && TableOk(s.rows)
    && WorkersOk(s)
    && NoLostWakeup(s)
  }

  /** Rows that workers other than `w` hold stay as they are, and it holds none of them. */
  ghost predicate OthersHold(s: State, s': State, w: nat) {
    forall v :: 0 <= v < |s.workers| && v != w && Held(s.workers[v]).Some? ==>
      var id := Held(s.workers[v]).value;
      id in s'.rows && id in s.rows && s'.rows[id] == s.rows[id] && Held(PcOf(s', w)) != Some(id)
  }

  /** Worker `w` goes on. */
  lemma WorkersStayOk(s: State, s': State, w: nat)
    requires WorkersOk(s) && w < |s.workers|
    requires s'.workers == WithWorker(s, w, PcOf(s', w)).workers
    requires s.cancelled ==> s'.cancelled
    requires WorkerOk(s'.rows, PcOf(s', w)) && (IsStopping(PcOf(s', w)) ==> s'.cancelled)
    requires OthersHold(s, s', w)
    ensures WorkersOk(s')
  {
    forall v | 0 <= v < |s'.workers| ensures WorkerOk(s'.rows, s'.workers[v]) {
      assert WorkerOk(s.rows, s.workers[v]);
    }
    forall u, v | 0 <= u < v < |s'.workers| && Held(s'.workers[u]).Some?
      ensures Held(s'.workers[u]) != Held(s'.workers[v])
    {
      if u != w && v != w { assert Held(s.workers[u]) != Held(s.workers[v]); }
    }
  }

  /** Workers do not notice rows being added. */
  lemma WorkersKeepOk(s: State, s': State)
    requires WorkersOk(s) && s'.workers == s.workers && (s.cancelled ==> s'.cancelled)
    requires forall id :: id in s.rows ==> id in s'.rows && s'.rows[id] == s.rows[id]
    ensures WorkersOk(s')
  {
    forall w | 0 <= w < |s'.workers| ensures WorkerOk(s'.rows, s'.workers[w]) {
      assert WorkerOk(s.rows, s.workers[w]);
    }
  }

  lemma SomeoneInLoop(s: State, w: nat)
    requires w < |s.workers| && InLoop(PcOf(s, w))
    ensures WakeupPending(s)
  {
  }

  lemma SomeoneWaking(s: State, k: nat)
    requires k in s.submits && IsWaker(s.submits[k])
    ensures WakeupPending(s)
  {
  }

  // ---- every step -------------------------------------------------------------

  lemma SubmitOk(s: State, k: nat, run: Run, outcome: Outcome)
    requires Inv(s) && k !in s.submits
    ensures Inv(AfterSubmit(s, k, run, outcome))
  {
    var s' := AfterSubmit(s, k, run, outcome);
    InsertedKeepsTable(s.rows, run);
    SubmitWakeup(s, k, run, outcome);
    SubmitWorkersOk(s, k, run, outcome);
    hide NoLostWakeup;
    hide WorkersOk;
    hide TableOk;
    hide Inserted;
  }

  lemma SubmitWorkersOk(s: State, k: nat, run: Run, outcome: Outcome)
    requires WorkersOk(s)
    ensures WorkersOk(AfterSubmit(s, k, run, outcome))
  {
    InsertedKeepsRows(s.rows, run);
    hide Inserted;
    WorkersKeepOk(s, AfterSubmit(s, k, run, outcome));
  }

  lemma InsertedKeepsRows(rows: Rows, run: Run)
    ensures forall id :: id in rows ==> id in Inserted(rows, run) && Inserted(rows, run)[id] == rows[id]
  {
  }

  lemma SubmitWakeup(s: State, k: nat, run: Run, outcome: Outcome)
    requires NoLostWakeup(s) && k !in s.submits
    ensures NoLostWakeup(AfterSubmit(s, k, run, outcome))
  {
    var s' := AfterSubmit(s, k, run, outcome);
    if s'.rows == s.rows {
      if WakeupPending(s) { PendingStays(s, s'); }
    } else if outcome.Done? {
      hide HasQueued;
      SomeoneWaking(s', k);
    }
  }

  predicate KeepsSubmits(s: State, s': State) {
    forall k :: k in s.submits ==> k in s'.submits && s'.submits[k] == s.submits[k]
  }

  /** A pending wakeup is still pending when no waker or worker went away. */
  lemma PendingStays(s: State, s': State)
    requires WakeupPending(s) && s'.workers == s.workers
    requires (s.wake ==> s'.wake) && (s.starter ==> s'.starter)
    requires KeepsSubmits(s, s')
    ensures WakeupPending(s')
  {
    if exists w :: 0 <= w < |s.workers| && InLoop(s.workers[w]) {
      var w :| 0 <= w < |s.workers| && InLoop(s.workers[w]);
      SomeoneInLoop(s', w);
    } else if !s.wake && !s.starter {
      var k :| k in s.submits && IsWaker(s.submits[k]);
      SomeoneWaking(s', k);
    }
  }

  lemma SubmitReadOk(s: State, k: nat, readable: bool)
    requires Inv(s) && k in s.submits && s.submits[k].Reading?
    ensures Inv(AfterSubmitRead(s, k, readable))
  {
    var s' := AfterSubmitRead(s, k, readable);
    WorkersKeepOk(s, s');
    hide TableOk;
    hide WorkersOk;
    hide HasQueued;
    if s.submits[k].created {
      if readable { SomeoneWaking(s', k); }
    } else if WakeupPending(s) {
      if s'.wake || s'.starter {
      } else if exists w :: 0 <= w < |s.workers| && InLoop(s.workers[w]) {
        var w :| 0 <= w < |s.workers| && InLoop(s.workers[w]);
        SomeoneInLoop(s', w);
      } else {
        var j :| j in s.submits && IsWaker(s.submits[j]);
        SomeoneWaking(s', j);
      }
    }
  }

  lemma ClaimOk(s: State, w: nat, id: string, commit: Outcome, now: string)
    requires Inv(s) && CanWork(s, w, ClaimOne(id, commit, now))
    ensures Inv(AfterClaim(s, w, id, commit, now))
  {
    var s' := AfterClaim(s, w, id, commit, now);
    ClaimedKeepsTable(s.rows, id, now);
    ClaimWorkersOk(s, w, id, commit, now);
    hide TableOk;
    hide WorkersOk;
    hide HasQueued;
    if commit.Done? { SomeoneInLoop(s', w); }
  }

  lemma ClaimWorkersOk(s: State, w: nat, id: string, commit: Outcome, now: string)
    requires WorkersOk(s) && CanWork(s, w, ClaimOne(id, commit, now))
    ensures WorkersOk(AfterClaim(s, w, id, commit, now))
  {
    forall v | 0 <= v < |s.workers| && v != w && Held(s.workers[v]).Some?
      ensures Held(s.workers[v]).value != id && Held(s.workers[v]).value in s.rows
    {
      assert WorkerOk(s.rows, s.workers[v]);
    }
    WorkersStayOk(s, AfterClaim(s, w, id, commit, now), w);
  }

  /** A worker that keeps its run moves on within the loop. */
  lemma MoveInLoopOk(s: State, w: nat, pc: WorkerPc)
    requires Inv(s) && w < |s.workers| && InLoop(pc) && (pc.Requeueing? ==> s.cancelled)
    requires Held(pc) == Held(PcOf(s, w)) && WorkerOk(s.rows, pc)
    ensures Inv(WithWorker(s, w, pc))
  {
    var s' := WithWorker(s, w, pc);
    forall v | 0 <= v < |s.workers| && v != w && Held(s.workers[v]).Some?
      ensures Held(s.workers[v]) != Held(s.workers[w])
      ensures Held(s.workers[v]).value in s.rows
    {
      assert WorkerOk(s.rows, s.workers[v]);
    }
    WorkersStayOk(s, s', w);
    SomeoneInLoop(s', w);
  }

  /** A worker goes idle, exits or looks for work, holding nothing. */
  lemma LetGoOk(s: State, s': State, w: nat, pc: WorkerPc)
    requires Inv(s) && w < |s.workers| && (pc.Idle? || pc.Claiming? || pc.Exited?)
    requires s' == WithWorker(s, w, pc).(wake := s'.wake, claimFailed := s'.claimFailed)
    requires pc.Exited? ==> s.cancelled
    requires NoLostWakeup(s')
    ensures Inv(s')
  {
    forall v | 0 <= v < |s.workers| && v != w && Held(s.workers[v]).Some?
      ensures Held(s.workers[v]).value in s.rows
    {
      assert WorkerOk(s.rows, s.workers[v]);
    }
    WorkersStayOk(s, s', w);
  }

  lemma FetchOk(s: State, w: nat, readable: bool)
    requires Inv(s) && CanWork(s, w, Fetch(readable))
    ensures Inv(AfterFetch(s, w, readable))
  {
    var id := s.workers[w].id;
    assert WorkerOk(s.rows, s.workers[w]);
    if readable {
      assert s.rows[id].id == id;
      MoveInLoopOk(s, w, Holding(s.rows[id]));
    } else {
      LetGoOk(s, AfterFetch(s, w, readable), w, Idle);
    }
  }

  lemma ReturnOk(s: State, w: nat, turn: TurnOutcome)
    requires Inv(s) && CanWork(s, w, Return(turn))
    ensures Inv(AfterReturn(s, w, turn))
  {
    assert WorkerOk(s.rows, s.workers[w]);
    hide Inv;
    MoveInLoopOk(s, w, Ending(s.workers[w].run.id, turn, s.cancelled));
  }

  /** The terminal writes touch no other row. */
  lemma FinishedRowsFrame(rows: Rows, pc: WorkerPc, now: string, k: string)
    requires IsFinishing(pc) && TableOk(rows)
    ensures TableOk(FinishedRows(rows, pc, now))
    ensures k in FinishedRows(rows, pc, now) <==> k in rows
    ensures k in rows && Held(pc) != Some(k) ==> FinishedRows(rows, pc, now)[k] == rows[k]
  {
    match pc {
      case Completing(id, result) => FinishedKeepsTable(rows, id, result, now);
      case Failing(id, failure) => BrokenKeepsTable(rows, id, failure, now);
      case Requeueing(id) => RequeuedKeepsTable(rows, id);
    }
  }

  lemma FinishOk(s: State, w: nat, outcome: Outcome, now: string)
    requires Inv(s) && CanWork(s, w, Finish(outcome, now))
    ensures Inv(AfterFinish(s, w, outcome, now))
  {
    var s' := AfterFinish(s, w, outcome, now);
    FinishedRowsFrame(s.rows, s.workers[w], now, "");
    forall v | 0 <= v < |s.workers| && v != w && Held(s.workers[v]).Some?
      ensures var id := Held(s.workers[v]).value; id in s'.rows && s'.rows[id] == s.rows[id]
    {
      assert WorkerOk(s.rows, s.workers[v]);
      assert Held(s.workers[v]) != Held(s.workers[w]);
      FinishedRowsFrame(s.rows, s.workers[w], now, Held(s.workers[v]).value);
    }
    WorkersStayOk(s, s', w);
    SomeoneInLoop(s', w);
  }

  lemma RestartOk(rows: Rows, n: nat)
    requires TableOk(rows) && n > 0
    ensures Inv(Restarted(rows, n))
  {
    RecoveredKeepsTable(rows);
  }

  /** Setting the token or the stop flag. */
  lemma SignalOk(s: State, s': State)
    requires Inv(s) && s'.rows == s.rows && s'.workers == s.workers
    requires s'.wake || s'.cancelled
    requires s.cancelled ==> s'.cancelled
    ensures Inv(s')
  {
    hide TableOk;
    WorkersKeepOk(s, s');
  }

  lemma StartClaimingOk(s: State, w: nat, s': State)
    requires Inv(s) && w < |s.workers| && PcOf(s, w).Idle?
    requires s' == WithWorker(s, w, Claiming).(wake := s'.wake)
    ensures Inv(s')
  {
    SomeoneInLoop(s', w);
    LetGoOk(s, s', w, Claiming);
  }

  lemma ExitOk(s: State, w: nat)
    requires Inv(s) && w < |s.workers| && s.cancelled
    ensures Inv(WithWorker(s, w, Exited))
  {
    LetGoOk(s, WithWorker(s, w, Exited), w, Exited);
  }

  /** A claim that finds nothing, or reports an error. */
  lemma GoIdleOk(s: State, w: nat, s': State)
    requires Inv(s) && w < |s.workers| && (!HasQueued(s.rows) || s'.claimFailed)
    requires s' == WithWorker(s, w, Idle).(claimFailed := s'.claimFailed)
    ensures Inv(s')
  {
    LetGoOk(s, s', w, Idle);
  }

  lemma CallOk(s: State, k: nat, call: Call)
    requires Inv(s) && CanCall(s, k, call)
    ensures Inv(AfterCall(s, k, call))
  {
    hide Inv;
    match call {
      case Insert(run, outcome) => SubmitOk(s, k, run, outcome);
      case ReadBack(readable) => SubmitReadOk(s, k, readable);
      case CallWake => SignalOk(s, AfterCall(s, k, call));
    }
  }

  lemma WorkOk(s: State, w: nat, action: Action)
    requires Inv(s) && CanWork(s, w, action)
    ensures Inv(AfterWork(s, w, action))
  {
    hide Inv;
    hide HasQueued;
    match action {
      case TakeToken => StartClaimingOk(s, w, AfterWork(s, w, action));
      case Tick => StartClaimingOk(s, w, AfterWork(s, w, action));
      case Exit => ExitOk(s, w);
      case ClaimOne(id, commit, now) => ClaimOk(s, w, id, commit, now);
      case ClaimNone => GoIdleOk(s, w, AfterWork(s, w, action));
      case ClaimError => GoIdleOk(s, w, AfterWork(s, w, action));
      case Fetch(readable) => FetchOk(s, w, readable);
      case Return(turn) => ReturnOk(s, w, turn);
      case Finish(outcome, now) => FinishOk(s, w, outcome, now);
    }
  }

  lemma NextOk(s: State, s': State)
    requires Inv(s) && Next(s, s')
    ensures Inv(s')
  {
    var step :| Enabled(s, step) && s' == After(s, step);
    assert TableOk(s.rows);
    hide Inv;
    hide TableOk;
    hide CanWork;
    hide CanCall;
    match step {
      case Client(k, call) => CallOk(s, k, call);
      case Work(w, action) => WorkOk(s, w, action);
      case StarterWake => SignalOk(s, s');
      case Cancel => SignalOk(s, s');
      case Crash(n) => RestartOk(s.rows, n);
    }
  }

  // ---- whole runs -------------------------------------------------------------

  ghost predicate IsRun(run: seq<State>) { Runs.IsRun(Init, Next, run) }

  lemma StateOk(run: seq<State>, s: State)
    requires IsRun(run) && s in run
    ensures Inv(s)
  {
    forall s | Init(s) ensures Inv(s) { RestartOk(map[], |s.workers|); }
    forall s, s' | Inv(s) && Next(s, s') ensures Inv(s') { NextOk(s, s'); }
    var i: nat :| i < |run| && run[i] == s;
    Runs.Invariant(Init, Next, Inv, run, i);
  }

  predicate IsRunning(rows: Rows, id: string) { id in rows && rows[id].status.Running? }

  /** A run is held by at most one worker, and what is held is running. The converse
      does not hold: a running run may wait for a restart with nobody holding it. */
  lemma HeldByOne(run: seq<State>, s: State, v: nat, w: nat, id: string)
    requires IsRun(run) && s in run
    requires Held(PcOf(s, v)) == Some(id) && Held(PcOf(s, w)) == Some(id)
    ensures v == w && IsRunning(s.rows, id)
  {
    StateOk(run, s);
    hide IsRun;
    assert WorkerOk(s.rows, s.workers[v]);
  }

  /** Later rows: none is lost, requests never change, terminal rows never change. */
  ghost predicate Later(s: State, s': State) { RowsLater(s.rows, s'.rows) }

  ghost predicate RowsLater(rows: Rows, after: Rows) {
    forall id :: id in rows ==> id in after && RowLater(rows[id], after[id])
  }

  predicate RowLater(before: Run, after: Run) {
    && after.id == before.id
    && after.request == before.request
    && after.createdAt == before.createdAt
    && (IsTerminal(before.status) ==> after == before)
  }

  lemma InsertedLater(rows: Rows, run: Run)
    ensures RowsLater(rows, Inserted(rows, run))
  {
  }

  lemma RecoveredLater(rows: Rows)
    ensures RowsLater(rows, Recovered(rows))
  {
  }

  lemma ClaimedLater(rows: Rows, id: string, now: string)
    requires id in QueuedIDs(rows)
    ensures RowsLater(rows, Claimed(rows, id, now))
  {
  }

  lemma FinishedLater(rows: Rows, pc: WorkerPc, now: string)
    requires IsFinishing(pc) && WorkerOk(rows, pc)
    ensures RowsLater(rows, FinishedRows(rows, pc, now))
  {
  }

  /** The terminal statements do not look at the status, yet they change no terminal
      row, because the worker that writes it still holds it running. */
  lemma WorkIsLater(s: State, w: nat, action: Action)
    requires Inv(s) && CanWork(s, w, action)
    ensures Later(s, AfterWork(s, w, action))
  {
    assert WorkerOk(s.rows, s.workers[w]);
    RowsSame(s.rows);
    hide Inv;
    hide WorkerOk;
    hide HasQueued;
    hide RowsLater;
    hide FinishedRows;
    hide Claimed;
    if action.ClaimOne? {
      ClaimedLater(s.rows, action.id, action.now);
    } else if action.Finish? {
      FinishedLater(s.rows, s.workers[w], action.now);
    } else {
      RowsUntouched(s, w, action);
    }
  }

  lemma RowsUntouched(s: State, w: nat, action: Action)
    requires CanWork(s, w, action) && !action.ClaimOne? && !action.Finish?
    ensures AfterWork(s, w, action).rows == s.rows
  {
    hide HasQueued;
    hide AfterClaim;
    hide AfterFinish;
    hide MessageRuns.IsOldestQueued;
    match action {
      case TakeToken => {}
      case Tick => {}
      case Exit => {}
      case ClaimOne(_, _, _) => assert false;
      case ClaimNone => {}
      case ClaimError => {}
      case Fetch(_) => {}
      case Return(_) => {}
      case Finish(_, _) => assert false;
    }
  }

  lemma CallIsLater(s: State, k: nat, call: Call)
    requires CanCall(s, k, call)
    ensures Later(s, AfterCall(s, k, call))
  {
    RowsSame(s.rows);
    hide RowsLater;
    if call.Insert? { InsertedLater(s.rows, call.run); }
  }

  lemma NextIsLater(s: State, s': State)
    requires Inv(s) && Next(s, s')
    ensures Later(s, s')
  {
    var step :| Enabled(s, step) && s' == After(s, step);
    RowsSame(s.rows);
    hide Inv;
    hide CanWork;
    hide CanCall;
    hide AfterWork;
    hide AfterCall;
    hide RowsLater;
    if step.Work? {
      WorkIsLater(s, step.w, step.action);
    } else if step.Client? {
      CallIsLater(s, step.k, step.call);
    } else {
      RecoveredLater(s.rows);
    }
  }

  lemma RowsSame(rows: Rows)
    ensures RowsLater(rows, rows)
  {
  }

  lemma RunIsLater(run: seq<State>, i: nat, s: State, j: nat, s': State)
    requires IsRun(run) && Runs.IsAt(run, i, s) && Runs.IsAt(run, j, s') && i <= j
    ensures Later(s, s')
  {
    forall k: nat | k < |run| ensures Inv(run[k]) { StateOk(run, run[k]); }
    forall s, t | Inv(s) && Next(s, t) ensures Later(s, t) { NextIsLater(s, t); }
    Runs.Progress(Init, Next, Inv, Later, run, i, j);
  }

  /** A message ID names one run with one request for ever. */
  lemma MessageNamesOneRun(
    run: seq<State>, i: nat, s: State, j: nat, s': State, a: Run, b: Run)
    requires IsRun(run) && Runs.IsAt(run, i, s) && Runs.IsAt(run, j, s') && i <= j
    requires a in s.rows.Values && b in s'.rows.Values && SameMessage(a, b)
    ensures a.id == b.id && a.request == b.request
  {
    RunIsLater(run, i, s, j, s');
    StateOk(run, s);
    StateOk(run, s');
    hide IsRun;
    var k :| k in s.rows && s.rows[k] == a;
    var l :| l in s'.rows && s'.rows[l] == b;
    assert RowLater(a, s'.rows[k]);
    assert SameMessage(s'.rows[k], b);
  }

  /** No wakeup is lost: while a run is queued, the token is set, or some worker is in
      its claim loop, or the starter or some submitter has not called Wake yet. The
      exceptions are a claim that reported an error, a submitter that failed after its
      insert, and shutdown; then the run waits for a timer or the next submission. */
  lemma WakeupNotLost(run: seq<State>, s: State)
    requires IsRun(run) && s in run
    requires HasQueued(s.rows) && !s.cancelled && !s.claimFailed && !s.submitFailed
    ensures WakeupPending(s)
  {
    StateOk(run, s);
  }

  /** The failing submitter is a real exception: one worker, one submission whose read
      fails after its insert, and the run is queued with nobody about to look. */
  lemma WakeupCanBeLost(wanted: Run) returns (run: seq<State>, last: State)
    requires IsComplete(wanted)
    ensures IsRun(run) && Runs.IsLast(run, last)
    ensures HasQueued(last.rows) && !last.cancelled && !last.claimFailed && !WakeupPending(last)
  {
    var s0 := Restarted(map[], 1);
    var s1 := s0.(wake := true, starter := false);
    var s2 := WithWorker(s1, 0, Claiming).(wake := false);
    var s3 := WithWorker(s2, 0, Idle);
    var s4 := AfterSubmit(s3, 0, wanted, Done);
    var s5 := AfterSubmitRead(s4, 0, false);
    assert Enabled(s0, StarterWake) && s1 == After(s0, StarterWake);
    assert Enabled(s1, Work(0, TakeToken)) && s2 == After(s1, Work(0, TakeToken));
    assert Enabled(s2, Work(0, ClaimNone)) && s3 == After(s2, Work(0, ClaimNone));
    assert Enabled(s3, Client(0, Insert(wanted, Done))) &&
      s4 == After(s3, Client(0, Insert(wanted, Done)));
    assert s4.rows[wanted.id] == Fresh(wanted);
    assert Enabled(s4, Client(0, ReadBack(false))) && s5 == After(s4, Client(0, ReadBack(false)));
    run, last := [s0, s1, s2, s3, s4, s5], s5;
    forall i: nat ensures Runs.StepAt(Next, run, i) {
      if i + 1 < |run| {
        assert i == 0 || i == 1 || i == 2 || i == 3 || i == 4;
      }
    }
  }

  // ---- what completion and a crash come to -------------------------------------

  /** A completion that took effect is the end of the run: its row keeps that result, with
      no error, in every later state, the request is what was asked for when the row was
      first seen, the row is never again next in the queue, and no worker holds it. */
  lemma CompletionIsFinal(
    run: seq<State>, h: nat, before: State, i: nat, s: State, k: nat, done: State, j: nat,
    s': State, w: nat, id: string, result: Result, outcome: Outcome, now: string)
    requires IsRun(run) && Runs.IsAt(run, h, before) && Runs.AreNext(run, i, s, k, done)
    requires Runs.IsAt(run, j, s') && h <= i && k <= j
    requires PcOf(s, w) == Completing(id, result) && outcome.Effective()
    requires done == After(s, Work(w, Finish(outcome, now)))
    ensures id in s.rows && IsCompletedAs(s'.rows, id, result, now)
    ensures KeepsRequest(before.rows, s'.rows, id)
    ensures !IsOldestQueued(s'.rows, id) && forall v: nat :: Held(PcOf(s', v)) != Some(id)
  {
    StateOk(run, s);
    assert WorkerOk(s.rows, s.workers[w]);
    RunIsLater(run, k, done, j, s');
    RunIsLater(run, h, before, j, s');
    forall v: nat ensures Held(PcOf(s', v)) != Some(id) {
      if Held(PcOf(s', v)) == Some(id) { HeldByOne(run, s', v, v, id); }
    }
    hide IsRun;
    hide Inv;
  }

  predicate IsCompletedAs(rows: Rows, id: string, result: Result, now: string) {
    && id in rows && rows[id].status.Completed? && rows[id].result == result
    && rows[id].error == "" && rows[id].completedAt == now
  }

  /** If the run was there before, what was asked for is the same. */
  predicate KeepsRequest(before: Rows, after: Rows, id: string) {
    id in before ==> id in after && after[id].request == before[id].request
  }

  function RunningIDs(rows: Rows): set<string> { set id | id in rows && rows[id].status.Running? }

  function HeldIDs(workers: seq<WorkerPc>): set<string> {
    set w | 0 <= w < |workers| && Held(workers[w]).Some? :: Held(workers[w]).value
  }

  /** A crash and the restart after it lose no run: exactly the queued and the running
      ones are queued afterwards, those that workers held among them, what was asked for is
      the same, terminal rows are untouched, nobody holds a run, and somebody is about to
      look. */
  lemma CrashReturnsRuns(run: seq<State>, s: State, n: nat, s': State)
    requires IsRun(run) && s in run && n > 0 && s' == After(s, Crash(n))
    ensures s'.rows.Keys == s.rows.Keys && Later(s, s')
    ensures QueuedIDs(s'.rows) == QueuedIDs(s.rows) + RunningIDs(s.rows)
    ensures RunningIDs(s'.rows) == {} && HeldIDs(s.workers) <= QueuedIDs(s'.rows)
    ensures s'.workers == Idlers(n) && WakeupPending(s')
  {
    StateOk(run, s);
    hide IsRun;
    RecoveredLater(s.rows);
    forall id ensures id in Recovered(s.rows) <==> id in s.rows { RecoveredExactly(s.rows, id); }
    forall w | 0 <= w < |s.workers| && Held(s.workers[w]).Some?
      ensures Held(s.workers[w]).value in RunningIDs(s.rows)
    {
      assert WorkerOk(s.rows, s.workers[w]);
    }
  }

  // ---- how a wakeup is lost ----------------------------------------------------

  /** A run is queued and nobody is about to look. */
  ghost predicate Stranded(s: State) { HasQueued(s.rows) && !WakeupPending(s) }

  /** A submitter that has stored its run reports an error and never calls Wake. */
  ghost predicate SubmitterFails(s: State, step: Step) {
    && step.Client?
    && match step.call
       case Insert(run, outcome) => outcome.Unknown? && Inserted(s.rows, run) != s.rows
       case ReadBack(readable) => !readable && HasCreated(s, step.k)
       case CallWake => false
  }

  /** The submitter's row is new, and it is about to read it. */
  predicate HasCreated(s: State, k: nat) {
    k in s.submits && s.submits[k].Reading? && s.submits[k].created
  }

  /** A worker leaves its loop because a claim reported an error. */
  ghost predicate ClaimFails(s: State, step: Step) {
    && step.Work?
    && match step.action
       case ClaimOne(_, commit, _) => !commit.Done?
       case ClaimError => true
       case Fetch(readable) => !readable || !MayFetch(s, step.w)
       case _ => false
  }

  predicate MayFetch(s: State, w: nat) {
    PcOf(s, w).Fetching? && PcOf(s, w).id in s.rows
  }

  /** Somebody else than who takes the step is about to look. */
  ghost predicate OthersPending(s: State, step: Step) {
    || s.wake
    || s.starter
    || (exists w :: 0 <= w < |s.workers| && !IsWorker(step, w) && InLoop(s.workers[w]))
    || (exists k :: k in s.submits && !IsClient(step, k) && IsWaker(s.submits[k]))
  }

  predicate IsWorker(step: Step, w: nat) { step.Work? && step.w == w }

  predicate IsClient(step: Step, k: nat) { step.Client? && step.k == k }

  /** A step leaves a run queued with nobody about to look in two ways and no third: a
      submitter fails after its insert, or a claim fails, and nobody else was about to
      look. A commit whose success is not learned of counts in both. */
  lemma WakeupLostExactly(run: seq<State>, s: State, step: Step)
    requires IsRun(run) && s in run && Enabled(s, step)
    requires !After(s, step).cancelled && !Stranded(s)
    ensures Stranded(After(s, step)) <==>
      && (SubmitterFails(s, step) || ClaimFails(s, step))
      && HasQueued(After(s, step).rows)
      && !OthersPending(s, step)
  {
    StateOk(run, s);
    hide IsRun;
    if SubmitterFails(s, step) {
      SubmitterFailsPending(s, step);
    } else if ClaimFails(s, step) {
      ClaimFailsPending(s, step);
    } else {
      QuietStepStrandsNobody(s, step);
    }
  }

  lemma SubmitterFailsPending(s: State, step: Step)
    requires Enabled(s, step) && SubmitterFails(s, step)
    ensures WakeupPending(After(s, step)) <==> OthersPending(s, step)
  {
    var s' := After(s, step);
    hide Inserted;
    forall k | k in s.submits && k != step.k && IsWaker(s.submits[k]) ensures WakeupPending(s') {
      SomeoneWaking(s', k);
    }
    forall w | 0 <= w < |s.workers| && InLoop(s.workers[w]) ensures WakeupPending(s') {
      SomeoneInLoop(s', w);
    }
  }

  lemma ClaimFailsPending(s: State, step: Step)
    requires Enabled(s, step) && ClaimFails(s, step)
    ensures WakeupPending(After(s, step)) <==> OthersPending(s, step)
  {
    ClaimFailsGoesIdle(s, step.w, step.action);
    var s' := After(s, step);
    hide ClaimFails;
    hide CanWork;
    hide AfterWork;
    hide IsWaker;
    forall k | k in s.submits && IsWaker(s.submits[k]) ensures WakeupPending(s') {
      SomeoneWaking(s', k);
    }
    forall w | 0 <= w < |s.workers| && w != step.w && InLoop(s.workers[w])
      ensures WakeupPending(s')
    {
      assert s'.workers[w] == s.workers[w];
      SomeoneInLoop(s', w);
    }
  }

  lemma ClaimFailsGoesIdle(s: State, w: nat, action: Action)
    requires CanWork(s, w, action) && ClaimFails(s, Work(w, action))
    ensures
      var s' := AfterWork(s, w, action);
      && s'.workers == WithWorker(s, w, Idle).workers
      && s'.submits == s.submits && s'.wake == s.wake && s'.starter == s.starter
  {
    hide HasQueued;
    hide MessageRuns.IsOldestQueued;
    hide Claimed;
    hide AfterFinish;
    hide AfterReturn;
    if action.ClaimOne? {
    } else if action.ClaimError? {
    } else {
      assert action.Fetch?;
    }
  }

  /** Past failures do not matter to the steps that are none. */
  lemma QuietStepStrandsNobody(s: State, step: Step)
    requires Inv(s) && Enabled(s, step) && !Stranded(s)
    requires !SubmitterFails(s, step) && !ClaimFails(s, step) && !After(s, step).cancelled
    ensures !Stranded(After(s, step))
  {
    QuietStepIsClean(s, step);
    CleanIsOk(s);
    hide Inv;
    hide Enabled;
    hide After;
    assert Next(Clean(s), After(Clean(s), step));
    NextOk(Clean(s), After(Clean(s), step));
    NotStranded(After(Clean(s), step));
  }

  lemma CleanIsOk(s: State)
    requires Inv(s) && !Stranded(s)
    ensures Inv(Clean(s))
  {
    hide TableOk;
    hide HasQueued;
  }

  lemma NotStranded(s: State)
    requires Inv(s) && !s.cancelled && s == Clean(s)
    ensures !Stranded(s)
  {
    hide TableOk;
    hide HasQueued;
  }

  function Clean(s: State): State { s.(claimFailed := false, submitFailed := false) }

  /** `clean` is `s` without the failures recorded. */
  predicate SameButHistory(clean: State, s: State) { clean == Clean(s) }

  lemma QuietStepIsClean(s: State, step: Step)
    requires Enabled(s, step) && !SubmitterFails(s, step) && !ClaimFails(s, step)
    ensures Enabled(Clean(s), step)
    ensures SameButHistory(After(Clean(s), step), After(s, step))
  {
    if step.Work? {
      QuietWorkIsClean(s, step.w, step.action);
    } else if step.Client? {
      QuietCallIsClean(s, step.k, step.call);
    } else {
      hide Recovered;
    }
  }

  lemma QuietCallIsClean(s: State, k: nat, call: Call)
    requires CanCall(s, k, call) && !SubmitterFails(s, Client(k, call))
    ensures SameButHistory(AfterCall(Clean(s), k, call), AfterCall(s, k, call))
  {
    hide Inserted;
    match call {
      case Insert(run, outcome) =>
        hide AfterSubmit;
        QuietInsertIsClean(s, k, run, outcome);
      case ReadBack(_) => {}
      case CallWake => {}
    }
  }

  lemma QuietInsertIsClean(s: State, k: nat, run: Run, outcome: Outcome)
    requires outcome.Unknown? ==> Inserted(s.rows, run) == s.rows
    ensures SameButHistory(AfterSubmit(Clean(s), k, run, outcome), AfterSubmit(s, k, run, outcome))
  {
    hide Inserted;
    match outcome {
      case Done => {}
      case Lost => {}
      case Unknown => {}
    }
  }

  lemma QuietWorkIsClean(s: State, w: nat, action: Action)
    requires CanWork(s, w, action) && !ClaimFails(s, Work(w, action))
    ensures CanWork(Clean(s), w, action)
    ensures SameButHistory(AfterWork(Clean(s), w, action), AfterWork(s, w, action))
  {
    hide HasQueued;
    hide MessageRuns.IsOldestQueued;
    hide Claimed;
    hide FinishedRows;
    match action {
      case TakeToken => {}
      case Tick => {}
      case Exit => {}
      case ClaimOne(_, _, _) => {}
      case ClaimNone => {}
      case ClaimError => assert false;
      case Fetch(_) => {}
      case Return(_) => {}
      case Finish(_, _) => {}
    }
  }
}
