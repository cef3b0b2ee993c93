/** Why no wakeup needs the ticker: left to itself, the queue is always worked off. */
module QueueProgress {
  import opened Wrappers
  import opened MessageRuns
  import opened RunQueue
  import Runs

  /** Steps of a queue that nobody submits to, stops or disturbs, and no tick of a timer:
      claims and reads succeed; turns may end and outcomes be written in any way. */
  predicate IsQuietAction(action: Action) {
    match action
    case TakeToken => true
    case Tick => false
    case Exit => false
    case ClaimOne(_, commit, _) => commit.Done?
    case ClaimNone => true
    case ClaimError => false
    case Fetch(readable) => readable
    case Return(_) => true
    case Finish(_, _) => true
  }

  predicate IsQuiet(step: Step) {
    match step
    case Client(_, call) => call.CallWake? || (call.ReadBack? && call.readable)
    case Work(_, action) => IsQuietAction(action)
    case StarterWake => true
    case Cancel => false
    case Crash(_) => false
  }

  ghost predicate QuietNext(s: State, s': State) {
    exists step :: IsQuiet(step) && Enabled(s, step) && s' == After(s, step)
  }

  /** Nothing has gone wrong that the wakeup depends on. */
  ghost predicate IsCalm(s: State) {
    Inv(s) && !s.cancelled && !s.claimFailed && !s.submitFailed
  }

  // ---- what is left to do -----------------------------------------------------

  function Rank(pc: WorkerPc): nat {
    match pc
    case Idle => 0
    case Claiming => 1
    case Fetching(_) => 4
    case Holding(_) => 3
    case Completing(_, _) => 2
    case Failing(_, _) => 2
    case Requeueing(_) => 2
    case Exited => 0
  }

  function Ranks(workers: seq<WorkerPc>): nat {
    if workers == [] then 0
    else Ranks(workers[..|workers| - 1]) + Rank(workers[|workers| - 1])
  }

  lemma {:induction false} RanksChange(workers: seq<WorkerPc>, w: nat, pc: WorkerPc)
    requires w < |workers|
    ensures Ranks(workers[w := pc]) + Rank(workers[w]) == Ranks(workers) + Rank(pc)
  {
    var n := |workers| - 1;
    if w < n {
      RanksChange(workers[..n], w, pc);
      assert workers[w := pc][..n] == workers[..n][w := pc];
    } else {
      assert workers[w := pc][..n] == workers[..n];
    }
  }

  ghost function Readers(submits: map<nat, SubmitPc>): set<nat> {
    set k | k in submits && submits[k].Reading?
  }

  ghost function Left(s: State): nat {
    4 * |QueuedIDs(s.rows)| + Ranks(s.workers) + 3 * |s.submits| + |Readers(s.submits)|
      + (if s.wake then 2 else 0) + (if s.starter then 3 else 0)
  }

  // ---- every quiet step uses some of it up ------------------------------------

  lemma ClaimTakesOne(rows: Rows, id: string, now: string)
    requires id in QueuedIDs(rows)
    ensures |QueuedIDs(Claimed(rows, id, now))| + 1 == |QueuedIDs(rows)|
  {
    assert QueuedIDs(Claimed(rows, id, now)) == QueuedIDs(rows) - {id};
    assert id in QueuedIDs(rows);
  }

  lemma FinishAddsNone(rows: Rows, pc: WorkerPc, now: string)
    requires IsFinishing(pc) && !pc.Requeueing?
    ensures |QueuedIDs(FinishedRows(rows, pc, now))| <= |QueuedIDs(rows)|
  {
    assert QueuedIDs(FinishedRows(rows, pc, now)) <= QueuedIDs(rows);
    FewerIDs(QueuedIDs(FinishedRows(rows, pc, now)), QueuedIDs(rows));
  }

  lemma WorkShrinks(s: State, w: nat, action: Action)
    requires IsCalm(s) && IsQuietAction(action) && CanWork(s, w, action)
    ensures Left(AfterWork(s, w, action)) < Left(s)
  {
    assert WorkerOk(s.rows, s.workers[w]);
    hide Inv;
    hide Left;
    if action.ClaimOne? {
      ClaimShrinks(s, w, action.id, action.now);
    } else if action.Finish? {
      FinishShrinks(s, w, action.outcome, action.now);
    } else {
      hide WorkerOk;
      MoveShrinks(s, w, action);
    }
  }

  lemma ClaimShrinks(s: State, w: nat, id: string, now: string)
    requires CanWork(s, w, ClaimOne(id, Done, now))
    ensures Left(AfterWork(s, w, ClaimOne(id, Done, now))) < Left(s)
  {
    ClaimTakesOne(s.rows, id, now);
    RanksChange(s.workers, w, Fetching(id));
    hide QueuedIDs;
    hide Readers;
    hide Ranks;
    hide Claimed;
    hide IsOldestQueued;
  }

  lemma FinishShrinks(s: State, w: nat, outcome: Outcome, now: string)
    requires !s.cancelled && WorkersOk(s) && CanWork(s, w, Finish(outcome, now))
    ensures Left(AfterWork(s, w, Finish(outcome, now))) < Left(s)
  {
    FinishAddsNone(s.rows, s.workers[w], now);
    RanksChange(s.workers, w, Claiming);
    hide QueuedIDs;
    hide Readers;
    hide Ranks;
    hide FinishedRows;
    hide WorkersOk;
  }

  /** Worker steps that change no row. */
  lemma MoveShrinks(s: State, w: nat, action: Action)
    requires !s.cancelled && IsQuietAction(action) && CanWork(s, w, action)
    requires !action.ClaimOne? && !action.Finish?
    requires action.Fetch? ==> MayFetch(s, w)
    ensures Left(AfterWork(s, w, action)) < Left(s)
  {
    MovesWorker(s, w, action);
    RowsUntouched(s, w, action);
    RanksChange(s.workers, w, PcOf(AfterWork(s, w, action), w));
    hide QueuedIDs;
    hide Readers;
    hide Ranks;
    hide HasQueued;
  }

  lemma MovesWorker(s: State, w: nat, action: Action)
    requires CanWork(s, w, action) && IsQuietAction(action)
    ensures
      var s' := AfterWork(s, w, action);
      && |s'.workers| == |s.workers| && s'.workers == WithWorker(s, w, PcOf(s', w)).workers
      && s'.submits == s.submits && s'.starter == s.starter
  {
    hide HasQueued;
    hide Claimed;
    hide FinishedRows;
    hide IsOldestQueued;
    match action {
      case TakeToken => {}
      case Tick => assert false;
      case Exit => assert false;
      case ClaimOne(_, _, _) => {}
      case ClaimNone => {}
      case ClaimError => assert false;
      case Fetch(_) => {}
      case Return(_) => {}
      case Finish(_, _) => {}
    }
  }

  lemma SubmitMoves(before: map<nat, SubmitPc>, k: nat)
    requires k in Readers(before)
    ensures var after := before[k := Waking];
      |after| == |before| && |Readers(after)| + 1 == |Readers(before)|
  {
    var after := before[k := Waking];
    assert Readers(after) == Readers(before) - {k} && k in Readers(before);
    assert after.Keys == before.Keys && |after| == |after.Keys| && |before| == |before.Keys|;
  }

  lemma SubmitLeaves(before: map<nat, SubmitPc>, k: nat)
    requires k in before
    ensures var after := before - {k};
      |after| + 1 == |before| && |Readers(after)| <= |Readers(before)|
  {
    var after := before - {k};
    assert Readers(after) == Readers(before) - {k};
    assert after.Keys == before.Keys - {k} && |after| == |after.Keys| && |before| == |before.Keys|;
  }

  lemma IsReader(submits: map<nat, SubmitPc>, k: nat)
    requires k in submits && submits[k].Reading?
    ensures k in Readers(submits)
  {
  }

  lemma CallShrinks(s: State, k: nat, call: Call)
    requires CanCall(s, k, call) && (call.CallWake? || (call.ReadBack? && call.readable))
    ensures Left(AfterCall(s, k, call)) < Left(s)
  {
    hide QueuedIDs;
    hide Ranks;
    hide Readers;
    if call.ReadBack? && s.submits[k].created {
      assert k in Readers(s.submits) by { IsReader(s.submits, k); }
      SubmitMoves(s.submits, k);
    } else {
      SubmitLeaves(s.submits, k);
    }
  }

  lemma QuietShrinks(s: State, step: Step)
    requires IsCalm(s) && IsQuiet(step) && Enabled(s, step)
    ensures Left(After(s, step)) < Left(s)
  {
    hide IsCalm;
    hide Left;
    hide CanWork;
    hide CanCall;
    hide AfterWork;
    hide AfterCall;
    if step.Work? {
      WorkShrinks(s, step.w, step.action);
    } else if step.Client? {
      CallShrinks(s, step.k, step.call);
    } else {
      StarterShrinks(s);
    }
  }

  lemma StarterShrinks(s: State)
    requires s.starter
    ensures Left(s.(wake := true, starter := false)) < Left(s)
  {
  }

  lemma WorkStaysCalm(s: State, w: nat, action: Action)
    requires IsCalm(s) && IsQuietAction(action) && CanWork(s, w, action)
    ensures
      var s' := AfterWork(s, w, action);
      !s'.cancelled && !s'.claimFailed && !s'.submitFailed
  {
    assert WorkerOk(s.rows, s.workers[w]);
    MovesWorker(s, w, action);
    hide Inv;
    hide HasQueued;
    hide Claimed;
    hide FinishedRows;
  }

  lemma QuietStaysCalm(s: State, step: Step)
    requires IsCalm(s) && IsQuiet(step) && Enabled(s, step)
    ensures IsCalm(After(s, step))
  {
    assert Next(s, After(s, step));
    NextOk(s, After(s, step));
    if step.Work? { WorkStaysCalm(s, step.w, step.action); }
    hide Inv;
    hide CanWork;
    hide AfterWork;
  }

  // ---- while a run is queued there is a quiet step ----------------------------

  ghost predicate CanGoOn(s: State) { exists step :: IsQuiet(step) && Enabled(s, step) }

  /** A worker in its loop can always do something about it. */
  lemma WorkerGoesOn(s: State, w: nat)
    requires IsCalm(s) && HasQueued(s.rows) && InLoop(PcOf(s, w))
    ensures CanGoOn(s)
  {
    var pc := s.workers[w];
    if pc.Claiming? {
      var queued :| queued in s.rows && s.rows[queued].status.Queued?;
      OldestQueuedExists(s.rows, queued);
      var id :| IsOldestQueued(s.rows, id);
      Quietly(s, Work(w, ClaimOne(id, Done, "")));
    } else if pc.Fetching? {
      Quietly(s, Work(w, Fetch(true)));
    } else if pc.Holding? {
      Quietly(s, Work(w, Return(TurnErr(""))));
    } else {
      Quietly(s, Work(w, Finish(Done, "")));
    }
  }

  lemma Quietly(s: State, step: Step)
    requires IsQuiet(step) && Enabled(s, step)
    ensures CanGoOn(s)
  {
  }

  lemma QueuedGoesOn(s: State)
    requires IsCalm(s) && HasQueued(s.rows)
    ensures CanGoOn(s)
  {
    if w: nat :| InLoop(PcOf(s, w)) {
      WorkerGoesOn(s, w);
    } else if s.wake {
      AllIdle(s);
      Quietly(s, Work(FIRST, TakeToken));
    } else if s.starter {
      Quietly(s, StarterWake);
    } else {
      forall w | 0 <= w < |s.workers| ensures !InLoop(s.workers[w]) {
        assert !InLoop(PcOf(s, w));
      }
      var k :| k in s.submits && IsWaker(s.submits[k]);
      Quietly(s, Client(k, if s.submits[k].Reading? then ReadBack(true) else CallWake));
    }
  }

  lemma AllIdle(s: State)
    requires IsCalm(s) && forall w: nat :: !InLoop(PcOf(s, w))
    ensures CanWork(s, FIRST, TakeToken) <==> s.wake
  {
    assert !InLoop(PcOf(s, FIRST));
  }

  const FIRST: nat := 0

  // ---- so the queue is worked off ---------------------------------------------

  /** What follows a state when nobody disturbs the queue. */
  ghost predicate IsQuietPath(path: seq<State>, s: State) {
    Runs.IsAt(path, 0, s) && forall i: nat :: Runs.StepAt(QuietNext, path, i)
  }

  lemma {:induction false} PathShrinks(path: seq<State>, s: State, k: nat, t: State)
    requires IsQuietPath(path, s) && IsCalm(s) && Runs.IsAt(path, k, t)
    ensures IsCalm(t) && k + Left(t) <= Left(s) && Later(s, t)
  {
    if k > 0 {
      var u := path[k - 1];
      PathShrinks(path, s, k - 1, u);
      assert Runs.StepAt(QuietNext, path, k - 1);
      hide IsCalm;
      hide Left;
      hide Later;
      QuietStep(u, t);
      LaterOn(s, u, t);
    } else {
      hide Inv;
      RowsSame(s.rows);
    }
  }

  lemma QuietStep(s: State, s': State)
    requires IsCalm(s) && QuietNext(s, s')
    ensures IsCalm(s') && Left(s') < Left(s) && Later(s, s')
  {
    var step :| IsQuiet(step) && Enabled(s, step) && s' == After(s, step);
    assert Inv(s) && Next(s, s');
    hide *;
    QuietShrinks(s, step);
    QuietStaysCalm(s, step);
    NextIsLater(s, s');
  }

  lemma LaterOn(s: State, t: State, u: State)
    requires Later(s, t) && Later(t, u)
    ensures Later(s, u)
  {
  }

  /** From every reachable state that is not stopping and in which nothing went wrong,
      the quiet steps come to an end, however they are interleaved, and when none is left
      no run is queued: nobody had to wait for the ticker. */
  lemma QueueIsWorkedOff(run: seq<State>, s: State, path: seq<State>, last: State)
    requires IsRun(run) && s in run
    requires !s.cancelled && !s.claimFailed && !s.submitFailed
    requires IsQuietPath(path, s) && Runs.IsLast(path, last)
    ensures |path| <= Left(s) + 1 && (CanGoOn(last) || !HasQueued(last.rows))
  {
    StateOk(run, s);
    hide IsRun;
    PathIsWorkedOff(path, s, last);
  }

  lemma PathIsWorkedOff(path: seq<State>, s: State, last: State)
    requires IsCalm(s) && IsQuietPath(path, s) && Runs.IsLast(path, last)
    ensures |path| <= Left(s) + 1 && (CanGoOn(last) || !HasQueued(last.rows)) && Later(s, last)
  {
    PathShrinks(path, s, |path| - 1, last);
    hide IsCalm;
    hide Left;
    hide IsQuietPath;
    if HasQueued(last.rows) { QueuedGoesOn(last); }
  }

  predicate IsTakenUp(rows: Rows, after: Rows, id: string) {
    && id in rows && id in after
    && !after[id].status.Queued? && after[id].request == rows[id].request
  }

  /** Nothing that was asked for is forgotten in a crash: every run that was queued or
      running is queued after the restart, with the request it had, and when the restarted
      queue has been left to itself it has been claimed again. */
  lemma CrashedRunsAreTakenUp(
    run: seq<State>, s: State, n: nat, s': State, path: seq<State>, last: State, id: string)
    requires IsRun(run) && s in run && n > 0 && s' == After(s, Crash(n))
    requires id in QueuedIDs(s.rows) + RunningIDs(s.rows)
    requires IsQuietPath(path, s') && Runs.IsLast(path, last) && !CanGoOn(last)
    ensures id in QueuedIDs(s'.rows) && IsTakenUp(s.rows, last.rows, id)
  {
    CrashReturnsRuns(run, s, n, s');
    StateOk(run, s);
    hide IsRun;
    RestartOk(s.rows, n);
    PathIsWorkedOff(path, s', last);
    hide Inv;
    hide IsQuietPath;
  }
}
