/** One slot of a persona's pool: it owns at most one adapter at a time, and every
    change of owner happens under the write side of its lifecycle lock. */
module Slots {
  import opened Wrappers
  import Runs

  /** Adapters are numbered in the order they start; `stopped` are those whose Close
      has been called. */
  datatype Ledger = Ledger(started: nat, stopped: set<nat>)

  /** The fields of a slot; managers, closers and probes are named by their adapter. */
  datatype Slot = Slot(
    manager: Option<nat>, closer: Option<nat>, probe: Option<nat>, unavailable: bool,
    closed: bool, ledger: Ledger)

  /** `NoManager`: the adapter started, but building its manager failed. */
  datatype StartOutcome = NotStarted | NoManager | Started

  function Launch(ledger: Ledger, outcome: StartOutcome): (launched: (Option<nat>, Ledger)) {
    match outcome
    case NotStarted => (None, ledger)
    case NoManager => (None, Ledger(ledger.started + 1, ledger.stopped + {ledger.started}))
    case Started => (Some(ledger.started), ledger.(started := ledger.started + 1))
  }

  function Stop(ledger: Ledger, adapter: Option<nat>): Ledger {
    if adapter.Some? then ledger.(stopped := ledger.stopped + {adapter.value}) else ledger
  }

  // ---- the operations ---------------------------------------------------------

  /** A turn or a steering call on `manager` reported the adapter gone. */
  function Marked(s: Slot, manager: nat): Slot {
    if s.manager == Some(manager) then s.(unavailable := true) else s
  }

  predicate NeedsReplacing(s: Slot, dead: bool) { s.unavailable || (s.probe.Some? && dead) }

  function Vacated(s: Slot): Slot { s.(closer := None, manager := None, probe := None) }

  function Occupied(s: Slot, adapter: nat): Slot {
    s.(manager := Some(adapter), closer := Some(adapter), probe := Some(adapter),
       unavailable := false)
  }

  /** The slot afterwards, and whether the caller may go on. `dead` is what the probe
      says, `closeOk` and `start` are how closing and starting an adapter would end. */
  function Replaced(s: Slot, dead: bool, closeOk: bool, start: StartOutcome): (Slot, bool) {
    if s.closed then (s, false)
    else if !NeedsReplacing(s, dead) then (s, true)
    else
      var stopping := s.(ledger := Stop(s.ledger, s.closer));
      if s.closer.Some? && !closeOk then (stopping, false)
      else
        var empty := if s.closer.Some? then Vacated(stopping) else stopping;
        var (adapter, ledger) := Launch(empty.ledger, start);
        if adapter.None? then (empty.(ledger := ledger), false)
        else (Occupied(empty.(ledger := ledger), adapter.value), true)
  }

  function Closed(s: Slot): Slot {
    if s.closed then s
    else if s.closer.None? then s.(closed := true)
    else Vacated(s.(closed := true, ledger := Stop(s.ledger, s.closer)))
  }

  /** What a turn needs to run here. */
  predicate Serves(s: Slot) { !s.closed && s.manager.Some? }

  /** Open, without a manager, and not flagged: nothing will ever start one. */
  predicate Stuck(s: Slot) { !s.closed && s.manager.None? && !s.unavailable }

  // ---- ownership --------------------------------------------------------------

  /** Manager, closer and probe are one adapter or none; every adapter that started is
      the current one or has had Close called; a closed slot has none. */
  ghost predicate Owns(s: Slot) {
    && s.manager == s.closer == s.probe
    && (s.closer.Some? ==> s.closer.value < s.ledger.started)
    && (s.closed ==> s.closer.None?)
    && forall a: nat :: a < s.ledger.started && s.closer != Some(a) ==> a in s.ledger.stopped
  }

  lemma MarkedOwns(s: Slot, manager: nat)
    requires Owns(s)
    ensures Owns(Marked(s, manager))
  {
  }

  lemma ReplacedOwns(s: Slot, dead: bool, closeOk: bool, start: StartOutcome)
    requires Owns(s)
    ensures Owns(Replaced(s, dead, closeOk, start).0)
  {
    var s' := Replaced(s, dead, closeOk, start).0;
    forall a: nat | a < s'.ledger.started && s'.closer != Some(a)
      ensures a in s'.ledger.stopped
    {
    }
  }

  lemma ClosedOwns(s: Slot)
    requires Owns(s)
    ensures Owns(Closed(s))
  {
  }

  /** A caller that may go on finds a manager exactly when the slot was not stuck. */
  lemma ReplacedServes(s: Slot, dead: bool, closeOk: bool, start: StartOutcome)
    requires Owns(s) && Replaced(s, dead, closeOk, start).1
    ensures Serves(Replaced(s, dead, closeOk, start).0) <==> !Stuck(s)
  {
  }

  // ---- every interleaving -----------------------------------------------------

  /** Each operation holds the write lock throughout, so any interleaving of turns,
      steering, replacement and closing is a sequence of these. A turn may report its
      adapter gone long after the slot has moved on. */
  datatype Op =
    | Mark(manager: nat)
    | Replace(dead: bool, closeOk: bool, start: StartOutcome)
    | Close

  function After(s: Slot, op: Op): Slot {
    match op
    case Mark(manager) => Marked(s, manager)
    case Replace(dead, closeOk, start) => Replaced(s, dead, closeOk, start).0
    case Close => Closed(s)
  }

  ghost predicate Next(s: Slot, s': Slot) { exists op :: s' == After(s, op) }

  /** A slot joins its pool when its first adapter has started. */
  ghost predicate Init(s: Slot) {
    s == Slot(Some(0), Some(0), Some(0), false, false, Ledger(1, {}))
  }

  lemma AfterOwns(s: Slot, op: Op)
    requires Owns(s)
    ensures Owns(After(s, op))
  {
    hide Owns;
    match op {
      case Mark(manager) => MarkedOwns(s, manager);
      case Replace(dead, closeOk, start) => ReplacedOwns(s, dead, closeOk, start);
      case Close => ClosedOwns(s);
    }
  }

  /** A slot gets stuck in one way only: its adapter died without anybody noticing, the
      probe found out, closing it worked and starting another did not. */
  lemma StuckExactly(s: Slot, op: Op)
    requires Owns(s) && !Stuck(s)
    ensures Stuck(After(s, op)) <==>
      && op.Replace? && op.dead && op.closeOk && !op.start.Started?
      && Serves(s) && !s.unavailable
  {
  }

  /** And only closing ends it: until then no call is served and none starts anything. */
  lemma StuckUntilClosed(s: Slot, op: Op)
    requires Owns(s) && Stuck(s)
    ensures After(s, op) == if op.Close? then s.(closed := true) else s
    ensures op.Replace? ==> Replaced(s, op.dead, op.closeOk, op.start).1
  {
  }

  ghost predicate IsRun(run: seq<Slot>) { Runs.IsRun(Init, Next, run) }

  /** It happens: the first adapter of a slot dies, the probe finds out, closing works,
      starting fails, and whatever comes after, but for closing, leaves the slot open
      without a manager. */
  lemma {:induction false} SlotGetsStuck(ops: seq<Op>) returns (run: seq<Slot>)
    requires forall i :: 0 <= i < |ops| ==> !ops[i].Close?
    ensures IsRun(run) && |run| == |ops| + 2 && !Stuck(run[0])
    ensures run[1] == After(run[0], Replace(true, true, NotStarted))
    ensures forall i :: 0 <= i < |ops| ==> run[i + 2] == After(run[i + 1], ops[i])
    ensures Stuck(run[|run| - 1]) && run[|run| - 1] == run[1]
  {
    if ops == [] {
      var first := Slot(Some(0), Some(0), Some(0), false, false, Ledger(1, {}));
      run := [first, After(first, Replace(true, true, NotStarted))];
      assert Next(run[0], run[1]);
    } else {
      var last := |ops| - 1;
      var before := SlotGetsStuck(ops[..last]);
      var s := before[|before| - 1];
      EveryStateOwns(before, |before| - 1);
      StuckUntilClosed(s, ops[last]);
      run := before + [After(s, ops[last])];
      forall i: nat ensures Runs.StepAt(Next, run, i) {
        assert Runs.StepAt(Next, before, i);
        assert Next(s, After(s, ops[last]));
      }
    }
  }

  lemma EveryStateOwns(run: seq<Slot>, i: nat)
    requires IsRun(run) && i < |run|
    ensures Owns(run[i])
  {
    forall s, s' | Owns(s) && Next(s, s') ensures Owns(s') {
      var op :| s' == After(s, op);
      AfterOwns(s, op);
    }
    Runs.Invariant(Init, Next, Owns, run, i);
  }

  /** Later states of a slot: adapters only start while it is open, an adapter that was
      given up never comes back, Close calls are not taken back. */
  ghost predicate Later(s: Slot, s': Slot) {
    && s.ledger.started <= s'.ledger.started
    && s.ledger.stopped <= s'.ledger.stopped
    && (s.closed ==> s' == s)
    && (s'.manager.Some? ==> s'.manager == s.manager || s'.manager.value >= s.ledger.started)
  }

  lemma NextIsLater(s: Slot, s': Slot)
    requires Owns(s) && Next(s, s')
    ensures Later(s, s')
  {
    var op :| s' == After(s, op);
  }

  lemma RunIsLater(run: seq<Slot>, i: nat, j: nat)
    requires IsRun(run) && i <= j < |run|
    ensures Later(run[i], run[j])
  {
    forall k: nat | k < |run| ensures Owns(run[k]) { EveryStateOwns(run, k); }
    forall s, t | Owns(s) && Next(s, t) ensures Later(s, t) { NextIsLater(s, t); }
    Runs.Progress(Init, Next, Owns, Later, run, i, j);
  }

  /** A failure of an adapter that has been replaced does not touch its replacement. */
  lemma StaleFailureIgnored(run: seq<Slot>, i: nat, j: nat, adapter: nat)
    requires IsRun(run) && i <= j < |run|
    requires adapter < run[i].ledger.started && run[i].manager != Some(adapter)
    ensures Marked(run[j], adapter) == run[j]
  {
    RunIsLater(run, i, j);
  }

  /** Nothing starts after close, and every adapter ever started has been closed. */
  lemma ClosedForGood(run: seq<Slot>, i: nat, j: nat, adapter: nat)
    requires IsRun(run) && i <= j < |run| && run[i].closed
    ensures run[j] == run[i] && !Serves(run[j])
    ensures adapter < run[j].ledger.started ==> adapter in run[j].ledger.stopped
  {
    RunIsLater(run, i, j);
    EveryStateOwns(run, j);
  }

  // ---- the object -------------------------------------------------------------

  class AdapterSlot {
    var manager: Option<nat>
    var closer: Option<nat>
    var probe: Option<nat>
    var unavailable: bool
    var closed: bool
    var ledger: Ledger

    ghost function State(): Slot
      reads this
    {
      Slot(manager, closer, probe, unavailable, closed, ledger)
    }

    ghost predicate Valid()
      reads this
    {
      Owns(State())
    }

    /** The slot before its first adapter starts. */
    constructor ()
      ensures Valid()
      ensures State() == Slot(None, None, None, false, false, Ledger(0, {}))
    {
      manager, closer, probe := None, None, None;
      unavailable, closed := false, false;
      ledger := Ledger(0, {});
    }

    method Start(outcome: StartOutcome) returns (adapter: Option<nat>)
      modifies this`ledger
      ensures (adapter, ledger) == Launch(old(ledger), outcome)
    {
      match outcome {
        case NotStarted =>
          adapter := None;
        case NoManager =>
          ledger := Ledger(ledger.started + 1, ledger.stopped + {ledger.started});
          adapter := None;
        case Started =>
          adapter := Some(ledger.started);
          ledger := ledger.(started := ledger.started + 1);
      }
    }

    method MarkUnavailable(failed: nat)
      requires Valid()
      modifies this`unavailable
      ensures Valid() && State() == Marked(old(State()), failed)
    {
      if manager == Some(failed) {
        unavailable := true;
      }
    }

    method ReplaceUnavailable(dead: bool, closeOk: bool, start: StartOutcome) returns (ok: bool)
      requires Valid()
      modifies this
      ensures Valid()
      ensures (State(), ok) == Replaced(old(State()), dead, closeOk, start)
      ensures ok && !Stuck(old(State())) ==> Serves(State())
    {
      ReplacedOwns(State(), dead, closeOk, start);
      if closed {
        return false;
      }
      if !unavailable && (probe.None? || !dead) {
        return true;
      }
      if closer.Some? {
        ledger := Stop(ledger, closer);
        if !closeOk {
          return false;
        }
        closer, manager, probe := None, None, None;
      }
      var adapter := Start(start);
      if adapter.None? {
        return false;
      }
      manager, closer, probe := adapter, adapter, adapter;
      unavailable := false;
      return true;
    }

    method Close()
      requires Valid()
      modifies this
      ensures Valid() && State() == Closed(old(State()))
    {
      if closed {
        return;
      }
      closed := true;
      if closer.None? {
        return;
      }
      ledger := Stop(ledger, closer);
      closer, manager, probe := None, None, None;
    }
  }
}
