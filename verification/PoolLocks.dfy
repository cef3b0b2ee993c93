/** Turns, steering and closing over the slots of the pools: who waits for which lock,
    and what each step does to the slots. */
module PoolLocks {
  import opened Wrappers
  import opened Slots
  import Runs

  /** A conversation's mutex, a global token, a slot's permit, and the two sides of a
      slot's lifecycle lock. */
  datatype Resource =
    | Scope(key: string)
    | Token
    | Permit(slot: nat)
    | Reader(slot: nat)
    | Writer(slot: nat)

  /** Steering one slot: read lock, look, ask its manager; if the adapter is gone, say so
      under the write lock. */
  datatype ScanAt =
    | Look
    | Peek
    | Asking(manager: nat)
    | Telling(manager: nat)
    | Flagging(manager: nat)

  /** The turn itself, lock by lock. */
  datatype TurnAt =
    | WaitScope
    | WaitToken
    | WaitPermit
    | WaitReplace
    | Replacing
    | WaitRun
    | Entering
    | Running(manager: nat)
    | WaitMark(manager: nat)
    | Marking(manager: nat)
    | FreePermit
    | FreeToken
    | FreeScope

  datatype Pc =
    | Steering(index: nat, scan: ScanAt)
    | Turn(at: TurnAt)
    | Closing(index: nat, busy: bool)
    | Finished

  /** `list` is what the call goes through: the slots of its pool, or for the closing
      call all slots. `slot` means something once the token is taken. */
  datatype Thread = Thread(key: string, list: seq<nat>, slot: nat, pc: Pc)

  /** Everything the outside decides in one step. */
  datatype Answer = Answer(
    cancel: bool, delivered: bool, failed: bool, gone: bool, dead: bool, closeOk: bool,
    start: StartOutcome, slot: nat)

  datatype State = State(
    threads: seq<Thread>, held: map<Resource, nat>, slotOf: map<string, nat>,
    slots: seq<Slot>, maxAgents: nat)

  // ---- steps ------------------------------------------------------------------

  /** The slot a call is working on. */
  function Place(t: Thread): nat {
    match t.pc
    case Steering(index, _) => if index < |t.list| then t.list[index] else 0
    case Closing(index, _) => if index < |t.list| then t.list[index] else 0
    case Turn(_) => t.slot
    case Finished => 0
  }

  /** What the next step of a call has to get first. */
  function Needs(t: Thread, a: Answer): Option<Resource> {
    match t.pc
    case Steering(index, scan) =>
      if index >= |t.list| then None
      else if scan.Look? then Some(Reader(Place(t)))
      else if scan.Telling? then Some(Writer(Place(t)))
      else None
    case Turn(at) => TurnNeeds(t, at, a)
    case Closing(index, busy) =>
      if index < |t.list| && !busy then Some(Writer(Place(t))) else None
    case Finished => None
  }

  function TurnNeeds(t: Thread, at: TurnAt, a: Answer): Option<Resource> {
    if at.WaitScope? then Some(Scope(t.key))
    else if at.WaitToken? && !a.cancel then Some(Token)
    else if at.WaitPermit? && !a.cancel then Some(Permit(t.slot))
    else if at.WaitReplace? || at.WaitMark? then Some(Writer(t.slot))
    else if at.WaitRun? then Some(Reader(t.slot))
    else None
  }

  predicate IsPeekDone(scan: ScanAt, slot: Slot) {
    scan.Peek? && (!Serves(slot) || slot.unavailable)
  }

  /** What it lets go of. */
  function Gives(t: Thread, slot: Slot): Option<Resource> {
    match t.pc
    case Steering(index, scan) =>
      if index >= |t.list| then None
      else if IsPeekDone(scan, slot) || scan.Asking? then Some(Reader(Place(t)))
      else if scan.Flagging? then Some(Writer(Place(t)))
      else None
    case Turn(at) =>
      if at.Replacing? || at.Marking? then Some(Writer(t.slot))
      else if at.Running? || (at.Entering? && !Serves(slot)) then Some(Reader(t.slot))
      else if at.FreePermit? then Some(Permit(t.slot))
      else if at.FreeToken? then Some(Token)
      else if at.FreeScope? then Some(Scope(t.key))
      else None
    case Closing(index, busy) =>
      if index < |t.list| && busy then Some(Writer(Place(t))) else None
    case Finished => None
  }

  function Scanned(index: nat, scan: ScanAt, slot: Slot, a: Answer): Pc {
    match scan
    case Look => Steering(index, Peek)
    case Peek =>
      if IsPeekDone(scan, slot) then Steering(index + 1, Look)
      else Steering(index, Asking(slot.manager.value))
    case Asking(manager) =>
      if a.delivered then Finished
      else if a.gone then Steering(index, Telling(manager))
      else if a.failed then Turn(WaitScope)
      else Steering(index + 1, Look)
    case Telling(manager) => Steering(index, Flagging(manager))
    case Flagging(_) => Turn(WaitScope)
  }

  function Turned(at: TurnAt, slot: Slot, a: Answer): Pc {
    match at
    case WaitScope => Turn(WaitToken)
    case WaitToken => Turn(if a.cancel then FreeScope else WaitPermit)
    case WaitPermit => Turn(if a.cancel then FreeToken else WaitReplace)
    case WaitReplace => Turn(Replacing)
    case Replacing =>
      Turn(if Replaced(slot, a.dead, a.closeOk, a.start).1 then WaitRun else FreePermit)
    case WaitRun => Turn(Entering)
    case Entering => Turn(if Serves(slot) then Running(slot.manager.value) else FreePermit)
    case Running(manager) => Turn(if a.gone then WaitMark(manager) else FreePermit)
    case WaitMark(manager) => Turn(Marking(manager))
    case Marking(_) => Turn(FreePermit)
    case FreePermit => Turn(FreeToken)
    case FreeToken => Turn(FreeScope)
    case FreeScope => Finished
  }

  function Moved(t: Thread, slot: Slot, a: Answer): Pc {
    match t.pc
    case Steering(index, scan) =>
      if index >= |t.list| then Turn(WaitScope) else Scanned(index, scan, slot, a)
    case Turn(at) => Turned(at, slot, a)
    case Closing(index, busy) =>
      if index >= |t.list| then Finished
      else if busy then Closing(index + 1, false)
      else Closing(index, true)
    case Finished => Finished
  }

  /** What a step under the write lock does to the slot. */
  function Worked(t: Thread, slot: Slot, a: Answer): Slot {
    if t.pc.Steering? && t.pc.scan.Flagging? then Marked(slot, t.pc.scan.manager)
    else if t.pc.Turn? && t.pc.at.Marking? then Marked(slot, t.pc.at.manager)
    else if t.pc.Turn? && t.pc.at.Replacing? then Replaced(slot, a.dead, a.closeOk, a.start).0
    else if t.pc.Closing? && t.pc.busy then Closed(slot)
    else slot
  }

  function Held(held: map<Resource, nat>, r: Resource): nat { if r in held then held[r] else 0 }

  function Taken(held: map<Resource, nat>, r: Option<Resource>): map<Resource, nat> {
    if r.Some? then held[r.value := Held(held, r.value) + 1] else held
  }

  function Given(held: map<Resource, nat>, r: Option<Resource>): map<Resource, nat> {
    if r.Some? && Held(held, r.value) > 0 then held[r.value := Held(held, r.value) - 1] else held
  }

  predicate IsFree(s: State, r: Resource) {
    match r
    case Scope(_) => Held(s.held, r) == 0
    case Token => Held(s.held, r) < s.maxAgents
    case Permit(_) => Held(s.held, r) == 0
    case Reader(x) => Held(s.held, Writer(x)) == 0
    case Writer(x) => Held(s.held, Writer(x)) == 0 && Held(s.held, Reader(x)) == 0
  }

  /** slotFor runs right after the token is taken. */
  predicate Assigns(t: Thread, a: Answer) { t.pc.Turn? && t.pc.at.WaitToken? && !a.cancel }

  function SlotFor(s: State, t: Thread, a: Answer): nat {
    if t.key in s.slotOf then s.slotOf[t.key] else a.slot
  }

  ghost predicate Enabled(s: State, i: nat, a: Answer) {
    && i < |s.threads|
    && var t := s.threads[i];
    && !t.pc.Finished?
    && Place(t) < |s.slots|
    && (Needs(t, a).Some? ==> IsFree(s, Needs(t, a).value))
    && (Assigns(t, a) && t.key !in s.slotOf ==> a.slot in t.list)
  }

  function After(s: State, i: nat, a: Answer): State {
    if i >= |s.threads| || Place(s.threads[i]) >= |s.slots| then s else
    var t, x := s.threads[i], Place(s.threads[i]);
    var slot := if Assigns(t, a) then SlotFor(s, t, a) else t.slot;
    s.(threads := s.threads[i := t.(pc := Moved(t, s.slots[x], a), slot := slot)],
       held := Taken(Given(s.held, Gives(t, s.slots[x])), Needs(t, a)),
       slotOf := if Assigns(t, a) then s.slotOf[t.key := slot] else s.slotOf,
       slots := s.slots[x := Worked(t, s.slots[x], a)])
  }

  /** Calls that have not started: a steered turn, a fresh turn, or closing. */
  predicate IsNew(t: Thread, slots: nat) {
    && t.list != []
    && (forall k :: 0 <= k < |t.list| ==> t.list[k] < slots)
    && t.slot < slots
    && (t.pc == Steering(0, Look) || t.pc == Turn(WaitScope) || t.pc == Closing(0, false))
  }

  ghost predicate Init(s: State) {
    && s.maxAgents > 0
    && s.slots != []
    && s.held == map[]
    && s.slotOf == map[]
    && (forall x :: 0 <= x < |s.slots| ==> Slots.Init(s.slots[x]))
    && (forall i :: 0 <= i < |s.threads| ==> IsNew(s.threads[i], |s.slots|))
  }

  ghost predicate Next(s: State, s': State) {
    exists i: nat, a :: Enabled(s, i, a) && s' == After(s, i, a)
  }

  // ---- who uses what ----------------------------------------------------------

  predicate HasPermit(at: TurnAt) {
    !at.WaitScope? && !at.WaitToken? && !at.WaitPermit? && !at.FreeToken? && !at.FreeScope?
  }

  predicate HasToken(at: TurnAt) { !at.WaitScope? && !at.WaitToken? && !at.FreeScope? }

  predicate Uses(t: Thread, r: Resource) {
    match r
    case Scope(key) => t.key == key && t.pc.Turn? && !t.pc.at.WaitScope?
    case Token => t.pc.Turn? && HasToken(t.pc.at)
    case Permit(x) => t.slot == x && t.pc.Turn? && HasPermit(t.pc.at)
    case Reader(x) =>
      Place(t) == x &&
      ((t.pc.Steering? && (t.pc.scan.Peek? || t.pc.scan.Asking?)) ||
       (t.pc.Turn? && (t.pc.at.Entering? || t.pc.at.Running?)))
    case Writer(x) =>
      Place(t) == x &&
      ((t.pc.Steering? && t.pc.scan.Flagging?) ||
       (t.pc.Turn? && (t.pc.at.Replacing? || t.pc.at.Marking?)) ||
       (t.pc.Closing? && t.pc.busy))
  }

  function Ones(b: bool): nat { if b then 1 else 0 }

  function Count(threads: seq<Thread>, r: Resource): nat {
    if threads == [] then 0
    else Count(threads[..|threads| - 1], r) + Ones(Uses(threads[|threads| - 1], r))
  }

  lemma {:induction false} CountChanges(threads: seq<Thread>, i: nat, t: Thread, r: Resource)
    requires i < |threads|
    ensures Count(threads[i := t], r) + Ones(Uses(threads[i], r)) ==
      Count(threads, r) + Ones(Uses(t, r))
  {
    var n := |threads| - 1;
    if i < n {
      CountChanges(threads[..n], i, t, r);
      assert threads[i := t][..n] == threads[..n][i := t];
    } else {
      assert threads[i := t][..n] == threads[..n];
    }
  }

  lemma {:induction false} CountUsers(threads: seq<Thread>, i: nat, j: nat, r: Resource)
    requires i <= j < |threads| && Uses(threads[i], r) && Uses(threads[j], r)
    ensures Count(threads, r) >= if i == j then 1 else 2
  {
    var n := |threads| - 1;
    if j < n {
      CountUsers(threads[..n], i, j, r);
    } else if i < n {
      CountUsers(threads[..n], i, i, r);
    }
  }

  lemma {:induction false} CountUnused(threads: seq<Thread>, r: Resource)
    requires forall i :: 0 <= i < |threads| ==> !Uses(threads[i], r)
    ensures Count(threads, r) == 0
  {
    if threads != [] {
      var n := |threads| - 1;
      CountUnused(threads[..n], r);
      assert !Uses(threads[n], r);
    }
  }

  // ---- the invariant ----------------------------------------------------------

  /** Past the token, a call works on the slot its key has been given. */
  predicate IsSlotted(at: TurnAt) { !at.WaitScope? && !at.WaitToken? && !at.FreeScope? }

  /** The manager a running turn or a steering request talks to. */
  function Talks(pc: Pc): Option<nat> {
    if pc.Turn? && pc.at.Running? then Some(pc.at.manager)
    else if pc.Steering? && pc.scan.Asking? then Some(pc.scan.manager)
    else None
  }

  ghost predicate ThreadOk(s: State, t: Thread) {
    && t.list != []
    && (forall k :: 0 <= k < |t.list| ==> t.list[k] < |s.slots|)
    && (t.pc.Steering? && !t.pc.scan.Look? ==> t.pc.index < |t.list|)
    && (t.pc.Closing? && t.pc.busy ==> t.pc.index < |t.list|)
    && Place(t) < |s.slots| && t.slot < |s.slots|
    && (t.pc.Turn? && IsSlotted(t.pc.at) ==> t.key in s.slotOf && s.slotOf[t.key] == t.slot)
    && (Talks(t.pc).Some? ==> Serves(s.slots[Place(t)]) && s.slots[Place(t)].manager == Talks(t.pc))
  }

  ghost predicate ThreadsOk(s: State) {
    forall i :: 0 <= i < |s.threads| ==> ThreadOk(s, s.threads[i])
  }

  /** The semaphores count their users and are within their limits. */
  ghost predicate HeldOk(s: State) {
    forall r :: Held(s.held, r) == Count(s.threads, r) && WithinLimit(s, r)
  }

  predicate WithinLimit(s: State, r: Resource) {
    match r
    case Scope(_) => Held(s.held, r) <= 1
    case Token => Held(s.held, r) <= s.maxAgents
    case Permit(_) => Held(s.held, r) <= 1
    case Reader(x) => Held(s.held, r) == 0 || Held(s.held, Writer(x)) == 0
    case Writer(_) => Held(s.held, r) <= 1
  }

  ghost predicate SlotsOk(s: State) {
    forall x :: 0 <= x < |s.slots| ==> Owns(s.slots[x])
  }

  ghost predicate KeysOk(s: State) {
    forall key :: key in s.slotOf ==> s.slotOf[key] < |s.slots|
  }

  ghost predicate Inv(s: State) {
    s.maxAgents > 0 && s.slots != [] && ThreadsOk(s) && HeldOk(s) && SlotsOk(s) && KeysOk(s)
  }

  // ---- steps keep it ----------------------------------------------------------

  /** What a step takes and gives is what the call uses afterwards and before. */
  lemma UsesChange(t: Thread, slot: Slot, a: Answer, r: Resource, place: nat)
    requires t.pc.Steering? && !t.pc.scan.Look? ==> t.pc.index < |t.list|
    requires t.pc.Closing? && t.pc.busy ==> t.pc.index < |t.list|
    requires Assigns(t, a) || place == t.slot
    ensures
      var t' := t.(pc := Moved(t, slot, a), slot := place);
      Ones(Uses(t', r)) + Ones(Gives(t, slot) == Some(r)) ==
        Ones(Uses(t, r)) + Ones(Needs(t, a) == Some(r))
  {
    hide Slots.Replaced;
    hide Slots.Serves;
    match t.pc {
      case Steering(_, _) => {}
      case Turn(_) => {}
      case Closing(_, _) => {}
      case Finished => {}
    }
  }

  lemma GivenIsUsed(t: Thread, slot: Slot)
    requires t.pc.Steering? && !t.pc.scan.Look? ==> t.pc.index < |t.list|
    requires t.pc.Closing? && t.pc.busy ==> t.pc.index < |t.list|
    ensures Gives(t, slot).Some? ==> Uses(t, Gives(t, slot).value)
  {
  }

  /** One semaphore across one step. */
  lemma HeldAfter(s: State, i: nat, a: Answer, r: Resource)
    requires Inv(s) && Enabled(s, i, a)
    ensures
      var s', t := After(s, i, a), s.threads[i];
      && Held(s'.held, r) == Count(s'.threads, r)
      && Held(s'.held, r) + Ones(Gives(t, s.slots[Place(t)]) == Some(r)) ==
           Held(s.held, r) + Ones(Needs(t, a) == Some(r))
  {
    var s', t := After(s, i, a), s.threads[i];
    var slot := s.slots[Place(t)];
    assert ThreadOk(s, t);
    assert Held(s.held, r) == Count(s.threads, r);
    UsesChange(t, slot, a, r, s'.threads[i].slot);
    GivenIsUsed(t, slot);
    CountChanges(s.threads, i, s'.threads[i], r);
    if Gives(t, slot) == Some(r) { CountUsers(s.threads, i, i, r); }
    hide Inv;
    hide Uses;
    hide Gives;
    hide Needs;
    hide Worked;
    hide Moved;
  }

  lemma HeldStaysOk(s: State, i: nat, a: Answer)
    requires Inv(s) && Enabled(s, i, a)
    ensures HeldOk(After(s, i, a))
  {
    var s', t := After(s, i, a), s.threads[i];
    forall r ensures Held(s'.held, r) == Count(s'.threads, r) && WithinLimit(s', r) {
      HeldAfter(s, i, a, r);
      LimitAfter(s, i, a, r);
    }
  }

  lemma LimitAfter(s: State, i: nat, a: Answer, r: Resource)
    requires Inv(s) && Enabled(s, i, a)
    ensures WithinLimit(After(s, i, a), r)
  {
    HeldAfter(s, i, a, r);
    assert WithinLimit(s, r);
    if r.Reader? {
      HeldAfter(s, i, a, Writer(r.slot));
      assert WithinLimit(s, Writer(r.slot));
    }
    hide Inv;
    hide Held;
    hide Gives;
    hide Needs;
    hide Count;
  }

  /** Only a call that holds a slot's write lock changes the slot. */
  lemma WorkIsLocked(t: Thread, slot: Slot, a: Answer)
    requires Worked(t, slot, a) != slot
    ensures Uses(t, Writer(Place(t)))
  {
  }

  lemma TalkIsLocked(t: Thread)
    requires Talks(t.pc).Some?
    ensures Uses(t, Reader(Place(t)))
  {
  }

  /** While a call reads a slot, no other call changes it. */
  lemma ReadersUndisturbed(s: State, i: nat, a: Answer, j: nat)
    requires Inv(s) && Enabled(s, i, a) && j < |s.threads| && i != j
    requires Talks(s.threads[j].pc).Some?
    ensures After(s, i, a).slots[Place(s.threads[j])] == s.slots[Place(s.threads[j])]
  {
    var t, u := s.threads[i], s.threads[j];
    assert ThreadOk(s, u);
    if Place(t) == Place(u) && Worked(t, s.slots[Place(t)], a) != s.slots[Place(t)] {
      WorkIsLocked(t, s.slots[Place(t)], a);
      TalkIsLocked(u);
      NoReaderBesideWriter(s, i, j, Place(t));
    }
  }

  lemma NoReaderBesideWriter(s: State, i: nat, j: nat, x: nat)
    requires Inv(s) && i < |s.threads| && j < |s.threads| && Uses(s.threads[i], Writer(x))
    ensures !Uses(s.threads[j], Reader(x))
  {
    assert WithinLimit(s, Reader(x));
    assert Held(s.held, Reader(x)) == Count(s.threads, Reader(x));
    assert Held(s.held, Writer(x)) == Count(s.threads, Writer(x));
    CountUsers(s.threads, i, i, Writer(x));
    if Uses(s.threads[j], Reader(x)) { CountUsers(s.threads, j, j, Reader(x)); }
  }

  lemma OtherThreadOk(s: State, i: nat, a: Answer, j: nat)
    requires Inv(s) && Enabled(s, i, a) && j < |s.threads| && i != j
    ensures ThreadOk(After(s, i, a), s.threads[j])
  {
    assert ThreadOk(s, s.threads[j]);
    if Talks(s.threads[j].pc).Some? { ReadersUndisturbed(s, i, a, j); }
    hide Inv;
    hide Worked;
    hide Moved;
    hide Needs;
    hide Gives;
  }

  lemma ActingThreadOk(s: State, i: nat, a: Answer)
    requires Inv(s) && Enabled(s, i, a)
    ensures ThreadOk(After(s, i, a), After(s, i, a).threads[i])
  {
    var t := s.threads[i];
    assert ThreadOk(s, t);
    assert KeysOk(s) && s.slots != [];
    hide Inv;
    hide Needs;
    hide Gives;
    hide Slots.Replaced;
    match t.pc {
      case Steering(_, _) => {}
      case Turn(_) => {}
      case Closing(_, _) => {}
      case Finished => assert false;
    }
  }

  lemma WorkOwns(t: Thread, slot: Slot, a: Answer)
    requires Owns(slot)
    ensures Owns(Worked(t, slot, a))
  {
    ReplacedOwns(slot, a.dead, a.closeOk, a.start);
  }

  lemma StepOk(s: State, i: nat, a: Answer)
    requires Inv(s) && Enabled(s, i, a)
    ensures Inv(After(s, i, a))
  {
    var s', t := After(s, i, a), s.threads[i];
    HeldStaysOk(s, i, a);
    WorkOwns(t, s.slots[Place(t)], a);
    ActingThreadOk(s, i, a);
    forall j | 0 <= j < |s'.threads| ensures ThreadOk(s', s'.threads[j]) {
      if j != i { OtherThreadOk(s, i, a, j); }
    }
    assert ThreadOk(s, t);
    hide HeldOk;
    hide Worked;
    hide Moved;
    hide Needs;
    hide Gives;
    hide Owns;
  }

  lemma InitOk(s: State)
    requires Init(s)
    ensures Inv(s)
  {
    forall r ensures Held(s.held, r) == Count(s.threads, r) && WithinLimit(s, r) {
      CountUnused(s.threads, r);
    }
  }

  // ---- whole runs -------------------------------------------------------------

  ghost predicate IsRun(run: seq<State>) { Runs.IsRun(Init, Next, run) }

  lemma EveryStateOk(run: seq<State>, k: nat)
    requires IsRun(run) && k < |run|
    ensures Inv(run[k])
  {
    forall s | Init(s) ensures Inv(s) { InitOk(s); }
    forall s, s' | Inv(s) && Next(s, s') ensures Inv(s') {
      var i: nat, a :| Enabled(s, i, a) && s' == After(s, i, a);
      StepOk(s, i, a);
    }
    Runs.Invariant(Init, Next, Inv, run, k);
  }

  /** Scope locks, permits and write locks have one holder at a time, and nobody reads a
      slot that another call may write. */
  lemma OneHolder(run: seq<State>, k: nat, i: nat, j: nat, r: Resource)
    requires IsRun(run) && k < |run| && i < |run[k].threads| && j < |run[k].threads|
    requires Uses(run[k].threads[i], r) && Uses(run[k].threads[j], r)
    ensures r.Scope? || r.Permit? || r.Writer? ==> i == j
    ensures r.Reader? ==> forall h :: 0 <= h < |run[k].threads| ==>
      !Uses(run[k].threads[h], Writer(r.slot))
  {
    EveryStateOk(run, k);
    var s := run[k];
    assert WithinLimit(s, r) && Held(s.held, r) == Count(s.threads, r);
    if i <= j { CountUsers(s.threads, i, j, r); } else { CountUsers(s.threads, j, i, r); }
    if r.Reader? {
      forall h | 0 <= h < |s.threads| ensures !Uses(s.threads[h], Writer(r.slot)) {
        if Uses(s.threads[h], Writer(r.slot)) { NoReaderBesideWriter(s, h, i, r.slot); }
      }
    }
  }

  predicate IsRunningTurn(t: Thread) { t.pc.Turn? && t.pc.at.Running? }

  /** At most one turn runs for a conversation and at most one on a slot. So at most one
      slot has a turn that a steered message for the conversation could join. */
  lemma OneTurnPerScopeAndSlot(run: seq<State>, k: nat, i: nat, j: nat)
    requires IsRun(run) && k < |run| && i < |run[k].threads| && j < |run[k].threads|
    requires IsRunningTurn(run[k].threads[i]) && IsRunningTurn(run[k].threads[j])
    requires run[k].threads[i].key == run[k].threads[j].key ||
      run[k].threads[i].slot == run[k].threads[j].slot
    ensures i == j
  {
    var t := run[k].threads[i];
    if t.key == run[k].threads[j].key {
      OneHolder(run, k, i, j, Scope(t.key));
    } else {
      OneHolder(run, k, i, j, Permit(t.slot));
    }
  }

  /** `table` names, for each conversation with a running turn, the call that runs it. */
  ghost predicate IsTurnTable(s: State, table: map<string, nat>) {
    && (forall key :: key in table ==> IsTurnFor(s, table[key], key))
    && (forall i: nat, key :: IsTurnFor(s, i, key) ==> key in table && table[key] == i)
  }

  predicate IsTurnFor(s: State, i: nat, key: string) {
    i < |s.threads| && IsRunningTurn(s.threads[i]) && s.threads[i].key == key
  }

  /** Whatever slots, and so managers, turns run on, together they use one lock table: at
      any time a conversation has one running turn or none, and a step leaves the table
      as it is, locks a conversation that nobody has, or unlocks one. This is the lock
      table of the conversation machine, in which a call runs on any manager. */
  lemma TurnsAreALockTable(run: seq<State>, k: nat) returns (table: map<string, nat>)
    requires IsRun(run) && k < |run|
    ensures IsTurnTable(run[k], table)
  {
    var s := run[k];
    forall i: nat, j: nat, key | IsTurnFor(s, i, key) && IsTurnFor(s, j, key) ensures i == j {
      OneTurnPerScopeAndSlot(run, k, i, j);
    }
    table := TableUpTo(s, |s.threads|);
  }

  lemma {:induction false} TableUpTo(s: State, n: nat) returns (table: map<string, nat>)
    requires n <= |s.threads|
    requires forall i: nat, j: nat, key :: IsTurnFor(s, i, key) && IsTurnFor(s, j, key) ==> i == j
    ensures forall key :: key in table ==> table[key] < n && IsTurnFor(s, table[key], key)
    ensures forall i: nat, key :: i < n && IsTurnFor(s, i, key) ==> key in table && table[key] == i
  {
    table := map[];
    if n > 0 {
      table := TableUpTo(s, n - 1);
      if IsRunningTurn(s.threads[n - 1]) {
        assert IsTurnFor(s, n - 1, s.threads[n - 1].key);
        table := table[s.threads[n - 1].key := n - 1];
      }
    }
  }

  predicate LocksOne(table: map<string, nat>, table': map<string, nat>, key: string, i: nat) {
    key !in table && table' == table[key := i]
  }

  predicate UnlocksOne(table: map<string, nat>, table': map<string, nat>, key: string, i: nat) {
    key in table && table[key] == i && table' == table - {key}
  }

  /** `i` is the call that takes the step from state `k`. */
  ghost predicate IsStepOf(run: seq<State>, k: nat, i: nat) {
    k + 1 < |run| && exists a :: Enabled(run[k], i, a) && run[k + 1] == After(run[k], i, a)
  }

  lemma TurnTableStep(
    run: seq<State>, k: nat, i: nat, table: map<string, nat>, table': map<string, nat>)
    requires IsRun(run) && IsStepOf(run, k, i)
    requires IsTurnTable(run[k], table) && IsTurnTable(run[k + 1], table')
    ensures
      var key := run[k].threads[i].key;
      table' == table || LocksOne(table, table', key, i) || UnlocksOne(table, table', key, i)
  {
    var s, s' := run[k], run[k + 1];
    var a :| Enabled(s, i, a) && s' == After(s, i, a);
    var key := s.threads[i].key;
    assert |s'.threads| == |s.threads| && s'.threads[i].key == key;
    hide After;
    hide Enabled;
    hide IsRun;
    forall other | other != key
      ensures other in table <==> other in table'
      ensures other in table ==> table[other] == table'[other]
    {
      if other in table { assert IsTurnFor(s', table[other], other); }
      if other in table' { assert IsTurnFor(s, table'[other], other); }
    }
    if key in table && table[key] != i { assert IsTurnFor(s', table[key], key); }
    if key in table' && table'[key] != i { assert IsTurnFor(s, table'[key], key); }
  }

  /** The tokens taken are the turns past the global acquire, and stay in the limit. */
  lemma TokensInUse(run: seq<State>, k: nat)
    requires IsRun(run) && k < |run|
    ensures Held(run[k].held, Token) == Count(run[k].threads, Token) <= run[k].maxAgents
  {
    EveryStateOk(run, k);
    assert WithinLimit(run[k], Token);
  }

  /** A running turn talks to its slot's manager, and no step of another call replaces,
      flags or closes that slot before the turn is over. */
  lemma RunningUndisturbed(run: seq<State>, k: nat, j: nat)
    requires IsRun(run) && k < |run| && j < |run[k].threads|
    requires IsRunningTurn(run[k].threads[j])
    ensures
      var t := run[k].threads[j];
      && t.slot < |run[k].slots|
      && Serves(run[k].slots[t.slot])
      && run[k].slots[t.slot].manager == Some(t.pc.at.manager)
      && (k + 1 < |run| && j < |run[k + 1].threads| && run[k + 1].threads[j] == t ==>
            t.slot < |run[k + 1].slots| && run[k + 1].slots[t.slot] == run[k].slots[t.slot])
  {
    EveryStateOk(run, k);
    assert ThreadOk(run[k], run[k].threads[j]);
    if k + 1 < |run| {
      assert Runs.StepAt(Next, run, k);
      var i: nat, a :| Enabled(run[k], i, a) && run[k + 1] == After(run[k], i, a);
      if i != j { ReadersUndisturbed(run[k], i, a, j); }
    }
  }

  /** All slots go on as single slots may. */
  ghost predicate AllLater(s: State, s': State) {
    && |s'.slots| == |s.slots|
    && forall x :: 0 <= x < |s.slots| ==> Slots.Later(s.slots[x], s'.slots[x])
  }

  lemma StepIsLater(s: State, i: nat, a: Answer)
    requires Inv(s) && Enabled(s, i, a)
    ensures AllLater(s, After(s, i, a))
  {
    var slot, t := s.slots[Place(s.threads[i])], s.threads[i];
    WorkIsOp(t, slot, a);
    assert Owns(slot);
    if Worked(t, slot, a) != slot { Slots.NextIsLater(slot, Worked(t, slot, a)); }
    hide Inv;
    hide Worked;
    hide Moved;
    hide Needs;
    hide Gives;
  }

  /** What a call does to a slot under the write lock is one of the slot's operations. */
  lemma WorkIsOp(t: Thread, slot: Slot, a: Answer)
    ensures Worked(t, slot, a) == slot || Slots.Next(slot, Worked(t, slot, a))
  {
    if t.pc.Steering? && t.pc.scan.Flagging? {
      assert Worked(t, slot, a) == Slots.After(slot, Mark(t.pc.scan.manager));
    } else if t.pc.Turn? && t.pc.at.Marking? {
      assert Worked(t, slot, a) == Slots.After(slot, Mark(t.pc.at.manager));
    } else if t.pc.Turn? && t.pc.at.Replacing? {
      assert Worked(t, slot, a) == Slots.After(slot, Replace(a.dead, a.closeOk, a.start));
    } else if t.pc.Closing? && t.pc.busy {
      assert Worked(t, slot, a) == Slots.After(slot, Close);
    }
  }

  /** Over any interleaving of turns, steering, replacement and closing each slot owns
      its adapters: one at most, and every other one it started has been closed. What it
      gave up never comes back, and nothing starts in it once it is closed. */
  lemma SlotsOwnTheirAdapters(run: seq<State>, i: nat, j: nat, x: nat)
    requires IsRun(run) && i <= j < |run| && x < |run[i].slots|
    ensures |run[j].slots| == |run[i].slots| && Owns(run[j].slots[x])
    ensures Slots.Later(run[i].slots[x], run[j].slots[x])
  {
    forall k: nat | k < |run| ensures Inv(run[k]) { EveryStateOk(run, k); }
    forall s, s' | Inv(s) && Next(s, s') ensures AllLater(s, s') {
      var h: nat, a :| Enabled(s, h, a) && s' == After(s, h, a);
      StepIsLater(s, h, a);
    }
    Runs.Progress(Init, Next, Inv, AllLater, run, i, j);
  }

  // ---- no deadlock ------------------------------------------------------------

  /** Locks are taken in one order: how late in it a call is. A call that waits for
      nothing can step at once. */
  function Urgency(needs: Option<Resource>): nat {
    match needs
    case None => 5
    case Some(r) =>
      match r
      case Scope(_) => 0
      case Token => 1
      case Permit(_) => 2
      case Reader(_) => 3
      case Writer(_) => 4
  }

  /** Whoever holds something waits, if at all, for something later in the order; and
      whoever holds a slot's lifecycle lock does not wait. */
  lemma LocksAreOrdered(t: Thread, a: Answer, r: Resource)
    requires Uses(t, r)
    requires t.pc.Steering? && !t.pc.scan.Look? ==> t.pc.index < |t.list|
    ensures Urgency(Needs(t, a)) > Urgency(Some(r))
    ensures r.Reader? || r.Writer? ==> Needs(t, a).None?
  {
  }

  /** No writer is waiting for a slot that the call wants to read: then a lock that lets
      waiting writers go first does not hold it back either. */
  ghost predicate IsPolite(s: State, i: nat, a: Answer)
    requires i < |s.threads|
  {
    Needs(s.threads[i], a).Some? && Needs(s.threads[i], a).value.Reader? ==>
      forall j :: 0 <= j < |s.threads| && !s.threads[j].pc.Finished? ==>
        Needs(s.threads[j], a) != Some(Writer(Needs(s.threads[i], a).value.slot))
  }

  predicate IsUnfinished(threads: seq<Thread>, i: nat) {
    i < |threads| && !threads[i].pc.Finished?
  }

  ghost predicate IsMostUrgent(threads: seq<Thread>, a: Answer, i: nat) {
    && IsUnfinished(threads, i)
    && forall j :: 0 <= j < |threads| && !threads[j].pc.Finished? ==>
         Urgency(Needs(threads[j], a)) <= Urgency(Needs(threads[i], a))
  }

  lemma {:induction false} MostUrgentExists(threads: seq<Thread>, a: Answer, k: nat)
    requires IsUnfinished(threads, k)
    ensures exists i: nat :: IsMostUrgent(threads, a, i)
    decreases 5 - Urgency(Needs(threads[k], a))
  {
    if j: nat :| IsUnfinished(threads, j) &&
                 Urgency(Needs(threads[j], a)) > Urgency(Needs(threads[k], a)) {
      MostUrgentExists(threads, a, j);
    } else {
      forall j | 0 <= j < |threads| && !threads[j].pc.Finished?
        ensures Urgency(Needs(threads[j], a)) <= Urgency(Needs(threads[k], a))
      {
        assert IsUnfinished(threads, j);
      }
      assert IsMostUrgent(threads, a, k);
    }
  }

  /** What the most urgent call waits for, nobody holds. */
  lemma NobodyHolds(s: State, a: Answer, i: nat, r: Resource)
    requires Inv(s) && IsMostUrgent(s.threads, a, i)
    requires Urgency(Some(r)) >= Urgency(Needs(s.threads[i], a)) || r.Reader? || r.Writer?
    requires Needs(s.threads[i], a).Some?
    ensures Held(s.held, r) == 0
  {
    forall j | 0 <= j < |s.threads| ensures !Uses(s.threads[j], r) {
      assert ThreadOk(s, s.threads[j]);
      if Uses(s.threads[j], r) { LocksAreOrdered(s.threads[j], a, r); }
    }
    CountUnused(s.threads, r);
  }

  /** The answers of a world where requests return and nothing is cancelled. */
  function Plain(slot: nat): Answer { Answer(false, false, false, false, false, true, Started, slot) }

  /** While a call is unfinished some call can step, even if waiting writers go first:
      the pool never deadlocks as long as running turns return. */
  lemma SomeoneCanStep(run: seq<State>, k: nat, i: nat)
    requires IsRun(run) && k < |run| && IsUnfinished(run[k].threads, i)
    ensures exists j: nat, a :: Enabled(run[k], j, a) && IsPolite(run[k], j, a)
  {
    EveryStateOk(run, k);
    CanStep(run[k], i);
  }

  lemma CanStep(s: State, k: nat)
    requires Inv(s) && IsUnfinished(s.threads, k)
    ensures exists i: nat, a :: Enabled(s, i, a) && IsPolite(s, i, a)
  {
    MostUrgentExists(s.threads, Plain(0), k);
    var i: nat :| IsMostUrgent(s.threads, Plain(0), i);
    assert ThreadOk(s, s.threads[i]);
    var a := Plain(s.threads[i].list[0]);
    forall j | 0 <= j < |s.threads| ensures Needs(s.threads[j], a) == Needs(s.threads[j], Plain(0)) {}
    var needs := Needs(s.threads[i], a);
    if needs.Some? {
      NobodyHolds(s, Plain(0), i, needs.value);
      if needs.value.Writer? { NobodyHolds(s, Plain(0), i, Reader(needs.value.slot)); }
      if needs.value.Reader? { NobodyHolds(s, Plain(0), i, Writer(needs.value.slot)); }
    }
    assert Enabled(s, i, a) && IsPolite(s, i, a);
  }

  // ---- every call ends --------------------------------------------------------

  function ScanRank(scan: ScanAt): nat {
    match scan
    case Look => 4
    case Peek => 3
    case Asking(_) => 2
    case Telling(_) => 1
    case Flagging(_) => 0
  }

  function TurnRank(at: TurnAt): nat {
    match at
    case WaitScope => 13
    case WaitToken => 12
    case WaitPermit => 11
    case WaitReplace => 10
    case Replacing => 9
    case WaitRun => 8
    case Entering => 7
    case Running(_) => 6
    case WaitMark(_) => 5
    case Marking(_) => 4
    case FreePermit => 3
    case FreeToken => 2
    case FreeScope => 1
  }

  /** How many steps a call has before it at most. */
  function Rank(t: Thread): nat {
    match t.pc
    case Steering(index, scan) =>
      14 + ScanRank(scan) + if index < |t.list| then 5 * (|t.list| - index) else 0
    case Turn(at) => TurnRank(at)
    case Closing(index, busy) =>
      if index >= |t.list| then 1
      else 1 + 2 * (|t.list| - index) - (if busy then 1 else 0)
    case Finished => 0
  }

  function Measure(threads: seq<Thread>): nat {
    if threads == [] then 0
    else Measure(threads[..|threads| - 1]) + Rank(threads[|threads| - 1])
  }

  lemma {:induction false} MeasureChanges(threads: seq<Thread>, i: nat, t: Thread)
    requires i < |threads|
    ensures Measure(threads[i := t]) + Rank(threads[i]) == Measure(threads) + Rank(t)
  {
    var n := |threads| - 1;
    if i < n {
      MeasureChanges(threads[..n], i, t);
      assert threads[i := t][..n] == threads[..n][i := t];
    } else {
      assert threads[i := t][..n] == threads[..n];
    }
  }

  lemma RankShrinks(t: Thread, slot: Slot, a: Answer, place: nat)
    requires !t.pc.Finished?
    ensures Rank(t.(pc := Moved(t, slot, a), slot := place)) < Rank(t)
  {
    match t.pc {
      case Steering(_, _) => {}
      case Turn(_) => {}
      case Closing(_, _) => {}
      case Finished => assert false;
    }
  }

  lemma StepShrinks(s: State, i: nat, a: Answer)
    requires Enabled(s, i, a)
    ensures Measure(After(s, i, a).threads) < Measure(s.threads)
  {
    var s', t := After(s, i, a), s.threads[i];
    MeasureChanges(s.threads, i, s'.threads[i]);
    RankShrinks(t, s.slots[Place(t)], a, s'.threads[i].slot);
  }

  /** The first `k` steps of a run use up at least `k` of what its calls have to do. */
  lemma {:induction false} RunIsBounded(run: seq<State>, k: nat)
    requires IsRun(run) && k < |run|
    ensures k + Measure(run[k].threads) <= Measure(run[0].threads)
  {
    if k > 0 {
      RunIsBounded(run, k - 1);
      assert Runs.StepAt(Next, run, k - 1);
      var i: nat, a :| Enabled(run[k - 1], i, a) && run[k] == After(run[k - 1], i, a);
      StepShrinks(run[k - 1], i, a);
    }
  }

  ghost predicate CannotGoOn(s: State) { forall s' :: !Next(s, s') }

  ghost predicate AllFinished(s: State) {
    forall i :: 0 <= i < |s.threads| ==> s.threads[i].pc.Finished?
  }

  /** So whatever the order of steps, all calls finish: no run is longer than its calls
      allow, and one that cannot be continued has left nobody waiting and nothing held. */
  lemma EveryCallFinishes(run: seq<State>, r: Resource)
    requires IsRun(run)
    ensures |run| <= Measure(run[0].threads) + 1
    ensures CannotGoOn(run[|run| - 1]) ==>
      AllFinished(run[|run| - 1]) && Held(run[|run| - 1].held, r) == 0
  {
    var last := |run| - 1;
    RunIsBounded(run, last);
    if CannotGoOn(run[last]) {
      forall i | 0 <= i < |run[last].threads| ensures run[last].threads[i].pc.Finished? {
        if IsUnfinished(run[last].threads, i) {
          SomeoneCanStep(run, last, i);
          var j: nat, a :| Enabled(run[last], j, a) && IsPolite(run[last], j, a);
          assert Next(run[last], After(run[last], j, a));
        }
      }
      EveryStateOk(run, last);
      CountUnused(run[last].threads, r);
    }
  }
}
