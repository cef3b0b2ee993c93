/** The JSON-RPC connection to an adapter process: callers register and write while one
    read loop routes responses, until the connection is lost. */
module Rpc {
  import opened Wrappers
  import Runs

  /** What a caller's channel delivers. */
  datatype Result<+P> = Payload(payload: P) | RpcError(code: int) | ConnectionLost

  /** A line from the adapter. A response whose ID is missing or not a number is `None`;
      `Notification` has no ID, `Request` has one, and junk does not parse. */
  datatype Frame<+P, +U> =
    | Response(id: Option<int>, result: Result<P>)
    | Notification(update: U)
    | Request(update: U)
    | Junk

  /** A call between its registration and its return. */
  datatype CallPc = Writing | WriteFailed | Waiting | Refused

  /** The read loop: between frames, about to send a routed result, or over. */
  datatype ReaderPc<+P> = Scanning | Sending(id: nat, result: Result<P>) | Ended

  /** `sent` is what each call's channel has received so far and `calls` where each call
      is; `frames` and `since` are history: the frames routed, and how many had been
      when a call registered. */
  datatype State<P, U> = State(
    nextID: nat, waits: set<nat>, sent: map<nat, seq<Result<P>>>, closed: bool,
    reader: ReaderPc<P>, calls: map<nat, CallPc>, frames: seq<Frame<P, U>>, since: map<nat, nat>)

  datatype Step<P, U> =
    | Register
    | WriteOk(id: nat)
    | WriteFails(id: nat)
    | Forget(id: nat)
    | Route(frame: Frame<P, U>)
    | Send
    | Drain

  function Sent<P>(sent: map<nat, seq<Result<P>>>, id: nat): seq<Result<P>> {
    if id in sent then sent[id] else []
  }

  /** Sending `result` to every channel in `ids`. */
  function SentAll<P>(sent: map<nat, seq<Result<P>>>, ids: set<nat>, result: Result<P>)
    : map<nat, seq<Result<P>>>
  {
    map id | id in sent.Keys + ids :: if id in ids then Sent(sent, id) + [result] else sent[id]
  }

  predicate IsCall(calls: map<nat, CallPc>, id: nat, pc: CallPc) { id in calls && calls[id] == pc }

  /** Who the frame answers, if that call still waits. */
  function Answered<P, U>(waits: set<nat>, frame: Frame<P, U>): Option<nat> {
    if frame.Response? && frame.id.Some? && frame.id.value >= 0 && frame.id.value in waits
    then Some(frame.id.value as nat) else None
  }

  ghost predicate Enabled<P(!new), U(!new)>(s: State<P, U>, step: Step<P, U>) {
    match step
    case Register => !s.closed
    case WriteOk(id) => IsCall(s.calls, id, Writing)
    case WriteFails(id) => IsCall(s.calls, id, Writing)
    case Forget(id) => IsCall(s.calls, id, WriteFailed)
    case Route(frame) => s.reader.Scanning? && (frame.Response? ==> !frame.result.ConnectionLost?)
    case Send => s.reader.Sending?
    case Drain => s.reader.Scanning?
  }

  function After<P, U>(s: State<P, U>, step: Step<P, U>): State<P, U> {
    match step
    case Register =>
      var id := s.nextID + 1;
      s.(nextID := id, waits := s.waits + {id}, calls := s.calls[id := Writing],
         sent := s.sent[id := []], since := s.since[id := |s.frames|])
    case WriteOk(id) => s.(calls := s.calls[id := Waiting])
    case WriteFails(id) => s.(calls := s.calls[id := WriteFailed])
    case Forget(id) => s.(calls := s.calls[id := Refused], waits := s.waits - {id})
    case Route(frame) =>
      var answered := Answered(s.waits, frame);
      var routed := s.(frames := s.frames + [frame]);
      if answered.None? then routed
      else routed.(waits := s.waits - {answered.value}, reader := Sending(answered.value, frame.result))
    case Send =>
      if s.reader.Sending? then
        s.(sent := s.sent[s.reader.id := Sent(s.sent, s.reader.id) + [s.reader.result]],
           reader := Scanning)
      else s
    case Drain =>
      s.(closed := true, reader := Ended, waits := {},
         sent := SentAll(s.sent, s.waits, ConnectionLost))
  }

  ghost predicate Init<P(!new), U(!new)>(s: State<P, U>) {
    s == State(0, {}, map[], false, Scanning, map[], [], map[])
  }

  ghost predicate Next<P(!new), U(!new)>(s: State<P, U>, s': State<P, U>) {
    exists step :: Enabled(s, step) && s' == After(s, step)
  }

  // ---- where a result comes from ----------------------------------------------

  /** The result in the first response to `id` among the frames from `from` on. */
  function FirstAnswer<P, U>(frames: seq<Frame<P, U>>, from: nat, id: nat): Option<Result<P>>
    decreases |frames| - from
  {
    if from >= |frames| then None
    else if frames[from].Response? && frames[from].id == Some(id) then Some(frames[from].result)
    else FirstAnswer(frames, from + 1, id)
  }

  lemma {:induction false} FirstAnswerAppend<P, U>(
    frames: seq<Frame<P, U>>, frame: Frame<P, U>, from: nat, id: nat)
    requires from <= |frames|
    ensures FirstAnswer(frames + [frame], from, id) ==
      if FirstAnswer(frames, from, id).Some? then FirstAnswer(frames, from, id)
      else if frame.Response? && frame.id == Some(id) then Some(frame.result)
      else None
    decreases |frames| - from
  {
    if from < |frames| && !(frames[from].Response? && frames[from].id == Some(id)) {
      FirstAnswerAppend(frames, frame, from + 1, id);
    }
  }

  /** It is the result of a response to `id`, and no earlier frame answers `id`. */
  lemma {:induction false} FirstAnswerIsFirst<P, U>(frames: seq<Frame<P, U>>, from: nat, id: nat)
    returns (k: nat)
    requires FirstAnswer(frames, from, id).Some?
    ensures from <= k < |frames|
    ensures frames[k] == Response(Some(id), FirstAnswer(frames, from, id).value)
    ensures forall j :: from <= j < k ==> !(frames[j].Response? && frames[j].id == Some(id))
    decreases |frames| - from
  {
    if frames[from].Response? && frames[from].id == Some(id) {
      k := from;
    } else {
      k := FirstAnswerIsFirst(frames, from + 1, id);
    }
  }

  // ---- the invariant ----------------------------------------------------------

  /** A call waits, or its result is on the way, or it has its one result, or its write
      failed and it was forgotten; the result is what the first response says. */
  ghost predicate CallOk<P(!new), U(!new)>(s: State<P, U>, id: nat)
    requires id in s.calls
  {
    && id in s.sent && id in s.since && s.since[id] <= |s.frames|
    && CallState(s, id, FirstAnswer(s.frames, s.since[id], id))
  }

  ghost predicate CallState<P(!new), U(!new)>(
    s: State<P, U>, id: nat, answer: Option<Result<P>>)
    requires id in s.calls && id in s.sent
  {
    if id in s.waits then
      !s.closed && s.sent[id] == [] && answer.None?
    else if s.reader.Sending? && s.reader.id == id then
      s.sent[id] == [] && answer == Some(s.reader.result)
    else if s.sent[id] == [] then
      s.calls[id].Refused?
    else
      && s.sent[id] == [if answer.Some? then answer.value else ConnectionLost]
      && (answer.None? ==> s.reader.Ended?)
  }

  ghost predicate Inv<P(!new), U(!new)>(s: State<P, U>) {
    && (forall id :: id in s.calls <==> 1 <= id <= s.nextID)
    && s.sent.Keys == s.calls.Keys
    && s.waits <= s.calls.Keys
    && (s.reader.Sending? ==> s.reader.id in s.calls && s.reader.id !in s.waits)
    && (s.closed <==> s.reader.Ended?)
    && forall id :: id in s.calls ==> CallOk(s, id)
  }

  lemma RouteCallOk<P(!new), U(!new)>(s: State<P, U>, frame: Frame<P, U>, id: nat)
    requires Inv(s) && Enabled(s, Route(frame)) && id in s.calls
    ensures CallOk(After(s, Route(frame)), id)
  {
    assert CallOk(s, id);
    FirstAnswerAppend(s.frames, frame, s.since[id], id);
  }

  lemma StepCallOk<P(!new), U(!new)>(s: State<P, U>, step: Step<P, U>, id: nat)
    requires Inv(s) && Enabled(s, step) && id in After(s, step).calls
    ensures CallOk(After(s, step), id)
  {
    if id in s.calls { assert CallOk(s, id); }
    if step.Route? { RouteCallOk(s, step.frame, id); }
  }

  lemma StepOk<P(!new), U(!new)>(s: State<P, U>, step: Step<P, U>)
    requires Inv(s) && Enabled(s, step)
    ensures Inv(After(s, step))
  {
    forall id | id in After(s, step).calls ensures CallOk(After(s, step), id) {
      StepCallOk(s, step, id);
    }
    hide CallOk;
    StepKeysOk(s, step);
    hide After;
  }

  lemma StepKeysOk<P(!new), U(!new)>(s: State<P, U>, step: Step<P, U>)
    requires Inv(s) && Enabled(s, step)
    ensures
      var s' := After(s, step);
      && (forall id :: id in s'.calls <==> 1 <= id <= s'.nextID)
      && s'.sent.Keys == s'.calls.Keys
      && s'.waits <= s'.calls.Keys
      && (s'.reader.Sending? ==> s'.reader.id in s'.calls && s'.reader.id !in s'.waits)
      && (s'.closed <==> s'.reader.Ended?)
  {
    hide CallOk;
  }

  // ---- whole runs -------------------------------------------------------------

  ghost predicate IsRun<P(!new), U(!new)>(run: seq<State<P, U>>) {
    Runs.IsRun(s => Init(s), (s, s') => Next(s, s'), run)
  }

  lemma EveryStateOk<P(!new), U(!new)>(run: seq<State<P, U>>, i: nat)
    requires IsRun(run) && i < |run|
    ensures Inv(run[i])
  {
    forall s: State<P, U>, s' | Inv(s) && Next(s, s') ensures Inv(s') {
      var step :| Enabled(s, step) && s' == After(s, step);
      StepOk(s, step);
    }
    Runs.Invariant(s => Init(s), (s, s') => Next(s, s'), s => Inv(s), run, i);
  }

  /** No channel of capacity one is ever sent to twice: the routed result and the lost
      connection go to channels that are empty. */
  lemma NoSendBlocks<P(!new), U(!new)>(run: seq<State<P, U>>, i: nat, id: nat)
    requires IsRun(run) && i < |run| && id in run[i].calls
    ensures id in run[i].sent && |run[i].sent[id]| <= 1
    ensures id in run[i].waits || (run[i].reader.Sending? && run[i].reader.id == id) ==>
      run[i].sent[id] == []
  {
    EveryStateOk(run, i);
    assert CallOk(run[i], id);
  }

  lemma WaitingMeansOpen<P(!new), U(!new)>(s: State<P, U>, id: nat)
    requires Inv(s) && id in s.waits
    ensures !s.closed
  {
    assert CallOk(s, id);
  }

  /** When the read loop is over nothing waits, and every call whose request was written
      has exactly one result: what the first response after its registration said, or
      that the connection was lost when there was none. */
  lemma ExactlyOneResult<P(!new), U(!new)>(run: seq<State<P, U>>, i: nat, id: nat)
    requires IsRun(run) && i < |run| && run[i].reader.Ended? && id in run[i].calls
    ensures run[i].waits == {} && run[i].closed
    ensures id in run[i].since
    ensures !run[i].calls[id].Refused? ==>
      var answer := FirstAnswer(run[i].frames, run[i].since[id], id);
      Sent(run[i].sent, id) == [if answer.Some? then answer.value else ConnectionLost]
  {
    EveryStateOk(run, i);
    assert CallOk(run[i], id);
    forall k ensures k !in run[i].waits {
      if k in run[i].waits { WaitingMeansOpen(run[i], k); }
    }
  }

  /** At any time, a result that has been delivered is the one of the first response to
      that call, however many more claim its ID, or the loss of the connection. */
  lemma ResultIsFirstAnswer<P(!new), U(!new)>(run: seq<State<P, U>>, i: nat, id: nat)
    returns (k: nat)
    requires IsRun(run) && i < |run| && id in run[i].calls && Sent(run[i].sent, id) != []
    ensures id in run[i].since
    ensures run[i].sent[id][0].ConnectionLost? ==>
      run[i].reader.Ended? && FirstAnswer(run[i].frames, run[i].since[id], id).None?
    ensures !run[i].sent[id][0].ConnectionLost? ==>
      && run[i].since[id] <= k < |run[i].frames|
      && run[i].frames[k] == Response(Some(id), run[i].sent[id][0])
      && forall j :: run[i].since[id] <= j < k ==>
           !(run[i].frames[j].Response? && run[i].frames[j].id == Some(id))
  {
    EveryStateOk(run, i);
    EveryFrameOk(run, i);
    assert CallOk(run[i], id);
    k := 0;
    if FirstAnswer(run[i].frames, run[i].since[id], id).Some? {
      k := FirstAnswerIsFirst(run[i].frames, run[i].since[id], id);
    }
  }

  /** Frames carry results, never a lost connection. */
  ghost predicate FramesOk<P(!new), U(!new)>(s: State<P, U>) {
    forall i :: 0 <= i < |s.frames| && s.frames[i].Response? ==> !s.frames[i].result.ConnectionLost?
  }

  lemma EveryFrameOk<P(!new), U(!new)>(run: seq<State<P, U>>, i: nat)
    requires IsRun(run) && i < |run|
    ensures FramesOk(run[i])
  {
    Runs.Invariant(s => Init(s), (s, s') => Next(s, s'), s => FramesOk(s), run, i);
  }

  /** IDs are handed out once, results stay, and a closed connection stays closed. */
  ghost predicate Later<P(!new), U(!new)>(s: State<P, U>, s': State<P, U>) {
    && s.nextID <= s'.nextID
    && |s.frames| <= |s'.frames| && s'.frames[..|s.frames|] == s.frames
    && (s.closed ==> s'.closed && s'.nextID == s.nextID)
    && forall id :: id in s.calls ==> id in s'.calls && CallLater(s, s', id)
  }

  ghost predicate CallLater<P(!new), U(!new)>(s: State<P, U>, s': State<P, U>, id: nat) {
    && (id in s.since ==> id in s'.since && s'.since[id] == s.since[id])
    && (Sent(s.sent, id) != [] ==> Sent(s'.sent, id) == Sent(s.sent, id))
  }

  lemma StepCallLater<P(!new), U(!new)>(s: State<P, U>, step: Step<P, U>, id: nat)
    requires Inv(s) && Enabled(s, step) && id in s.calls
    ensures id in After(s, step).calls && CallLater(s, After(s, step), id)
  {
    assert CallOk(s, id);
  }

  lemma NextIsLater<P(!new), U(!new)>(s: State<P, U>, s': State<P, U>)
    requires Inv(s) && Next(s, s')
    ensures Later(s, s')
  {
    var step :| Enabled(s, step) && s' == After(s, step);
    forall id | id in s.calls ensures id in s'.calls && CallLater(s, s', id) {
      StepCallLater(s, step, id);
    }
    hide CallLater;
    hide Inv;
  }

  lemma RunIsLater<P(!new), U(!new)>(run: seq<State<P, U>>, i: nat, j: nat)
    requires IsRun(run) && i <= j < |run|
    ensures Later(run[i], run[j])
  {
    forall k: nat | k < |run| ensures Inv(run[k]) { EveryStateOk(run, k); }
    forall s: State<P, U>, t | Inv(s) && Next(s, t) ensures Later(s, t) { NextIsLater(s, t); }
    forall s: State<P, U>, t, u | Later(s, t) && Later(t, u) ensures Later(s, u) {
      LaterTransitive(s, t, u);
    }
    Runs.Progress(s => Init(s), (s, s') => Next(s, s'), s => Inv(s), (s, t) => Later(s, t),
      run, i, j);
  }

  lemma LaterTransitive<P(!new), U(!new)>(s: State<P, U>, t: State<P, U>, u: State<P, U>)
    requires Later(s, t) && Later(t, u)
    ensures Later(s, u)
  {
    assert u.frames[..|s.frames|] == u.frames[..|t.frames|][..|s.frames|];
  }

  /** An ID given out later is a new one. */
  lemma IDsNeverRepeat<P(!new), U(!new)>(run: seq<State<P, U>>, i: nat, j: nat, id: nat)
    requires IsRun(run) && i <= j < |run| && id in run[i].calls
    ensures id in run[j].calls && id != After(run[j], Register).nextID
  {
    RunIsLater(run, i, j);
    EveryStateOk(run, j);
  }

  // ---- the object -------------------------------------------------------------

  /** The fields guarded by the connection's mutex; `sent` are the callers' channels. */
  class Conn<P> {
    var nextID: nat
    var waits: set<nat>
    var sent: map<nat, seq<Result<P>>>
    var closed: bool

    /** Channels of waiting calls have room for one result. */
    ghost predicate Valid()
      reads this
    {
      && (forall id :: id in waits ==> 1 <= id <= nextID && id in sent && sent[id] == [])
      && (forall id :: id in sent ==> 1 <= id <= nextID)
      && (closed ==> waits == {})
    }

    constructor ()
      ensures Valid() && nextID == 0 && sent == map[] && !closed
    {
      nextID, waits, sent, closed := 0, {}, map[], false;
    }

    /** A new ID with an empty channel, unless the connection is closed. */
    method Register() returns (id: Option<nat>)
      requires Valid()
      modifies this
      ensures Valid() && closed == old(closed)
      ensures id.None? <==> old(closed)
      ensures id.None? ==> nextID == old(nextID) && waits == old(waits) && sent == old(sent)
      ensures id.Some? ==>
        && id.value !in old(sent) && nextID == id.value == old(nextID) + 1
        && waits == old(waits) + {id.value} && sent == old(sent)[id.value := []]
    {
      if closed {
        return None;
      }
      nextID := nextID + 1;
      sent := sent[nextID := []];
      waits := waits + {nextID};
      return Some(nextID);
    }

    /** The request could not be written. */
    method Forget(id: nat)
      requires Valid()
      modifies this`waits
      ensures Valid() && waits == old(waits) - {id}
    {
      waits := waits - {id};
    }

    /** A response goes to the call it names, once; any other is dropped. */
    method RouteResponse(id: Option<int>, result: Result<P>)
      requires Valid()
      modifies this`waits, this`sent
      ensures Valid()
      ensures if id.Some? && id.value >= 0 && id.value in old(waits) then
          waits == old(waits) - {id.value} && sent == old(sent)[id.value := [result]]
        else waits == old(waits) && sent == old(sent)
    {
      if id.None? || id.value < 0 || id.value !in waits {
        return;
      }
      waits := waits - {id.value};
      assert sent[id.value] + [result] == [result];
      sent := sent[id.value := sent[id.value] + [result]];
    }

    /** The end of the read loop: everyone still waiting learns that the connection is
        lost, and nobody else is told anything. */
    method Drain()
      requires Valid()
      modifies this
      ensures Valid() && closed && waits == {} && nextID == old(nextID)
      ensures sent == SentAll(old(sent), old(waits), ConnectionLost)
    {
      closed := true;
      ghost var told := {};
      SentToNobody(sent, ConnectionLost);
      while waits != {}
        invariant waits !! told && waits + told == old(waits)
        invariant nextID == old(nextID) && closed
        invariant sent == SentAll(old(sent), told, ConnectionLost)
        decreases |waits|
      {
        var id :| id in waits;
        SentToOneMore(old(sent), told, id, ConnectionLost);
        sent := sent[id := Sent(sent, id) + [ConnectionLost]];
        waits := waits - {id};
        told := told + {id};
      }
    }
  }

  lemma SentToNobody<P>(sent: map<nat, seq<Result<P>>>, result: Result<P>)
    ensures SentAll(sent, {}, result) == sent
  {
  }

  lemma SentToOneMore<P>(
    sent: map<nat, seq<Result<P>>>, told: set<nat>, id: nat, result: Result<P>)
    requires id !in told
    ensures var already := SentAll(sent, told, result);
      SentAll(sent, told + {id}, result) == already[id := Sent(already, id) + [result]]
  {
  }
}
