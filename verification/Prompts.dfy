/** The client's Prompt over the connection: a turn's reply is gathered by the read loop
    while Prompt waits for its response, is cancelled, or gives up on the adapter. */
module Prompts {
  import opened Wrappers
  import Rpc
  import Runs

  /** What a session/update says; only message chunks matter to a reply. */
  datatype Update = Chunk(session: string, text: string) | NoChunk

  datatype StopReason = EndTurn | MaxTokens | MaxTurnRequests | Refusal | Cancelled

  /** The body of a response, as Prompt decodes it. */
  datatype Body = Stopped(reason: StopReason) | Undecodable

  type Frame = Rpc.Frame<Body, Update>
  type Conn = Rpc.State<Body, Update>
  type Answer = Rpc.Result<Body>

  /** Inside a call: `Cancelling` is the grace period after the context ended. */
  datatype CallAt =
    | Writing
    | Broken                                   // the request was not written
    | Waiting
    | Cancelling(notified: bool)
    | Got(answer: Answer, cancelled: bool)

  /** `from` is how many frames had been routed when the session became active. */
  datatype Pc =
    | Outside
    | Active(session: string, from: nat)
    | Called(session: string, from: nat, id: nat, at: CallAt)

  /** A turn that Prompt returned; `upto` frames had been routed by then, and `strays` are
      the late updates that were handled between its activation and its return. */
  datatype Turn = Turn(
    session: string, id: nat, from: nat, upto: nat, reply: string, reason: StopReason,
    cancelled: bool, strays: seq<Update>)

  /** `late` are updates that came with a request ID: their handlers run on their own,
      some time later. `strays` and `done` are history: the late updates handled since a
      session last became active, and the turns returned. */
  datatype State = State(
    conn: Conn, active: string, reply: string, retired: bool, pc: Pc, late: seq<Update>,
    strays: seq<Update>, done: seq<Turn>)

  datatype Step =
    | Begin(session: string)
    | Call
    | Refused                                  // the connection is closed
    | WriteOk
    | WriteFails
    | GiveUp
    | Cancel
    | NotifyOk
    | NotifyFails
    | GraceOver
    | Receive
    | Return
    | Handle(k: nat)                           // a late update
    | Other(step: Rpc.Step<Body, Update>)      // other calls and the read loop

  function Appended(s: State, update: Update): string {
    if update.Chunk? && update.session == s.active then s.reply + update.text else s.reply
  }

  predicate IsCall(pc: Pc, at: CallAt) { pc.Called? && pc.at == at }

  /** Other calls leave the prompt's own call alone. */
  predicate IsOthers(pc: Pc, step: Rpc.Step<Body, Update>) {
    pc.Called? ==>
      && (step.WriteOk? ==> step.id != pc.id)
      && (step.WriteFails? ==> step.id != pc.id)
      && (step.Forget? ==> step.id != pc.id)
  }

  predicate IsWaiting(pc: Pc) { pc.Called? && (pc.at.Waiting? || pc.at.Cancelling?) }

  predicate HasAnswer(s: State) {
    IsWaiting(s.pc) && |Rpc.Sent(s.conn.sent, s.pc.id)| > 0
  }

  ghost predicate Enabled(s: State, step: Step) {
    match step
    case Begin(_) => s.pc.Outside? && !s.retired
    case Call => s.pc.Active? && !s.conn.closed
    case Refused => s.pc.Active? && s.conn.closed
    case WriteOk => IsCall(s.pc, Writing) && Rpc.Enabled(s.conn, Rpc.WriteOk(s.pc.id))
    case WriteFails => IsCall(s.pc, Writing) && Rpc.Enabled(s.conn, Rpc.WriteFails(s.pc.id))
    case GiveUp => IsCall(s.pc, Broken) && Rpc.Enabled(s.conn, Rpc.Forget(s.pc.id))
    case Cancel => IsCall(s.pc, Waiting)
    case NotifyOk => IsCall(s.pc, Cancelling(false))
    case NotifyFails => IsCall(s.pc, Cancelling(false))
    case GraceOver => s.pc.Called? && s.pc.at.Cancelling?
    case Receive => HasAnswer(s)
    case Return => s.pc.Called? && s.pc.at.Got?
    case Handle(k) => k < |s.late|
    case Other(step) => IsOthers(s.pc, step) && Rpc.Enabled(s.conn, step)
  }

  /** Prompt is over; the session is no longer active. */
  function Left(s: State): State { s.(active := "", pc := Outside) }

  function AfterOther(s: State, step: Rpc.Step<Body, Update>): State {
    var next := s.(conn := Rpc.After(s.conn, step));
    if step.Route? && step.frame.Notification? then
      next.(reply := Appended(s, step.frame.update))
    else if step.Route? && step.frame.Request? then
      next.(late := s.late + [step.frame.update])
    else next
  }

  /** Prompt succeeds unless the response is an error, cannot be decoded, or says that
      the turn was cancelled after this caller had cancelled it. */
  function AfterReturn(s: State): State
    requires s.pc.Called? && s.pc.at.Got?
  {
    var answer, cancelled := s.pc.at.answer, s.pc.at.cancelled;
    if answer.Payload? && answer.payload.Stopped?
       && !(cancelled && answer.payload.reason.Cancelled?) then
      Left(s).(done := s.done + [Turn(s.pc.session, s.pc.id, s.pc.from, |s.conn.frames|,
        s.reply, answer.payload.reason, cancelled, s.strays)])
    else Left(s)
  }

  ghost function After(s: State, step: Step): State {
    if !Enabled(s, step) then s else match step
    case Begin(session) =>
      s.(active := session, reply := "", strays := [], pc := Active(session, |s.conn.frames|))
    case Call =>
      var conn := Rpc.After(s.conn, Rpc.Register);
      s.(conn := conn, pc := Called(s.pc.session, s.pc.from, conn.nextID, Writing))
    case Refused => Left(s)
    case WriteOk => s.(conn := Rpc.After(s.conn, Rpc.WriteOk(s.pc.id)), pc := s.pc.(at := Waiting))
    case WriteFails =>
      s.(conn := Rpc.After(s.conn, Rpc.WriteFails(s.pc.id)), pc := s.pc.(at := Broken))
    case GiveUp => Left(s).(conn := Rpc.After(s.conn, Rpc.Forget(s.pc.id)))
    case Cancel => s.(pc := s.pc.(at := Cancelling(false)))
    case NotifyOk => s.(pc := s.pc.(at := Cancelling(true)))
    case NotifyFails => Left(s).(retired := true)
    case GraceOver => Left(s).(retired := true)
    case Receive =>
      s.(pc := s.pc.(at := Got(Rpc.Sent(s.conn.sent, s.pc.id)[0], s.pc.at.Cancelling?)))
    case Return => AfterReturn(s)
    case Handle(k) =>
      s.(reply := Appended(s, s.late[k]), late := s.late[..k] + s.late[k + 1..],
         strays := s.strays + [s.late[k]])
    case Other(step) => AfterOther(s, step)
  }

  ghost predicate Init(s: State) {
    Rpc.Init(s.conn) && s == State(s.conn, "", "", false, Outside, [], [], [])
  }

  ghost predicate Next(s: State, s': State) {
    exists step :: Enabled(s, step) && s' == After(s, step)
  }

  // ---- the reply --------------------------------------------------------------

  function Text(update: Update, session: string): string {
    if update.Chunk? && update.session == session then update.text else ""
  }

  /** What a frame adds to the session's reply when it is routed. */
  function FrameText(frame: Frame, session: string): string {
    if frame.Notification? then Text(frame.update, session) else ""
  }

  /** The texts of a session's chunks, in the order they came. */
  function Chunks(frames: seq<Frame>, session: string): string {
    if frames == [] then ""
    else Chunks(frames[..|frames| - 1], session) + FrameText(frames[|frames| - 1], session)
  }

  lemma {:induction false} ChunksPrefix(frames: seq<Frame>, k: nat, session: string)
    requires k <= |frames|
    ensures Chunks(frames[..k], session) <= Chunks(frames, session)
  {
    if k < |frames| {
      var front := frames[..|frames| - 1];
      ChunksPrefix(front, k, session);
      assert front[..k] == frames[..k];
    } else {
      assert frames[..k] == frames;
    }
  }

  /** The texts of a session's chunks among late updates, in the order they were handled. */
  function StrayText(strays: seq<Update>, session: string): string {
    if strays == [] then ""
    else StrayText(strays[..|strays| - 1], session) + Text(strays[|strays| - 1], session)
  }

  lemma {:induction false} NoStrayText(strays: seq<Update>, session: string)
    ensures StrayText(strays, session) == "" <==>
      forall k :: 0 <= k < |strays| ==> Text(strays[k], session) == ""
  {
    if strays != [] {
      var last := |strays| - 1;
      NoStrayText(strays[..last], session);
      assert forall k :: 0 <= k < last ==> strays[..last][k] == strays[k];
    }
  }

  /** `text` is made of `a` and `b`, each in its order. */
  predicate Merges(text: string, a: string, b: string) {
    if text == "" then a == "" && b == ""
    else
      var rest, last := text[..|text| - 1], text[|text| - 1];
      || (a != "" && a[|a| - 1] == last && Merges(rest, a[..|a| - 1], b))
      || (b != "" && b[|b| - 1] == last && Merges(rest, a, b[..|b| - 1]))
  }

  lemma {:induction false} MergesMore(text: string, a: string, b: string, more: string)
    requires Merges(text, a, b)
    ensures Merges(text + more, a + more, b) && Merges(text + more, a, b + more)
  {
    if more == "" {
      assert text + more == text && a + more == a && b + more == b;
    } else {
      var front, last := more[..|more| - 1], more[|more| - 1];
      MergesMore(text, a, b, front);
      assert (text + more)[..|text + more| - 1] == text + front;
      assert (a + more)[..|a + more| - 1] == a + front;
      assert (b + more)[..|b + more| - 1] == b + front;
    }
  }

  lemma {:induction false} MergesExactly(text: string, a: string, b: string)
    requires Merges(text, a, b)
    ensures |text| == |a| + |b|
    ensures text == a <==> b == ""
  {
    if text != "" {
      var rest, n := text[..|text| - 1], |text| - 1;
      if a != "" && a[|a| - 1] == text[n] && Merges(rest, a[..|a| - 1], b) {
        MergesExactly(rest, a[..|a| - 1], b);
        assert a == a[..|a| - 1] + [text[n]] && text == rest + [text[n]];
      } else {
        MergesExactly(rest, a, b[..|b| - 1]);
      }
    }
  }

  /** No chunk comes with a request ID: session/update is a notification. */
  ghost predicate ChunksAreNotifications(frames: seq<Frame>) {
    forall i :: 0 <= i < |frames| && frames[i].Request? ==> frames[i].update.NoChunk?
  }

  ghost predicate NoneIsChunk(updates: seq<Update>) {
    forall k :: 0 <= k < |updates| ==> updates[k].NoChunk?
  }

  /** What has been gathered since the session became active: its chunks in the order
      they came, and between them the late ones as they were handled. */
  ghost predicate Gathering(s: State, session: string, from: nat) {
    && s.active == session && from <= |s.conn.frames|
    && Merges(s.reply, Chunks(s.conn.frames[from..], session), StrayText(s.strays, session))
  }

  /** Prompt's own call is one of the connection's, made after the session became
      active, and what Prompt received is what its channel got. */
  ghost predicate OwnCallOk(conn: Conn, pc: Pc) {
    match pc
    case Outside => true
    case Active(_, from) => from <= |conn.frames|
    case Called(_, from, id, at) =>
      && id in conn.calls && id in conn.since
      && from <= conn.since[id] <= |conn.frames|
      && (at.Got? ==> Rpc.Sent(conn.sent, id) == [at.answer])
  }

  ghost predicate PcOk(s: State) {
    match s.pc
    case Outside => true
    case Active(session, from) => Gathering(s, session, from)
    case Called(session, from, _, _) => Gathering(s, session, from)
  }

  function Window(frames: seq<Frame>, turn: Turn): string
    requires turn.from <= turn.upto <= |frames|
  {
    Chunks(frames[turn.from..turn.upto], turn.session)
  }

  /** Between activation and return a late chunk of the session with some text was handled. */
  ghost predicate HasStray(turn: Turn) {
    exists j :: 0 <= j < |turn.strays| && Text(turn.strays[j], turn.session) != ""
  }

  /** A returned turn: some response frame in its window ended it, the first one for its
      call, and the reply is all the session's chunks of the window in order, merged with
      the late ones. */
  ghost predicate TurnOk(frames: seq<Frame>, turn: Turn) {
    && turn.from <= turn.upto <= |frames|
    && Merges(turn.reply, Window(frames, turn), StrayText(turn.strays, turn.session))
    && !(turn.cancelled && turn.reason.Cancelled?)
    && exists k :: EndsTurn(frames, turn, k)
  }

  ghost predicate EndsTurn(frames: seq<Frame>, turn: Turn, k: nat) {
    && turn.from <= k < turn.upto <= |frames|
    && frames[k] == Rpc.Response(Some(turn.id), Rpc.Payload(Stopped(turn.reason)))
  }

  ghost predicate TurnsOk(s: State) {
    forall i :: 0 <= i < |s.done| ==> TurnOk(s.conn.frames, s.done[i])
  }

  /** Nothing late is a chunk. */
  ghost predicate NothingLate(s: State) {
    && NoneIsChunk(s.late) && NoneIsChunk(s.strays)
    && forall i :: 0 <= i < |s.done| ==> NoneIsChunk(s.done[i].strays)
  }

  ghost predicate Inv(s: State) {
    && Rpc.Inv(s.conn)
    && OwnCallOk(s.conn, s.pc)
    && (s.retired ==> s.pc.Outside?)
    && PcOk(s) && TurnsOk(s)
    && (ChunksAreNotifications(s.conn.frames) ==> NothingLate(s))
  }

  // ---- every step -------------------------------------------------------------

  lemma ChunksOfMore(frames: seq<Frame>, frame: Frame, from: nat, session: string)
    requires from <= |frames|
    ensures Chunks((frames + [frame])[from..], session) ==
      Chunks(frames[from..], session) + FrameText(frame, session)
  {
    assert (frames + [frame])[from..] == frames[from..] + [frame];
    assert (frames[from..] + [frame])[..|frames| - from] == frames[from..];
  }

  /** Frames that come later do not change what a turn returned. */
  lemma TurnStaysOk(frames: seq<Frame>, frame: Frame, turn: Turn)
    requires TurnOk(frames, turn)
    ensures TurnOk(frames + [frame], turn)
  {
    var k :| EndsTurn(frames, turn, k);
    assert (frames + [frame])[turn.from..turn.upto] == frames[turn.from..turn.upto];
    assert EndsTurn(frames + [frame], turn, k);
  }

  /** A step of the connection keeps the prompt's own call in order. */
  lemma ConnStepOk(conn: Conn, step: Rpc.Step<Body, Update>, pc: Pc)
    requires Rpc.Inv(conn) && Rpc.Enabled(conn, step) && OwnCallOk(conn, pc)
    ensures Rpc.Inv(Rpc.After(conn, step)) && OwnCallOk(Rpc.After(conn, step), pc)
    ensures Rpc.After(conn, step).frames ==
      if step.Route? then conn.frames + [step.frame] else conn.frames
  {
    Rpc.StepOk(conn, step);
    if pc.Called? {
      Rpc.StepCallLater(conn, step, pc.id);
      assert Rpc.CallOk(Rpc.After(conn, step), pc.id);
    }
  }

  lemma CallOk(s: State)
    requires Inv(s) && Enabled(s, Call)
    ensures Inv(After(s, Call))
  {
    Rpc.StepOk(s.conn, Rpc.Register);
  }

  /** The steps of the prompt's own write. */
  lemma OwnWriteOk(s: State, step: Step)
    requires Inv(s) && Enabled(s, step) && (step.WriteOk? || step.WriteFails? || step.GiveUp?)
    ensures Inv(After(s, step))
  {
    var rpc := if step.WriteOk? then Rpc.WriteOk(s.pc.id)
               else if step.WriteFails? then Rpc.WriteFails(s.pc.id) else Rpc.Forget(s.pc.id);
    ConnStepOk(s.conn, rpc, s.pc);
    hide Rpc.Inv;
    hide ChunksAreNotifications;
  }

  lemma RouteGathers(s: State, frame: Frame)
    requires Inv(s) && Enabled(s, Other(Rpc.Route(frame)))
    ensures Inv(After(s, Other(Rpc.Route(frame))))
  {
    var s' := After(s, Other(Rpc.Route(frame)));
    ConnStepOk(s.conn, Rpc.Route(frame), s.pc);
    RouteLate(s, frame);
    hide Rpc.Inv;
    hide ChunksAreNotifications;
    hide NothingLate;
    hide Rpc.After;
    hide Rpc.Enabled;
    if !s.pc.Outside? { RouteMerges(s, frame, s.pc.session, s.pc.from); }
    hide Gathering;
    forall i | 0 <= i < |s'.done| ensures TurnOk(s'.conn.frames, s'.done[i]) {
      TurnStaysOk(s.conn.frames, frame, s.done[i]);
    }
  }

  lemma RouteMerges(s: State, frame: Frame, session: string, from: nat)
    requires Gathering(s, session, from)
    ensures
      var s' := s.(conn := s.conn.(frames := s.conn.frames + [frame]),
        reply := if frame.Notification? then Appended(s, frame.update) else s.reply);
      Gathering(s', session, from)
  {
    var before, strays := Chunks(s.conn.frames[from..], session), StrayText(s.strays, session);
    var more := FrameText(frame, session);
    ChunksOfMore(s.conn.frames, frame, from, session);
    MergesMore(s.reply, before, strays, more);
    hide Merges;
    assert s.reply + "" == s.reply;
  }

  lemma RouteLate(s: State, frame: Frame)
    requires ChunksAreNotifications(s.conn.frames) ==> NothingLate(s)
    requires Enabled(s, Other(Rpc.Route(frame)))
    requires After(s, Other(Rpc.Route(frame))).conn.frames == s.conn.frames + [frame]
    ensures
      var s' := After(s, Other(Rpc.Route(frame)));
      ChunksAreNotifications(s'.conn.frames) ==> NothingLate(s')
  {
    if ChunksAreNotifications(s.conn.frames + [frame]) { FramesWereFine(s.conn.frames, frame); }
    hide Rpc.After;
    hide Rpc.Enabled;
    hide ChunksAreNotifications;
  }

  lemma FramesWereFine(frames: seq<Frame>, frame: Frame)
    requires ChunksAreNotifications(frames + [frame])
    ensures ChunksAreNotifications(frames) && (frame.Request? ==> frame.update.NoChunk?)
  {
    forall i | 0 <= i < |frames| && frames[i].Request? ensures frames[i].update.NoChunk? {
      assert (frames + [frame])[i] == frames[i];
    }
    assert (frames + [frame])[|frames|] == frame;
  }

  lemma OtherOk(s: State, step: Rpc.Step<Body, Update>)
    requires Inv(s) && Enabled(s, Other(step))
    ensures Inv(After(s, Other(step)))
  {
    if step.Route? {
      RouteGathers(s, step.frame);
    } else {
      ConnStepOk(s.conn, step, s.pc);
      hide Rpc.Inv;
      hide ChunksAreNotifications;
    }
  }

  /** The response that Prompt received is the first to its call since the session
      became active. */
  lemma AnswerIsInWindow(s: State) returns (k: nat)
    requires Rpc.Inv(s.conn) && OwnCallOk(s.conn, s.pc) && s.pc.Called? && s.pc.at.Got?
    requires s.pc.at.answer.Payload?
    ensures s.pc.from <= k < |s.conn.frames|
    ensures s.conn.frames[k] == Rpc.Response(Some(s.pc.id), s.pc.at.answer)
  {
    assert Rpc.CallOk(s.conn, s.pc.id);
    assert Rpc.Sent(s.conn.sent, s.pc.id)[0] == s.pc.at.answer;
    k := Rpc.FirstAnswerIsFirst(s.conn.frames, s.conn.since[s.pc.id], s.pc.id);
  }

  lemma ReturnOk(s: State)
    requires Inv(s) && Enabled(s, Return)
    ensures Inv(After(s, Return))
  {
    var s' := After(s, Return);
    if |s'.done| > |s.done| {
      var k := AnswerIsInWindow(s);
      var turn := s'.done[|s.done|];
      hide Rpc.Inv;
      hide ChunksAreNotifications;
      hide Merges;
      assert s.conn.frames[s.pc.from..|s.conn.frames|] == s.conn.frames[s.pc.from..];
      assert EndsTurn(s.conn.frames, turn, k);
      forall i | 0 <= i < |s'.done| ensures TurnOk(s'.conn.frames, s'.done[i]) {
        if i < |s.done| { assert s'.done[i] == s.done[i]; }
      }
    }
  }

  lemma PlainStepOk(s: State, step: Step)
    requires Inv(s) && Enabled(s, step)
    requires step.Begin? || step.Refused? || step.Cancel? || step.NotifyOk? ||
      step.NotifyFails? || step.GraceOver?
    ensures Inv(After(s, step))
  {
    hide Rpc.Inv;
    hide ChunksAreNotifications;
  }

  lemma ReceiveOk(s: State)
    requires Inv(s) && Enabled(s, Receive)
    ensures Inv(After(s, Receive))
  {
    assert Rpc.CallOk(s.conn, s.pc.id);
    assert Rpc.Sent(s.conn.sent, s.pc.id) == [Rpc.Sent(s.conn.sent, s.pc.id)[0]];
  }

  lemma HandleOk(s: State, k: nat)
    requires Inv(s) && Enabled(s, Handle(k))
    ensures Inv(After(s, Handle(k)))
  {
    hide Rpc.Inv;
    hide ChunksAreNotifications;
    hide TurnOk;
    HandleLate(s, k);
    hide NothingLate;
    if !s.pc.Outside? { HandleMerges(s, k, s.pc.session, s.pc.from); }
    hide Gathering;
  }

  lemma HandleMerges(s: State, k: nat, session: string, from: nat)
    requires Gathering(s, session, from) && Enabled(s, Handle(k))
    ensures Gathering(After(s, Handle(k)), session, from)
  {
    var strays, update := StrayText(s.strays, session), s.late[k];
    MergesMore(s.reply, Chunks(s.conn.frames[from..], session), strays, Text(update, session));
    hide Merges;
    assert (s.strays + [update])[..|s.strays|] == s.strays;
    assert s.reply + "" == s.reply;
  }

  lemma HandleLate(s: State, k: nat)
    requires Enabled(s, Handle(k))
    ensures NothingLate(s) ==> NothingLate(After(s, Handle(k)))
    ensures After(s, Handle(k)).done == s.done
  {
  }

  lemma NextOk(s: State, s': State)
    requires Inv(s) && Next(s, s')
    ensures Inv(s')
  {
    var step :| Enabled(s, step) && s' == After(s, step);
    hide Inv;
    if step.Call? { CallOk(s); }
    else if step.WriteOk? || step.WriteFails? || step.GiveUp? { OwnWriteOk(s, step); }
    else if step.Other? { OtherOk(s, step.step); }
    else if step.Return? { ReturnOk(s); }
    else if step.Receive? { ReceiveOk(s); }
    else if step.Handle? { HandleOk(s, step.k); }
    else { PlainStepOk(s, step); }
  }

  // ---- whole runs -------------------------------------------------------------

  ghost predicate IsRun(run: seq<State>) { Runs.IsRun(Init, Next, run) }

  lemma EveryStateOk(run: seq<State>, i: nat)
    requires IsRun(run) && i < |run|
    ensures Inv(run[i])
  {
    forall s | Init(s) ensures Inv(s) {}
    forall s, s' | Inv(s) && Next(s, s') ensures Inv(s') { NextOk(s, s'); }
    Runs.Invariant(Init, Next, Inv, run, i);
  }

  /** A turn that Prompt returns is one contiguous window of the frame stream: it starts
      when the session became active and reaches past the frame of its response. The
      reply is made of every chunk of the session in it, in order, and of the session's late
      chunks that were handled meanwhile; so nothing that came before the response is
      missing, and it is the window alone exactly when no late chunk with text was. */
  lemma ReplyIsTheWindow(run: seq<State>, i: nat, n: nat) returns (k: nat)
    requires IsRun(run) && i < |run| && n < |run[i].done|
    ensures
      var frames, turn := run[i].conn.frames, run[i].done[n];
      && turn.from <= k < turn.upto <= |frames|
      && frames[k] == Rpc.Response(Some(turn.id), Rpc.Payload(Stopped(turn.reason)))
      && Chunks(frames[turn.from..k], turn.session) <= Window(frames, turn)
      && Merges(turn.reply, Window(frames, turn), StrayText(turn.strays, turn.session))
      && (turn.reply == Window(frames, turn) <==> !HasStray(turn))
      && !(turn.cancelled && turn.reason.Cancelled?)
  {
    EveryStateOk(run, i);
    var frames, turn := run[i].conn.frames, run[i].done[n];
    assert TurnOk(frames, turn);
    hide Inv;
    hide Merges;
    hide Chunks;
    hide StrayText;
    k :| EndsTurn(frames, turn, k);
    WindowHasStart(frames, turn, k);
    hide Window;
    MergesExactly(turn.reply, Window(frames, turn), StrayText(turn.strays, turn.session));
    NoStray(turn);
  }

  lemma NoStray(turn: Turn)
    ensures StrayText(turn.strays, turn.session) == "" <==> !HasStray(turn)
  {
    NoStrayText(turn.strays, turn.session);
  }

  lemma WindowHasStart(frames: seq<Frame>, turn: Turn, k: nat)
    requires turn.from <= k <= turn.upto <= |frames|
    ensures Chunks(frames[turn.from..k], turn.session) <= Window(frames, turn)
  {
    ChunksPrefix(frames[turn.from..turn.upto], k - turn.from, turn.session);
    assert frames[turn.from..turn.upto][..k - turn.from] == frames[turn.from..k];
  }

  /** What a turn lists as strays is what was handled late while it was active: they
      start empty when its session becomes active, only the handler of a late update adds
      to them, that update, and the turn keeps what there is when it is returned. */
  lemma StraysAreHandledLate(s: State, step: Step)
    requires Enabled(s, step)
    ensures
      var s' := After(s, step);
      && (step.Handle? ==> s'.strays == s.strays + [s.late[step.k]])
      && (step.Begin? ==> s'.strays == [])
      && (!step.Handle? && !step.Begin? ==> s'.strays == s.strays)
      && (|s'.done| > |s.done| ==> step.Return? && s'.done[|s.done|].strays == s.strays)
  {
    hide Rpc.After;
    hide Rpc.Enabled;
    hide Appended;
  }

  /** With an adapter that sends chunks as notifications only, every reply is its window. */
  lemma NotificationsAreEnough(run: seq<State>, i: nat, n: nat)
    requires IsRun(run) && i < |run| && n < |run[i].done|
    requires ChunksAreNotifications(run[i].conn.frames)
    ensures
      var frames, turn := run[i].conn.frames, run[i].done[n];
      turn.from <= turn.upto <= |frames| && turn.reply == Window(frames, turn)
  {
    EveryStateOk(run, i);
    assert NoneIsChunk(run[i].done[n].strays);
    hide Inv;
    var k := ReplyIsTheWindow(run, i, n);
  }

  /** A client that gave up on its adapter returns no further turn. */
  ghost predicate RetiredLater(s: State, s': State) {
    && |s.done| <= |s'.done| && s'.done[..|s.done|] == s.done
    && (s.retired ==> s'.retired && s'.done == s.done)
  }

  lemma RetiredStep(s: State, step: Step)
    requires Inv(s) && Enabled(s, step)
    ensures RetiredLater(s, After(s, step))
  {
    hide Rpc.After;
    hide Rpc.Inv;
    hide Rpc.Enabled;
    hide ChunksAreNotifications;
    hide OwnCallOk;
    hide Appended;
    if step.Return? {
      assert !s.retired;
    }
  }

  lemma RetiredForGood(run: seq<State>, i: nat, j: nat)
    requires IsRun(run) && i <= j < |run|
    ensures RetiredLater(run[i], run[j])
  {
    forall k: nat | k < |run| ensures Inv(run[k]) { EveryStateOk(run, k); }
    forall s, s' | Inv(s) && Next(s, s') ensures RetiredLater(s, s') {
      var step :| Enabled(s, step) && s' == After(s, step);
      RetiredStep(s, step);
    }
    forall s, t, u | RetiredLater(s, t) && RetiredLater(t, u) ensures RetiredLater(s, u) {
      assert u.done[..|s.done|] == u.done[..|t.done|][..|s.done|];
    }
    hide Next;
    Runs.Progress(Init, Next, Inv, RetiredLater, run, i, j);
  }

  lemma OneMore(run: seq<State>, step: Step)
    requires IsRun(run) && Enabled(run[|run| - 1], step)
    ensures IsRun(run + [After(run[|run| - 1], step)])
  {
    var more := run + [After(run[|run| - 1], step)];
    forall i: nat ensures Runs.StepAt(Next, more, i) {
      if i + 1 < |run| { assert Runs.StepAt(Next, run, i); }
      if i + 1 == |run| { assert more[i + 1] == After(more[i], step); }
    }
  }

  /** It happens that a reply is not its window: an adapter that sends a chunk as a request
      has it appended whenever its handler gets to run, here after a chunk that came later. */
  lemma LateChunkReorders(ask: Frame, tell: Frame, end: Frame) returns (run: seq<State>)
    requires ask == Rpc.Request(Chunk("s", "a"))
    requires tell == Rpc.Notification(Chunk("s", "b"))
    requires end == Rpc.Response(Some(1), Rpc.Payload(Stopped(EndTurn)))
    ensures IsRun(run)
    ensures
      var last := run[|run| - 1];
      && last.conn.frames == [ask, tell, end]
      && |last.done| == 1 && last.done[0].reply == "ba"
  {
    run := AskThenTell(ask, tell);
    var s := run[|run| - 1];
    hide IsRun;
    AnswerRouted(s, ask, tell, end);
    var s0 := Sending([ask, tell, end], ask.update);
    var s1, s2, s3 := AnswerArrives(s0, [ask, tell, end], ask.update);
    hide Enabled;
    hide After;
    OneMore(run, Other(Rpc.Route(end)));
    run := run + [s0];
    OneMore(run, Other(Rpc.Send));
    run := run + [s1];
    OneMore(run, Receive);
    run := run + [s2];
    OneMore(run, Return);
    run := run + [s3];
  }

  /** The call's response has been routed to it, but not sent. */
  function Sending(frames: seq<Frame>, stray: Update): State {
    Prompting(Rpc.State(1, {}, map[1 := []], false,
      Rpc.Sending(1, Rpc.Payload(Stopped(EndTurn))), map[1 := Rpc.Waiting], frames, map[1 := 0]),
      Waiting, "ba", [], [stray])
  }

  lemma AnswerRouted(s: State, ask: Frame, tell: Frame, end: Frame)
    requires ask.Request? && end == Rpc.Response(Some(1), Rpc.Payload(Stopped(EndTurn)))
    requires s == Prompting(
      Calling(Rpc.Waiting, [ask, tell]), Waiting, "ba", [], [ask.update])
    ensures Enabled(s, Other(Rpc.Route(end)))
    ensures After(s, Other(Rpc.Route(end))) == Sending([ask, tell, end], ask.update)
  {
    assert [ask, tell] + [end] == [ask, tell, end];
  }

  /** It is sent, received and returned. */
  lemma AnswerArrives(s: State, frames: seq<Frame>, stray: Update)
    returns (s1: State, s2: State, s3: State)
    requires s == Sending(frames, stray)
    ensures Enabled(s, Other(Rpc.Send)) && s1 == After(s, Other(Rpc.Send))
    ensures Enabled(s1, Receive) && s2 == After(s1, Receive)
    ensures Enabled(s2, Return) && s3 == After(s2, Return)
    ensures s3.conn.frames == frames
    ensures |s3.done| == 1 && s3.done[0].reply == "ba"
  {
    var answer := Rpc.Payload(Stopped(EndTurn));
    s1 := Prompting(Rpc.State(1, {}, map[1 := [answer]], false, Rpc.Scanning,
      map[1 := Rpc.Waiting], frames, map[1 := 0]), Waiting, "ba", [], [stray]);
    assert Rpc.Sent(s.conn.sent, 1) + [answer] == [answer];
    assert After(s, Other(Rpc.Send)) == s1;
    s2 := s1.(pc := Called("s", 0, 1, Got(answer, false)));
    s3 := After(s2, Return);
  }

  function Prompting(
    conn: Conn, at: CallAt, reply: string, late: seq<Update>, strays: seq<Update>): State
  {
    State(conn, "s", reply, false, Called("s", 0, 1, at), late, strays, [])
  }

  function Calling(call: Rpc.CallPc, frames: seq<Frame>): Conn {
    Rpc.State(1, {1}, map[1 := []], false, Rpc.Scanning, map[1 := call], frames, map[1 := 0])
  }

  lemma AskThenTell(ask: Frame, tell: Frame) returns (run: seq<State>)
    requires ask == Rpc.Request(Chunk("s", "a"))
    requires tell == Rpc.Notification(Chunk("s", "b"))
    ensures IsRun(run)
    ensures run[|run| - 1] == Prompting(Calling(Rpc.Waiting, [ask, tell]), Waiting, "ba", [], [ask.update])
  {
    run := CallInProgress();
    var s0 := run[|run| - 1];
    var s1, s2, s3 := AskedAndTold(s0, ask, tell);
    hide *;
    OneMore(run, Other(Rpc.Route(ask)));
    run := run + [s1];
    OneMore(run, Other(Rpc.Route(tell)));
    run := run + [s2];
    OneMore(run, Handle(0));
    run := run + [s3];
  }

  lemma AskedAndTold(s: State, ask: Frame, tell: Frame)
    returns (s1: State, s2: State, s3: State)
    requires ask == Rpc.Request(Chunk("s", "a"))
    requires tell == Rpc.Notification(Chunk("s", "b"))
    requires s == Prompting(Calling(Rpc.Waiting, []), Waiting, "", [], [])
    ensures Enabled(s, Other(Rpc.Route(ask))) && s1 == After(s, Other(Rpc.Route(ask)))
    ensures Enabled(s1, Other(Rpc.Route(tell))) && s2 == After(s1, Other(Rpc.Route(tell)))
    ensures Enabled(s2, Handle(0)) && s3 == After(s2, Handle(0))
    ensures s3 == Prompting(
      Calling(Rpc.Waiting, [ask, tell]), Waiting, "ba", [], [ask.update])
  {
    s1 := Prompting(Calling(Rpc.Waiting, [ask]), Waiting, "", [ask.update], []);
    s2 := Prompting(Calling(Rpc.Waiting, [ask, tell]), Waiting, "b", [ask.update], []);
    s3 := Prompting(Calling(Rpc.Waiting, [ask, tell]), Waiting, "ba", [], [ask.update]);
    assert [ask] + [tell] == [ask, tell] && "b" + "a" == "ba" && "" + "b" == "b";
    hide After;
    hide Enabled;
    FrameRouted(s, ask, s1);
    FrameRouted(s1, tell, s2);
    LateHandled(s2, s3);
  }

  /** Routing a frame that is no response, step by step. */
  lemma FrameRouted(s: State, frame: Frame, s': State)
    requires !frame.Response? && s.conn.reader.Scanning?
    requires s' == s.(conn := s.conn.(frames := s.conn.frames + [frame]),
      reply := if frame.Notification? then Appended(s, frame.update) else s.reply,
      late := if frame.Request? then s.late + [frame.update] else s.late)
    ensures Enabled(s, Other(Rpc.Route(frame))) && s' == After(s, Other(Rpc.Route(frame)))
  {
  }

  lemma LateHandled(s: State, s': State)
    requires |s.late| == 1
    requires s' == s.(reply := Appended(s, s.late[0]), late := [], strays := s.strays + s.late)
    ensures Enabled(s, Handle(0)) && s' == After(s, Handle(0))
  {
    assert s.late[..0] + s.late[1..] == [];
  }

  lemma CallInProgress() returns (run: seq<State>)
    ensures IsRun(run)
    ensures run[|run| - 1] == Prompting(Calling(Rpc.Waiting, []), Waiting, "", [], [])
  {
    var conn: Conn := Rpc.State(0, {}, map[], false, Rpc.Scanning, map[], [], map[]);
    run := [State(conn, "", "", false, Outside, [], [], [])];
    assert IsRun(run);
    hide IsRun;
    OneMore(run, Begin("s"));
    var s1 := State(conn, "s", "", false, Active("s", 0), [], [], []);
    run := run + [s1];
    OneMore(run, Call);
    var s2 := Prompting(Calling(Rpc.Writing, []), Writing, "", [], []);
    assert After(s1, Call) == s2;
    run := run + [s2];
    OneMore(run, WriteOk);
    var s3 := Prompting(Calling(Rpc.Waiting, []), Waiting, "", [], []);
    assert After(s2, WriteOk) == s3;
    run := run + [s3];
  }

  // ---- the object -------------------------------------------------------------

  /** How the wait for a response ends. */
  datatype Ending =
    | NotCalled                                 // refused, or the request was not written
    | Answered(answer: Answer, cancelled: bool)
    | CancelFailed
    | GraceExpired

  /** The fields Prompt and the read loop share. */
  class Client {
    var activeSession: string
    var reply: string
    var retired: bool

    constructor ()
      ensures activeSession == "" && reply == "" && !retired
    {
      activeSession, reply, retired := "", "", false;
    }

    /** A session/update notification, handled by the read loop. */
    method Update(update: Update)
      modifies this`reply
      ensures reply ==
        old(reply) + if update.Chunk? && update.session == activeSession then update.text else ""
    {
      if update.Chunk? && update.session == activeSession {
        reply := reply + update.text;
      }
    }

    /** One prompt, seeing `frames` between its activation and its end; `over` is whether
        its context has ended before it begins. Cancelling that cannot be sent or is not
        heeded in time retires the client. */
    method Prompt(session: string, over: bool, frames: seq<Frame>, ending: Ending)
      returns (turn: Option<(string, StopReason)>)
      modifies this
      ensures retired ==
        (old(retired) || (!over && (ending.CancelFailed? || ending.GraceExpired?)))
      ensures !old(retired) && !over ==> activeSession == ""
      ensures old(retired) || over ==>
        activeSession == old(activeSession) && reply == old(reply)
      ensures turn.Some? <==>
        && !old(retired) && !over && ending.Answered? && ending.answer.Payload?
        && ending.answer.payload.Stopped?
        && !(ending.cancelled && ending.answer.payload.reason.Cancelled?)
      ensures turn.Some? ==>
        turn.value == (Chunks(frames, session), ending.answer.payload.reason)
    {
      if retired || over {
        return None;
      }
      activeSession, reply := session, "";
      for i := 0 to |frames|
        invariant activeSession == session && !retired
        invariant reply == Chunks(frames[..i], session)
      {
        assert frames[..i + 1][..i] == frames[..i];
        if frames[i].Notification? {
          Update(frames[i].update);
        }
      }
      assert frames[..|frames|] == frames;
      activeSession := "";
      match ending {
        case NotCalled =>
          return None;
        case CancelFailed =>
          retired := true;
          return None;
        case GraceExpired =>
          retired := true;
          return None;
        case Answered(answer, cancelled) =>
          if !answer.Payload? || !answer.payload.Stopped? {
            return None;
          }
          if cancelled && answer.payload.reason.Cancelled? {
            return None;
          }
          return Some((reply, answer.payload.reason));
      }
    }
  }
}
