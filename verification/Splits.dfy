/** When a message and its reply lie in different conversations: a retry may be routed to
    another persona than the attempt that stored the message. */
module Splits {
  import opened Wrappers
  import opened Tables
  import opened Handoff
  import opened Conversations
  import opened ConversationInvariant
  import ConversationSteps
  import ConversationTheorems
  import Origins
  import Runs

  // ---- one call from its beginning --------------------------------------------

  ghost predicate IsIn(s: State, t: Tid, input: Input) {
    t in s.threads && s.threads[t].input == input
  }

  /** Call `t` began with step `h` and is not over in state `i`. */
  ghost predicate HasRunSince(run: seq<State>, t: Tid, input: Input, h: nat, i: nat) {
    && h < i < |run| && t !in run[h].threads && run[h + 1] == Begin(run[h], t, input)
    && forall k: nat :: h < k <= i ==> IsIn(run[k], t, input)
  }

  /** What the log has for the call's message: what it had when the call began, or a row of
      the call's own conversation, or the first message of a thread, stored meanwhile. */
  ghost predicate IsExplained(before: Messages, now: Messages, input: Input) {
    input.id in now ==>
      || (input.id in before && now[input.id] == before[input.id])
      || (input.id !in before && now[input.id].scope == input.scope)
      || (input.id !in before && IsRoomKey(now[input.id].scope.key))
  }

  ghost predicate BeganAt(run: seq<State>, t: Tid, input: Input, i: nat, h: nat) {
    && HasRunSince(run, t, input, h, i)
    && IsExplained(run[h].messages, run[i].messages, input)
  }

  lemma RunsLonger(
    run: seq<State>, t: Tid, input: Input, h: nat, i: nat, s: State, j: nat, s': State)
    requires HasRunSince(run, t, input, h, i) && Runs.AreNext(run, i, s, j, s')
    requires IsIn(s', t, input)
    ensures HasRunSince(run, t, input, h, j)
  {
    hide Begin;
  }

  lemma RunsNow(run: seq<State>, t: Tid, input: Input, i: nat, s: State, j: nat, s': State)
    requires Runs.AreNext(run, i, s, j, s') && t !in s.threads && s' == Begin(s, t, input)
    ensures HasRunSince(run, t, input, i, j)
  {
  }

  /** An event of call `u` explains what is new. */
  lemma EventExplains(before: Messages, s: State, s': State, u: Tid, t: Tid)
    requires ThreadsOk(s) && t in s.threads && u in s.threads
    requires Origins.AddsOwnRows(s, s', u) && ConversationTheorems.RowsKept(s, s')
    requires IsExplained(before, s.messages, CallOf(s, t).input)
    requires forall id :: id in before ==> id in s.messages
    ensures IsExplained(before, s'.messages, CallOf(s, t).input)
  {
    var id, own := s.threads[t].input.id, s.threads[u].input.id;
    ConversationSteps.ThreadFacts(s, t);
    if id in s'.messages && id !in s.messages {
      assert IsReplyID(ReplyID(own));
      hide ReplyID;
      hide IsReplyID;
      assert id == own;
      assert u == t;
    }
  }

  lemma RestExplains(before: Messages, s: State, s': State, input: Input)
    requires Origins.KeepsRest(s, s') && ConversationTheorems.RowsKept(s, s')
    requires IsExplained(before, s.messages, input)
    requires forall id :: id in before ==> id in s.messages
    ensures IsExplained(before, s'.messages, input)
  {
    hide IsRoomKey;
  }

  /** What the log had at an earlier moment it still has. */
  ghost predicate HadThen(run: seq<State>, h: nat, s: State) {
    h < |run| && ConversationTheorems.RowsKept(run[h], s)
  }

  lemma StillBegan(
    run: seq<State>, i: nat, s: State, j: nat, s': State, t: Tid, input: Input, h: nat,
    step: Step)
    requires Runs.AreNext(run, i, s, j, s') && Do(s, step, s') && ThreadsOk(s)
    requires ConversationTheorems.RowsKept(s, s') && HadThen(run, h, s)
    requires BeganAt(run, t, input, i, h) && IsIn(s, t, input) && IsIn(s', t, input)
    ensures BeganAt(run, t, input, j, h)
  {
    RunsLonger(run, t, input, h, i, s, j, s');
    hide HasRunSince;
    if step.ActStep? {
      Origins.EventTouches(s, step.t, step.event);
      hide Do;
      hide ThreadsOk;
      EventExplains(run[h].messages, s, s', step.t, t);
    } else {
      Origins.RestKept(s, step, s');
      hide Do;
      hide ThreadsOk;
      RestExplains(run[h].messages, s, s', input);
    }
  }

  lemma JustBegan(
    run: seq<State>, i: nat, s: State, j: nat, s': State, t: Tid, input: Input, step: Step)
    requires Runs.AreNext(run, i, s, j, s') && Do(s, step, s')
    requires IsIn(s', t, input) && !IsIn(s, t, input)
    ensures BeganAt(run, t, input, j, i)
  {
    if step.ActStep? {
      Origins.EventTouches(s, step.t, step.event);
      assert false;
    } else if step.BeginStep? {
      RunsNow(run, t, step.input, i, s, j, s');
    }
  }

  lemma GoesOnBegan(
    run: seq<State>, i: nat, s: State, j: nat, s': State, t: Tid, input: Input, h: nat)
    requires ConversationTheorems.IsRun(run) && Runs.AreNext(run, i, s, j, s')
    requires BeganAt(run, t, input, i, h) && IsIn(s, t, input) && IsIn(s', t, input)
    ensures BeganAt(run, t, input, j, h)
  {
    hide Do;
    hide Inv;
    hide ConversationTheorems.RowsKept;
    hide ConversationTheorems.IsRun;
    var before := HasBegun(run, t, input, i, s, h);
    hide BeganAt;
    var step := ConversationTheorems.StepOf(run, i, s, j, s');
    ConversationTheorems.KeptBetween(run, h, before, i, s);
    ConversationTheorems.KeptBetween(run, i, s, j, s');
    ThreadsAreOk(run, s);
    hide ThreadsOk;
    StillBegan(run, i, s, j, s', t, input, h, step);
  }

  lemma ThreadsAreOk(run: seq<State>, s: State)
    requires ConversationTheorems.IsRun(run) && s in run
    ensures ThreadsOk(s)
  {
    ConversationTheorems.StateOk(run, s);
    hide ConversationTheorems.IsRun;
    hide ThreadsOk;
  }

  lemma {:induction false} CallBegan(run: seq<State>, i: nat, s: State, t: Tid, input: Input)
    returns (h: nat)
    requires ConversationTheorems.IsRun(run) && Runs.IsAt(run, i, s) && IsIn(s, t, input)
    ensures BeganAt(run, t, input, i, h)
  {
    assert i > 0;
    hide ConversationTheorems.IsRun;
    hide BeganAt;
    var before := run[i - 1];
    if t in before.threads && before.threads[t].input == input {
      h := CallBegan(run, i - 1, before, t, input);
      GoesOnBegan(run, i - 1, before, i, s, t, input, h);
    } else {
      h := i - 1;
      var step := ConversationTheorems.StepOf(run, i - 1, before, i, s);
      hide Do;
      JustBegan(run, i - 1, before, i, s, t, input, step);
    }
  }

  // ---- the reply --------------------------------------------------------------

  /** A step of the call `t` stores the reply to its message. */
  ghost predicate StoresReply(s: State, s': State, t: Tid, input: Input) {
    && IsIn(s, t, input) && Origins.IsAnswering(CallOf(s, t).pc)
    && ReplyID(input.id) !in s.messages && IsLogged(s', ReplyID(input.id), input.scope)
  }

  predicate IsLogged(s: State, id: string, scope: Scope) {
    id in s.messages && s.messages[id].scope == scope
  }

  ghost predicate StoresReplyAt(run: seq<State>, g: nat, t: Tid, input: Input) {
    g + 1 < |run| && StoresReply(run[g], run[g + 1], t, input)
  }

  lemma {:induction false} ReplyCameFrom(run: seq<State>, i: nat, s: State, id: string)
    returns (g: nat, t: Tid, input: Input)
    requires ConversationTheorems.IsRun(run) && Runs.IsAt(run, i, s) && ReplyID(id) in s.messages
    ensures g < i && StoresReplyAt(run, g, t, input) && input.id == id
  {
    assert i > 0;
    var before := run[i - 1];
    if ReplyID(id) in before.messages {
      g, t, input := ReplyCameFrom(run, i - 1, before, id);
    } else {
      var step := ConversationTheorems.StepOf(run, i - 1, before, i, s);
      Origins.StateOk(run, before);
      assert Origins.KeysOk(before);
      hide Inv;
      hide Do;
      hide ConversationTheorems.IsRun;
      g := i - 1;
      t := ReplyIsNew(before, step, s, id);
      input := before.threads[t].input;
    }
  }

  lemma ReplyIsNew(s: State, step: Step, s': State, id: string) returns (t: Tid)
    requires Do(s, step, s') && Origins.KeysOk(s)
    requires ReplyID(id) !in s.messages && ReplyID(id) in s'.messages
    ensures StoresReply(s, s', t, CallOf(s, t).input) && CallOf(s, t).input.id == id
  {
    assert IsReplyID(ReplyID(id));
    if step.ActStep? {
      t := step.t;
      Origins.EventTouches(s, step.t, step.event);
      hide Do;
      ReplyIDInjective(id, s.threads[t].input.id);
    } else {
      Origins.RestKept(s, step, s');
      assert false;
    }
  }

  // ---- together or apart ------------------------------------------------------

  predicate AreLogged(s: State, id: string, m: Message, reply: Message) {
    && id in s.messages && s.messages[id] == m
    && ReplyID(id) in s.messages && s.messages[ReplyID(id)] == reply
  }

  /** Whether message and reply lie apart, told from what the log had before the call. */
  predicate IsApart(before: Messages, m: Message, id: string, reply: Message) {
    if id in before then before[id].scope.key != reply.scope.key else IsRoomKey(m.scope.key)
  }

  /** The message and its reply lie in different conversations exactly when the message was
      stored in another one before the call began that answered it, by an attempt that was
      routed elsewhere, or has been stored since as the first message of a thread. */
  lemma ApartExactly(run: seq<State>, i: nat, s: State, id: string)
    returns (
      h: nat, before: State, g: nat, t: Tid, input: Input, m: Message, reply: Message)
    requires ConversationTheorems.IsRun(run) && Runs.IsAt(run, i, s) && ReplyID(id) in s.messages
    ensures h < g < i && StoresReplyAt(run, g, t, input) && input.id == id
    ensures HasRunSince(run, t, input, h, g) && Runs.IsAt(run, h, before)
    ensures AreLogged(s, id, m, reply) && reply.scope == input.scope
    ensures m.scope.key != reply.scope.key <==> IsApart(before.messages, m, id, reply)
  {
    hide *;
    g, t, input := ReplyCameFrom(run, i, s, id);
    var answering, replied := StoresAt(run, g, t, input);
    h := CallBegan(run, g, answering, t, input);
    before := HasBegun(run, t, input, g, answering, h);
    AnswersStored(run, answering, t, input);
    ConversationTheorems.KeptBetween(run, g, answering, i, s);
    ConversationTheorems.KeptBetween(run, g + 1, replied, i, s);
    m, reply := Apart(before.messages, answering, replied, s, input);
  }

  lemma StoresAt(run: seq<State>, g: nat, t: Tid, input: Input) returns (s: State, s': State)
    requires StoresReplyAt(run, g, t, input)
    ensures Runs.IsAt(run, g, s) && s in run && Runs.IsAt(run, g + 1, s')
    ensures IsIn(s, t, input) && Origins.IsAnswering(CallOf(s, t).pc)
    ensures IsLogged(s', ReplyID(input.id), input.scope)
  {
    s, s' := run[g], run[g + 1];
  }

  lemma HasBegun(run: seq<State>, t: Tid, input: Input, i: nat, s: State, h: nat)
    returns (before: State)
    requires BeganAt(run, t, input, i, h) && Runs.IsAt(run, i, s)
    ensures h < i && HasRunSince(run, t, input, h, i) && Runs.IsAt(run, h, before)
    ensures IsExplained(before.messages, s.messages, input)
  {
    before := run[h];
  }

  lemma AnswersStored(run: seq<State>, s: State, t: Tid, input: Input)
    requires ConversationTheorems.IsRun(run) && s in run && IsIn(s, t, input)
    requires Origins.IsAnswering(CallOf(s, t).pc)
    ensures IsOwnKey(input.scope.key) && input.id in s.messages
  {
    Origins.StateOk(run, s);
    hide ConversationTheorems.IsRun;
    ConversationSteps.ThreadFacts(s, t);
    hide SharedOk;
  }

  lemma Apart(before: Messages, s: State, replied: State, now: State, input: Input)
    returns (m: Message, reply: Message)
    requires IsExplained(before, s.messages, input) && IsOwnKey(input.scope.key)
    requires input.id in s.messages && IsLogged(replied, ReplyID(input.id), input.scope)
    requires ConversationTheorems.RowsKept(s, now) && ConversationTheorems.RowsKept(replied, now)
    ensures AreLogged(now, input.id, m, reply) && reply.scope == input.scope
    ensures m.scope.key != reply.scope.key <==> IsApart(before, m, input.id, reply)
  {
    hide ReplyID;
    m, reply := now.messages[input.id], now.messages[ReplyID(input.id)];
  }
}
