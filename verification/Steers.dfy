/** Which turn a steered message went to: one that was active for its own key, whose session
    and epoch are what the message was handed to and stored under. */
module Steers {
  import opened Wrappers
  import opened Tables
  import opened Conversations
  import opened ConversationInvariant
  import ConversationSteps
  import ConversationTheorems
  import Origins
  import Runs

  // ---- one attempt to steer ---------------------------------------------------

  /** In state `h` manager `m` has an active turn for the message's key, and the call `t`
      looks it up. */
  ghost predicate LooksUpAt(
    run: seq<State>, t: Tid, input: Input, h: nat, m: nat, active: Active)
  {
    && h + 1 < |run| && t in run[h].threads && run[h].threads[t].input == input
    && run[h].threads[t].pc == SteerLook(m)
    && (m, input.scope.key) in run[h].active && run[h].active[(m, input.scope.key)] == active
    && run[h + 1] == Act(run[h], t, SteerFind)
  }

  ghost predicate IsSteering(s: State, t: Tid, input: Input, m: nat, active: Active) {
    && t in s.threads && s.threads[t].input == input
    && (s.threads[t].pc == SteerAdd(m, active) || s.threads[t].pc == SteerSend(m, active))
  }

  ghost predicate SteersSince(
    run: seq<State>, t: Tid, input: Input, i: nat, m: nat, active: Active, h: nat)
  {
    && h < i < |run| && LooksUpAt(run, t, input, h, m, active)
    && forall k: nat :: h < k <= i ==> IsSteering(run[k], t, input, m, active)
  }

  ghost predicate HasLookedUp(
    run: seq<State>, t: Tid, input: Input, i: nat, m: nat, active: Active)
  {
    exists h: nat :: SteersSince(run, t, input, i, m, active, h)
  }

  /** The message is the row that steering into a turn of this epoch stores. */
  predicate IsStoredUnder(messages: Messages, input: Input, epoch: int) {
    input.id in messages && messages[input.id] == UserRow(input, epoch)
  }

  /** In state `g` the call is about to steer, and the adapter takes the message for the
      session of the turn that the call has looked up. */
  ghost predicate DeliversAt(
    run: seq<State>, t: Tid, input: Input, g: nat, m: nat, active: Active)
  {
    && g + 1 < |run| && t in run[g].threads && run[g].threads[t].input == input
    && run[g].threads[t].pc == SteerSend(m, active)
    && run[g + 1] == Act(run[g], t, SteerAnswer(true))
    && HasLookedUp(run, t, input, g, m, active)
    && IsStoredUnder(run[g].messages, input, active.epoch)
  }

  ghost predicate WasDelivered(run: seq<State>, t: Tid, input: Input, i: nat, session: string) {
    exists g: nat, m, active ::
      g < i && DeliversAt(run, t, input, g, m, active) && active.session == session
  }

  ghost predicate SteerFrom(run: seq<State>, t: Tid, i: nat) {
    && i < |run| && t in run[i].threads
    && var input := run[i].threads[t].input;
    match run[i].threads[t].pc
    case SteerAdd(m, active) => HasLookedUp(run, t, input, i, m, active)
    case SteerSend(m, active) =>
      && HasLookedUp(run, t, input, i, m, active)
      && IsStoredUnder(run[i].messages, input, active.epoch)
    case Returned(result) =>
      result.steered ==> WasDelivered(run, t, input, i, result.session)
    case _ => true
  }

  // ---- it goes on -------------------------------------------------------------

  lemma LookupStays(
    run: seq<State>, t: Tid, input: Input, i: nat, s: State, j: nat, s': State, m: nat,
    active: Active)
    requires HasLookedUp(run, t, input, i, m, active)
    requires Runs.AreNext(run, i, s, j, s') && IsSteering(s', t, input, m, active)
    ensures HasLookedUp(run, t, input, j, m, active)
  {
    var h: nat :| SteersSince(run, t, input, i, m, active, h);
    hide LooksUpAt;
    assert SteersSince(run, t, input, j, m, active, h);
  }

  lemma LookupNow(
    run: seq<State>, t: Tid, input: Input, i: nat, s: State, j: nat, s': State, m: nat,
    active: Active)
    requires Runs.AreNext(run, i, s, j, s') && LooksUpAt(run, t, input, i, m, active)
    requires IsSteering(s', t, input, m, active)
    ensures HasLookedUp(run, t, input, j, m, active)
  {
    hide LooksUpAt;
    assert SteersSince(run, t, input, j, m, active, i);
  }

  lemma BystanderFrom(run: seq<State>, t: Tid, i: nat, s: State, j: nat, s': State)
    requires Runs.AreNext(run, i, s, j, s') && t in s'.threads
    requires CallOf(s', t) == CallOf(s, t) && SteerFrom(run, t, i)
    requires ConversationTheorems.RowsKept(s, s')
    ensures SteerFrom(run, t, j)
  {
    var thread := s.threads[t];
    hide HasLookedUp;
    hide DeliversAt;
    if thread.pc.SteerAdd? || thread.pc.SteerSend? {
      LookupStays(run, t, thread.input, i, s, j, s', thread.pc.manager, thread.pc.active);
    }
  }

  /** Where no other event leads. */
  predicate IsElsewhere(s: State, t: Tid) {
    && t in s.threads && var pc := s.threads[t].pc;
    !pc.SteerAdd? && !pc.SteerSend? && (pc.Returned? ==> !pc.result.steered)
  }

  lemma OthersLeadElsewhere(s: State, t: Tid, e: Event)
    requires t in s.threads && Fits(CallOf(s, t).pc, e)
    requires !e.SteerFind? && !e.SteerStore? && e != SteerAnswer(true)
    ensures t in Act(s, t, e).threads
    ensures CallOf(Act(s, t, e), t) == CallOf(s, t) || IsElsewhere(Act(s, t, e), t)
  {
    hide AfterRead;
    hide AddMessage;
    match e {
      case Fail => {}
      case Miss => {}
      case SteerCheck(_) => {}
      case SteerFind => assert false;
      case SteerStore(_) => assert false;
      case SteerAnswer(_) => {}
      case Lock(_) => {}
      case Read(_) => {}
      case Write(w) =>
        var thread := s.threads[t];
        assert Act(s, t, e) == ActWrite(s, t, thread.input, thread.manager, thread.pc.at, w);
        hide IsElsewhere;
        WriteLeadsElsewhere(s, t, thread.input, thread.manager, thread.pc.at, w);
    }
  }

  lemma WriteLeadsElsewhere(s: State, t: Tid, input: Input, m: nat, at: At, w: WriteEvent)
    requires t in s.threads && FitsWrite(at, w)
    ensures IsElsewhere(ActWrite(s, t, input, m, at, w), t)
  {
    hide IsElsewhere;
    hide ActPutOpened;
    hide ActPutTurn;
    hide ActStoreUser;
    hide ActStoreReply;
    match w {
      case PutOpened(outcome) => PutOpenedLeadsElsewhere(s, t, input, at.plan, at.handoff, outcome);
      case PutTurn(outcome) =>
        PutTurnLeadsElsewhere(s, t, input.scope, at.plan, at.turn, at.handoff, outcome);
      case StoreUser(outcome) => StoreUserLeadsElsewhere(s, t, input, at.plan, at.carried, outcome);
      case StoreReply(outcome, time) =>
        StoreReplyLeadsElsewhere(s, t, input, at.plan, at.turn, outcome, time);
      case _ => PlainLeadsElsewhere(s, t, input, m, at, w);
    }
  }

  lemma PutOpenedLeadsElsewhere(
    s: State, t: Tid, input: Input, plan: Plan, handoff: seq<Message>, outcome: Outcome)
    requires t in s.threads
    ensures IsElsewhere(ActPutOpened(s, t, input, plan, handoff, outcome), t)
  {
    hide OpeningRow;
  }

  lemma PutTurnLeadsElsewhere(
    s: State, t: Tid, scope: Scope, plan: Plan, turn: Turn, handoff: seq<Message>,
    outcome: Outcome)
    requires t in s.threads
    ensures IsElsewhere(ActPutTurn(s, t, scope, plan, turn, handoff, outcome), t)
  {
    hide TurnRow;
  }

  lemma StoreUserLeadsElsewhere(
    s: State, t: Tid, input: Input, plan: Plan, carried: seq<Message>, outcome: Outcome)
    requires t in s.threads
    ensures IsElsewhere(ActStoreUser(s, t, input, plan, carried, outcome), t)
  {
    hide AddMessage;
  }

  lemma StoreReplyLeadsElsewhere(
    s: State, t: Tid, input: Input, plan: Plan, turn: Turn, outcome: Outcome, time: string)
    requires t in s.threads
    ensures IsElsewhere(ActStoreReply(s, t, input, plan, turn, outcome, time), t)
  {
    hide AddMessage;
  }

  lemma PlainLeadsElsewhere(s: State, t: Tid, input: Input, m: nat, at: At, w: WriteEvent)
    requires t in s.threads && FitsWrite(at, w)
    requires !w.PutOpened? && !w.StoreUser? && !w.StoreReply? && !w.PutTurn?
    ensures IsElsewhere(ActWrite(s, t, input, m, at, w), t)
  {
    hide RowOf;
  }

  lemma FindFrom(run: seq<State>, t: Tid, i: nat, s: State, j: nat, s': State)
    requires Runs.AreNext(run, i, s, j, s') && Origins.Takes(s, s', t, SteerFind)
    ensures SteerFrom(run, t, j)
  {
    var thread := s.threads[t];
    var m, key := thread.pc.manager, thread.input.scope.key;
    assert s' == ActSteerFind(s, t, thread.input, m);
    if (m, key) in s.active {
      assert LooksUpAt(run, t, thread.input, i, m, s.active[(m, key)]);
      hide LooksUpAt;
      hide HasLookedUp;
      LookupNow(run, t, thread.input, i, s, j, s', m, s.active[(m, key)]);
    }
  }

  /** Where storing the message leads. */
  lemma StoresRow(s: State, t: Tid, input: Input, m: nat, active: Active, outcome: Outcome)
    requires t in s.threads && active.epoch >= 1
    ensures
      var s' := ActSteerStore(s, t, input, m, active, outcome);
      && t in s'.threads && CallOf(s', t).input == CallOf(s, t).input
      && (|| CallOf(s', t).pc.Locking? || CallOf(s', t).pc.Steering?
          || (CallOf(s', t).pc == SteerSend(m, active) &&
              IsStoredUnder(s'.messages, input, active.epoch)))
  {
  }

  lemma StoreFrom(
    run: seq<State>, t: Tid, i: nat, s: State, j: nat, s': State, outcome: Outcome)
    requires Runs.AreNext(run, i, s, j, s') && Origins.Takes(s, s', t, SteerStore(outcome))
    requires Inv(s) && SteerFrom(run, t, i)
    ensures SteerFrom(run, t, j)
  {
    var thread := s.threads[t];
    ConversationSteps.ThreadFacts(s, t);
    assert Fits(thread.pc, SteerStore(outcome)) && 1 <= thread.pc.active.epoch;
    hide Inv;
    hide HasLookedUp;
    assert s' == ActSteerStore(s, t, thread.input, thread.pc.manager, thread.pc.active, outcome);
    StoresRow(s, t, thread.input, thread.pc.manager, thread.pc.active, outcome);
    hide Origins.Takes;
    hide Act;
    hide CanAct;
    hide ActSteerStore;
    hide IsStoredUnder;
    if s'.threads[t].pc.SteerSend? {
      LookupStays(run, t, thread.input, i, s, j, s', thread.pc.manager, thread.pc.active);
    }
  }

  lemma AnswerFrom(run: seq<State>, t: Tid, i: nat, s: State, j: nat, s': State)
    requires Runs.AreNext(run, i, s, j, s') && Origins.Takes(s, s', t, SteerAnswer(true))
    requires SteerFrom(run, t, i)
    ensures SteerFrom(run, t, j)
  {
    var thread := s.threads[t];
    assert s' == ActSteerAnswer(s, t, thread.pc.active, true);
    hide HasLookedUp;
    assert DeliversAt(run, t, thread.input, i, thread.pc.manager, thread.pc.active);
    hide DeliversAt;
  }

  lemma ActorFrom(run: seq<State>, t: Tid, i: nat, s: State, j: nat, s': State, e: Event)
    requires Runs.AreNext(run, i, s, j, s') && Origins.Takes(s, s', t, e)
    requires Inv(s) && SteerFrom(run, t, i) && ConversationTheorems.RowsKept(s, s')
    ensures SteerFrom(run, t, j)
  {
    if e.SteerFind? {
      FindFrom(run, t, i, s, j, s');
    } else if e.SteerStore? {
      StoreFrom(run, t, i, s, j, s', e.outcome);
    } else if e == SteerAnswer(true) {
      AnswerFrom(run, t, i, s, j, s');
    } else {
      hide Inv;
      assert Fits(s.threads[t].pc, e);
      hide CanAct;
      OthersLeadElsewhere(s, t, e);
      hide Act;
      if s'.threads[t] == s.threads[t] {
        hide SteerFrom;
        BystanderFrom(run, t, i, s, j, s');
      }
    }
  }

  // ---- along every run --------------------------------------------------------

  ghost predicate AllFrom(run: seq<State>, i: nat) {
    i < |run| && forall t :: t in run[i].threads ==> SteerFrom(run, t, i)
  }

  lemma StepFrom(run: seq<State>, i: nat, s: State, j: nat, s': State, step: Step)
    requires Runs.AreNext(run, i, s, j, s') && AllFrom(run, i) && Do(s, step, s') && Inv(s)
    requires ConversationTheorems.RowsKept(s, s')
    ensures AllFrom(run, j)
  {
    if step.ActStep? {
      Origins.EventTouches(s, step.t, step.event);
      ActorFrom(run, step.t, i, s, j, s', step.event);
    } else {
      Origins.RestKept(s, step, s');
    }
    hide Inv;
    hide Do;
    hide ConversationTheorems.RowsKept;
    forall u | u in s'.threads ensures SteerFrom(run, u, j) {
      if !(step.ActStep? && step.t == u) {
        if u in s.threads && s'.threads[u] == s.threads[u] {
          hide SteerFrom;
          BystanderFrom(run, u, i, s, j, s');
        }
      }
    }
  }

  lemma {:induction false} EveryStateFrom(run: seq<State>, i: nat, s: State)
    requires ConversationTheorems.IsRun(run) && Runs.IsAt(run, i, s)
    ensures AllFrom(run, i)
  {
    if i > 0 {
      EveryStateFrom(run, i - 1, run[i - 1]);
      assert Runs.StepAt(Next, run, i - 1);
      ConversationTheorems.StateOk(run, run[i - 1]);
      ConversationTheorems.NextIsLater(run[i - 1], run[i]);
      hide AllFrom;
      var step :| Do(run[i - 1], step, run[i]);
      StepFrom(run, i - 1, run[i - 1], i, run[i], step);
    }
  }

  /** A call that returns as steered has handed its message to the session of a turn that
      it found active for its own key, after storing it under that turn's epoch. */
  lemma SteeredWasDelivered(run: seq<State>, i: nat, s: State, t: Tid, result: Result)
    returns (h: nat, g: nat, m: nat, active: Active)
    requires ConversationTheorems.IsRun(run) && Runs.IsAt(run, i, s) && t in s.threads
    requires CallOf(s, t).pc == Returned(result) && result.steered
    ensures h < g < i && active.session == result.session
    ensures LooksUpAt(run, t, CallOf(s, t).input, h, m, active)
    ensures DeliversAt(run, t, CallOf(s, t).input, g, m, active)
    ensures IsStoredUnder(s.messages, CallOf(s, t).input, active.epoch)
  {
    EveryStateFrom(run, i, s);
    var input := s.threads[t].input;
    assert SteerFrom(run, t, i) && WasDelivered(run, t, input, i, result.session);
    hide AllFrom;
    g, m, active :| g < i && DeliversAt(run, t, input, g, m, active) &&
      active.session == result.session;
    ConversationTheorems.RunIsLater(run, g, i);
    h :| SteersSince(run, t, input, g, m, active, h);
    hide LooksUpAt;
    hide Act;
  }
}
