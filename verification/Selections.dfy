/** Which messages every stored handoff and every prompt carries: what the call that stored
    or sent them read while it held its lock. */
module Selections {
  import opened Wrappers
  import opened Tables
  import opened Handoff
  import opened Conversations
  import opened ConversationInvariant
  import ConversationTheorems
  import Origins
  import Runs

  // ---- what a call has read ---------------------------------------------------

  ghost predicate IsHolding(s: State, t: Tid, input: Input) {
    t in s.threads && s.threads[t].pc.Locked? && s.threads[t].input == input
  }

  /** Call `t` holds its lock, for the same message, from state `h` to state `i`. */
  ghost predicate HoldsOn(run: seq<State>, t: Tid, input: Input, h: nat, i: nat) {
    h <= i < |run| && forall k: nat :: h <= k <= i ==> IsHolding(run[k], t, input)
  }

  function RootIn(messages: Messages, id: string): Option<Message> {
    if id in messages then Some(messages[id]) else None
  }

  /** Step `h` is a query of BuildHandoff by the call: the one before the turn, which
      excludes the call's own message, or the one after it, which excludes nothing. */
  ghost predicate ReadsAt(
    run: seq<State>, t: Tid, input: Input, h: nat, exclude: string, r: ReadEvent)
  {
    && h + 1 < |run| && IsHolding(run[h], t, input)
    && CanAct(run[h], t, Read(r)) && run[h + 1] == Act(run[h], t, Read(r))
    && exclude == Excluded(input, run[h].threads[t].pc.at)
  }

  /** Since it got its lock, the call read `root` as the thread's first message, in state
      `h`. */
  ghost predicate ReadRootAt(
    run: seq<State>, t: Tid, input: Input, i: nat, exclude: string, root: Option<Message>, h: nat)
  {
    && h < i && HoldsOn(run, t, input, h, i) && ReadsAt(run, t, input, h, exclude, ReadRoot)
    && root == RootIn(run[h].messages, input.scope.rootMessageID)
  }

  ghost predicate HasReadRoot(
    run: seq<State>, t: Tid, input: Input, i: nat, exclude: string, root: Option<Message>)
  {
    exists h: nat :: ReadRootAt(run, t, input, i, exclude, root, h)
  }

  /** And later, in state `h`, `answer` as the first answer to it. */
  ghost predicate ReadHeadAt(
    run: seq<State>, t: Tid, input: Input, i: nat, exclude: string, head: seq<Message>,
    h: nat, root: Option<Message>, answer: Option<Message>)
  {
    && h < i && HoldsOn(run, t, input, h, i)
    && ReadsAt(run, t, input, h, exclude, ReadAnswer(answer))
    && HasReadRoot(run, t, input, h, exclude, root)
    && IsFirstAnswer(run[h].messages, input.scope.rootMessageID, answer)
    && head == Head(root, answer, exclude)
  }

  ghost predicate HasReadHead(
    run: seq<State>, t: Tid, input: Input, i: nat, epoch: int, exclude: string,
    head: seq<Message>)
  {
    if IncludesRoot(input, epoch) then
      exists h: nat, root, answer :: ReadHeadAt(run, t, input, i, exclude, head, h, root, answer)
    else head == []
  }

  ghost predicate ReadsRecentAt(
    run: seq<State>, t: Tid, input: Input, h: nat, exclude: string)
  {
    exists recent :: ReadsAt(run, t, input, h, exclude, ReadRecent(recent))
  }

  /** And later, in state `h`, the rows of its scope and epoch. */
  ghost predicate SelectedAt(
    run: seq<State>, t: Tid, input: Input, i: nat, epoch: int, exclude: string,
    selected: seq<Message>, h: nat, head: seq<Message>, ascending: seq<Message>)
  {
    && h < i && HoldsOn(run, t, input, h, i) && ReadsRecentAt(run, t, input, h, exclude)
    && HasReadHead(run, t, input, h, epoch, exclude, head)
    && Lists(ascending, ScopeRows(run[h].messages, input.scope.key, epoch, exclude))
    && selected == head + Unseen(head, Suffix(ascending, MAX_HANDOFF_MESSAGES))
  }

  /** `selected` is the root exchange and the ascending suffix, without the excluded
      message, as the call read them one after the other since it got its lock. */
  ghost predicate HasSelected(
    run: seq<State>, t: Tid, input: Input, i: nat, epoch: int, exclude: string,
    selected: seq<Message>)
  {
    exists h: nat, head, ascending ::
      SelectedAt(run, t, input, i, epoch, exclude, selected, h, head, ascending)
  }

  ghost predicate HasGot(
    run: seq<State>, t: Tid, input: Input, i: nat, epoch: int, exclude: string, got: Gathered)
  {
    match got
    case Unread => true
    case RootRead(root) => IncludesRoot(input, epoch) && HasReadRoot(run, t, input, i, exclude, root)
    case HeadRead(head) => HasReadHead(run, t, input, i, epoch, exclude, head)
  }

  /** Where the call is, it has what it has by reading. */
  ghost predicate AtFrom(run: seq<State>, t: Tid, input: Input, i: nat, at: At) {
    match at
    case Before(plan, got) => HasGot(run, t, input, i, plan.epoch, input.id, got)
    case Loading(plan, handoff) => HasSelected(run, t, input, i, plan.epoch, input.id, handoff)
    case Opening(plan, handoff) => HasSelected(run, t, input, i, plan.epoch, input.id, handoff)
    case Putting(plan, handoff) => HasSelected(run, t, input, i, plan.epoch, input.id, handoff)
    case After(plan, _, got) => HasGot(run, t, input, i, plan.epoch, "", got)
    case Closing(plan, _, handoff) => HasSelected(run, t, input, i, plan.epoch, "", handoff)
    case _ => true
  }

  /** Step `h` of the call, since it got its lock, opened `session`. */
  ghost predicate OpenedAt(
    run: seq<State>, t: Tid, input: Input, i: nat, session: string, h: nat)
  {
    && h < i && HoldsOn(run, t, input, h, i)
    && run[h].threads[t].pc.at.Opening? && run[h + 1].threads[t].pc.at.Putting?
    && run[h + 1].threads[t].pc.at.plan.session == session
  }

  ghost predicate HasOpened(run: seq<State>, t: Tid, input: Input, i: nat, session: string) {
    exists h: nat :: OpenedAt(run, t, input, i, session, h)
  }

  ghost predicate NeverOpened(run: seq<State>, t: Tid, input: Input, i: nat) {
    forall session :: !HasOpened(run, t, input, i, session)
  }

  predicate IsBeforeOpening(at: At) {
    at.Checking? || at.Replying? || at.Reading? || at.Before? || at.Loading? || at.Opening?
  }

  /** What a call carries: all it has selected when it opened the session itself, unless its
      message is fresh, and otherwise nothing. */
  ghost predicate Carries(
    run: seq<State>, t: Tid, input: Input, i: nat, session: string, epoch: int,
    carried: seq<Message>)
  {
    || (NeverOpened(run, t, input, i) && carried == [])
    || (&& HasOpened(run, t, input, i, session)
        && if input.isFresh then carried == []
           else HasSelected(run, t, input, i, epoch, input.id, carried))
  }

  ghost predicate OpenFrom(run: seq<State>, t: Tid, input: Input, i: nat, at: At) {
    if IsBeforeOpening(at) then NeverOpened(run, t, input, i)
    else if at.Putting? then HasOpened(run, t, input, i, at.plan.session)
    else if at.Adding? || at.Starting? then
      Carries(run, t, input, i, at.plan.session, at.plan.epoch, at.carried)
    else true
  }

  // ---- it stays read while the lock is held -----------------------------------

  ghost predicate IsHoldingAt(run: seq<State>, i: nat, t: Tid, input: Input) {
    i < |run| && IsHolding(run[i], t, input)
  }

  /** The next moment, at which the call holds its lock. */
  ghost predicate HoldsThen(run: seq<State>, t: Tid, input: Input, i: nat, j: nat) {
    j == i + 1 && IsHoldingAt(run, j, t, input)
  }

  lemma HoldsLonger(run: seq<State>, t: Tid, input: Input, h: nat, i: nat, j: nat)
    requires HoldsOn(run, t, input, h, i) && HoldsThen(run, t, input, i, j)
    ensures HoldsOn(run, t, input, h, j)
  {
  }

  lemma RootStays(
    run: seq<State>, t: Tid, input: Input, i: nat, j: nat, exclude: string,
    root: Option<Message>)
    requires HasReadRoot(run, t, input, i, exclude, root) && HoldsThen(run, t, input, i, j)
    ensures HasReadRoot(run, t, input, j, exclude, root)
  {
    var h: nat :| ReadRootAt(run, t, input, i, exclude, root, h);
    HoldsLonger(run, t, input, h, i, j);
    hide ReadsAt;
    assert ReadRootAt(run, t, input, j, exclude, root, h);
  }

  lemma HeadStays(
    run: seq<State>, t: Tid, input: Input, i: nat, j: nat, epoch: int, exclude: string,
    head: seq<Message>)
    requires HasReadHead(run, t, input, i, epoch, exclude, head)
    requires HoldsThen(run, t, input, i, j)
    ensures HasReadHead(run, t, input, j, epoch, exclude, head)
  {
    if IncludesRoot(input, epoch) {
      var h: nat, root, answer :| ReadHeadAt(run, t, input, i, exclude, head, h, root, answer);
      HoldsLonger(run, t, input, h, i, j);
      hide ReadsAt;
      assert ReadHeadAt(run, t, input, j, exclude, head, h, root, answer);
    }
  }

  lemma SelectedStays(
    run: seq<State>, t: Tid, input: Input, i: nat, j: nat, epoch: int, exclude: string,
    selected: seq<Message>)
    requires HasSelected(run, t, input, i, epoch, exclude, selected)
    requires HoldsThen(run, t, input, i, j)
    ensures HasSelected(run, t, input, j, epoch, exclude, selected)
  {
    var h: nat, head, ascending :|
      SelectedAt(run, t, input, i, epoch, exclude, selected, h, head, ascending);
    HoldsLonger(run, t, input, h, i, j);
    hide ReadsRecentAt;
    assert SelectedAt(run, t, input, j, epoch, exclude, selected, h, head, ascending);
  }

  lemma GotStays(
    run: seq<State>, t: Tid, input: Input, i: nat, j: nat, epoch: int, exclude: string,
    got: Gathered)
    requires HasGot(run, t, input, i, epoch, exclude, got) && HoldsThen(run, t, input, i, j)
    ensures HasGot(run, t, input, j, epoch, exclude, got)
  {
    hide HoldsThen;
    hide HasReadRoot;
    hide HasReadHead;
    match got {
      case Unread => {}
      case RootRead(root) => RootStays(run, t, input, i, j, exclude, root);
      case HeadRead(head) => HeadStays(run, t, input, i, j, epoch, exclude, head);
    }
  }

  lemma AtStays(run: seq<State>, t: Tid, input: Input, i: nat, j: nat, at: At)
    requires AtFrom(run, t, input, i, at) && HoldsThen(run, t, input, i, j)
    ensures AtFrom(run, t, input, j, at)
  {
    hide HasGot;
    hide HasSelected;
    hide HoldsThen;
    if at.Before? {
      GotStays(run, t, input, i, j, at.plan.epoch, input.id, at.got);
    } else if at.After? {
      GotStays(run, t, input, i, j, at.plan.epoch, "", at.got);
    } else if at.Loading? || at.Opening? || at.Putting? {
      SelectedStays(run, t, input, i, j, at.plan.epoch, input.id, at.handoff);
    } else if at.Closing? {
      SelectedStays(run, t, input, i, j, at.plan.epoch, "", at.handoff);
    }
  }

  lemma OpenedStays(run: seq<State>, t: Tid, input: Input, i: nat, j: nat, session: string)
    requires HasOpened(run, t, input, i, session) && HoldsThen(run, t, input, i, j)
    ensures HasOpened(run, t, input, j, session)
  {
    var h: nat :| OpenedAt(run, t, input, i, session, h);
    HoldsLonger(run, t, input, h, i, j);
    assert OpenedAt(run, t, input, j, session, h);
  }

  /** With the step at `i` the call opens a session. */
  ghost predicate Opens(run: seq<State>, t: Tid, input: Input, i: nat, j: nat) {
    && j == i + 1 && IsHoldingAt(run, i, t, input) && IsHoldingAt(run, j, t, input)
    && run[i].threads[t].pc.at.Opening? && run[j].threads[t].pc.at.Putting?
  }

  /** Having opened nothing stays so over any step but that one. */
  lemma NeverStays(run: seq<State>, t: Tid, input: Input, i: nat, j: nat)
    requires NeverOpened(run, t, input, i) && HoldsThen(run, t, input, i, j)
    requires !Opens(run, t, input, i, j)
    ensures NeverOpened(run, t, input, j)
  {
    forall session | HasOpened(run, t, input, j, session)
      ensures HasOpened(run, t, input, i, session)
    {
      var h: nat :| OpenedAt(run, t, input, j, session, h);
      assert IsHolding(run[h], t, input) && h < i;
      assert OpenedAt(run, t, input, i, session, h);
    }
  }

  /** And it is so when the lock was not held before. */
  lemma NeverYet(run: seq<State>, t: Tid, input: Input, i: nat, j: nat)
    requires j == i + 1 && !IsHoldingAt(run, i, t, input)
    ensures NeverOpened(run, t, input, j)
  {
    hide IsHolding;
  }

  lemma CarriesStays(
    run: seq<State>, t: Tid, input: Input, i: nat, j: nat, session: string, epoch: int,
    carried: seq<Message>)
    requires Carries(run, t, input, i, session, epoch, carried)
    requires HoldsThen(run, t, input, i, j) && !Opens(run, t, input, i, j)
    ensures Carries(run, t, input, j, session, epoch, carried)
  {
    hide HoldsThen;
    hide Opens;
    hide HasSelected;
    if NeverOpened(run, t, input, i) && carried == [] {
      NeverStays(run, t, input, i, j);
    } else {
      OpenedStays(run, t, input, i, j, session);
      if !input.isFresh { SelectedStays(run, t, input, i, j, epoch, input.id, carried); }
    }
    hide NeverOpened;
    hide HasOpened;
  }

  /** Where the call is while it holds its lock. */
  ghost predicate IsHeldAt(run: seq<State>, i: nat, t: Tid, input: Input, at: At) {
    IsHoldingAt(run, i, t, input) && run[i].threads[t].pc.at == at
  }

  /** A call that does not move. */
  lemma OpenStays(run: seq<State>, t: Tid, input: Input, i: nat, j: nat, at: At)
    requires OpenFrom(run, t, input, i, at) && j == i + 1
    requires IsHeldAt(run, i, t, input, at) && IsHeldAt(run, j, t, input, at)
    ensures OpenFrom(run, t, input, j, at)
  {
    hide NeverOpened;
    hide HasOpened;
    hide Carries;
    if IsBeforeOpening(at) {
      NeverStays(run, t, input, i, j);
    } else if at.Putting? {
      OpenedStays(run, t, input, i, j, at.plan.session);
    } else if at.Adding? || at.Starting? {
      CarriesStays(run, t, input, i, j, at.plan.session, at.plan.epoch, at.carried);
    }
  }

  // ---- the call that acts -----------------------------------------------------

  lemma HoldsNext(run: seq<State>, t: Tid, input: Input, i: nat, j: nat)
    requires IsHoldingAt(run, i, t, input) && HoldsThen(run, t, input, i, j)
    ensures HoldsOn(run, t, input, i, j)
  {
  }

  /** The three queries of BuildHandoff. */
  lemma RootFrom(
    run: seq<State>, t: Tid, input: Input, i: nat, s: State, j: nat, epoch: int, exclude: string)
    requires ReadsAt(run, t, input, i, exclude, ReadRoot) && Runs.IsAt(run, i, s)
    requires HoldsThen(run, t, input, i, j)
    ensures HasGot(run, t, input, j, epoch, exclude, RootGot(s, input, epoch))
  {
    HoldsNext(run, t, input, i, j);
    hide HoldsOn;
    hide IsHolding;
    if IncludesRoot(input, epoch) {
      var root := RootIn(s.messages, input.scope.rootMessageID);
      assert ReadRootAt(run, t, input, j, exclude, root, i);
    }
  }

  lemma HeadFrom(
    run: seq<State>, t: Tid, input: Input, i: nat, s: State, j: nat, epoch: int,
    exclude: string, root: Option<Message>, answer: Option<Message>)
    requires ReadsAt(run, t, input, i, exclude, ReadAnswer(answer)) && Runs.IsAt(run, i, s)
    requires HoldsThen(run, t, input, i, j)
    requires HasGot(run, t, input, i, epoch, exclude, RootRead(root))
    requires IsFirstAnswer(s.messages, input.scope.rootMessageID, answer)
    ensures HasGot(run, t, input, j, epoch, exclude, HeadRead(Head(root, answer, exclude)))
  {
    HoldsNext(run, t, input, i, j);
    hide HoldsOn;
    hide IsHolding;
    hide HasReadRoot;
    assert ReadHeadAt(run, t, input, j, exclude, Head(root, answer, exclude), i, root, answer);
  }

  lemma RecentFrom(
    run: seq<State>, t: Tid, input: Input, i: nat, s: State, j: nat, epoch: int,
    exclude: string, head: seq<Message>, recent: seq<Message>)
    requires ReadsAt(run, t, input, i, exclude, ReadRecent(recent)) && Runs.IsAt(run, i, s)
    requires HoldsThen(run, t, input, i, j)
    requires HasGot(run, t, input, i, epoch, exclude, HeadRead(head))
    requires IsRecent(ScopeRows(s.messages, input.scope.key, epoch, exclude),
      MAX_HANDOFF_MESSAGES, recent)
    ensures HasSelected(run, t, input, j, epoch, exclude, head + Unseen(head, Reversed(recent)))
  {
    HoldsNext(run, t, input, i, j);
    hide HoldsOn;
    hide IsHolding;
    hide HasReadHead;
    var rows := ScopeRows(s.messages, input.scope.key, epoch, exclude);
    var listed :| ListsDown(listed, rows) && recent == Limited(listed, MAX_HANDOFF_MESSAGES);
    ReversedListing(listed, rows);
    RecentIsSuffix(rows, MAX_HANDOFF_MESSAGES, recent, Reversed(listed));
    hide ReadsAt;
    assert ReadsRecentAt(run, t, input, i, exclude);
    assert SelectedAt(run, t, input, j, epoch, exclude,
      head + Unseen(head, Reversed(recent)), i, head, Reversed(listed));
  }

  lemma ReadFrom(
    run: seq<State>, t: Tid, input: Input, m: nat, i: nat, s: State, j: nat, at: At,
    r: ReadEvent)
    requires ReadsAt(run, t, input, i, Excluded(input, at), r) && Runs.IsAt(run, i, s)
    requires HoldsThen(run, t, input, i, j) && Observes(s, input, m, at, r)
    requires AtFrom(run, t, input, i, at)
    ensures AtFrom(run, t, input, j, AfterRead(s, input, at, r))
  {
    hide HasGot;
    hide HasSelected;
    hide HoldsThen;
    hide ReadsAt;
    hide IsRecent;
    hide IsFirstAnswer;
    hide ScopeRows;
    hide RootGot;
    hide PlanFor;
    if r.ReadRoot? {
      RootFrom(run, t, input, i, s, j, at.plan.epoch, Excluded(input, at));
    } else if r.ReadAnswer? {
      HeadFrom(run, t, input, i, s, j, at.plan.epoch, Excluded(input, at), at.got.root, r.answer);
    } else if r.ReadRecent? {
      RecentFrom(run, t, input, i, s, j, at.plan.epoch, Excluded(input, at), at.got.head, r.recent);
    } else if r.ReadRow? {
      NothingYet(run, t, input, j);
    } else if at.Loading? {
      SelectedStays(run, t, input, i, j, at.plan.epoch, input.id, at.handoff);
    }
  }

  lemma NothingYet(run: seq<State>, t: Tid, input: Input, i: nat)
    ensures forall epoch, exclude :: HasGot(run, t, input, i, epoch, exclude, Unread)
  {
  }

  /** A step under the lock hands on what was selected or forgets it. */
  predicate HandsOn(at: At, at': At, isFresh: bool) {
    match at'
    case Checking => false
    case Replying => at.Checking?
    case Reading => at.Checking?
    case Before(_, _) => false
    case Loading(_, _) => false
    case Opening(_, _) => false
    case Putting(plan, handoff) =>
      at.Opening? && plan.epoch == at.plan.epoch && handoff == at.handoff
    case Adding(plan, carried) =>
      || (at.Loading? && carried == [])
      || (&& at.Putting? && plan == at.plan
          && carried == if isFresh then [] else at.handoff)
    case Starting(plan, carried) => at.Adding? && plan == at.plan && carried == at.carried
    case Prompting(plan) => at.Starting? && plan == at.plan
    case After(_, _, got) => got.Unread?
    case Closing(_, _, _) => false
    case _ => true
  }

  /** A read leads nowhere but on, and opens nothing. */
  predicate ReadsOn(at: At, at': At) {
    && (IsBeforeOpening(at') ==> IsBeforeOpening(at) && !at.Opening?)
    && !at'.Putting? && !at'.Starting? && !at'.Prompting?
    && (at'.Adding? ==> at.Loading? && at'.carried == [])
  }

  lemma ReadLeadsOn(s: State, input: Input, at: At, r: ReadEvent)
    requires FitsRead(at, r)
    ensures ReadsOn(at, AfterRead(s, input, at, r))
  {
    hide RootGot;
    hide PlanFor;
  }

  lemma HandedOn(run: seq<State>, t: Tid, input: Input, i: nat, at: At, at': At)
    requires AtFrom(run, t, input, i, at) && HandsOn(at, at', input.isFresh)
    ensures AtFrom(run, t, input, i, at')
  {
    hide HasSelected;
    NothingYet(run, t, input, i);
    hide HasGot;
  }

  predicate LeadsTo(s: State, t: Tid, at: At, isFresh: bool) {
    && t in s.threads
    && (s.threads[t].pc.Locked? ==> HandsOn(at, s.threads[t].pc.at, isFresh))
  }

  lemma WriteHandsOn(s: State, t: Tid, input: Input, m: nat, at: At, w: WriteEvent)
    requires t in s.threads && FitsWrite(at, w)
    ensures LeadsTo(ActWrite(s, t, input, m, at, w), t, at, input.isFresh)
  {
    hide LeadsTo;
    hide ActPutOpened;
    hide ActStoreUser;
    hide ActStoreReply;
    hide ActPutTurn;
    match w {
      case PutOpened(outcome) => PutOpenedHandsOn(s, t, input, at.plan, at.handoff, outcome);
      case StoreUser(outcome) => StoreUserHandsOn(s, t, input, at.plan, at.carried, outcome);
      case StoreReply(outcome, time) =>
        StoreReplyHandsOn(s, t, input, at.plan, at.turn, outcome, time);
      case PutTurn(outcome) =>
        PutTurnHandsOn(s, t, input, at.plan, at.turn, at.handoff, outcome);
      case _ => PlainHandsOn(s, t, input, m, at, w);
    }
  }

  lemma PutOpenedHandsOn(
    s: State, t: Tid, input: Input, plan: Plan, handoff: seq<Message>, outcome: Outcome)
    requires t in s.threads
    ensures LeadsTo(
      ActPutOpened(s, t, input, plan, handoff, outcome), t, Putting(plan, handoff), input.isFresh)
  {
    hide OpeningRow;
  }

  lemma StoreUserHandsOn(
    s: State, t: Tid, input: Input, plan: Plan, carried: seq<Message>, outcome: Outcome)
    requires t in s.threads
    ensures LeadsTo(
      ActStoreUser(s, t, input, plan, carried, outcome), t, Adding(plan, carried), input.isFresh)
  {
    hide AddMessage;
  }

  lemma StoreReplyHandsOn(
    s: State, t: Tid, input: Input, plan: Plan, turn: Turn, outcome: Outcome, time: string)
    requires t in s.threads
    ensures LeadsTo(ActStoreReply(s, t, input, plan, turn, outcome, time), t,
      Answering(plan, turn), input.isFresh)
  {
    hide AddMessage;
  }

  lemma PutTurnHandsOn(
    s: State, t: Tid, input: Input, plan: Plan, turn: Turn, handoff: seq<Message>,
    outcome: Outcome)
    requires t in s.threads
    ensures LeadsTo(ActPutTurn(s, t, input.scope, plan, turn, handoff, outcome), t,
      Closing(plan, turn, handoff), input.isFresh)
  {
    hide TurnRow;
  }

  lemma PlainHandsOn(s: State, t: Tid, input: Input, m: nat, at: At, w: WriteEvent)
    requires t in s.threads && FitsWrite(at, w)
    requires !w.PutOpened? && !w.StoreUser? && !w.StoreReply? && !w.PutTurn?
    ensures LeadsTo(ActWrite(s, t, input, m, at, w), t, at, input.isFresh)
  {
    hide RowOf;
  }

  /** Before it has its lock, and with its first step under it, a call has read nothing. */
  lemma OthersReadNothing(s: State, t: Tid, e: Event)
    requires t in s.threads && Fits(CallOf(s, t).pc, e) && !e.Read? && !e.Write?
    ensures t in Act(s, t, e).threads
    ensures CallOf(Act(s, t, e), t).pc.Locked? ==>
      CallOf(Act(s, t, e), t).pc == Locked(Checking) && !CallOf(s, t).pc.Locked?
  {
    hide AddMessage;
    match e {
      case Fail => {}
      case Miss => {}
      case SteerCheck(_) => {}
      case SteerFind => {}
      case SteerStore(_) => {}
      case SteerAnswer(_) => {}
      case Lock(_) => {}
      case Read(_) => assert false;
      case Write(_) => assert false;
    }
  }

  ghost predicate ThreadFrom(run: seq<State>, t: Tid, i: nat) {
    && i < |run| && t in run[i].threads
    && var thread := run[i].threads[t];
    thread.pc.Locked? ==>
      && AtFrom(run, t, thread.input, i, thread.pc.at)
      && OpenFrom(run, t, thread.input, i, thread.pc.at)
  }

  lemma ActorFrom(run: seq<State>, t: Tid, i: nat, s: State, j: nat, s': State, e: Event)
    requires Runs.AreNext(run, i, s, j, s') && Origins.Takes(s, s', t, e)
    requires ThreadFrom(run, t, i)
    ensures ThreadFrom(run, t, j)
  {
    var thread := s.threads[t];
    Origins.EventTouches(s, t, e);
    assert t in s'.threads && s'.threads[t].input == thread.input;
    hide Origins.Touches;
    hide AtFrom;
    hide OpenFrom;
    hide FitsRead;
    hide FitsWrite;
    hide AfterRead;
    hide ActWrite;
    hide Observes;
    if s'.threads[t].pc.Locked? {
      var at' := s'.threads[t].pc.at;
      if e.Read? {
        ReadFrom(run, t, thread.input, thread.manager, i, s, j, thread.pc.at, e.read);
        ReadLeadsOn(s, thread.input, thread.pc.at, e.read);
        ReadOpens(run, t, thread.input, i, j, thread.pc.at, at');
      } else if e.Write? {
        WriteHandsOn(s, t, thread.input, thread.manager, thread.pc.at, e.write);
        HandedOn(run, t, thread.input, i, thread.pc.at, at');
        AtStays(run, t, thread.input, i, j, at');
        WriteOpens(run, t, thread.input, i, j, thread.pc.at, at');
      } else {
        OthersReadNothing(s, t, e);
        CheckingFrom(run, t, thread.input, j);
        NeverYet(run, t, thread.input, i, j);
        ChecksFirst(run, t, thread.input, j);
      }
    }
  }

  lemma ChecksFirst(run: seq<State>, t: Tid, input: Input, i: nat)
    requires NeverOpened(run, t, input, i)
    ensures OpenFrom(run, t, input, i, Checking)
  {
  }

  lemma ReadOpens(run: seq<State>, t: Tid, input: Input, i: nat, j: nat, at: At, at': At)
    requires OpenFrom(run, t, input, i, at) && ReadsOn(at, at') && j == i + 1
    requires IsHeldAt(run, i, t, input, at) && IsHeldAt(run, j, t, input, at')
    ensures OpenFrom(run, t, input, j, at')
  {
    hide NeverOpened;
    hide HasOpened;
    hide HasSelected;
    if IsBeforeOpening(at') || at'.Adding? { NeverStays(run, t, input, i, j); }
  }

  lemma WriteOpens(run: seq<State>, t: Tid, input: Input, i: nat, j: nat, at: At, at': At)
    requires AtFrom(run, t, input, i, at) && OpenFrom(run, t, input, i, at)
    requires HandsOn(at, at', input.isFresh) && j == i + 1
    requires IsHeldAt(run, i, t, input, at) && IsHeldAt(run, j, t, input, at')
    ensures OpenFrom(run, t, input, j, at')
  {
    hide NeverOpened;
    hide HasOpened;
    hide HasSelected;
    hide HasGot;
    if IsBeforeOpening(at') || (at'.Adding? && at.Loading?) {
      NeverStays(run, t, input, i, j);
    } else if at'.Putting? {
      OpensNow(run, t, input, i, j, at, at'.plan, at'.handoff);
    } else if at'.Adding? {
      OpenedStays(run, t, input, i, j, at.plan.session);
      SelectedStays(run, t, input, i, j, at.plan.epoch, input.id, at.handoff);
    } else if at'.Starting? {
      CarriesStays(run, t, input, i, j, at.plan.session, at.plan.epoch, at.carried);
    }
  }

  lemma OpensNow(
    run: seq<State>, t: Tid, input: Input, i: nat, j: nat, at: At, plan: Plan,
    handoff: seq<Message>)
    requires IsHeldAt(run, i, t, input, at) && at.Opening? && j == i + 1
    requires IsHeldAt(run, j, t, input, Putting(plan, handoff))
    ensures HasOpened(run, t, input, j, plan.session)
  {
    HoldsNext(run, t, input, i, j);
    assert OpenedAt(run, t, input, j, plan.session, i);
  }

  lemma CheckingFrom(run: seq<State>, t: Tid, input: Input, i: nat)
    ensures AtFrom(run, t, input, i, Checking)
  {
  }

  // ---- the tables and the prompts ---------------------------------------------

  /** Step `g` is the write of the call `t` that stores the row `c`. */
  ghost predicate IsWriting(run: seq<State>, g: nat, t: Tid, c: Conversation) {
    && g + 1 < |run| && t in run[g].threads && Origins.IsOwnWrite(run[g], t, c)
    && StoresRow(run[g], t, run[g + 1])
  }

  ghost predicate StoresRow(s: State, t: Tid, s': State) { exists w :: IsWriteBy(s, t, w, s') }

  /** The opening or the closing write, and it takes effect. */
  ghost predicate IsWriteBy(s: State, t: Tid, w: WriteEvent, s': State) {
    && (w.PutOpened? || w.PutTurn?) && w.outcome.Effective()
    && CanAct(s, t, Write(w)) && s' == Act(s, t, Write(w))
  }

  predicate HasRow(s: State, c: Conversation) {
    c.scope.key in s.conversations && s.conversations[c.scope.key] == c
  }

  ghost predicate HasRowSince(run: seq<State>, g: nat, i: nat, c: Conversation) {
    i < |run| && forall k: nat :: g < k <= i ==> HasRow(run[k], c)
  }

  /** The handoff read before the turn leaves the call's own message out, the one read
      after it nothing. */
  function ExcludedAt(thread: Thread): string {
    if thread.pc.Locked? && thread.pc.at.Closing? then "" else thread.input.id
  }

  /** Step `g` stored the row, which has been there since, with what the call had selected. */
  ghost predicate StoredAt(run: seq<State>, i: nat, c: Conversation, g: nat, t: Tid) {
    && g < i && IsWriting(run, g, t, c)
    && HasRowSince(run, g, i, c)
    && HasSelected(run, t, run[g].threads[t].input, g, c.contextEpoch,
         ExcludedAt(run[g].threads[t]), c.handoff)
  }

  ghost predicate StoredFrom(run: seq<State>, i: nat, c: Conversation) {
    exists g: nat, t :: StoredAt(run, i, c, g, t)
  }

  /** Step `g` is the one in which the call `t` sends prompt `n`. */
  ghost predicate IsSending(run: seq<State>, g: nat, t: Tid, n: nat) {
    && g + 1 < |run| && |run[g].prompts| == n
    && CanAct(run[g], t, Write(Start)) && run[g + 1] == Act(run[g], t, Write(Start))
  }

  ghost predicate SentAt(run: seq<State>, i: nat, n: nat, p: Prompt, g: nat, t: Tid) {
    && g < i && IsSending(run, g, t, n) && Origins.IsOwnPrompt(run[g], t, p)
    && Carries(run, t, run[g].threads[t].input, g, p.session, p.epoch, p.carried)
  }

  ghost predicate SentFrom(run: seq<State>, i: nat, n: nat, p: Prompt) {
    exists g: nat, t :: SentAt(run, i, n, p, g, t)
  }

  ghost predicate AllFrom(run: seq<State>, i: nat) {
    && i < |run|
    && (forall t :: t in run[i].threads ==> ThreadFrom(run, t, i))
    && (forall key :: key in run[i].conversations ==> StoredFrom(run, i, run[i].conversations[key]))
    && (forall n :: 0 <= n < |run[i].prompts| ==> SentFrom(run, i, n, run[i].prompts[n]))
  }

  lemma StoredStays(run: seq<State>, i: nat, s: State, j: nat, s': State, c: Conversation)
    requires StoredFrom(run, i, c) && Runs.AreNext(run, i, s, j, s') && HasRow(s', c)
    ensures StoredFrom(run, j, c)
  {
    var g: nat, t :| StoredAt(run, i, c, g, t);
    RowStays(run, g, i, s, j, s', c);
    hide IsWriting;
    hide HasSelected;
    hide HasRowSince;
    assert StoredAt(run, j, c, g, t);
  }

  lemma RowStays(
    run: seq<State>, g: nat, i: nat, s: State, j: nat, s': State, c: Conversation)
    requires HasRowSince(run, g, i, c) && Runs.AreNext(run, i, s, j, s') && HasRow(s', c)
    ensures HasRowSince(run, g, j, c)
  {
    hide HasRow;
  }

  lemma RowIsNew(run: seq<State>, i: nat, s: State, j: nat, s': State, c: Conversation)
    requires Runs.AreNext(run, i, s, j, s') && HasRow(s', c)
    ensures HasRowSince(run, i, j, c)
  {
    hide HasRow;
  }

  lemma SentStays(run: seq<State>, i: nat, j: nat, n: nat, p: Prompt)
    requires SentFrom(run, i, n, p) && j == i + 1
    ensures SentFrom(run, j, n, p)
  {
    var g: nat, t :| SentAt(run, i, n, p, g, t);
    hide IsSending;
    hide Carries;
    assert SentAt(run, j, n, p, g, t);
  }

  lemma BystanderFrom(run: seq<State>, t: Tid, i: nat, s: State, j: nat, s': State)
    requires Runs.AreNext(run, i, s, j, s') && t in s.threads && t in s'.threads
    requires CallOf(s', t) == CallOf(s, t) && ThreadFrom(run, t, i)
    ensures ThreadFrom(run, t, j)
  {
    hide AtFrom;
    hide OpenFrom;
    var thread := s.threads[t];
    if thread.pc.Locked? {
      AtStays(run, t, thread.input, i, j, thread.pc.at);
      OpenStays(run, t, thread.input, i, j, thread.pc.at);
    }
  }

  lemma WrittenFrom(
    run: seq<State>, t: Tid, i: nat, s: State, j: nat, s': State, c: Conversation)
    requires Runs.AreNext(run, i, s, j, s') && ThreadFrom(run, t, i)
    requires IsWriting(run, i, t, c) && HasRow(s', c)
    ensures StoredFrom(run, j, c)
  {
    RowIsNew(run, i, s, j, s', c);
    assert Origins.IsOwnWrite(s, t, c);
    hide HasSelected;
    hide IsWriting;
    hide HasRowSince;
    assert StoredAt(run, j, c, i, t);
  }

  lemma PromptFrom(run: seq<State>, t: Tid, i: nat, s: State, j: nat, n: nat, p: Prompt)
    requires Runs.IsAt(run, i, s) && j == i + 1 && ThreadFrom(run, t, i)
    requires Origins.IsOwnPrompt(s, t, p) && IsSending(run, i, t, n)
    ensures SentFrom(run, j, n, p)
  {
    hide Carries;
    hide IsSending;
    assert SentAt(run, j, n, p, i, t);
  }

  /** Only the writes that open and close a turn change the row, and only when they take
      effect; only starting a turn sends a prompt. */
  lemma OnlyTheseWrite(s: State, t: Tid, e: Event, c: Conversation)
    requires CanAct(s, t, e) && Origins.IsOwnWrite(s, t, c)
    requires Act(s, t, e).conversations != s.conversations
    ensures e.Write? && IsWriteBy(s, t, e.write, Act(s, t, e))
  {
    assert Fits(s.threads[t].pc, e);
    hide CanAct;
    hide OpeningRow;
    hide TurnRow;
    if e.Fail? {
      hide Act;
      FailWritesNothing(s, t);
    } else {
      StoresThere(s.threads[t].pc, e);
      if e.write == PutOpened(Lost) || e.write == PutTurn(Lost) {
        LostWritesNothing(s, t, e.write);
      }
    }
  }

  lemma FailWritesNothing(s: State, t: Tid)
    requires t in s.threads && Fits(CallOf(s, t).pc, Event.Fail)
    ensures Act(s, t, Event.Fail).conversations == s.conversations
    ensures Act(s, t, Event.Fail).prompts == s.prompts
  {
    assert Act(s, t, Event.Fail) == Leave(s, t, Failed);
  }

  predicate IsStoringRow(pc: Pc) { pc.Locked? && (pc.at.Putting? || pc.at.Closing?) }

  lemma StoresThere(pc: Pc, e: Event)
    requires Fits(pc, e) && !e.Fail? && IsStoringRow(pc)
    ensures e.Write? && IsRowWrite(e.write)
  {
  }

  predicate IsRowWrite(w: WriteEvent) { w.PutOpened? || w.PutTurn? }

  lemma LostWritesNothing(s: State, t: Tid, w: WriteEvent)
    requires t in s.threads && Fits(CallOf(s, t).pc, Write(w))
    requires w == PutOpened(Lost) || w == PutTurn(Lost)
    ensures Act(s, t, Write(w)).conversations == s.conversations
  {
    hide OpeningRow;
    hide TurnRow;
    hide Opened;
    hide Recorded;
  }

  lemma OnlyStartSends(s: State, t: Tid, e: Event, p: Prompt)
    requires CanAct(s, t, e) && Origins.IsOwnPrompt(s, t, p)
    requires Act(s, t, e).prompts != s.prompts
    ensures e == Write(Start)
  {
    assert Fits(s.threads[t].pc, e);
    hide CanAct;
    hide Act;
    if e.Fail? { FailWritesNothing(s, t); }
  }

  ghost predicate IsKeyed(s: State) {
    forall key :: key in s.conversations ==> s.conversations[key].scope.key == key
  }

  lemma EventFrom(run: seq<State>, i: nat, s: State, j: nat, s': State, t: Tid, e: Event)
    requires Runs.AreNext(run, i, s, j, s') && AllFrom(run, i)
    requires Origins.Takes(s, s', t, e) && IsKeyed(s')
    ensures AllFrom(run, j)
  {
    Origins.EventTouches(s, t, e);
    ActorFrom(run, t, i, s, j, s', e);
    hide CanAct;
    hide Act;
    hide Origins.IsOwnWrite;
    hide Origins.IsOwnPrompt;
    forall c | Origins.IsOwnWrite(s, t, c) && s'.conversations != s.conversations
      ensures IsWriting(run, i, t, c)
    {
      OnlyTheseWrite(s, t, e, c);
    }
    forall p | Origins.IsOwnPrompt(s, t, p) && s'.prompts != s.prompts
      ensures IsSending(run, i, t, |s.prompts|)
    {
      OnlyStartSends(s, t, e, p);
    }
    TouchedFrom(run, i, s, j, s', t);
  }

  lemma TouchedFrom(run: seq<State>, i: nat, s: State, j: nat, s': State, t: Tid)
    requires Runs.AreNext(run, i, s, j, s') && AllFrom(run, i) && Origins.Touches(s, s', t)
    requires ThreadFrom(run, t, j) && IsKeyed(s')
    requires forall c :: Origins.IsOwnWrite(s, t, c) && s'.conversations != s.conversations ==>
      IsWriting(run, i, t, c)
    requires forall p :: Origins.IsOwnPrompt(s, t, p) && s'.prompts != s.prompts ==>
      IsSending(run, i, t, |s.prompts|)
    ensures AllFrom(run, j)
  {
    hide ThreadFrom;
    hide StoredFrom;
    hide SentFrom;
    hide IsWriting;
    hide IsSending;
    hide Origins.IsOwnWrite;
    hide Origins.IsOwnPrompt;
    forall u | u in s'.threads ensures ThreadFrom(run, u, j) {
      if u != t { BystanderFrom(run, u, i, s, j, s'); }
    }
    forall key | key in s'.conversations ensures StoredFrom(run, j, s'.conversations[key]) {
      var c := s'.conversations[key];
      if key in s.conversations && s.conversations[key] == c {
        StoredStays(run, i, s, j, s', c);
      } else {
        WrittenFrom(run, t, i, s, j, s', c);
      }
    }
    forall n | 0 <= n < |s'.prompts| ensures SentFrom(run, j, n, s'.prompts[n]) {
      var p := s'.prompts[n];
      if n == |s.prompts| {
        PromptFrom(run, t, i, s, j, n, p);
      } else {
        assert p == s.prompts[n];
        SentStays(run, i, j, n, p);
      }
    }
  }

  lemma RestFrom(run: seq<State>, i: nat, s: State, j: nat, s': State)
    requires Runs.AreNext(run, i, s, j, s') && AllFrom(run, i) && Origins.KeepsRest(s, s')
    requires IsKeyed(s')
    ensures AllFrom(run, j)
  {
    hide StoredFrom;
    hide SentFrom;
    forall u | u in s'.threads ensures ThreadFrom(run, u, j) {
      if u in s.threads && s'.threads[u] == s.threads[u] {
        BystanderFrom(run, u, i, s, j, s');
      }
    }
    forall key | key in s'.conversations ensures StoredFrom(run, j, s'.conversations[key]) {
      StoredStays(run, i, s, j, s', s.conversations[key]);
    }
    forall n | 0 <= n < |s'.prompts| ensures SentFrom(run, j, n, s'.prompts[n]) {
      SentStays(run, i, j, n, s.prompts[n]);
    }
  }

  lemma {:induction false} EveryStateFrom(run: seq<State>, i: nat, s': State)
    requires ConversationTheorems.IsRun(run) && Runs.IsAt(run, i, s')
    ensures AllFrom(run, i)
  {
    hide ConversationTheorems.IsRun;
    hide AllFrom;
    hide Inv;
    hide Do;
    if i > 0 {
      var s := run[i - 1];
      EveryStateFrom(run, i - 1, s);
      var step := ConversationTheorems.StepOf(run, i - 1, s, i, s');
      ConversationTheorems.StateOk(run, s');
      NextFrom(run, i - 1, s, i, s', step);
    } else {
      StartFrom(run, i, s');
    }
  }

  lemma StartFrom(run: seq<State>, i: nat, s: State)
    requires ConversationTheorems.IsRun(run) && Runs.IsAt(run, i, s) && i == 0
    ensures AllFrom(run, i)
  {
    hide Next;
    hide ThreadFrom;
    hide StoredFrom;
    hide SentFrom;
  }

  lemma NextFrom(run: seq<State>, i: nat, s: State, j: nat, s': State, step: Step)
    requires Runs.AreNext(run, i, s, j, s') && AllFrom(run, i) && Do(s, step, s') && Inv(s')
    ensures AllFrom(run, j)
  {
    RowsKeyed(s');
    hide Inv;
    hide AllFrom;
    if step.ActStep? {
      EventFrom(run, i, s, j, s', step.t, step.event);
    } else {
      hide Do;
      Origins.RestKept(s, step, s');
      RestFrom(run, i, s, j, s');
    }
  }

  lemma RowsKeyed(s: State)
    requires Inv(s)
    ensures IsKeyed(s)
  {
    forall key | key in s.conversations ensures s.conversations[key].scope.key == key {
      assert RowOk(key, s.conversations[key], s.maxTurns);
    }
  }

  // ---- what a selection is like -----------------------------------------------

  lemma HeadFacts(
    run: seq<State>, t: Tid, input: Input, i: nat, epoch: int, exclude: string, head: seq<Message>)
    requires ConversationTheorems.IsRun(run) && HasReadHead(run, t, input, i, epoch, exclude, head)
    ensures NoIDTwice(head) && |head| <= 2
  {
    if IncludesRoot(input, epoch) {
      var h: nat, root, answer :| ReadHeadAt(run, t, input, i, exclude, head, h, root, answer);
      var g: nat :| ReadRootAt(run, t, input, h, exclude, root, g);
      hide ReadsAt;
      ConversationTheorems.EveryStateOk(run, g);
      ConversationTheorems.EveryStateOk(run, h);
      var rootID := input.scope.rootMessageID;
      assert root.Some? ==> MessageOk(run[g].messages, run[g].conversations, rootID);
      assert answer.Some? ==> MessageOk(run[h].messages, run[h].conversations, answer.value.id);
      hide Inv;
      hide ReplyID;
      HeadNoIDTwice(root, answer, exclude, rootID);
    }
  }

  /** A selection has no ID twice and at most two messages more than the limit. */
  lemma SelectedFacts(
    run: seq<State>, t: Tid, input: Input, i: nat, epoch: int, exclude: string,
    selected: seq<Message>)
    requires ConversationTheorems.IsRun(run)
    requires HasSelected(run, t, input, i, epoch, exclude, selected)
    ensures NoIDTwice(selected) && |selected| <= MAX_HANDOFF_MESSAGES + 2
  {
    var h: nat, head, ascending :|
      SelectedAt(run, t, input, i, epoch, exclude, selected, h, head, ascending);
    HeadFacts(run, t, input, h, epoch, exclude, head);
    ConversationTheorems.EveryStateOk(run, h);
    forall id | id in run[h].messages ensures run[h].messages[id].id == id {
      assert MessageOk(run[h].messages, run[h].conversations, id);
    }
    hide Inv;
    hide HasReadHead;
    hide NoIDTwice;
    SelectionNoIDTwice(
      run[h].messages, input.scope.key, epoch, exclude, MAX_HANDOFF_MESSAGES, head, ascending);
  }

  ghost predicate IsCallAt(run: seq<State>, g: nat, t: Tid, thread: Thread) {
    g < |run| && t in run[g].threads && run[g].threads[t] == thread
  }

  /** Every stored handoff, in every state of every run, was stored by the last write that
      changed the row: the root exchange and then the last messages of its scope and epoch in
      ascending order, as the writing call read them under its lock, before its turn without
      its own message or after it with nothing left out. It has no ID twice and at most two
      messages more than the limit. */
  lemma HandoffIsSelected(run: seq<State>, i: nat, s: State, c: Conversation)
    returns (g: nat, t: Tid, thread: Thread)
    requires ConversationTheorems.IsRun(run) && Runs.IsAt(run, i, s)
    requires c in s.conversations.Values
    ensures g < i && IsWriting(run, g, t, c) && HasRowSince(run, g, i, c)
    ensures IsCallAt(run, g, t, thread)
    ensures HasSelected(run, t, thread.input, g, c.contextEpoch, ExcludedAt(thread), c.handoff)
    ensures NoIDTwice(c.handoff) && |c.handoff| <= MAX_HANDOFF_MESSAGES + 2
  {
    EveryStateFrom(run, i, s);
    assert StoredFrom(run, i, c);
    hide AllFrom;
    hide HasSelected;
    hide HasRowSince;
    hide ConversationTheorems.IsRun;
    g, t :| StoredAt(run, i, c, g, t);
    thread := run[g].threads[t];
    SelectedFacts(run, t, thread.input, g, c.contextEpoch, ExcludedAt(thread), c.handoff);
  }

  predicate IsPrompt(s: State, n: nat, p: Prompt) { n < |s.prompts| && s.prompts[n] == p }

  /** Every prompt was sent by one step of one call, and carries, without the call's own
      message, all that the call has selected if the call opened the session itself and is
      not fresh, and nothing otherwise. So again no ID occurs twice and there are at most two
      messages more than the limit. */
  lemma CarriedIsSelected(run: seq<State>, i: nat, s: State, n: nat, p: Prompt)
    returns (g: nat, before: State, t: Tid, input: Input)
    requires ConversationTheorems.IsRun(run) && Runs.IsAt(run, i, s) && IsPrompt(s, n, p)
    ensures g < i && IsSending(run, g, t, n) && Runs.IsAt(run, g, before)
    ensures Origins.IsOwnPrompt(before, t, p) && CallOf(before, t).input == input
    ensures if HasOpened(run, t, input, g, p.session) && !input.isFresh
      then HasSelected(run, t, input, g, p.epoch, input.id, p.carried)
      else p.carried == []
    ensures NoIDTwice(p.carried) && |p.carried| <= MAX_HANDOFF_MESSAGES + 2
  {
    EveryStateFrom(run, i, s);
    assert SentFrom(run, i, n, p);
    hide AllFrom;
    hide HasSelected;
    hide HasOpened;
    hide ConversationTheorems.IsRun;
    g, t :| SentAt(run, i, n, p, g, t);
    before := run[g];
    input := before.threads[t].input;
    if p.carried != [] {
      SelectedFacts(run, t, input, g, p.epoch, p.messageID, p.carried);
    }
  }

  /** A call comes to its prompt only by sending it. */
  lemma OnlyStartLeadsToPrompt(s: State, t: Tid, e: Event)
    requires CanAct(s, t, e)
    ensures IsPrompting(CallOf(Act(s, t, e), t).pc) ==> e == Write(Start)
  {
    var thread := s.threads[t];
    assert Fits(thread.pc, e);
    if e.Read? {
      ReadLeadsOn(s, thread.input, thread.pc.at, e.read);
      assert Act(s, t, e) == Continue(s, t, AfterRead(s, thread.input, thread.pc.at, e.read));
      hide AfterRead;
    } else if e.Write? {
      WriteHandsOn(s, t, thread.input, thread.manager, thread.pc.at, e.write);
      assert Act(s, t, e) ==
        ActWrite(s, t, thread.input, thread.manager, thread.pc.at, e.write);
      hide ActWrite;
    } else {
      OthersReadNothing(s, t, e);
      hide Act;
    }
    hide CanAct;
  }

  /** The prompt that a call waits for: step `g` sent it, as prompt `n`, and the call has
      waited since. */
  ghost predicate IsWaitingFor(run: seq<State>, i: nat, t: Tid, g: nat, n: nat) {
    && g < i < |run| && t in run[i].threads && IsPrompting(run[i].threads[t].pc)
    && IsSending(run, g, t, n) && n < |run[i].prompts|
    && Origins.IsOwnPrompt(run[g], t, run[i].prompts[n])
    && t in run[g + 1].threads && run[g + 1].threads[t] == run[i].threads[t]
    && run[i].prompts[n].messageID == run[i].threads[t].input.id
    && run[i].prompts[n].session == run[i].threads[t].pc.at.plan.session
  }

  lemma {:induction false} PromptOfCall(run: seq<State>, i: nat, s': State, t: Tid)
    returns (g: nat, n: nat)
    requires ConversationTheorems.IsRun(run) && Runs.IsAt(run, i, s')
    requires t in s'.threads && IsPrompting(CallOf(s', t).pc)
    ensures IsWaitingFor(run, i, t, g, n)
  {
    assert i > 0;
    var s := run[i - 1];
    hide ConversationTheorems.IsRun;
    hide Do;
    hide ConversationTheorems.Later;
    var step := ConversationTheorems.StepOf(run, i - 1, s, i, s');
    hide IsWaitingFor;
    hide IsSending;
    if t in s.threads && s'.threads[t] == s.threads[t] {
      g, n := PromptOfCall(run, i - 1, s, t);
      ConversationTheorems.RunIsLater(run, i - 1, i);
      WaitsOn(run, i - 1, s, i, s', t, g, n);
    } else {
      SendsNow(s, step, s', t);
      g, n := i - 1, |s.prompts|;
      StartSendsOwn(run, g, s, i, s', t);
    }
  }

  lemma WaitsOn(
    run: seq<State>, i: nat, s: State, j: nat, s': State, t: Tid, g: nat, n: nat)
    requires Runs.AreNext(run, i, s, j, s') && ConversationTheorems.Later(s, s')
    requires IsWaitingFor(run, i, t, g, n)
    requires t in s'.threads && CallOf(s', t) == CallOf(s, t)
    ensures IsWaitingFor(run, j, t, g, n)
  {
    PromptKept(s, s', n);
    hide ConversationTheorems.Later;
    hide IsSending;
  }

  lemma PromptKept(s: State, s': State, n: nat)
    requires ConversationTheorems.Later(s, s')
    ensures forall p :: IsPrompt(s, n, p) ==> IsPrompt(s', n, p)
  {
    if n < |s.prompts| { assert s'.prompts[n] == s'.prompts[..|s.prompts|][n]; }
  }

  lemma SendsNow(s: State, step: Step, s': State, t: Tid)
    requires Do(s, step, s') && t in s'.threads && IsPrompting(CallOf(s', t).pc)
    requires !(t in s.threads && CallOf(s', t) == CallOf(s, t))
    ensures Origins.Takes(s, s', t, Write(Start))
  {
    if step.ActStep? {
      Origins.EventTouches(s, step.t, step.event);
      OnlyStartLeadsToPrompt(s, step.t, step.event);
      hide CanAct;
      hide Act;
    } else {
      hide Do;
      Origins.RestKept(s, step, s');
    }
  }

  lemma StartSendsOwn(run: seq<State>, g: nat, s: State, j: nat, s': State, t: Tid)
    requires Runs.AreNext(run, g, s, j, s') && Origins.Takes(s, s', t, Write(Start))
    requires t in s'.threads && IsPrompting(CallOf(s', t).pc)
    ensures IsWaitingFor(run, j, t, g, |s.prompts|)
  {
    var thread := s.threads[t];
    assert Fits(thread.pc, Write(Start));
    hide CanAct;
    assert s' == ActStart(
      s, t, thread.input, thread.manager, thread.pc.at.plan, thread.pc.at.carried);
  }
}
