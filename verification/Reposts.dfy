/** When a reply to one Webex event can be posted more than once. */
module Reposts {
  import opened Wrappers
  import opened Tables
  import opened Webex
  import Runs
  import Text

  // ---- paths ------------------------------------------------------------------

  /** Steps of one start of the service. */
  ghost predicate Goes(s: State, s': State) {
    exists step :: Enabled(s, step) && !step.Restart? && s' == After(s, step)
  }

  predicate PostedSince(s: State, s': State, id: string) {
    exists n :: |s.posts| <= n < |s'.posts| && s'.posts[n] == id
  }

  /** A further reply to the event may be posted without a restart. */
  ghost predicate CanPostNow(s: State, id: string) {
    exists s' :: Runs.Leads(Goes, s, s') && PostedSince(s, s', id)
  }

  ghost predicate CanPost(s: State, id: string) {
    exists s' :: Runs.Leads(Next, s, s') && PostedSince(s, s', id)
  }

  lemma GoesOn(from: State, s: State, step: Step) returns (s': State)
    requires Runs.Leads(Goes, from, s) && Inv(s) && Enabled(s, step) && !step.Restart?
    ensures s' == After(s, step) && Runs.Leads(Goes, from, s') && Inv(s')
  {
    hide Text.TrimSpace;
    s' := After(s, step);
    assert Goes(s, s') && Next(s, s');
    hide Inv;
    hide Enabled;
    hide After;
    NextOk(s, s');
    hide Goes;
    hide Runs.Leads;
    Runs.LeadsOn(Goes, from, s, s');
  }

  // ---- what is answered -------------------------------------------------------

  /** The event's message is another person's, of the event's room, and has text. */
  predicate IsAnswerable(s: State, id: string) {
    && id in s.rows && id in s.inbox.sent
    && var message := s.inbox.sent[id];
    && message.room == s.rows[id].room && message.sender != s.inbox.bot
    && Text.TrimSpace(message.text) != ""
  }

  /** What comes of an event that is posted for, and of one that fails to be fetched. */
  function Answered(message: Delivery): Answers {
    Answers(Some(message), true, Some(message), Outcome.Done, Handled.Reply("", ""), Outcome.Done)
  }

  const UNREAD := Answers(None, false, None, Lost, HandleError, Lost)

  predicate IsSent(s: State, id: string, message: Delivery) {
    id in s.inbox.sent && s.inbox.sent[id] == message
  }

  /** The worker is at the event. */
  predicate IsWorking(s: State, w: nat, id: string) {
    w < |s.workers| && s.workers[w].Working? && s.workers[w].id == id
  }

  lemma AnsweredIsPosted(s: State, w: nat, id: string, message: Delivery)
    requires Inv(s) && IsWorking(s, w, id) && IsAnswerable(s, id) && IsSent(s, id, message)
    ensures
      var step := Work(w, Answered(message), "");
      && Enabled(s, step)
      && After(s, step).posts == s.posts + [id] && After(s, step).rows == s.rows
  {
    assert WorkerOk(s.rows, s.workers[w]);
    hide Inv;
    hide WorkerOk;
    hide Text.TrimSpace;
    hide MessagesAfter;
    hide Succeeds;
    PostsAnswered(s.inbox.bot, s.log, s.workers[w].room, message);
    hide PostsFor;
  }

  lemma PostsAnswered(bot: string, log: Messages, room: string, message: Delivery)
    requires message.sender != bot && message.room == room
    ensures PostsFor(bot, log, room, Answered(message)) != []
  {
  }

  /** Only for answerable events is anything posted. */
  lemma PostedIsAnswerable(s: State, step: Step, w: nat, id: string)
    requires Inv(s) && IsWorkOf(step, w) && IsWorking(s, w, id)
    requires After(s, step).posts != s.posts
    ensures IsAnswerable(s, id)
  {
    assert WorkerOk(s.rows, s.workers[w]);
    hide Inv;
    hide WorkerOk;
    hide Text.TrimSpace;
    hide MessagesAfter;
    hide Succeeds;
  }

  predicate IsWorkOf(step: Step, w: nat) { step.Work? && step.w == w }

  /** No step changes whether an event is. */
  lemma AnswerableStays(s: State, step: Step, id: string)
    requires Inv(s) && Enabled(s, step) && id in s.rows
    ensures id in After(s, step).rows && After(s, step).inbox == s.inbox
    ensures IsAnswerable(After(s, step), id) <==> IsAnswerable(s, id)
  {
    hide Text.TrimSpace;
    assert Next(s, After(s, step));
    NextIsLater(s, After(s, step));
    InboxStays(s, step);
    hide Inv;
    hide Enabled;
    hide After;
    assert IsLaterEvent(s.rows[id], After(s, step).rows[id]);
  }

  lemma InboxStays(s: State, step: Step)
    requires Enabled(s, step)
    ensures After(s, step).inbox == s.inbox
  {
    hide Succeeds;
    hide PostsFor;
    hide MessagesAfter;
  }

  // ---- towards a post ---------------------------------------------------------

  predicate IsOpenIn(s: State, id: string) { id in s.rows && IsOpen(s.rows[id]) }

  predicate IsPendingIn(s: State, id: string) { id in s.rows && s.rows[id].status.Pending? }

  const FIRST: nat := 0

  predicate IsFree(s: State, w: nat) { w < |s.workers| && s.workers[w].Free? }

  /** The first worker finishes what it is at; its write is lost. */
  lemma FreesWorker(from: State, s: State, id: string) returns (s': State)
    requires Runs.Leads(Goes, from, s) && Inv(s) && IsPendingIn(s, id)
    ensures Runs.Leads(Goes, from, s') && Inv(s') && IsFree(s', FIRST)
    ensures s'.rows == s.rows && s'.posts == s.posts && s'.inbox == s.inbox
  {
    hide Text.TrimSpace;
    hide Runs.Leads;
    s' := s;
    if s'.workers[0].Working? { s' := GoesOn(from, s', Work(0, UNREAD, "")); }
    if s'.workers[0].Succeeded? { s' := GoesOn(from, s', Complete(0, Lost)); }
    if s'.workers[0].Stumbled? { s' := GoesOn(from, s', Retry(0, "", Lost)); }
  }

  function Due(rows: Rows, now: string): set<string> {
    set k | k in rows && IsClaimable(rows, k, now)
  }

  lemma FewerDue(rows: Rows, k: string, now: string)
    requires IsClaimable(rows, k, now)
    ensures |Due(Claimed(rows, k), now)| < |Due(rows, now)|
  {
    assert Due(Claimed(rows, k), now) == Due(rows, now) - {k};
    assert k in Due(rows, now);
  }

  /** The events before it are claimed in vain. */
  lemma {:induction false} ComesFirst(from: State, s: State, id: string, now: string)
    returns (s': State)
    requires Runs.Leads(Goes, from, s) && Inv(s) && IsFree(s, FIRST)
    requires IsClaimable(s.rows, id, now)
    ensures Runs.Leads(Goes, from, s') && Inv(s') && IsFree(s', FIRST)
    ensures IsNextEvent(s'.rows, id, now) && s'.posts == s.posts
    ensures IsAnswerable(s, id) ==> IsAnswerable(s', id)
    decreases |Due(s.rows, now)|
  {
    hide Text.TrimSpace;
    s' := s;
    hide Runs.Leads;
    if !IsNextEvent(s.rows, id, now) {
      NextEventExists(s.rows, id, now);
      var k :| IsNextEvent(s.rows, k, now);
      assert Enabled(s, Claim(0, k, now, Unknown));
      s' := GoesOn(from, s, Claim(0, k, now, Unknown));
      FewerDue(s.rows, k, now);
      s' := ComesFirst(from, s', id, now);
    }
  }

  /** The event stays open, and one reply to it is posted. */
  ghost predicate OneMorePost(s: State, s': State, id: string) {
    s'.posts == s.posts + [id] && IsOpenIn(s', id) && IsAnswerable(s', id)
  }

  lemma PostsPending(from: State, s: State, id: string) returns (s': State)
    requires Runs.Leads(Goes, from, s) && Inv(s) && IsPendingIn(s, id) && IsAnswerable(s, id)
    ensures Runs.Leads(Goes, from, s') && Inv(s') && OneMorePost(s, s', id)
  {
    hide Text.TrimSpace;
    var now := s.rows[id].due;
    LessIrreflexive(now);
    hide Runs.Leads;
    hide Inv;
    s' := FreesWorker(from, s, id);
    s' := ComesFirst(from, s', id, now);
    s' := GoesOn(from, s', Claim(FIRST, id, now, Outcome.Done));
    var message := s'.inbox.sent[id];
    AnsweredIsPosted(s', FIRST, id, message);
    s' := GoesOn(from, s', Work(FIRST, Answered(message), ""));
  }

  // ---- before the next restart ------------------------------------------------

  /** This start may post for the event: it is pending, or a worker is at it, or about to
      put it back. */
  predicate MayPost(s: State, id: string) {
    || IsPendingIn(s, id)
    || exists w :: 0 <= w < |s.workers| && IsAtOrBack(s.workers[w], id)
  }

  predicate IsAtOrBack(worker: Worker, id: string) {
    || (worker.Working? && worker.id == id)
    || (worker.Stumbled? && worker.id == id && worker.attempts + 1 < MAX_ATTEMPTS)
  }

  lemma PostsOnce(s: State, id: string) returns (s': State)
    requires Inv(s) && MayPost(s, id) && IsAnswerable(s, id)
    ensures Runs.Leads(Goes, s, s') && Inv(s') && OneMorePost(s, s', id)
  {
    hide Text.TrimSpace;
    Runs.LeadsItself(Goes, s);
    hide Runs.Leads;
    hide IsAnswerable;
    if IsPendingIn(s, id) {
      hide Inv;
      s' := PostsPending(s, s, id);
    } else {
      var w: nat :| w < |s.workers| && IsAtOrBack(s.workers[w], id);
      if s.workers[w].Working? {
        s' := PostsNow(s, w, id);
      } else {
        s' := PutBack(s, w, id);
        hide Inv;
        s' := PostsPending(s, s', id);
      }
    }
  }

  lemma PostsNow(s: State, w: nat, id: string) returns (s': State)
    requires Inv(s) && IsWorking(s, w, id) && IsAnswerable(s, id) && Runs.Leads(Goes, s, s)
    ensures Runs.Leads(Goes, s, s') && Inv(s') && OneMorePost(s, s', id)
  {
    hide Text.TrimSpace;
    assert WorkerOk(s.rows, s.workers[w]);
    hide Runs.Leads;
    var message := s.inbox.sent[id];
    AnsweredIsPosted(s, w, id, message);
    var step := Work(w, Answered(message), "");
    AnswerableStays(s, step, id);
    hide Inv;
    hide IsAnswerable;
    hide Answered;
    s' := GoesOn(s, s, step);
  }

  /** The worker has failed with the event and puts it back. */
  lemma PutBack(s: State, w: nat, id: string) returns (s': State)
    requires Inv(s) && IsPuttingBack(s, w, id) && Runs.Leads(Goes, s, s)
    ensures Runs.Leads(Goes, s, s') && Inv(s') && IsPendingIn(s', id) && s'.posts == s.posts
    ensures IsAnswerable(s, id) ==> IsAnswerable(s', id)
  {
    hide Text.TrimSpace;
    assert WorkerOk(s.rows, s.workers[w]);
    hide Runs.Leads;
    var step := Retry(w, "", Outcome.Done);
    AnswerableStays(s, step, id);
    hide Inv;
    hide IsAnswerable;
    s' := GoesOn(s, s, step);
  }

  predicate IsPuttingBack(s: State, w: nat, id: string) {
    w < |s.workers| && s.workers[w].Stumbled? && IsAtOrBack(s.workers[w], id)
  }

  /** Posts are only appended, none of them for the event. */
  predicate NoPost(s: State, s': State, id: string) {
    |s.posts| <= |s'.posts| && !PostedSince(s, s', id)
  }

  lemma NoPostYet(s: State, s': State, step: Step, id: string)
    requires Enabled(s, step) && s' == After(s, step)
    requires forall w: nat :: IsWorkOf(step, w) && IsWorking(s, w, id) ==> s'.posts == s.posts
    ensures NoPost(s, s', id)
  {
    hide Text.TrimSpace;
    hide CanAnswer;
    hide IsNextEvent;
    hide Succeeds;
    hide PostsFor;
    hide MessagesAfter;
    match step {
      case Enqueue(_, _, _, _) => {}
      case Claim(_, _, _, _) => {}
      case Work(w, _, _) => assert IsWorkOf(step, w);
      case Complete(_, _) => {}
      case Retry(_, _, _) => {}
      case Store(_, _) => {}
      case Restart(_) => {}
    }
  }

  lemma NoPostAfter(from: State, s: State, s': State, id: string)
    requires NoPost(from, s, id) && NoPost(s, s', id) && s.posts <= s'.posts
    ensures NoPost(from, s', id)
  {
    forall n | |from.posts| <= n < |s'.posts| ensures s'.posts[n] != id {
      if n < |s.posts| { assert s.posts[n] == s'.posts[n]; }
    }
  }

  lemma PostsGrow(s: State, step: Step)
    requires Enabled(s, step)
    ensures s.posts <= After(s, step).posts
  {
    hide Text.TrimSpace;
    hide Enabled;
    hide Succeeds;
    hide PostsFor;
    hide MessagesAfter;
    match step {
      case Enqueue(_, _, _, _) => {}
      case Claim(_, _, _, _) => {}
      case Work(_, _, _) => {}
      case Complete(_, _) => {}
      case Retry(_, _, _) => {}
      case Store(_, _) => {}
      case Restart(_) => {}
    }
  }

  ghost predicate HasNoMore(from: State, s: State, id: string) {
    && Inv(s) && id in s.rows && !(MayPost(s, id) && IsAnswerable(s, id)) && NoPost(from, s, id)
  }

  lemma StaysOver(from: State, s: State, s': State, id: string)
    requires HasNoMore(from, s, id) && Goes(s, s')
    ensures HasNoMore(from, s', id)
  {
    hide Text.TrimSpace;
    var step :| Enabled(s, step) && !step.Restart? && s' == After(s, step);
    assert Next(s, s');
    NextOk(s, s');
    if !IsAnswerable(s, id) {
      AnswerableStays(s, step, id);
      PostsNone(s, step, id);
    } else {
      NotAgain(s, step, id);
    }
    AnswerableStays(s, step, id);
    hide Inv;
    hide MayPost;
    hide IsAnswerable;
    NoPostYet(s, s', step, id);
    PostsGrow(s, step);
    NoPostAfter(from, s, s', id);
  }

  /** For an event that is not answerable nobody posts. */
  lemma PostsNone(s: State, step: Step, id: string)
    requires Inv(s) && !IsAnswerable(s, id)
    ensures forall w: nat :: IsWorkOf(step, w) && IsWorking(s, w, id) ==>
      After(s, step).posts == s.posts
  {
    hide IsAnswerable;
    hide Inv;
    hide After;
    if step.Work? && IsWorking(s, step.w, id) && After(s, step).posts != s.posts {
      PostedIsAnswerable(s, step, step.w, id);
    }
  }

  lemma NotAgain(s: State, step: Step, id: string)
    requires Inv(s) && Enabled(s, step) && !step.Restart? && id in s.rows && !MayPost(s, id)
    ensures id in After(s, step).rows && !MayPost(After(s, step), id)
    ensures forall w: nat :: IsWorkOf(step, w) ==> !IsWorking(s, w, id)
  {
    hide Text.TrimSpace;
    var s' := After(s, step);
    forall w | 0 <= w < |s'.workers| ensures !IsAtOrBack(s'.workers[w], id) {
      assert !IsAtOrBack(s.workers[w], id);
    }
  }

  /** Within one start of the service a further reply to an event can be posted exactly
      when its message is one to answer, while it is pending, or a worker is at it, or has
      failed with it for less than the fifth time and is about to put it back. */
  lemma PostedBeforeRestartExactly(run: seq<State>, s: State, id: string)
    requires IsRun(run) && s in run && id in s.rows
    ensures CanPostNow(s, id) <==> MayPost(s, id) && IsAnswerable(s, id)
  {
    StateOk(run, s);
    hide *;
    PostedNowExactly(s, id);
  }

  lemma PostedNowExactly(s: State, id: string)
    requires Inv(s) && id in s.rows
    ensures CanPostNow(s, id) <==> MayPost(s, id) && IsAnswerable(s, id)
  {
    hide Text.TrimSpace;
    hide Inv;
    hide Goes;
    hide MayPost;
    hide IsAnswerable;
    if MayPost(s, id) && IsAnswerable(s, id) {
      var s' := PostsOnce(s, id);
      assert PostedSince(s, s', id) by { assert s'.posts[|s.posts|] == id; }
    } else {
      forall s' | Runs.Leads(Goes, s, s') ensures !PostedSince(s, s', id) { NotPosted(s, s', id); }
    }
  }

  lemma NotPosted(s: State, s': State, id: string)
    requires Inv(s) && id in s.rows && !(MayPost(s, id) && IsAnswerable(s, id))
    requires Runs.Leads(Goes, s, s')
    ensures !PostedSince(s, s', id)
  {
    hide Text.TrimSpace;
    forall x, y | HasNoMore(s, x, id) && Goes(x, y) ensures HasNoMore(s, y, id) {
      StaysOver(s, x, y, id);
    }
    hide Inv;
    hide Goes;
    hide MayPost;
    hide IsAnswerable;
    Runs.LeadsKeeping(Goes, x => HasNoMore(s, x, id), s, s');
  }

  // ---- restarts included ------------------------------------------------------

  ghost predicate IsOverFor(from: State, s: State, id: string) {
    && Inv(s) && id in s.rows && !(IsOpenIn(s, id) && IsAnswerable(s, id))
    && NoPost(from, s, id)
  }

  lemma StaysOverFor(from: State, s: State, s': State, id: string)
    requires IsOverFor(from, s, id) && Next(s, s')
    ensures IsOverFor(from, s', id)
  {
    hide Text.TrimSpace;
    var step :| Enabled(s, step) && s' == After(s, step);
    NextOk(s, s');
    NextIsLater(s, s');
    if step.Work? { assert WorkerOk(s.rows, s.workers[step.w]); }
    if !IsAnswerable(s, id) { PostsNone(s, step, id); }
    AnswerableStays(s, step, id);
    assert IsLaterEvent(s.rows[id], s'.rows[id]);
    hide Inv;
    hide Enabled;
    hide After;
    hide IsAnswerable;
    NoPostYet(s, s', step, id);
    PostsGrow(s, step);
    NoPostAfter(from, s, s', id);
  }

  lemma OverIsNotPosted(s: State, s': State, id: string)
    requires Inv(s) && id in s.rows && !(IsOpenIn(s, id) && IsAnswerable(s, id))
    requires Runs.Leads(Next, s, s')
    ensures !PostedSince(s, s', id)
  {
    hide Text.TrimSpace;
    forall x, y | IsOverFor(s, x, id) && Next(x, y) ensures IsOverFor(s, y, id) {
      StaysOverFor(s, x, y, id);
    }
    hide Inv;
    hide Next;
    hide IsOpen;
    hide IsAnswerable;
    Runs.LeadsKeeping(Next, x => IsOverFor(s, x, id), s, s');
  }

  /** An open event is pending after a restart. */
  lemma PostsAfterRestart(s: State, id: string) returns (s': State)
    requires Inv(s) && IsOpenIn(s, id) && IsAnswerable(s, id)
    ensures Runs.Leads(Next, s, s') && Inv(s') && OneMorePost(s, s', id)
  {
    hide Text.TrimSpace;
    var s1 := After(s, Restart(1));
    assert IsPendingIn(s1, id) && Next(s, s1);
    NextOk(s, s1);
    hide Inv;
    Runs.LeadsItself(Next, s);
    Runs.LeadsOn(Next, s, s, s1);
    Runs.LeadsItself(Goes, s1);
    hide Runs.Leads;
    s' := PostsPending(s1, s1, id);
    Runs.LeadsSo(Goes, Next, s1, s');
    Runs.LeadsFurther(Next, s, s1, s');
  }

  /** A further reply to an event, be it the same one again, can be posted exactly when its
      message is one to answer, while the event is pending or processing. */
  lemma PostedAgainExactly(run: seq<State>, s: State, id: string)
    requires IsRun(run) && s in run && id in s.rows
    ensures CanPost(s, id) <==> IsOpenIn(s, id) && IsAnswerable(s, id)
  {
    StateOk(run, s);
    hide *;
    PostedExactly(s, id);
  }

  lemma PostedExactly(s: State, id: string)
    requires Inv(s) && id in s.rows
    ensures CanPost(s, id) <==> IsOpenIn(s, id) && IsAnswerable(s, id)
  {
    hide Text.TrimSpace;
    hide Inv;
    hide Next;
    hide IsOpenIn;
    hide IsAnswerable;
    if IsOpenIn(s, id) && IsAnswerable(s, id) {
      var s' := PostsAfterRestart(s, id);
      assert PostedSince(s, s', id) by { assert s'.posts[|s.posts|] == id; }
    } else {
      forall s' | Runs.Leads(Next, s, s') ensures !PostedSince(s, s', id) {
        OverIsNotPosted(s, s', id);
      }
    }
  }

  /** When processing reports no error, a further reply is posted in no way before a restart;
      and it can be after one that comes before the completion has taken effect, exactly when
      the message is one to answer. If a reply has been posted already, it is. */
  lemma PostedThenRestarted(
    run: seq<State>, s: State, w: nat, o: Answers, failure: string, s': State, id: string)
    requires IsRun(run) && s in run && IsWorking(s, w, id) && Enabled(s, Work(w, o, failure))
    requires s' == After(s, Work(w, o, failure)) && HasSucceeded(s', w)
    ensures !CanPostNow(s', id) && (CanPost(s', id) <==> IsAnswerable(s', id))
    ensures s'.posts != s.posts ==> IsAnswerable(s', id)
  {
    StateOk(run, s);
    hide IsRun;
    hide HasSucceeded;
    hide IsWorking;
    var step := Work(w, o, failure);
    assert IsWorkOf(step, w) && Next(s, s');
    hide Enabled;
    hide After;
    hide Inv;
    NextOk(s, s');
    NoLongerAt(s, w, o, failure, s', id);
    if s'.posts != s.posts { PostedIsAnswerable(s, step, w, id); }
    AnswerableStays(s, step, id);
    hide *;
    PostedNowExactly(s', id);
    PostedExactly(s', id);
  }

  predicate HasSucceeded(s: State, w: nat) { w < |s.workers| && s.workers[w].Succeeded? }

  lemma NoLongerAt(s: State, w: nat, o: Answers, failure: string, s': State, id: string)
    requires Inv(s) && IsWorking(s, w, id) && Enabled(s, Work(w, o, failure))
    requires s' == After(s, Work(w, o, failure)) && HasSucceeded(s', w)
    ensures id in s.rows && IsOpenIn(s', id) && !MayPost(s', id)
  {
    hide Text.TrimSpace;
    assert WorkerOk(s.rows, s.workers[w]);
    hide Succeeds;
    hide PostsFor;
    hide MessagesAfter;
  }

  /** So many replies to the event have been posted, and nothing else. */
  predicate IsPostedOnly(s: State, id: string, count: int) {
    |s.posts| == count && forall n :: 0 <= n < count ==> s.posts[n] == id
  }

  /** Another person's message with text. */
  predicate IsQuestion(message: Delivery, bot: string) {
    && message.id != "" && message.room != "" && message.sender != bot
    && Text.TrimSpace(message.text) != ""
  }

  /** It happens, for any number of posts: each time the completion is lost in a crash. */
  lemma {:induction false} PostedManyTimes(message: Delivery, bot: string, count: nat)
    returns (run: seq<State>, s: State)
    requires IsQuestion(message, bot)
    ensures IsRun(run) && Runs.IsLast(run, s)
    ensures IsAnswerable(s, message.id) && IsOpenIn(s, message.id)
    ensures IsPostedOnly(s, message.id, count)
  {
    hide *;
    if count == 0 {
      run, s := Received(message, bot);
    } else {
      var before;
      run, before := PostedManyTimes(message, bot, count - 1);
      run, s := PostedOnceMore(run, before, message.id);
      OneMoreOf(before, s, message.id, count - 1);
    }
  }

  lemma OneMoreOf(s: State, s': State, id: string, count: int)
    requires IsPostedOnly(s, id, count) && OneMorePost(s, s', id)
    ensures IsPostedOnly(s', id, count + 1) && IsAnswerable(s', id) && IsOpenIn(s', id)
  {
    hide IsAnswerable;
    hide IsOpenIn;
  }

  lemma PostedOnceMore(run: seq<State>, s: State, id: string)
    returns (longer: seq<State>, s': State)
    requires IsRun(run) && Runs.IsLast(run, s) && IsAnswerable(s, id) && IsOpenIn(s, id)
    ensures IsRun(longer) && Runs.IsLast(longer, s') && OneMorePost(s, s', id)
  {
    StateOk(run, s);
    hide Inv;
    hide IsAnswerable;
    hide IsOpenIn;
    hide Next;
    hide Init;
    s' := PostsAfterRestart(s, id);
    hide OneMorePost;
    longer := Runs.RunLeadsOn(Init, Next, run, s, s');
  }

  lemma Received(message: Delivery, bot: string) returns (run: seq<State>, s: State)
    requires IsQuestion(message, bot)
    ensures IsRun(run) && Runs.IsLast(run, s)
    ensures IsAnswerable(s, message.id) && IsOpenIn(s, message.id)
    ensures IsPostedOnly(s, message.id, 0)
  {
    hide Text.TrimSpace;
    var inbox := Inbox(bot, map[message.id := message]);
    var first := State(map[], [Free], map[], [], 0, map[], inbox);
    var step := Enqueue(message.id, message.room, "", Outcome.Done);
    s := After(first, step);
    run := [first, s];
    forall i: nat ensures Runs.StepAt(Next, run, i) { assert Next(first, s); }
  }
}
