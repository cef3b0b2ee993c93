/** The run queue service as its callers and one worker execute it. */
module Service {
  import opened Wrappers
  import opened Tables
  import opened MessageRuns
  import C = Conversations
  import RunQueue
  import Text

  datatype Input = Input(
    scope: Scope, messageID: string, senderID: string, text: string, mode: string,
    persona: string, createdAt: string)

  datatype Submission = Accepted(run: Run, created: bool) | Invalid | Conflict | StoreError

  predicate IsAcceptable(input: Input) {
    && input.scope.key != Shared("") && input.scope.roomID != ""
    && Text.TrimSpace(input.text) != "" && C.ParseMode(input.mode).Some?
  }

  /** The row Submit asks for; `fresh` are the random IDs. */
  function Wanted(input: Input, messageID: string, runID: string): Run
    requires IsAcceptable(input)
  {
    var id := if input.messageID == "" then messageID else input.messageID;
    Run(runID,
      Request(input.scope, id, input.senderID, Text.TrimSpace(input.text),
        C.ParseMode(input.mode).value, input.persona),
      Queued, NO_RESULT, "", input.createdAt, "", "")
  }

  /** The run stored for the same message has other content. */
  ghost predicate StoredDiffers(rows: Rows, wanted: Run) {
    forall id :: id in rows && SameMessage(rows[id], wanted) ==>
      !SameRequest(rows[id].request, wanted.request)
  }

  predicate IsQueued(rows: Rows, id: string) { id in rows && rows[id].status.Queued? }

  /** One whole attempt at a row, every statement succeeding. */
  function Attempted(
    rows: Rows, id: string, handle: Run -> RunQueue.TurnOutcome, cancelled: bool, now: string): Rows
    requires id in rows
  {
    var claimed := Claimed(rows, id, now);
    RunQueue.FinishedRows(claimed, RunQueue.Ending(id, handle(claimed[id]), cancelled), now)
  }

  /** What draining makes of a queued row. */
  ghost predicate IsDone(before: Run, after: Run, handle: Run -> RunQueue.TurnOutcome, now: string) {
    var claimed := before.(status := Running, startedAt := now);
    match handle(claimed)
    case TurnOk(result) =>
      after == claimed.(status := Completed, result := result, error := "", completedAt := now)
    case TurnErr(failure) =>
      after == claimed.(status := Failed,
        error := Text.Truncated(failure, MAX_ERROR_BYTES), completedAt := now)
  }

  lemma AttemptedDone(
    rows: Rows, id: string, handle: Run -> RunQueue.TurnOutcome, now: string, k: string)
    requires TableOk(rows) && IsQueued(rows, id) && k in rows
    ensures var after := Attempted(rows, id, handle, false, now);
      && after.Keys == rows.Keys
      && (k != id ==> after[k] == rows[k])
      && IsDone(rows[id], after[id], handle, now)
  {
  }

  /** An attempt keeps every other row and leaves one run less in the queue. */
  lemma AttemptShrinks(
    rows: Rows, id: string, handle: Run -> RunQueue.TurnOutcome, now: string)
    requires TableOk(rows) && IsQueued(rows, id)
    ensures var after := Attempted(rows, id, handle, false, now);
      && after.Keys == rows.Keys
      && (forall k :: k in rows && k != id ==> after[k] == rows[k])
      && IsDone(rows[id], after[id], handle, now)
      && |QueuedIDs(after)| < |QueuedIDs(rows)|
  {
    var after := Attempted(rows, id, handle, false, now);
    forall k | k in rows ensures after.Keys == rows.Keys && (k != id ==> after[k] == rows[k]) {
      AttemptedDone(rows, id, handle, now, k);
    }
    assert id in QueuedIDs(rows) && id !in QueuedIDs(after);
    assert QueuedIDs(after) <= QueuedIDs(rows) - {id};
    FewerIDs(QueuedIDs(after), QueuedIDs(rows) - {id});
  }

  /** Rows that were queued are queued still or have the outcome of their turn; every
      other row is as it was. */
  ghost predicate Drains(
    before: Rows, after: Rows, handle: Run -> RunQueue.TurnOutcome, now: string)
  {
    && after.Keys == before.Keys
    && forall id :: id in before ==>
         || after[id] == before[id]
         || (before[id].status.Queued? && IsDone(before[id], after[id], handle, now))
  }

  lemma AttemptDrains(
    before: Rows, rows: Rows, id: string, handle: Run -> RunQueue.TurnOutcome, now: string)
    requires TableOk(rows) && IsQueued(rows, id) && Drains(before, rows, handle, now)
    ensures var after := Attempted(rows, id, handle, false, now);
      Drains(before, after, handle, now) && |QueuedIDs(after)| < |QueuedIDs(rows)|
  {
    AttemptShrinks(rows, id, handle, now);
    hide Attempted;
    hide TableOk;
    assert rows[id] == before[id];
  }

  class Queue {
    const store: RunStore
    var wake: bool

    constructor (rows: Rows)
      requires TableOk(rows)
      ensures Valid() && fresh(store) && store.rows == Recovered(rows) && wake
    {
      store := new RunStore(rows);
      wake := true;
    }

    ghost predicate Valid()
      reads this, store
    {
      store.Valid()
    }

    /** A send on a channel of capacity one that drops what does not fit. */
    method Wake()
      modifies this
      ensures wake
    {
      wake := true;
    }

    /** `known` is what the validator says of the persona. A request is answered by
        the one run stored for its message: created by this call, or stored before
        with the same content. Anything else is a conflict. */
    method Submit(
      input: Input, known: bool, messageID: string, runID: string, insert: Outcome, readable: bool)
      returns (answer: Submission)
      requires Valid() && messageID != "" && runID != ""
      modifies this, store
      ensures Valid()
      ensures answer == Invalid <==> !IsAcceptable(input) || !known
      ensures answer == Invalid ==> store.rows == old(store.rows) && wake == old(wake)
      ensures answer != Invalid ==>
        var wanted := Wanted(input, messageID, runID);
        && store.rows ==
             (if insert.Effective() then Inserted(old(store.rows), wanted) else old(store.rows))
        && (answer == StoreError <==> !insert.Done? || !readable)
        && (answer.Accepted? ==>
              && IsRow(store.rows, answer.run)
              && answer.run.request == wanted.request
              && (answer.created <==> store.rows != old(store.rows))
              && (answer.created <==> !HasMessage(old(store.rows), wanted.request.messageID)))
        && (answer == Conflict ==>
              && store.rows == old(store.rows)
              && if HasMessage(store.rows, wanted.request.messageID) then
                   StoredDiffers(store.rows, wanted)
                 else wanted.id in store.rows)
      ensures wake == (old(wake) || (answer.Accepted? && answer.created))
    {
      if !IsAcceptable(input) || !known {
        return Invalid;
      }
      var wanted := Wanted(input, messageID, runID);
      var queued := store.QueueMessageRun(wanted, insert, readable);
      if queued.Err? {
        return StoreError;
      }
      var (stored, created) := queued.value;
      if stored.None? {
        return Conflict;
      }
      if !created && !SameRequest(stored.value.request, wanted.request) {
        return Conflict;
      }
      if created {
        Wake();
      }
      return Accepted(stored.value, created);
    }

    /** Claim the oldest queued run, handle it, write the outcome. `handle` is what
        the handler would return for a run; `cancelled` is read when it returns. */
    method ProcessNext(
      handle: Run -> RunQueue.TurnOutcome, now: string, commit: Outcome, readable: bool,
      cancelled: bool, finish: Outcome) returns (more: bool)
      requires Valid()
      modifies store
      ensures Valid()
      ensures QueuedIDs(old(store.rows)) == {} ==> store.rows == old(store.rows) && !more
      ensures forall id :: IsOldestQueued(old(store.rows), id) ==>
        && more == (commit.Done? && readable)
        && store.rows ==
             if !commit.Effective() then old(store.rows)
             else if more && finish.Effective() then
               Attempted(old(store.rows), id, handle, cancelled, now)
             else Claimed(old(store.rows), id, now)
    {
      ghost var before := store.rows;
      if QueuedIDs(before) != {} {
        ghost var some :| some in QueuedIDs(before);
        OldestQueuedExists(before, some);
        forall a, b | IsOldestQueued(before, a) && IsOldestQueued(before, b) ensures a == b {
          OldestQueuedUnique(before, a, b);
        }
      } else {
        assert forall id :: id in before ==> id !in QueuedIDs(before);
      }
      var claim := store.ClaimMessageRun(now, commit, readable);
      if claim.Err? || claim.value.None? {
        return false;
      }
      var run := claim.value.value;
      var turn := handle(run);
      match turn {
        case TurnErr(failure) =>
          if cancelled {
            store.RequeueMessageRun(run.id, finish);
          } else {
            store.FailMessageRun(run.id, failure, now, finish);
          }
        case TurnOk(result) =>
          store.CompleteMessageRun(run.id, result, now, finish);
      }
      return true;
    }

    /** The claim loop of a worker that nothing disturbs ends with an empty queue, and
        every run that was queued has the outcome of its own turn. */
    method Drain(handle: Run -> RunQueue.TurnOutcome, now: string)
      requires Valid()
      modifies store
      ensures Valid()
      ensures Drains(old(store.rows), store.rows, handle, now)
      ensures QueuedIDs(store.rows) == {}
    {
      ghost var before := store.rows;
      var more := true;
      while more
        invariant Valid() && Drains(before, store.rows, handle, now)
        invariant !more ==> QueuedIDs(store.rows) == {}
        decreases more, |QueuedIDs(store.rows)|
      {
        ghost var rows := store.rows;
        ghost var id := "";
        if QueuedIDs(rows) != {} {
          ghost var some :| some in QueuedIDs(rows);
          OldestQueuedExists(rows, some);
          id :| IsOldestQueued(rows, id);
          AttemptDrains(before, rows, id, handle, now);
        }
        more := ProcessNext(handle, now, Done, true, false, Done);
      }
    }
  }
}
