/** The durable queue: the message_runs table and the statements on it. */
module MessageRuns {
  import opened Wrappers
  import opened Tables
  import Text

  const MAX_ERROR_BYTES: nat := 2000

  datatype Status = Queued | Running | Completed | Failed

  /** What a caller asked for; fixed for as long as the run exists. */
  datatype Request = Request(
    scope: Scope, messageID: string, senderID: string, text: string, mode: string, persona: string)

  datatype Result = Result(
    persona: string, activeRunID: string, reply: string, stopReason: string,
    generation: int, cached: bool, steered: bool)

  datatype Run = Run(
    id: string, request: Request, status: Status, result: Result, error: string,
    createdAt: string, startedAt: string, completedAt: string)

  type Rows = map<string, Run>

  const NO_RESULT: Result := Result("", "", "", "", 0, false, false)

  /** sameRequest: everything but the message ID, which is equal already. */
  predicate SameRequest(a: Request, b: Request) {
    a.scope == b.scope && a.senderID == b.senderID && a.text == b.text &&
    a.mode == b.mode && a.persona == b.persona
  }

  predicate IsTerminal(status: Status) { status.Completed? || status.Failed? }

  predicate IsComplete(run: Run) {
    run.id != "" && run.request.messageID != "" && run.request.scope.key != Shared("") &&
    run.request.scope.roomID != "" && run.request.text != "" && run.request.mode != ""
  }

  // ---- the table --------------------------------------------------------------

  predicate IsRow(rows: Rows, run: Run) { run.id in rows && rows[run.id] == run }

  predicate HasMessage(rows: Rows, messageID: string) {
    exists id :: id in rows && rows[id].request.messageID == messageID
  }

  predicate SameMessage(a: Run, b: Run) { a.request.messageID == b.request.messageID }

  /** run_id is the key, message_id is unique, and errors are bounded. */
  ghost predicate TableOk(rows: Rows) {
    && (forall id :: id in rows ==> rows[id].id == id && |rows[id].error| <= MAX_ERROR_BYTES)
    && (forall a, b :: a in rows && b in rows && SameMessage(rows[a], rows[b]) ==> a == b)
  }

  function Fresh(run: Run): Run {
    run.(status := Queued, result := NO_RESULT, error := "", startedAt := "", completedAt := "")
  }

  /** INSERT OR IGNORE: a taken run ID or message ID leaves the table as it is. */
  function Inserted(rows: Rows, run: Run): Rows {
    if run.id in rows || HasMessage(rows, run.request.messageID) then rows
    else rows[run.id := Fresh(run)]
  }

  /** ORDER BY created_at, run_id. */
  predicate Earlier(a: Run, b: Run) {
    Less(a.createdAt, b.createdAt) || (a.createdAt == b.createdAt && Less(a.id, b.id))
  }

  predicate IsOldestQueued(rows: Rows, id: string) {
    && id in rows
    && rows[id].status.Queued?
    && forall k :: k in rows && rows[k].status.Queued? && k != id ==> Earlier(rows[id], rows[k])
  }

  function Claimed(rows: Rows, id: string, now: string): Rows {
    if id !in rows then rows
    else rows[id := rows[id].(status := Running, startedAt := now)]
  }

  /** The three writes that end an attempt; the first two do not look at the status. */
  function Finished(rows: Rows, id: string, result: Result, now: string): Rows {
    if id !in rows then rows
    else rows[id :=
      rows[id].(status := Completed, result := result, error := "", completedAt := now)]
  }

  function Broken(rows: Rows, id: string, failure: string, now: string): Rows {
    if id !in rows then rows
    else rows[id := rows[id].(
      status := Failed, error := Text.Truncated(failure, MAX_ERROR_BYTES), completedAt := now)]
  }

  function Requeued(rows: Rows, id: string): Rows {
    if id in rows && rows[id].status.Running? then
      rows[id := rows[id].(status := Queued, startedAt := "")]
    else rows
  }

  /** What opening the database does to interrupted runs. */
  function Recovered(rows: Rows): Rows {
    map id | id in rows :: if rows[id].status.Running? then
      rows[id].(status := Queued, startedAt := "") else rows[id]
  }

  function QueuedIDs(rows: Rows): set<string> { set id | id in rows && rows[id].status.Queued? }

  lemma {:induction false} FewerIDs(a: set<string>, b: set<string>)
    requires a <= b
    ensures |a| <= |b|
  {
    if a != {} {
      var x :| x in a;
      FewerIDs(a - {x}, b - {x});
    }
  }

  // ---- facts about the statements ---------------------------------------------

  lemma EarlierTotal(a: Run, b: Run)
    requires a.id != b.id
    ensures Earlier(a, b) != Earlier(b, a)
  {
    LessTotal(a.createdAt, b.createdAt);
    LessTotal(a.id, b.id);
    LessIrreflexive(a.createdAt);
    LessIrreflexive(a.id);
    if Less(a.createdAt, b.createdAt) && Less(b.createdAt, a.createdAt) {
      LessTransitive(a.createdAt, b.createdAt, a.createdAt);
    }
    if Less(a.id, b.id) && Less(b.id, a.id) {
      LessTransitive(a.id, b.id, a.id);
    }
  }

  lemma EarlierTransitive(a: Run, b: Run, c: Run)
    requires Earlier(a, b) && Earlier(b, c)
    ensures Earlier(a, c)
  {
    if Less(a.createdAt, b.createdAt) && Less(b.createdAt, c.createdAt) {
      LessTransitive(a.createdAt, b.createdAt, c.createdAt);
    } else if a.createdAt == b.createdAt == c.createdAt {
      LessTransitive(a.id, b.id, c.id);
    }
  }

  /** A queue that is not empty has exactly one oldest run. */
  lemma OldestQueuedExists(rows: Rows, id: string)
    requires TableOk(rows) && id in rows && rows[id].status.Queued?
    ensures exists k :: IsOldestQueued(rows, k)
  {
    var queued := set k | k in rows && rows[k].status.Queued?;
    assert id in queued;
    OldestAmong(rows, queued);
    var k :| k in queued && forall j :: j in queued && j != k ==> Earlier(rows[k], rows[j]);
    assert IsOldestQueued(rows, k);
  }

  lemma {:induction false} OldestAmong(rows: Rows, ids: set<string>)
    requires TableOk(rows) && ids != {} && ids <= rows.Keys
    ensures exists k :: k in ids && forall j :: j in ids && j != k ==> Earlier(rows[k], rows[j])
    decreases |ids|
  {
    var a :| a in ids;
    if ids == {a} {
      assert forall j :: j in ids && j != a ==> Earlier(rows[a], rows[j]);
    } else {
      OldestAmong(rows, ids - {a});
      var b :| b in ids - {a} &&
        forall j :: j in ids - {a} && j != b ==> Earlier(rows[b], rows[j]);
      EarlierTotal(rows[a], rows[b]);
      var least := if Earlier(rows[a], rows[b]) then a else b;
      forall j | j in ids && j != least ensures Earlier(rows[least], rows[j]) {
        if least == a && j != b { EarlierTransitive(rows[a], rows[b], rows[j]); }
      }
    }
  }

  lemma OldestQueuedUnique(rows: Rows, a: string, b: string)
    requires TableOk(rows) && IsOldestQueued(rows, a) && IsOldestQueued(rows, b)
    ensures a == b
  {
    if a != b { EarlierTotal(rows[a], rows[b]); }
  }

  /** Changing what is neither a key nor the request keeps the table in order. */
  lemma UpdateKeepsTable(rows: Rows, run: Run)
    requires TableOk(rows) && run.id in rows && run.request == rows[run.id].request
    requires |run.error| <= MAX_ERROR_BYTES
    ensures TableOk(rows[run.id := run])
  {
    forall a, b | a in rows && b in rows && SameMessage(rows[run.id := run][a], rows[run.id := run][b])
      ensures a == b
    {
      assert SameMessage(rows[a], rows[b]);
    }
  }

  lemma InsertedKeepsTable(rows: Rows, run: Run)
    requires TableOk(rows)
    ensures TableOk(Inserted(rows, run))
  {
  }

  lemma RecoveredKeepsTable(rows: Rows)
    requires TableOk(rows)
    ensures TableOk(Recovered(rows))
  {
    forall a, b | a in rows && b in rows && SameMessage(Recovered(rows)[a], Recovered(rows)[b])
      ensures a == b
    {
      assert SameMessage(rows[a], rows[b]);
    }
  }

  lemma ClaimedKeepsTable(rows: Rows, id: string, now: string)
    requires TableOk(rows) && id in rows
    ensures TableOk(Claimed(rows, id, now))
  {
    UpdateKeepsTable(rows, Claimed(rows, id, now)[id]);
  }

  lemma FinishedKeepsTable(rows: Rows, id: string, result: Result, now: string)
    requires TableOk(rows)
    ensures TableOk(Finished(rows, id, result, now))
  {
    if id in rows { UpdateKeepsTable(rows, Finished(rows, id, result, now)[id]); }
  }

  lemma BrokenKeepsTable(rows: Rows, id: string, failure: string, now: string)
    requires TableOk(rows)
    ensures TableOk(Broken(rows, id, failure, now))
  {
    if id in rows {
      assert |Text.Truncated(failure, MAX_ERROR_BYTES)| <= MAX_ERROR_BYTES;
      UpdateKeepsTable(rows, Broken(rows, id, failure, now)[id]);
    }
  }

  lemma RequeuedKeepsTable(rows: Rows, id: string)
    requires TableOk(rows)
    ensures TableOk(Requeued(rows, id))
  {
    if id in rows && rows[id].status.Running? {
      UpdateKeepsTable(rows, Requeued(rows, id)[id]);
    }
  }

  /** Recovery turns exactly the running rows into queued ones and loses none. */
  lemma RecoveredExactly(rows: Rows, id: string)
    ensures id in Recovered(rows) <==> id in rows
    ensures id in rows ==>
      var before, after := rows[id], Recovered(rows)[id];
      && !after.status.Running?
      && (before.status.Running? ==> after == before.(status := Queued, startedAt := ""))
      && (!before.status.Running? ==> after == before)
  {
  }

  /** A stored failure is a front of the error text, at most 2000 bytes; well-formed
      text stays well-formed and loses at most three bytes of the limit. */
  lemma FailureTextBounded(rows: Rows, id: string, failure: string, now: string)
    requires id in rows
    ensures
      var error := Broken(rows, id, failure, now)[id].error;
      && |error| <= MAX_ERROR_BYTES && error <= failure
      && (Text.Valid(failure) ==> Text.Valid(error))
      && (Text.Valid(failure) && |failure| > MAX_ERROR_BYTES ==> |error| + 3 >= MAX_ERROR_BYTES)
  {
    if Text.Valid(failure) { Text.TruncatedKeepsText(failure, MAX_ERROR_BYTES); }
  }

  // ---- the store --------------------------------------------------------------

  datatype Answer<+T> = Ok(value: T) | Err

  class RunStore {
    var rows: Rows

    ghost predicate Valid()
      reads this
    {
      TableOk(rows)
    }

    /** Opening a database returns interrupted runs to the queue. */
    constructor (stored: Rows)
      requires TableOk(stored)
      ensures Valid() && rows == Recovered(stored)
    {
      RecoveredKeepsTable(stored);
      rows := Recovered(stored);
    }

    method ByMessage(messageID: string) returns (found: Option<Run>)
      requires Valid()
      ensures match found
        case None => !HasMessage(rows, messageID)
        case Some(run) => IsRow(rows, run) && run.request.messageID == messageID
    {
      if HasMessage(rows, messageID) {
        var id :| id in rows && rows[id].request.messageID == messageID;
        return Some(rows[id]);
      }
      return None;
    }

    /** The stored run for the message and whether this call created it. When the
        run ID is taken but the message ID is not, nothing is stored or found. */
    method QueueMessageRun(run: Run, insert: Outcome, readable: bool)
      returns (answer: Answer<(Option<Run>, bool)>)
      requires Valid()
      modifies this
      ensures Valid()
      ensures rows == if IsComplete(run) && insert.Effective() then Inserted(old(rows), run)
                      else old(rows)
      ensures answer.Ok? <==> IsComplete(run) && insert.Done? && readable
      ensures answer.Ok? ==>
        var (stored, created) := answer.value;
        && created == (rows != old(rows))
        && (created ==> stored == Some(Fresh(run)))
        && (stored.None? <==> !HasMessage(rows, run.request.messageID))
        && (stored.Some? ==> IsRow(rows, stored.value) && SameMessage(stored.value, run))
    {
      if !IsComplete(run) || insert.Lost? {
        return Err;
      }
      var before := rows;
      InsertedKeepsTable(rows, run);
      rows := Inserted(rows, run);
      if insert.Unknown? {
        return Err;
      }
      var inserted := rows != before;
      assert inserted ==> run.id in rows && rows[run.id] == Fresh(run);
      if !readable {
        return Err;
      }
      var stored := ByMessage(run.request.messageID);
      return Ok((stored, inserted));
    }

    /** Claim the oldest queued run. The claim can be committed without the caller
        learning of it: the commit or the read after it may report an error. */
    method ClaimMessageRun(now: string, commit: Outcome, readable: bool)
      returns (answer: Answer<Option<Run>>)
      requires Valid()
      modifies this
      ensures Valid()
      ensures (forall id :: id in old(rows) ==> !old(rows)[id].status.Queued?) ==>
        rows == old(rows) && (answer == Err || answer == Ok(None))
      ensures forall id :: IsOldestQueued(old(rows), id) ==>
        && rows == (if commit.Effective() then Claimed(old(rows), id, now) else old(rows))
        && answer == if commit.Done? && readable then Ok(Some(rows[id])) else Err
    {
      if exists id :: id in rows && rows[id].status.Queued? {
        ghost var queued :| queued in rows && rows[queued].status.Queued?;
        OldestQueuedExists(rows, queued);
        var id :| id in rows && IsOldestQueued(rows, id);
        forall k | IsOldestQueued(rows, k) ensures k == id { OldestQueuedUnique(rows, k, id); }
        if commit.Effective() {
          ClaimedKeepsTable(rows, id, now);
          rows := Claimed(rows, id, now);
        }
        if commit.Done? && readable {
          return Ok(Some(rows[id]));
        }
        return Err;
      }
      return if commit.Done? then Ok(None) else Err;
    }

    method CompleteMessageRun(id: string, result: Result, now: string, outcome: Outcome)
      requires Valid()
      modifies this
      ensures Valid()
      ensures rows == if outcome.Effective() then Finished(old(rows), id, result, now)
                      else old(rows)
    {
      if outcome.Effective() {
        FinishedKeepsTable(rows, id, result, now);
        rows := Finished(rows, id, result, now);
      }
    }

    method FailMessageRun(id: string, failure: string, now: string, outcome: Outcome)
      requires Valid()
      modifies this
      ensures Valid()
      ensures rows == if outcome.Effective() then Broken(old(rows), id, failure, now)
                      else old(rows)
    {
      if outcome.Effective() {
        var error := Text.TruncateUTF8(failure, MAX_ERROR_BYTES);
        BrokenKeepsTable(rows, id, failure, now);
        if id in rows {
          rows := rows[id := rows[id].(status := Failed, error := error, completedAt := now)];
        }
      }
    }

    method RequeueMessageRun(id: string, outcome: Outcome)
      requires Valid()
      modifies this
      ensures Valid()
      ensures rows == if outcome.Effective() then Requeued(old(rows), id) else old(rows)
    {
      RequeuedKeepsTable(rows, id);
      if outcome.Effective() && id in rows && rows[id].status.Running? {
        rows := rows[id := rows[id].(status := Queued, startedAt := "")];
      }
    }
  }
}
