# A model of the persona harness

The harness runs Claude personas behind a durable queue. A submitted message becomes a
row; a worker claims the row; the team runtime picks a persona, a slot and its adapter
process; the conversation manager chooses or opens a session, prompts it and records the
turn; a JSON-RPC connection carries the prompt and streams the reply back. Goroutines,
failing SQL statements, dying adapters and restarts meet over one SQLite store.

This project models that chain in Dafny and proves what holds along all of its runs.

| file | models |
|---|---|
| `Conversations`, `ConversationInvariant`, `ConversationSteps`, `ConversationTheorems` | Handle and Steer as interleaved calls, one event per statement or adapter request, with crashes between any two events |
| `Origins`, `Selections`, `Steers`, `Splits`, `Freshness` | where the rows, keys, prompts, handoffs, steered messages, replies and epochs of a state come from |
| `Retries` | how an unanswered message comes to its prompt, and once more |
| `Manager` | the same Handle and Steer as methods of an object with the manager's maps, every statement of which is an event of that machine |
| `MessageRuns`, `Service`, `RunQueue`, `QueueProgress` | the `message_runs` table and its statements, the service's methods, the worker protocol with submitters, wake token, shutdown and restart, and why the queue is worked off |
| `EndToEnd`, `Transitions`, `EndToEndRuns`, `Repeats` | queue, routing and conversations as one machine, what one step of it can do to a message, what carries over to it from queue and conversations, and how often a submitted message is prompted |
| `Routing`, `Destinations` | the stored routes and the attempts that read and write them, and to whose conversation a message and its reply go |
| `Slots`, `Pools`, `PoolLocks` | one slot's ownership of adapters, building and dealing out slots, and all locks of the pools with their calls |
| `Rpc`, `Prompts` | the connection's call correlation, and the client's Prompt with its reply, cancellation and retirement |
| `Handoff`, `Text`, `Tables` | BuildHandoff, UTF-8 truncation and trimming, rows and keys |
| `Personas`, `Environment` | mentions and routing, the adapter's environment |
| `Webex`, `Reposts` | the retrying Webex workers, and how often they post |
| `Runs`, `Wrappers` | induction over runs, outcomes of statements |

Conventions. A `char` is one byte of a Go string. Each SQL statement or transaction is
one atomic step that is done, lost, or committed although it reports an error
(`Wrappers.Outcome`); the store has one connection (internal/state/store.go:35). The
adapter may answer anything at any time. A theorem about a run quantifies over every
sequence of states that starts in an initial state and follows the machine's steps.
Methods take what the outside decides (outcomes, answers, random IDs, clock readings) as
parameters; what a manager's method does to the machine is in its ghost field `world`.

Eight places where the code does less than one would expect, each with its exact condition
and a run that shows it. A submitter that fails after its insert, or a failing claim, leaves
a queued run that nobody is about to look for, exactly when nobody else is
(`RunQueue.WakeupLostExactly`, `RunQueue.WakeupCanBeLost`). A slot whose dead adapter was
noticed by the probe, closed and not restarted reports success for ever without a manager
(`Slots.StuckExactly`, `Slots.SlotGetsStuck`). A reply is its window of the stream exactly
when no late chunk with text was handled meanwhile (`Prompts.ReplyIsTheWindow`,
`Prompts.LateChunkReorders`). A handoff is carried exactly by the prompt of the call that
opened the session; when that prompt fails, a retry prompts the session without it
(`Selections.CarriedIsSelected`, `Retries.LosesHandoff`). A submitted message and its reply
lie in the conversations of two personas exactly when the message asks for nobody and
mentions nobody, and was in the log, in another conversation than that of the saved owner,
when the attempt that answered it read that owner; it takes a failed attempt and another
message that took the transport key over (`Destinations.ApartExactly`,
`Destinations.ApartNeedsTakeover`, `Repeats.PersonasSplit`). A fresh message stays in the
epoch of the try that stored it, and its reply goes to a later one exactly when the message
was in the log before the answering call began (`Freshness.FreshReplyExactly`,
`Freshness.FreshRetry`). A reply to a Webex event
can be posted again exactly while its row is open, and after a success only when a restart
comes before the completion (`Reposts.PostedAgainExactly`, `Reposts.PostedThenRestarted`,
`Reposts.PostedManyTimes`).
And a submitted message ID does not preserve one Claude turn,
as README.md:248-249 says: a message can be prompted again exactly as long as no reply is
stored and its row is queued or running, and any number of times
(`Repeats.PromptedAgainExactly`, `Repeats.PromptedManyTimes`); a run that completes without
steering was prompted at least once (`EndToEndRuns.CompletedWasPrompted`).

## Model

| member | source | states |
|---|---|---|
| EndToEnd.CompletedRunHasTheReply | internal/runqueue/service.go:162-203 | In every state of every run of queue and conversations together, with crashes, requeues and failing statements anywhere, a completed run that was not steered reports the text of the single stored assistant row that answers its message |
| EndToEnd.CompletedForGood | internal/conversation/manager.go:145-162 | Once such a run is completed its row never changes, its reply stays the one stored answer, and no prompt for its message is sent any more |
| EndToEnd.SteeredRunIsStored | internal/conversation/manager.go:355-371 | A completed run that was steered has its message in the log as a user's row of a persona's conversation |
| EndToEnd.CallMayBegin | internal/runqueue/service.go:171-176 | A worker's call never meets another call with the same message: the claim is exclusive, a message names one row and Webex IDs are others |
| EndToEnd.HeldApart | internal/state/message_runs.go:81-113 | Two workers in Handle carry different messages |
| EndToEnd.HandleReturnedOk | internal/runqueue/service.go:190-201 | Writing down what Handle returned keeps every completed row tied to the stored answer |
| EndToEnd.CrashOk | internal/state/store.go:139-142 | A crash between any two statements, and the restart after it, keep rows, workers and calls in agreement |
| Repeats.PromptedAgainExactly | internal/runqueue/service.go:162-202 | From any reachable state a submitted message can be prompted, once more if it has been before, if and only if no reply to it is stored and its row is queued or running |
| Repeats.PromptedManyTimes | internal/state/store.go:139-142 | For every number there is a run of one submission in which its message is prompted that often, with a crash between each two prompts |
| Repeats.PromptedOnceMore | internal/conversation/manager.go:122-258 | The way there: after a restart the runs before it in the queue fail, its own is claimed and routed by its text and the saved owner, and Handle comes to its prompt with the message as unanswered as before |
| Repeats.PersonasSplit | internal/team/team.go:203-223 | A run of two submissions under one transport key: the first asks for nobody and mentions nobody and is stored by the default; the second asks for another persona, which becomes the owner; after a crash the retry of the first goes to that owner, so its reply is in the other persona's conversation |
| Repeats.SecondTakesOver | internal/team/team.go:214-222 | The way there, with two workers: the first message is routed and waits for its prompt while the second is routed |
| EndToEndRuns.ClosedIsNotPrompted | internal/runqueue/service.go:178-202 | Once a message is answered, or the row of a submitted message is over, completed, steered or failed, no prompt for the message is ever sent again, and it stays so |
| EndToEndRuns.CompletedWasPrompted | internal/runqueue/service.go:190-201 | A completed run that was not steered was prompted at least once |
| EndToEndRuns.TalkOfRun | internal/runqueue/service.go:162-176 | What a run of the whole shows of the conversations, without repetitions, is a run of the conversation machine, so every theorem about those runs holds along it: epochs, sessions, active turns, generations, handoffs, and where a message and its reply lie |
| EndToEndRuns.QueueOfRun | internal/runqueue/service.go:162-203 | The same for the queue, so no wakeup is lost along runs of the whole but by the failures listed |
| EndToEndRuns.SteeredRunWasDelivered | internal/conversation/manager.go:331-371 | A completed run that was steered: a call with its message and text, in a conversation of its own key, found an active turn of that conversation, stored the message under that turn's epoch and handed it to that turn's session, and the adapter took it |
| Destinations.AskedIsKept | internal/team/team.go:203-222 | In every state of every run a submitted message and its reply are in conversations of its own transport key and of enabled members; if it asks for a persona, both are in the conversation of that name, whatever fails, is retried or crashes |
| Destinations.ApartExactly | internal/team/team.go:203-223 | A submitted message and its reply lie in different conversations if and only if it asks for no persona, mentions no enabled member, and was in the log already, in another conversation than that of the saved owner, when the attempt that answered it read that owner |
| Destinations.ApartNeedsTakeover | internal/team/team.go:214-222 | And then some call had, before that read, stored another member as the owner in place of the persona whose conversation has the message |
| Destinations.PassesFit | internal/team/team.go:183-223 | Every step keeps owners enabled members, attempts and calls with the run they were routed for, and every row of the log in a conversation its message was routed to |
| Transitions.NextPasses | internal/runqueue/service.go:162-203 | What any step of the whole does to a submitted message: a stored owner is that of an attempt that chose it, a call begins where its attempt was routed to, a new row is that of a call or of a Webex thread, a prompt is for a message without a reply, and a completed row says what its call returned |
| Transitions.RunIsTraced | internal/runqueue/service.go:162-203 | Every run of the whole is made of such steps |
| Routing.ChoicesApart | internal/persona/persona.go:176-186 | Two attempts at one message go to different personas if and only if it asks for none, mentions no enabled member and the owner the second one read is not the persona of the first |
| Routing.ChoiceExists | internal/team/team.go:203-223 | Somebody is chosen for every message that asks for nobody or for an enabled member |
| EndToEndRuns.SubmittedIsAdmissible | internal/conversation/manager.go:123-139 | What Submit accepts passes Handle's own checks, and trimming and parsing it again changes nothing |
| ConversationTheorems.EveryStateOk | internal/conversation/manager.go:122-371 | The invariant of tables, locks, loaded and active maps and of every call in progress holds in every state of every interleaving of Handle, Steer and crashes |
| ConversationTheorems.ReturnedIsTheReply | internal/conversation/manager.go:149-162 | A call that returns without steering returns the text of the one assistant row that answers its message, first time or cached |
| ConversationTheorems.RetryFindsTheReply | internal/state/store.go:240-253 | ReplyTo finds a reply exactly when the message has been answered, and the call then goes on to return that text as cached |
| ConversationTheorems.AnsweredIsNotPromptedAgain | internal/conversation/manager.go:149-163 | A message whose reply row exists is never prompted again in any later state of the run |
| ConversationTheorems.AnsweredOnce | internal/conversation/manager.go:259-263 | Only the row `agent:`+ID ever answers a message |
| ConversationTheorems.PromptsRespectEpochs | internal/conversation/manager.go:198-206 | No prompt sent after a conversation reached an epoch carries a message of an earlier epoch; a message of another scope is the root exchange of a thread in its first epoch; a fresh prompt carries nothing |
| ConversationTheorems.HandoffsRespectEpochs | internal/conversation/manager.go:270-282 | No handoff stored after a conversation reached an epoch draws on a message of an earlier epoch |
| ConversationTheorems.MessagesWithinEpoch | internal/conversation/manager.go:331-362 | Every message of a conversation, also one stored by a concurrent Steer with a turn found long ago, has an epoch its row has reached |
| ConversationTheorems.FreshOpensEmptyEpoch | internal/conversation/manager.go:177-189 | A fresh message on a stored conversation opens the next epoch with no message and no handoff in it; on a new conversation it opens epoch 1 |
| ConversationTheorems.SessionsKnownBeforeUse | internal/conversation/manager.go:208-229 | Every session that is prompted or steered was opened or loaded by the same adapter process, across crashes and replaced adapters |
| ConversationTheorems.KnownByOpeningOrLoading | internal/conversation/manager.go:382-392 | A process comes to know a session only by session/new or a successful session/load |
| ConversationTheorems.GenerationsAndTurns | internal/conversation/manager.go:172-197 | A row's generation is the number of session-opening writes of its key; epochs and generations never fall; completed turns stay within the limit and no generation has more recorded turns than the limit |
| ConversationTheorems.OneActiveTurn | internal/conversation/manager.go:309-316 | At most one manager has an active turn for a key, and it is the prompt of the call that holds the key's lock |
| ConversationTheorems.RunIsLater | internal/state/store.go:174-238 | Between any two states of a run message rows are kept as they are, epochs and generations only rise, prompts are only appended |
| Retries.PromptedAgainExactly | internal/conversation/manager.go:145-163 | From any reachable state, a message handed to Handle directly, as a Webex event is on each retry, and that nobody is at work on can be prompted from here on if and only if no reply to it is stored |
| Retries.PromptedTwice | internal/conversation/manager.go:255-265 | A run from the empty store in which such a message is prompted twice, because the first prompt fails |
| Retries.ComesToPrompt | internal/conversation/manager.go:141-258 | A call whose conversation is not locked and whose message has no reply can come to its prompt by its own events alone, whatever row, session, steering or root it finds |
| Retries.RetryCarriesNothing | internal/conversation/manager.go:208-246 | From any reachable state in which a call that is not fresh waits for a prompt, that prompt can fail and a retry prompt the same session for the same message carrying nothing, whatever the failed prompt carried |
| Retries.LosesHandoff | internal/conversation/manager.go:208-258 | A run from the empty store that loses a handoff: a thread root is stored, the first message of its thread is prompted with the root, the prompt fails, and the retry prompts the same session without it |
| Origins.KeysAreTheirTexts | internal/team/team.go:414 | Keys in use anywhere in a reachable state, in rows, locks or calls, are equal when their texts are, so the store and the locks may go by the text |
| Origins.AnsweredWasPrompted | internal/conversation/manager.go:255-263 | A message has a stored reply only if it was prompted |
| Origins.EventTouches | internal/conversation/manager.go:236-282 | An event adds rows of its own conversation only, its message or the reply after the prompt, writes its own row only, and prompts its own message only |
| Selections.HandoffIsSelected | internal/state/store.go:290-347 | Each handoff that a row stores in any state of any run was written by one particular step of one call, and the row has not changed since; it is the root exchange and then the last messages of its scope and epoch in ascending order, as that call read them at its own steps under its lock, without the message of the call when the write comes before its prompt and without leaving any out when it records a finished turn; no ID occurs twice and there are at most two more than the limit |
| Selections.CarriedIsSelected | internal/conversation/manager.go:198-246 | Each prompt was sent by one particular step of one call; if that call opened the session itself and is not fresh, the prompt carries the selection that the call had read, without its own message, and otherwise nothing |
| Selections.PromptOfCall | internal/conversation/manager.go:255-258 | A call that waits for its prompt sent it, and which prompt of the history that is |
| Selections.SelectedFacts | internal/state/store.go:302-319 | That no ID occurs twice follows from the tables, although the root exchange is appended without a check |
| Retries.Attempt | internal/conversation/manager.go:164-258 | From any reachable state an unanswered message of an unlocked conversation gets as far as its prompt, whatever row, session, steering or root it finds, and may be tried again when the prompt fails |
| Steers.SteeredWasDelivered | internal/conversation/manager.go:331-371 | Behind every steered result is one lookup of an active turn of the call's own key, one stored row under that turn's epoch and one request to that turn's session that the adapter took |
| Splits.ApartExactly | internal/conversation/manager.go:245-265 | The same for the conversation machine alone, where the answering call is in progress at every state in between |
| Freshness.FreshCallExactly | internal/conversation/manager.go:170-253 | A fresh call that has sent its prompt has its message, if it is in the call's conversation, in an earlier epoch than the one it opened if and only if the message was in the log before the call began; otherwise in that very epoch |
| Freshness.FreshReplyExactly | internal/conversation/manager.go:245-265 | The same for the reply to a fresh message and the call that answered it |
| Freshness.FreshRetry | internal/conversation/manager.go:185-189 | A run from the empty store in which a fresh message is tried twice: its row stays in the epoch of the first try, the second prompt is for a later one |
| ConversationSteps.NextOk | internal/conversation/manager.go:122-371 | Every event of every call, every crash and every stored thread root keeps the invariant |
| ConversationSteps.ReplyToIsTheReplyRow | internal/state/store.go:240-253 | What ReplyTo may return is the text of the reply row, or there is no such row |
| ConversationSteps.FreshEpochIsEmpty | internal/conversation/manager.go:185-189 | The epoch a fresh plan aims for has no message yet |
| ConversationSteps.SelectionBelongs | internal/state/store.go:321-347 | What a handoff selects belongs to its scope and epoch or to the root exchange |
| ConversationSteps.StoreUserOk | internal/conversation/manager.go:245-253 | Storing the user's message, with any outcome, keeps the invariant |
| ConversationSteps.SteerStoreOk | internal/conversation/manager.go:355-362 | Storing a steered message under a possibly outdated active turn keeps the invariant |
| ConversationSteps.StoreReplyOk | internal/conversation/manager.go:259-265 | Storing the reply, with any outcome, keeps the invariant |
| ConversationSteps.PutOpenedOk | internal/conversation/manager.go:236-242 | The write that records an opened session keeps the count of generations |
| ConversationSteps.PutTurnOk | internal/conversation/manager.go:266-282 | The write that records a finished turn keeps the count of turns within the limit |
| Managers.Admit | internal/conversation/manager.go:122-139 | A message goes on exactly when it has a scope, a room and text, a known mode, and an ID or a drawn one; it goes on trimmed |
| Managers.Manager.Handle | internal/conversation/manager.go:141-290 | One undisturbed call step by step over the object's maps and tables: a result is the one stored answer; it is cached exactly when the message had been answered before, and then nothing is written or prompted; otherwise exactly one prompt was sent and the row stores its session, generation and planned epoch |
| Managers.Manager.Steer | internal/conversation/manager.go:331-371 | A message is delivered exactly when it is new, a turn of its key is active here, it is stored and the adapter takes it; it is stored under that turn's epoch and sent to that turn's session |
| Managers.Manager.PlanSession | internal/conversation/manager.go:170-197 | The rewriting of session, generation, epoch and turns comes to the plan of the machine for the stored row |
| Managers.Manager.Settle | internal/conversation/manager.go:208-243 | Resuming, loading, replacing a missing session or opening one leads to a session known to this process and stored in the row, or the call fails |
| Managers.Manager.Gather | internal/state/store.go:282-360 | The three queries and the text of a handoff, each query one event of the machine |
| Managers.Manager.RunTurn | internal/conversation/manager.go:292-329 | The turn is active while its one prompt is out and no longer afterwards, whether it succeeds or fails |
| Managers.Manager.PutTurn | internal/conversation/manager.go:266-282 | The finished turn is counted, and a turn cut short by a limit uses the session up |
| Managers.Manager.ReplyTo | internal/state/store.go:240-253 | The latest assistant row that answers a message |
| Managers.Manager.FirstAnswer | internal/state/store.go:302-310 | The first assistant row that answers a thread root |
| Managers.Manager.TryCached | internal/conversation/manager.go:141-163 | Under the lock an answered message ends the call with its stored reply; nothing is prompted |
| RunQueue.HeldByOne | internal/state/message_runs.go:81-113 | In every reachable state a run is held by at most one worker, and what is held is running |
| RunQueue.RunIsLater | internal/state/message_runs.go:115-149 | No row is lost, requests never change and terminal rows never change, although the terminal statements do not test the status |
| RunQueue.MessageNamesOneRun | internal/state/message_runs.go:11-39 | A message ID names one run and one request for ever |
| RunQueue.WakeupNotLost | internal/runqueue/service.go:124-160 | With no claim error, no failing submitter and no shutdown, while a run is queued the wake token is set, some worker is in its claim loop, or the starter or a submitter has not called Wake yet |
| RunQueue.WakeupCanBeLost | internal/state/message_runs.go:34-37 | A concrete run in which a submitter's read fails after its insert: its row is queued and nobody is about to look, without any claim error or shutdown |
| RunQueue.WakeupLostExactly | internal/runqueue/service.go:91-160 | A step from a reachable state, without shutdown, leaves a run queued with nobody about to look if and only if it is a submitter failing after its insert, in either way, or a failing claim, and nobody else was about to look |
| QueueProgress.QueueIsWorkedOff | internal/runqueue/service.go:124-160 | From every reachable state with no shutdown, claim error or failed submitter, the steps of an undisturbed queue end, in whatever order they come, and then no run is queued: nobody depends on the ticker |
| QueueProgress.CrashedRunsAreTakenUp | internal/state/store.go:139-142 | Every run that a crash found queued or running is queued after the restart with the request it had, and has been claimed when the restarted queue was left to itself |
| QueueProgress.QueuedGoesOn | internal/runqueue/service.go:147-160 | While a run is queued some undisturbed step other than a tick is possible |
| QueueProgress.WorkShrinks | internal/runqueue/service.go:157-203 | Every step of a worker uses up some of what is left to do |
| RunQueue.NextOk | internal/runqueue/service.go:60-203 | Every step of submitters, workers, starter, shutdown and restart keeps the invariant |
| RunQueue.WorkIsLater | internal/state/message_runs.go:115-149 | No worker step changes a terminal row, because the worker that writes one still holds it running |
| RunQueue.ClaimOk | internal/state/message_runs.go:81-113 | A claim with any outcome of its commit keeps runs exclusively held |
| RunQueue.FinishOk | internal/runqueue/service.go:178-202 | Completing, failing and requeueing with any outcome keep the other workers' runs |
| MessageRuns.OldestQueuedExists | internal/state/message_runs.go:88-90 | A queue that is not empty has an oldest run |
| MessageRuns.OldestQueuedUnique | internal/state/message_runs.go:88-90 | and only one |
| RunQueue.CrashReturnsRuns | internal/state/store.go:139-142 | Along a run, exactly the queued and the running rows are queued after a crash, among them all that workers held; terminal rows and requests are untouched and somebody is about to look |
| MessageRuns.FailureTextBounded | internal/state/message_runs.go:130-139 | A stored failure is a front of the error text of at most 2000 bytes; well-formed text stays well-formed and at most three bytes of the limit are unused |
| MessageRuns.RunStore.QueueMessageRun | internal/state/message_runs.go:11-39 | Insert or ignore, then read back: a created run is the stored one, a taken message ID returns its run, a taken run ID alone stores and finds nothing |
| MessageRuns.RunStore.ClaimMessageRun | internal/state/message_runs.go:81-113 | The oldest queued run becomes running; an error can leave it running without the caller knowing |
| RunQueue.CompletionIsFinal | internal/state/message_runs.go:115-128 | A completion that took effect fixes the row for the rest of the run: its result, no error, the request first asked for; it is never next in the queue and no worker holds it again |
| MessageRuns.RunStore.FailMessageRun | internal/state/message_runs.go:130-139 | The row becomes failed with the truncated error |
| MessageRuns.RunStore.RequeueMessageRun | internal/state/message_runs.go:141-149 | A running row becomes queued again |
| MessageRuns.RunStore.constructor | internal/state/store.go:139-142 | Opening the store recovers interrupted runs |
| Service.Queue.Submit | internal/runqueue/service.go:60-102 | A submission is answered by the one run stored for its message: created by this call, which then wakes a worker, or stored before with the same content; anything else is a conflict or an error that changes nothing the insert did not |
| Service.Queue.ProcessNext | internal/runqueue/service.go:162-203 | The oldest queued run is claimed, handled and completed, failed or requeued as the turn and the shutdown flag say |
| Service.Queue.Drain | internal/runqueue/service.go:147-160 | An undisturbed claim loop ends with an empty queue in which every run that was queued has the outcome of its own turn and no other row has changed |
| Service.AttemptShrinks | internal/runqueue/service.go:157-158 | Each round of the loop leaves one run less in the queue |
| PoolLocks.SomeoneCanStep | internal/team/team.go:225-246 | While a call is unfinished some call can step, even if waiting writers keep new readers out: the pools do not deadlock as long as running turns return |
| PoolLocks.LocksAreOrdered | internal/team/team.go:225-246 | Scope lock, token, permit and lifecycle lock are taken in one order: whoever holds one waits, if at all, for a later one |
| PoolLocks.EveryCallFinishes | internal/team/team.go:225-287 | No run of given calls is longer than their steps allow, and a run that cannot go on has left every call finished and nothing held |
| PoolLocks.RunIsBounded | internal/team/team.go:225-287 | Every step uses up some of what the calls have left to do |
| PoolLocks.OneHolder | internal/team/team.go:268-275 | Scope locks, permits and write locks have one holder at a time, and nobody reads a slot that another call may write |
| PoolLocks.OneTurnPerScopeAndSlot | internal/team/team.go:225-246 | At most one turn runs per conversation and at most one per slot |
| PoolLocks.TurnsAreALockTable | internal/team/team.go:225-246 | So the running turns of all slots and managers form one table of locked conversations, which is how the conversation machine has them |
| PoolLocks.TurnTableStep | internal/team/team.go:225-246 | and each step leaves that table as it is, locks a conversation nobody has, or unlocks one |
| PoolLocks.TokensInUse | internal/team/team.go:229-234 | The tokens taken are the turns past the global acquire and never more than the limit |
| PoolLocks.RunningUndisturbed | internal/team/team.go:327-342 | A running turn talks to its slot's manager, and no step of another call replaces, flags or closes that slot meanwhile |
| PoolLocks.SlotsOwnTheirAdapters | internal/team/team.go:327-412 | Over any interleaving of turns, steering, replacement and closing a slot owns its adapters and never gets back one it gave up |
| PoolLocks.StepOk | internal/team/team.go:225-412 | Every step of every call keeps semaphore counts, limits and slots in order |
| Slots.StaleFailureIgnored | internal/team/team.go:361-367 | A failure of an adapter that has been replaced never flags its replacement |
| Slots.ClosedForGood | internal/team/team.go:397-412 | Nothing starts after close, and every adapter that ever started has had Close called |
| Slots.ReplacedServes | internal/team/team.go:369-395 | After a replacement step that reports no error the slot has a live manager if and only if it was not stuck before (open, without manager, not flagged) |
| Slots.StuckExactly | internal/team/team.go:375-388 | A slot gets stuck in one way only: the probe, not the flag, asked for replacement, closing worked and starting failed |
| Slots.SlotGetsStuck | internal/team/team.go:375-388 | It happens: for any later operations but closing there is a run from the first adapter that gets stuck and stays so |
| Slots.StuckUntilClosed | internal/team/team.go:369-395 | A stuck slot stays as it is until it is closed, while every replacement step reports success |
| Slots.AdapterSlot.ReplaceUnavailable | internal/team/team.go:369-395 | The method's field updates are the replacement step, and it keeps ownership |
| Slots.AdapterSlot.MarkUnavailable | internal/team/team.go:361-367 | Only a failure of the current manager flags the slot |
| Slots.AdapterSlot.Close | internal/team/team.go:397-412 | Closing calls Close on the current adapter and empties the slot |
| Slots.AdapterSlot.Start | internal/team/team.go:140-170 | An adapter whose manager cannot be built has Close called at once |
| Pools.NewPool | internal/team/team.go:114-182 | A pool is ready exactly when its profile resolves and all its adapters start; otherwise nothing it started is left without Close called |
| Pools.New | internal/team/team.go:75-112 | The runtime is ready exactly when the configuration is complete, the turn limit positive, the profiles valid, the slots within the limit and every persona ready; wrong settings start nothing, and otherwise nothing that was started is left without Close called |
| Pools.Assignment.SlotFor | internal/team/team.go:277-287 | A key keeps its slot for ever; a new key takes the next slot in turn |
| Pools.Assignment.Balanced | internal/team/team.go:277-287 | After any number of keys each slot owns the floor or the ceiling of its share |
| Pools.ShareIsFair | internal/team/team.go:283-284 | A round robin over n places gives each the quotient and the first remainder places one more |
| Rpc.ExactlyOneResult | internal/acp/rpc.go:99-125 | When the read loop is over nothing waits and every call whose request was written has exactly one result: that of the first response after its registration, or that the connection was lost |
| Rpc.NoSendBlocks | internal/acp/rpc.go:118-166 | No channel is sent to twice, so no send blocks |
| Rpc.ResultIsFirstAnswer | internal/acp/rpc.go:146-166 | A delivered result is the one of the first frame that answers the call since it registered, whatever duplicates and unknown IDs arrive |
| Rpc.IDsNeverRepeat | internal/acp/rpc.go:59-62 | An ID is handed out once |
| Rpc.RunIsLater | internal/acp/rpc.go:53-166 | Delivered results stay, a closed connection stays closed and registers nobody |
| Rpc.StepOk | internal/acp/rpc.go:53-166 | Registering, writing, forgetting, routing, sending and draining keep each call in exactly one of its states |
| Rpc.Conn.Register | internal/acp/rpc.go:53-63 | A new ID with an empty channel, unless the connection is closed |
| Rpc.Conn.RouteResponse | internal/acp/rpc.go:146-166 | A response goes once to the call it names; any other is dropped |
| Rpc.Conn.Drain | internal/acp/rpc.go:112-124 | Everyone still waiting learns that the connection is lost, and nobody else is told anything |
| Rpc.Conn.Forget | internal/acp/rpc.go:66-70 | A call whose request was not written waits no longer |
| Prompts.ReplyIsTheWindow | internal/acp/client.go:239-319 | A successful Prompt returns all chunks of its session, in order, of one contiguous window of frames that starts at activation and reaches past the first response to its call, merged with the late chunks handled meanwhile; it is the window alone if and only if no late chunk of the session with text was handled between activation and return |
| Prompts.StraysAreHandledLate | internal/acp/rpc.go:136-143 | Those late chunks are the updates that came with a request ID and whose handlers ran since activation |
| Prompts.NotificationsAreEnough | internal/acp/rpc.go:127-135 | With an adapter that sends chunks as notifications only, every reply is its window |
| Prompts.LateChunkReorders | internal/acp/rpc.go:136-143 | A run in which a chunk that comes with a request ID is appended after one that came later |
| Prompts.RetiredForGood | internal/acp/client.go:321-343 | A client that gave up on its adapter returns no further turn |
| Prompts.AnswerIsInWindow | internal/acp/client.go:267-296 | The response Prompt received lies between activation and return |
| Prompts.NextOk | internal/acp/client.go:239-319 | Every step of Prompt, of other calls, of late handlers and of the read loop keeps the invariant |
| Prompts.Client.Prompt | internal/acp/client.go:239-319 | Retirement, an ended context, activation, the cancellation branches and the result, over the frames seen meanwhile: a turn is returned exactly for a decodable response that is not the cancellation asked for, with the concatenation of the session's chunks |
| Prompts.Client.Update | internal/acp/client.go:424-453 | A chunk is appended only for the active session |
| Handoff.BuildHandoff | internal/state/store.go:282-360 | The in-place reversal, the seen set and the builder come to the text of the root exchange followed by the unseen recent messages |
| Handoff.RecentIsSuffix | internal/state/store.go:321-338 | Selecting newest first with a limit and reversing gives the last rows of the ascending order |
| Handoff.SelectedMessages | internal/state/store.go:321-347 | Selecting newest first, reversing and dropping what the root exchange has gives the root exchange and then the last messages in ascending order; no ID occurs twice unless one does in the root exchange |
| Handoff.HeadNoIDTwice | internal/state/store.go:302-319 | and none does, as an answer is stored under an ID made from that of the message it answers |
| Handoff.HandoffBounded | internal/state/store.go:345-360 | The text is a front of the full transcript within the limit, and empty exactly when nothing is carried |
| Handoff.HandoffIsTruncatedTranscript | internal/state/store.go:345-360 | What is written is the truncation of the transcript if and only if it fits or the lines before the cut are well-formed; on well-formed texts the handoff is the trimmed truncation, and well-formed |
| Handoff.ReverseRows | internal/state/store.go:336-338 | The swap loop reverses the rows in place |
| Handoff.Render | internal/state/store.go:345-360 | The builder loop fills the limit line by line |
| Handoff.SelectRecent | internal/state/store.go:321-334 | The newest rows of the scope and epoch, newest first |
| Handoff.AscendingUnique | internal/state/store.go:321-325 | There is one ascending listing of a set of rows |
| Handoff.ListingExists | internal/state/store.go:321-325 | Every set of rows has a listing, newest first |
| Text.TruncateUTF8 | internal/state/store.go:487-495 | The loop returns the longest well-formed front within the limit |
| Text.TruncatedKeepsText | internal/state/store.go:487-495 | Well-formed text stays well-formed (sections 3 and 4 of RFC 3629) and at most three bytes of the limit are unused |
| Text.TruncatedAfter | internal/state/store.go:350-356 | Truncating after a well-formed front is truncating the rest with what is left of the limit |
| Text.TrimSpaceValid | internal/state/store.go:360 | Trimming keeps text well-formed |
| Tables.KeyTextInjective | internal/team/team.go:414 | Keys of personas' conversations and of rooms have different texts when persona names hold no bar and do not start like a room's key |
| Tables.NamesCollideExactly | internal/team/team.go:414 | Two names can make keys of the same text if and only if one and a bar start the other and a bar |
| Tables.FirstInsertWins | internal/state/store.go:210-238 | Insert or ignore: of any inserts under a new ID the first one stays, with its epoch raised to 1 |
| Tables.OnlyInserted | internal/state/store.go:210-238 | a row that was there stays as it is, and no row appears that was not inserted |
| Tables.ReplyIDInjective | internal/conversation/manager.go:260 | Different messages have different reply rows |
| Personas.Mentions | internal/persona/persona.go:188-204 | The scan that jumps over each name it reads finds what looking at every position finds |
| Personas.MentionsAreRuns | internal/persona/persona.go:188-204 | The mentions are, in text order, exactly the lower-cased maximal runs of name characters after each `@` that does not follow a name character |
| Personas.RouteText | internal/persona/persona.go:176-186 | The first enabled mention answers, else the saved owner if enabled, else the one enabled default; always an enabled member |
| Personas.RoutedUnique | internal/persona/persona.go:176-186 | Routing leaves no choice |
| Personas.NewSet | internal/persona/persona.go:126-145 | A set is accepted exactly when normalised names differ and one enabled member is the default; otherwise the error names a repeated name or the number of defaults |
| Personas.Default | internal/persona/persona.go:167-174 | The loop finds the one enabled default |
| Personas.Lookup | internal/persona/persona.go:157-165 | The loop finds the first enabled member of the normalised name |
| Personas.Router.Route | internal/team/team.go:203-223 | An explicit persona must exist, otherwise text and saved owner decide; whoever answers becomes the saved owner, and no other key is touched |
| Personas.OwnerSticks | internal/team/team.go:214-222 | Messages that mention no enabled member go to the persona that owns the key |
| Personas.OwnersRouteApart | internal/persona/persona.go:176-186 | Two deliveries of one text under two saved owners go to different personas if and only if it mentions no enabled member and the owners stand for different members, an owner that is no enabled member standing for the default |
| Personas.NormalIdempotent | internal/persona/persona.go:131 | Normalising a stored name changes nothing |
| Environment.AdapterEnvironment | internal/acp/environment.go:20-46 | The inherited, configured and directory entries come to the merged list |
| Environment.Builder.Set | internal/acp/environment.go:23-35 | Overwriting at the index or appending keeps the list equal to the merge of all entries so far and every index at its own entry |
| Environment.OverrideIsRefined | internal/acp/environment.go:20-46 | Every name that was ever set has exactly one entry, the last one given for it |
| Environment.MalformedStay | internal/acp/environment.go:24-28 | Malformed entries all stay, in order |
| Environment.DirectoryWins | internal/acp/environment.go:44 | `PWD` ends as the given directory and stands once |
| Environment.MergedOfMore | internal/acp/environment.go:29-32 | A later entry changes no place before it but the one of its own name |
| Webex.AttemptsBounded | internal/state/store.go:404-485 | Open events have failed fewer than five times, failed ones exactly five times, and since the start no event was handed to a worker more than five times, nor was a reply posted for it more often than it was handed out |
| Webex.CapNeverBinds | internal/state/store.go:467-474 | The retry delay is two to the number of failures; the cap of six never applies |
| Webex.DoneAndFailedStay | internal/state/store.go:457-485 | An event is kept, its failures only add up, and a done or failed one never changes, although the statements do not test the status |
| Webex.EnergyShrinks | internal/webex/webex.go:293-316 | Every statement that takes effect on an event leaves it less to do; only a restart gives any back |
| Webex.NextOk | internal/webex/webex.go:293-316 | Claims, outcomes and restarts keep events exclusively processed and their failures counted |
| Webex.EventWorker.ClaimWebex | internal/state/store.go:404-447 | The earliest due pending event is claimed, or none is due |
| Webex.EventWorker.RetryWebex | internal/state/store.go:467-485 | Whatever the row says: one failure more than the claim read, pending again or failed, with its delay and truncated error |
| Webex.CompletedIsOver | internal/state/store.go:457-465 | An event whose completion took effect stays done for the rest of the run, restarts included: it is never due again and no worker has it |
| Webex.EventWorker.Process | internal/webex/webex.go:318-352 | Exactly when the message comes to the conversation, and then under the key of its room or its thread with its own ID, sender, text and time; exactly when processing succeeds; exactly when a reply is posted, once, to the message's own room and thread; the bot's own messages are done without effect |
| Webex.ScopesApart | internal/webex/webex.go:329-332 | Two messages come to one conversation exactly when they are of one room and one thread |
| Webex.EventWorker.SaveThreadRoot | internal/webex/webex.go:354-371 | The thread's first message is stored once, outside every persona's conversation |
| Webex.EventWorker.ProcessNext | internal/webex/webex.go:293-316 | There is a round exactly when an event is due and its claim is learned of; the event is completed exactly when it was processed without error and has one more failure otherwise, and messages and posts are those of its processing |
| Webex.NextEventExists | internal/state/store.go:412-418 | Some event is next whenever one is due |
| Reposts.PostedAgainExactly | internal/webex/webex.go:293-352 | In any state of any run, restarts included, a further reply to an event can be posted from there on if and only if the event is pending or processing and its message is another person's, of the event's room, with text |
| Reposts.PostedBeforeRestartExactly | internal/webex/webex.go:293-352 | Without a restart that is so if and only if, for such a message, the event is pending, a worker is at it, or a worker has failed with it for less than the fifth time and has not yet put it back |
| Reposts.PostedThenRestarted | internal/webex/webex.go:303-308 | After processing without an error no further reply can be posted before a restart; after one that comes before the completion took effect it can if and only if the message is such a one, as it is when a reply was posted |
| Reposts.PostedManyTimes | internal/state/store.go:139-142 | For every number there is a run in which that many replies are posted to one event |

## Left out

- Assumed of the deployment: one process per database (README.md:255), incoming message IDs that do not start with `agent:`, Webex message IDs that are no submitted ones, persona names without a bar that do not start with `room:`. The last three are guards of the machines (`Conversations.CanBegin`, `Conversations.IsThreadRoot`, `EndToEnd.IsOwnMessage`, `EndToEnd.IsTalkOnly`, `Routing.IsLoaded`); what other names could do is `Tables.NamesCollideExactly`.
- The conversation machine has one lock table for all managers, so that one call at a time holds a key is how it is built; that the pools' locks provide it is `PoolLocks.TurnsAreALockTable` and `PoolLocks.TurnTableStep`.
- Stamps are texts compared byte by byte, as SQLite compares them; since the stored format drops trailing zeros and keeps offsets, no statement here is about real time.
- Memory documents, persona and continuation framing of the prompt text, MCP profiles, permission answers, runtime events and the `runs` table: a prompt is recorded with the messages it carries, not with its text.
- EndToEnd leaves the choice of the adapter process open, so it covers every slot; it is not composed with PoolLocks, which treats what a turn does as one step that ends at some time. The personas are the same throughout a run, restarts included; a Webex message need not have the same text each time it is fetched.
- PoolLocks: every call starts with the run and the calls are finitely many; that a call is not overtaken for ever by endlessly many later ones is up to the mutexes and channels of the Go runtime and not stated.
- RunQueue: the one-second ticker may fire at any time and Wait, Run and HTTP are left out, as are run IDs as random numbers.
- Webex: HTTP, signatures and JSON; the wake token of its workers, which is the same protocol as the queue's. The event machine fixes what an event's message says for good (`inbox.sent`), as if it were never edited between two fetches; a fetch may fail at any time.
- Rpc: framing, JSON and the size limit of lines; Prompts: session/new, session/load and steering requests are other calls of the connection, and killing the process is the end of the connection at some time.
- Integers are unbounded; counters of the source that would need 2^63 steps to wrap are not modelled as wrapping.
- SQL text, schema migration other than recovery, file loading, flags, signals and the TypeScript package.
- Managers.Manager.Handle: starts behind `Managers.Admit`. It runs undisturbed by other calls, as all methods of classes here do; interleaving is what the machines beside them are for.
- Prompts.Client.Prompt: takes the frames seen while it waits and how the wait ends as parameters; the machine in the same file lets them come in any order.
- Service.Queue.ProcessNext: the handler is a function from the claimed run to its outcome, so that it cannot change the table; what Handle does to the store is in `EndToEnd`.
- Webex.EventWorker.Process: what the persona's conversation answers is a parameter, here and in the event machine, but for messages without text, which get no reply; that a retried message gets its stored reply is `ConversationTheorems.RetryFindsTheReply`.
- Webex.ScopesApart: takes room IDs to hold no colon; with colons the texts of two thread keys could be equal.
- Personas.NewSet: lower-cases ASCII letters only, so names that differ in the case of other letters count as different, which the source takes to be equal.
- Personas.Lookup: lower-cases ASCII letters only, so a name asked for in another case of other letters is not found.
- Personas.NormalIdempotent: is about lower-casing of ASCII letters only.
