# Delivery, transcripts, inboxes and memory of the agent, modelled and proved

This project models five connected state machines of the repository and proves what they promise: over every
run where a protocol is at work, over every input where a sequence is transformed.

1. **Paired peers** (`Peer*.dfy`). Two or more instances exchange work and results through three durable tables
   and a network that may lose, repeat, reorder and invent packets; only signatures cannot be forged. A process can
   crash between any two of its steps, forgets its bus when it does, and recovers from a snapshot of its inbox.
   `PeerTypes` and `PeerStore` hold the envelopes and the SQL statements as updates of maps, `PeerNode` the steps of
   one process, `PeerSystem` the instances with the network, `PeerTheorems`, `PeerRetry` and `PeerPublication` the
   results over runs, and `PeerService` the methods of the class, each proved against the functions of `PeerStore`.
2. **Transcripts** (`RuntimeContext`, `Transcript`, `RepairPasses`, `BackfillPass`, `Pairing`, `RepairTheorems`,
   `RepairDetails`, `MergeMessages`, `PrepareTheorems`, `Fitting`, `SaveTurn`). The passes are functions on sequences of
   messages; the loops of the source are methods proved to compute them; the theorems say what a repaired, merged,
   fitted or saved transcript has, and what each pass does to one message more, told by the message's own fields.
3. **Session inbox** (`InboxModel`, `InboxProofs`, `InboxExclusion`, `InboxTheorems`, `InboxStop`, `InboxCases`,
   `InboxService`). One session's queue, worker and lock, deferred automation turns, mid-turn drains, continuations,
   cancel calls and the commands that the loop over the bus runs itself; an action is what runs between two suspension
   points.
4. **Journal and Dream** (`Journal`, `DreamRuns`). The history file with its cursor counter, its compaction and session
   drops, and the consumer whose cursor moves only when a run completes, with crashes and overlapping runs.
5. **Stream segments** (`StreamTrace`). The stream events of one turn delivery.

`Wrappers` and `Strings` hold options, results, stripping and joining.

## What the proofs assume

- Nothing is assumed of the digest in a result id: where two requests could share an id, the theorems say what happens.
  Signatures are checked by an uninterpreted function; an attacker may send anything but a new envelope that verifies
  under a paired secret.
- A SQL statement, and a method up to its next suspension point, is atomic. What a query returns is a parameter
  described by a predicate (`IsPendingBatch`, `IsPendingInbox`). Time and fresh ids are parameters.
- Token estimates, redaction of one content block and the rewriting of one tool result are function parameters.
- Callers of `enqueue` pass a hop count of at least 0 and a reply reference of at most 128 characters.
- Publishing to a bus succeeds, except in `StreamTrace`, where it may raise at any event.
- The loop over the bus awaits a command it runs itself, `/stop` among them, before it reads the next message; other
  cancel calls of a session are made under its lock, by a worker's command or by a direct call of the agent.
- A message a turn has waited for is taken and drained in one step, as `asyncio.wait_for` does from Python 3.12 on.
- The model lets no worker end its command, or be cancelled, while it is inside its own cancel call (`Calling` in the
  guards of `Finish` and `CancelDispatch`), and lets no worker begin one that is being cancelled. That no other cancel
  call has the worker is then proved (`OwnCallIsUndisturbed`). What is assumed is that a cancel call runs to its end and
  that shutting down or superseding a recovery does not cancel such a worker meanwhile.

## Where the code does not do what one would expect

- `_publish_result` selects two columns of the outbox and then reads a third, `return_session_key`, which its row does
  not have. A result whose request came from a peer turn therefore raises there: it is stored, but never published and
  never acknowledged, and if one is pending when the process starts, `start` raises before it creates the retry loop
  (`PeerTurnResultsAreNeverAcknowledged`, `RetryLoopStartsIff`).
- `complete_inbox` completes a row in any state, also one that was never begun. A repeated completion enqueues nothing,
  as the result id is taken. Nor does the first completion of a request whose shortened digest equals that of one
  answered before: its reply is never sent (`EveryReplyIsSentIff`). A peer message injected into a running turn is
  never begun or completed, so its row stays queued until a restart.
- With a reused call id, repair leaves a call without a result behind it (`ReusedIdIsNotPaired`). An assistant with
  placeholder text and only malformed calls survives one preparation and is removed by the next
  (`HollowIsRepairedTwice`). `RepairPairsCallsIff`, `RepairIsFixedIff` and `PrepareIsFixedIff` give the exact
  conditions.
- An empty user message behind a non-empty one is merged as a blank line, while one in front leaves no trace
  (`RunShowsNonEmptyIff`).
- With `skip` one beyond the messages and the boundary at their end, `_save_turn` commits its checkpoint twice
  (`CheckpointsCommitted`). Its one caller never asks for that: it passes the initial number of messages at most. So
  this is a property of the method, not a failure of a turn.
- A command such as `/new`, run by the session's own worker, cancels that worker, absorbs the cancellation, and gives
  the worker's queue away; the next message starts a second worker beside it (`OwnCancelAdmitsASecondWorker`), which
  waits for the session's lock. `/stop` pops whatever queue the session has when it ends. A live worker loses its queue
  exactly in these two ways (`OrphansAreMadeTwoWays`).
- `/stop` first cancels the session's work and then pops the queue. A turn that a coordinator submits in between, while
  subagents or shell sessions are still being ended, starts a new queue; if it still waits there at the pop, it is
  discarded without being completed, and its submitter waits without end (`StopLosesASubmittedTurn`, `LostForever`).
  `WaiterLosesMessageIff` says that a waiter loses its message exactly so, `WhatStopPops` what can be in a popped queue.
  Deferred turns then wait for the session's next message (`DeferredMessagesAreServed`, `PoppedUntilNextMessage`).
- A turn that runs when `/stop` pops its queue goes on. If it uses up its budget, its continuation goes into the popped
  queue, and nobody takes it (`StopStrandsAContinuation`). Nothing else is ever stranded (`StrandsIff`).
- After a crash between the journal record and the counter, dropping the record's session lets its cursor be used
  again; if Dream had passed it, the new entry is never read (`CrashThenDropSkipsAnEntry`). `CoveredForeverIff` says
  exactly which appends are safe.
- A malformed object at the end of the history file is passed over by the scan for the largest cursor but not by the
  look at the last line, so the two can differ (`NextCursorIsAboveAll`, `MalformedTailIsAhead`).

## Model

| member | source | states |
|---|---|---|
| PeerTypes.WorkAndResultIdsAreDisjoint | nanobot/peers.py:463-489 | The id of a result is never the id of a work message. |
| PeerTypes.ResultIdsMeetIff | nanobot/peers.py:463-489 | Two requests share a result id exactly if the first 32 characters of their digests meet; every result id fits an envelope. |
| PeerTypes.AdmittedAsSent | nanobot/peers.py:270-324 | The envelope of a sendable row is admitted exactly if it is authentic and reaches the peer it names, and then as that row's work or result. |
| PeerTypes.ReceiverReadsTheSentLetter | nanobot/peers.py:573-612 | What a receiver reads from a delivered envelope is the sender's letter, field by field. |
| PeerTypes.AdmittedIff | nanobot/peers.py:270-324 | An envelope is admitted exactly if a paired sender signed it, it is addressed here, its id, text, hops and reference are within bounds and its kind is work or a result that names its request. |
| PeerStore.RedeliveredWorkIsIgnored | nanobot/peers.py:393-407 | Storing a work id that is in the inbox changes no table, whatever the second envelope says. |
| PeerStore.RedeliveredResultIsIgnored | nanobot/peers.py:491-502 | A result id that is stored keeps its first content. |
| PeerStore.RetryDelays | nanobot/peers.py:654-664 | The delays after failures are 2, 4, 8, 16, 32 and then 60 seconds. |
| PeerStore.InterruptionIsReported | nanobot/peers.py:177-182 | Of the notice of an interruption nothing is stripped or cut on its way into a reply. |
| PeerNodeProofs.StepKeeps | nanobot/peers.py:144-186 | Every step of one process, crash, boot and recovery included, keeps the tables, the bus and the snapshot consistent and only lets rows climb. |
| PeerNodeProofs.RecoverKeeps | nanobot/peers.py:177-184 | One turn of the recovery loop settles exactly the next snapshot row: a started row is completed with its reply, an unstarted one goes to the bus once. |
| PeerNodeProofs.CompleteKeepsTables | nanobot/peers.py:463-489 | Completing work in any state keeps the tables consistent: what was replied to is completed, and its result id is in the outbox. |
| PeerNodeProofs.PublishStoredKeeps | nanobot/peers.py:421-449 | Claiming and publishing a stored row puts an id on the bus that was not there in this incarnation. |
| PeerSystem.AdmittedIsGenuine | nanobot/peers.py:270-324 | A request admitted in the name of a modelled peer is a letter in that peer's outbox. |
| PeerTheorems.NextKeeps | nanobot/peers.py:144-662 | Every move of the system (sending, losing, repeating, receiving, acknowledging, crashing) keeps the system's invariants. |
| PeerTheorems.RunsOnlyClimb | nanobot/peers.py:393-461 | Over every stretch of every run no row disappears or changes what it says, and inbox states only climb. |
| PeerTheorems.AtMostOneExecution | nanobot/peers.py:451-461 | In every run `begin_inbox` returns true at most once for a work id, whatever is lost, repeated or crashes. |
| PeerTheorems.ExecutionIsNotRepeated | nanobot/peers.py:421-461 | Once a work id has begun, no later move begins it. |
| PeerTheorems.CompletedIsTerminal | nanobot/peers.py:463-473 | A completed inbox row stays completed for the rest of every run. |
| PeerTheorems.ResultAgreement | nanobot/peers.py:463-502 | If a requester holds a result of a modelled peer, that peer's row is completed and the stored text is its first reply to that request: stripped and cut to 12,000 characters, or the standing sentence for a blank one. |
| PeerTheorems.OneResultPerRequest | nanobot/peers.py:491-502 | A requester never holds two results for one request from one modelled peer. |
| PeerTheorems.AnnouncedTextAgrees | nanobot/peers.py:512-546 | What is published in a peer's name reports that peer's first reply. |
| PeerTheorems.AckedMeansStored | nanobot/peers.py:573-650 | An acknowledged outbox row is stored at its receiver. |
| PeerTheorems.RecoveryIsComplete | nanobot/peers.py:144-186 | Once recovery has passed the snapshot, each unfinished row found at start is on the bus or completed; for a completed one whose sender is still paired the notice of the interruption is in the outbox as its reply, exactly unless another request took its result id. |
| PeerTheorems.BusHasNoDuplicates | nanobot/peers.py:421-449 | Within one incarnation no id is put on the bus twice, and no stored row is forgotten by both the handlers and the snapshot. |
| PeerTheorems.EveryReplyIsSentIff | nanobot/peers.py:463-489 | In every reachable state a request that was replied to has its reply in the outbox if and only if no other request took its result id. |
| PeerTheorems.RedeliveryChangesNothing | nanobot/peers.py:313-324 | Receiving a stored work envelope again changes no table, no bus and no history. |
| PeerRetry.AllowanceNeverRises | nanobot/peers.py:553-662 | Remaining attempts and unsettled rows together never grow without a new row or a crash, and fall with every settled delivery, also when a finished row is put back to pending. |
| PeerRetry.RetryTerminates | nanobot/peers.py:553-612 | Over every stretch of every run without new rows or a crash, an instance ends no more deliveries than its allowance at the start of the stretch. |
| PeerRetry.PendingRowsMayBeTried | nanobot/peers.py:226-238 | In every reachable outbox a pending row has fewer than 8 attempts and one to three hops. |
| PeerService.PeerService.Enqueue | nanobot/peers.py:210-247 | Accepted exactly if the peer is paired, the stripped text has 1 to 12,000 characters, there are fewer than 3 hops and the id is new; adds one row with the stripped text and one more hop, whose envelope the holder of the pairing's secret admits; a refused request changes nothing. |
| PeerService.PeerService.StoreInbox | nanobot/peers.py:393-407 | Reports whether the id was new, adds the row exactly then, and from then on ignores whatever arrives under the id. |
| PeerService.PeerService.PublishInbox | nanobot/peers.py:421-449 | At most one message goes to the bus, with the row's sender, reference, hops and text, after which no claim of the row ever succeeds; for a row read as it is, it goes there exactly if the row was received or queued, and exactly then the work may begin. |
| PeerService.PeerService.BeginInbox | nanobot/peers.py:451-461 | True exactly for a queued row, which is then started and can never be begun or claimed again, whatever follows. |
| PeerService.PeerService.CompleteInbox | nanobot/peers.py:463-489 | The work row stays completed for good; no outbox row changes, and exactly if the sender is paired and nothing holds the result id one is added, a reply to the sender that reports the content: stripped, cut to 12,000 characters, or the standing sentence exactly for a blank one; completing again with any text changes nothing. |
| PeerService.PeerService.AcceptResult | nanobot/peers.py:491-502 | The first content stored under a result id stays, cut to 12,000 characters; a new result finishes the sender's own request with that text and touches no other row; accepting again changes nothing. |
| PeerService.PeerService.PublishResult | nanobot/peers.py:512-546 | A result is told exactly if it is stored, unpublished and its request came from a named channel other than the peer's, there and in the words it was given; once published it is never published again; one that raised is as it was, so it raises again. |
| PeerService.PeerService.HandleEnvelope | nanobot/peers.py:270-324 | The whole receiving path equals admission followed by storing and publishing, or accepting; a bad envelope changes nothing. |
| PeerService.PeerService.Deliver | nanobot/peers.py:573-612 | No letter and no other row changes; the row is acknowledged exactly if its peer is paired and acknowledged its id, and failed exactly without a pairing or on the eighth try; otherwise it waits with one attempt used, the error cut to 200 characters and the delay of that attempt. |
| PeerService.PeerService.DeliverRound | nanobot/peers.py:553-571 | A round settles the due rows in order. |
| PeerService.EachRowIsSettled | nanobot/peers.py:553-612 | In a round every row read is settled by its own reply, and no other row is touched. |
| PeerService.PeerService.RecoverInbox | nanobot/peers.py:177-184 | The recovery loop completes started rows and publishes the others, in snapshot order. |
| PeerService.PeerService.PublishPendingResults | nanobot/peers.py:504-510 | Results are published in order until one raises. |
| PeerService.PublishOneMore | nanobot/peers.py:504-510 | One result more is told and marked behind the others, or nothing happens if one of them raised. |
| PeerService.PeerService.Start | nanobot/peers.py:144-186 | Start recovers the inbox, publishes pending results, and starts the retry loop exactly if none of them raises. |
| PeerService.RecoveryFollowsProtocol | nanobot/peers.py:177-184 | The recovery loop is a run of the protocol's recovery steps. |
| PeerService.HandlingFollowsProtocol | nanobot/peers.py:313-324 | Handling a work envelope is the protocol's store and publish steps. |
| PeerService.RetryLoopStartsIff | nanobot/peers.py:144-186 | The retry loop starts if and only if no pending result answers a request made in a peer turn. |
| PeerPublication.PeerTurnResultsAreNeverAcknowledged | nanobot/peers.py:491-546 | Over every run, the stored result of a request made in a peer turn is never published and never announced, no acknowledgement of it is released, and its sender's row is never acknowledged. |
| PeerPublication.SomeRunExecutes | nanobot/peers.py:313-461 | The hypotheses of the theorems over runs are met by a run in which work arrives, is published and begins, for every signature function and digest. |
| RuntimeContext.DetachUndoesAppend | nanobot/runtime_context.py:120-181 | Detaching after appending gives back the content and the context, block by block in a list and as the paragraphs behind a text, with the blocks' sources; it does so exactly unless the context is one empty text. |
| RuntimeContext.AppendedToList | nanobot/runtime_context.py:120-145 | A list keeps its blocks and gets one text block for each context block, with that block's content. |
| RuntimeContext.AppendedToText | nanobot/runtime_context.py:120-145 | One block is a paragraph behind a non-empty text, and all of an empty or missing one. |
| RuntimeContext.EachBlockAddsParagraph | nanobot/runtime_context.py:120-145 | Each further block is one more paragraph of the text and of the marker's suffix, and one more source. |
| RuntimeContext.DetachesIff | nanobot/runtime_context.py:148-181 | Detaching succeeds exactly on a content that ends in the marker's suffix or blocks under version 1, and gives the two parts. |
| RuntimeContext.ReattachedToText | nanobot/runtime_context.py:184-204 | Texts put back behind a text are paragraphs, one by one. |
| RuntimeContext.ReattachedToList | nanobot/runtime_context.py:184-212 | Otherwise the blocks stand behind the content's own, a text being one block. |
| RuntimeContext.NormalizeOneMore | nanobot/runtime_context.py:78-100 | Blocks are stripped in the providers' order; one without a source refuses all, one without content is left out. |
| RuntimeContext.PublicUndoesAppend | nanobot/runtime_context.py:215-240 | The public view of an appended message is the message before, None read as "". |
| RuntimeContext.PublicShowsTheDetached | nanobot/runtime_context.py:148-240 | The public view removes exactly what detaching removes, and nothing where the marker does not fit. |
| RuntimeContext.DetachUndoesReattach | nanobot/runtime_context.py:148-212 | Context put back comes off again, up to joining texts. |
| RuntimeContext.NormalizedContextRoundTrips | nanobot/runtime_context.py:78-145 | Whatever providers return, once normalized it can be put on any content and taken off exactly, with every block's source. |
| RepairPasses.StripPlaceholderMessages | nanobot/agent/context_governance.py:769-804 | The copy-on-write loop drops exactly the assistants with placeholder text and no calls. |
| RepairPasses.StripMalformedToolCalls | nanobot/agent/context_governance.py:807-859 | The loop keeps valid calls only and drops an assistant left with neither calls nor content. |
| RepairPasses.DropOrphanToolResults | nanobot/agent/context_governance.py:862-890 | The loop with its two sets keeps a result exactly if its id was declared before and not answered yet. |
| RepairPasses.ApplyToolResultBudget | nanobot/agent/context_governance.py:937-956 | Each result's content, and nothing else, is replaced by the normal form for its own id and name, or the standing ones where it has none. |
| BackfillPass.CollectMissing | nanobot/agent/context_governance.py:897-916 | The sites collected are the unanswered calls in order. |
| BackfillPass.FindInsertion | nanobot/agent/context_governance.py:924-927 | The scan from the running offset stops at the end of the assistant's block of results, counted in the growing list. |
| BackfillPass.InsertMissing | nanobot/agent/context_governance.py:918-935 | Inserting in place under a running offset gives the functional backfill. |
| BackfillPass.BackfillMissingToolResults | nanobot/agent/context_governance.py:893-935 | The pass equals: after each assistant's block of results, one synthetic result for each unanswered call, in call order. |
| BackfillPass.GapsAreFill | nanobot/agent/context_governance.py:918-935 | Placing each missing row in its gap is that function, for every list. |
| RepairDetails.StripPlaceholdersOneMore | nanobot/agent/context_governance.py:769-804 | One message more is removed exactly if it is an assistant without calls whose stripped text is the placeholder. |
| RepairDetails.StripMalformedOneMore | nanobot/agent/context_governance.py:807-859 | One assistant more keeps its calls with a non-empty text as name, in order; left with neither calls nor content after losing some, it is removed. |
| RepairDetails.ValidCallsOneMore | nanobot/agent/context_governance.py:97-110 | A call is kept, behind those before it, exactly if the nested mapping's name, or its own without one, is a non-empty text. |
| RepairDetails.RepairedCallsAreUsable | nanobot/agent/context_governance.py:325-334 | For every input, every call of an assistant in the repaired list can be run. |
| RepairDetails.KeptIff | nanobot/agent/context_governance.py:862-890 | A result is kept exactly if an assistant before it calls for its id and no earlier result answers such a call. |
| RepairDetails.DropOneMore | nanobot/agent/context_governance.py:862-890 | What the drop pass keeps stands in order, and only such results are removed. |
| RepairDetails.RowsOneMore | nanobot/agent/context_governance.py:897-935 | A call with an id nobody answered gets one result, behind those of earlier calls, with the call's id and name and the standing text. |
| RepairDetails.FillEndsBlocks | nanobot/agent/context_governance.py:918-935 | The results made up for an assistant stand at the end of its block of results, and nothing else changes. |
| Pairing.DroppedIsDeclared | nanobot/agent/context_governance.py:862-890 | After the drop pass every result's id is declared by an earlier message. |
| Pairing.DroppedIsAnsweredOnce | nanobot/agent/context_governance.py:862-890 | After the drop pass an id has one result if it was fulfilled and none otherwise. |
| Pairing.FillCounts | nanobot/agent/context_governance.py:893-935 | Backfilling adds, for each unanswered id, one result per declaration and declares nothing. |
| Pairing.FillReopensNothing | nanobot/agent/context_governance.py:893-935 | If unanswered ids are declared once, backfilling puts no result before a declaration of its id. |
| Pairing.AnsweredByPosition | nanobot/agent/context_governance.py:862-935 | "One result, behind the declaration" by position is the same as counting one and never reopening. |
| RepairTheorems.RepairedResultsAreDeclared | nanobot/agent/context_governance.py:325-334 | For every input each result of the repaired list follows a call that declares its id. |
| RepairTheorems.RepairPairsCallsIff | nanobot/agent/context_governance.py:325-334 | Every declared id has exactly one result behind it if and only if lost ids are distinct and no declaration stands behind a kept result of its id. |
| RepairTheorems.DistinctCallsArePaired | nanobot/agent/context_governance.py:806-935 | If surviving call ids are distinct, every result and every call is paired. |
| RepairTheorems.BackfillIsUndone | nanobot/agent/context_governance.py:893-935 | For every list, deleting the results of ids nobody had answered gives the list before backfilling. |
| RepairTheorems.RepairIsFixedIff | nanobot/agent/context_governance.py:325-334 | Repairing twice equals repairing once if and only if no assistant is hollow and lost ids are distinct. |
| RepairTheorems.SettledIsFixedIff | nanobot/agent/context_governance.py:325-334 | On a list with the outward marks of a repaired one, repair changes nothing exactly without strays and repeated answers, and otherwise shortens it. |
| RepairTheorems.ReusedIdIsNotPaired | nanobot/agent/context_governance.py:862-890 | An input on which a reused id breaks the pairing. |
| RepairTheorems.HollowIsRepairedTwice | nanobot/agent/context_governance.py:769-859 | An input on which the second repair differs from the first. |
| MergeMessages.MergeAdjacentUserMessages | nanobot/agent/context_governance.py:229-314 | The loop that replaces the last prepared message computes the merge of neighbours. |
| MergeMessages.OthersStayAsTheyAre | nanobot/agent/context_governance.py:238-250 | Whatever is no user message, hidden, a boundary or the continuation prompt is in the result as it was. |
| MergeMessages.NeighboursStandAlone | nanobot/agent/context_governance.py:238-250 | Of two neighbours in the result, one is such a message. |
| MergeMessages.MergedFoldsGroups | nanobot/agent/context_governance.py:229-314 | The result has one message for each group of consecutive messages: its left fold. |
| MergeMessages.GroupsCoverTheInput | nanobot/agent/context_governance.py:229-314 | The groups put together are the input, and only mergeable user messages share a group, so all others are untouched. |
| MergeMessages.GroupsEndForAReason | nanobot/agent/context_governance.py:238-250 | A group ends only where its fold or the next message cannot be merged. |
| MergeMessages.TripsIff | nanobot/agent/context_governance.py:238-250 | The merger of two mergeable messages is not mergeable if and only if one is blank and the other is the continuation prompt behind a bare gap, marked as context. |
| MergeMessages.BordersAreGenuineIff | nanobot/agent/context_governance.py:229-314 | For every input, two mergeable messages stand on both sides of a group's end exactly if the last merger of the group was such a pair. |
| MergeMessages.WrittenIsWellMarked | nanobot/runtime_context.py:120-212 | Neither appending context nor putting it back ever writes such a message, whatever they are given. |
| MergeMessages.GroupsAreMaximal | nanobot/agent/context_governance.py:238-250 | Over lists without a marker that no append or reattach writes, groups are the maximal stretches of mergeable messages. |
| MergeMessages.MergeTwoIsReversible | nanobot/agent/context_governance.py:276-311 | Two readable messages merge into a readable one: two texts show as two paragraphs, anything else block by block, the left's before the right's; sources and context blocks follow each other, two texts of context as two paragraphs. |
| MergeMessages.MergedShowsBoth | nanobot/agent/context_governance.py:211-227 | Two texts become the left, a blank line and the right, or the right behind an empty left; anything else the left's blocks and then the right's, a text as one block and an item that is no mapping written out. |
| MergeMessages.UnreadableAreMergedWhole | nanobot/agent/context_governance.py:306-311 | Where a marker does not fit, the contents are merged as they stand. |
| MergeMessages.MergerIsTheLeftOne | nanobot/agent/context_governance.py:289-305 | The merger is the left message but for content and metadata, which change only for context: the left's entries, and the right's where the left has none. |
| MergeMessages.RunShowsEach | nanobot/agent/context_governance.py:229-314 | A run of any readable messages shows what it showed without its last one, and then that one. |
| MergeMessages.RunOfTextsShowsAll | nanobot/agent/context_governance.py:229-314 | A run of messages that show texts shows them as paragraphs, all from the first on that is not empty. |
| MergeMessages.RunShowsNonEmptyIff | nanobot/agent/context_governance.py:211-213 | A run of texts shows the non-empty ones as paragraphs if and only if none is empty behind one that is not; an empty message there is shown as a blank line. |
| MergeMessages.MergeIsReversible | nanobot/agent/context_governance.py:229-314 | However many messages merge, detaching gives the left fold of the visible contents, all sources in order, and all context blocks in order up to joined texts. |
| MergeMessages.MergeIsIdempotent | nanobot/agent/context_governance.py:229-314 | Merging a merged list changes nothing. |
| PrepareTheorems.BudgetKeepsSkeleton | nanobot/agent/context_governance.py:937-956 | Rewriting tool results touches nothing but their contents. |
| PrepareTheorems.MergeKeepsSkeleton | nanobot/agent/context_governance.py:229-314 | Merging touches nothing but user messages. |
| PrepareTheorems.PrepareIsFixedIff | nanobot/agent/context_governance.py:316-334 | For every input and every way to rewrite results: if the input has no hollow assistant and lost ids are distinct, preparing a prepared list changes nothing exactly if no result needs a second rewriting; otherwise it loses a message. |
| PrepareTheorems.PreparedListsArePaired | nanobot/agent/context_governance.py:316-334 | For every input, each result of a prepared list follows a call that declares its id, and each call has its one result behind it if and only if that is so in the repaired list. |
| Fitting.KeepTail | nanobot/agent/context_governance.py:995-1004 | The greedy loop keeps the tail from the reference start on. |
| Fitting.TailIsLongest | nanobot/agent/context_governance.py:995-1004 | That tail is the longest within the remaining budget, or just the last message. |
| Fitting.UserTail | nanobot/agent/context_governance.py:1020-1025 | The tail from the first, or last, user message; empty without one. |
| Fitting.FindLegalMessageStart | nanobot/utils/helpers.py:478-494 | The least index from which every named result is declared within the tail. |
| Fitting.SnipHistory | nanobot/agent/context_governance.py:958-1018 | Cuts exactly if a window is configured that leaves room for input, the request is forced or does not fit it, and some message is not the system's; then the system messages are followed by a snipped tail, and otherwise nothing changes. |
| Fitting.SnippedTailIs | nanobot/agent/context_governance.py:978-1018 | The snipped tail begins at the first legal position from the user's start of the longest tail that fits the window behind the system messages: the first user message in it, else the last of all, else its own start. |
| Fitting.BudgetIsWhatFits | nanobot/agent/context_governance.py:700-713 | The input budget is exactly what fits in the window beside output and margin. |
| Fitting.PartsOneByOne | nanobot/agent/context_governance.py:975-983 | Each message goes to the system's or to the others, in order. |
| Fitting.EnsureRequestFits | nanobot/agent/context_governance.py:358-382 | Returns the request exactly if no window is configured, or if estimate, reserved output and 1024 fit in it and output and 1024 leave some of it; the output is the configured one, else the provider's, else 4096. |
| Fitting.FitToBudget | nanobot/agent/context_governance.py:336-356 | Returns a request of the described form whose estimate fits the window beside the reserved output and the margin, or raises with an estimate that does not. |
| Fitting.FittingIsSound | nanobot/agent/context_governance.py:336-356 | A fitted request has all system messages in order, and without synthetic results the rest is a subsequence of a suffix of the others; its results are declared. |
| SaveTurn.Session.CommitSummaryCheckpoint | nanobot/session/manager.py:367-386 | Inserts the continuation prompt, as a hidden user message, from the front, from the back for a negative index, or at an end for one outside the list, and records summary and index. |
| SaveTurn.Session.StoreMessage | nanobot/agent/loop.py:2696-2769 | Stores at most one entry, by the filtering rules, and updates the declared and fulfilled ids. |
| SaveTurn.Session.StoreTurn | nanobot/agent/loop.py:2657-2777 | The loop adds the survivors with the checkpoint at its place, and the two id sets it keeps are in the end those a rescan of the session finds. |
| SaveTurn.Session.SaveTurn | nanobot/agent/loop.py:2647-2779 | The session afterwards is the stored messages and survivors with the checkpoint at its boundary, for every input. |
| SaveTurn.StoredEntryIsFaithful | nanobot/agent/loop.py:2717-2757 | Exactly which messages leave no entry; an entry differs from its message in content and meta only: lists of users and tools are redacted block by block, an empty one of a tool becomes the notice, and only a user's marker is kept. |
| SaveTurn.SurvivorsOneMore | nanobot/agent/loop.py:2696-2769 | Messages are stored in order, one entry at most for each; a result exactly if an assistant stored before calls for it and no result stored before has its id. |
| SaveTurn.CheckpointStandsAtBoundary | nanobot/agent/loop.py:2681-2774 | One checkpoint, behind the survivors below the boundary and before the others, whatever was filtered. |
| SaveTurn.CheckpointsCommitted | nanobot/agent/loop.py:2625-2774 | None for a boundary out of range, two if skip is one past the messages, one otherwise. |
| SaveTurn.ArchivedIndexIsCheckpoint | nanobot/session/manager.py:367-386 | The archived index is the checkpoint's, except in front of an early input in an empty session. |
| SaveTurn.ArchivedAtPlace | nanobot/session/manager.py:367-386 | The archived index is behind the survivors below the boundary, or in front of the turn, before an early input. |
| SaveTurn.SavingKeepsPairing | nanobot/agent/loop.py:2657-2777 | If the session was a fixed point of the drop pass it still is, for arbitrary new messages. |
| SaveTurn.RescanAgrees | nanobot/agent/loop.py:2658-2672 | A rescan of the saved session finds the ids of the stored messages and survivors: checkpoints declare and answer nothing. |
| SaveTurn.StoredContextComesOff | nanobot/agent/loop.py:2712-2757 | The public view of a stored user message is its visible part, redacted. |
| InboxProofs.StepKeepsOwned | nanobot/agent/loop.py:1723-1804 | Every action keeps: the registered queue is served, live workers serve it or have lost it, and messages wait only there or with a live worker. |
| InboxTheorems.MessagesAreConserved | nanobot/agent/loop.py:1723-1804 | Every admitted message is, as often as admitted, in flight, finished, injected, cancelled, discarded by a stop command, or stranded in a queue whose worker ended. |
| InboxTheorems.StrandsIff | nanobot/agent/loop.py:1754-1784 | In every reachable state, messages are stranded exactly when a worker that lost its queue ends with messages in it, and all of them are continuations. |
| InboxTheorems.AtMostOneWorker | nanobot/agent/loop.py:1748-1784 | At most one worker lives, apart from workers whose queue was taken while they lived. |
| InboxTheorems.WaitingMessagesAreServed | nanobot/agent/loop.py:574-577 | Every non-empty queue is the registered one, with its worker or a cancel call that will take it, or holds continuations of a live worker that lost it. |
| InboxTheorems.DeferredMessagesAreServed | nanobot/agent/loop.py:1760-1768 | Deferred turns have a queue with a worker or cancel call to end them, or a stop command has popped the queue and no message came since. |
| InboxTheorems.PoppedUntilNextMessage | nanobot/agent/loop.py:1738-1746 | Only a stop command leaves deferred turns without a queue, and the next message gives them one. |
| InboxTheorems.DeferredFollowInput | nanobot/agent/loop.py:1756-1765 | A deferred turn is dispatched only by the session's worker, when no accepted message waits, and it is the one deferred first. |
| InboxTheorems.DeferredIsFifo | nanobot/agent/automation_turns.py:81-99 | In every run, the turns ever deferred are those that left the deferred list and then those in it, in the order in which they were deferred. |
| InboxTheorems.WaiterEndsIff | nanobot/agent/automation_turns.py:44-107 | In every reachable state a waiter is resolved exactly when it gives up or a message of its turn is finished or ended with an error. |
| InboxTheorems.OnlyOwnQueuesAreReclaimed | nanobot/agent/loop.py:1127-1145 | A cancel call takes a queue only from a worker it cancelled, or from its own caller, never a newer worker's. |
| InboxTheorems.OrphansAreMadeTwoWays | nanobot/command/builtin.py:213-230 | A live worker loses its queue if and only if a stop command that ends pops it or a cancel call made by the worker itself ends, having seen that queue. |
| InboxTheorems.PlainRunsAreUndisturbed | nanobot/agent/loop.py:1723-1804 | Over runs without those two, every live worker is the registered one, messages wait only in its queue or deferred behind it, it is served, and nothing is discarded or stranded. |
| InboxTheorems.PlainWaitersAreServed | nanobot/agent/automation_turns.py:44-107 | Over such runs, while a waiter is unresolved its message is deferred, queued or with the session's worker, and that queue is served. |
| InboxCases.OwnCancelAdmitsASecondWorker | nanobot/command/builtin.py:320-327 | A reachable state with two live workers. |
| InboxExclusion.StepKeepsExclusive | nanobot/agent/loop.py:1616-1687 | Every action keeps: drains run under the session's lock on the registered queue, cancel calls are made under the lock or by the one inline command, queues started while the bus is not read hold nothing injectable, and lost queues hold continuations only. |
| InboxStop.WhatStopPops | nanobot/command/builtin.py:213-230 | In every run, the queue a stop command pops is not being drained; it was started since the command began and has nothing from the bus in it, or another cancel call has its worker. |
| InboxStop.OrphansHaveOnlyContinuations | nanobot/session/turn_continuation.py:106-141 | In every run, a queue that is no longer the session's is not drained and has only continuations in it. |
| InboxStop.WaiterLosesMessageIff | nanobot/agent/automation_turns.py:44-107 | In every reachable state and for every action, an unresolved waiter is left without a message in flight if and only if a stop command pops a queue that has all of its messages. |
| InboxStop.LostForever | nanobot/agent/automation_turns.py:81-99 | A waiter without a message in flight stays unresolved over every continuation of the run, unless its submitter gives up or the bus brings a message with its turn's id. |
| InboxStop.OwnCallIsUndisturbed | nanobot/agent/loop.py:1127-1145 | In every run, a worker inside its own cancel call has the lock, is not tracked, is among no other call's tasks and makes no other call. |
| InboxCases.StopLosesASubmittedTurn | nanobot/command/builtin.py:213-230 | A reachable state in which a submitted turn was discarded and no continuation of the run ever resolves its waiter. |
| InboxCases.StopStrandsAContinuation | nanobot/session/turn_continuation.py:106-141 | A reachable state in which a continuation is stranded. |
| InboxTheorems.WaitersAreInFlight | nanobot/agent/automation_turns.py:44-107 | In every run, an unresolved waiter's message is deferred, in the session's queue or with a live worker, or a stop command discarded it; it is never stranded. |
| InboxTheorems.QueueIsFifo | nanobot/agent/loop.py:1754-1760 | For every worker, what arrived in its queue is what left it, then what a drain holds, then what waits, in this order; what was served left before what was cancelled or lost. |
| InboxService.SessionInbox.EnqueueSessionMessage | nanobot/agent/loop.py:1723-1746 | A turn that wants an idle session comes behind those deferred before it; anything else goes to the end of the session's queue, or starts a worker with it alone; that queue has its worker or a cancel call to take it, and the invariants of the inbox hold if they held and no user input is admitted while the bus is not read. |
| InboxService.SessionInbox.Submit | nanobot/agent/automation_turns.py:44-68 | Refuses a turn without id or already waited for; otherwise registers the waiter and enqueues; the invariants are kept. |
| InboxService.SessionInbox.NextMessage | nanobot/agent/loop.py:1754-1767 | The front of the queue is taken first, then the turn deferred first, and only by the one worker that has its queue; without a message the worker ends, and one that had its queue ends only if nothing waits; the invariants are kept. |
| InboxService.SessionInbox.CancelPendingMessages | nanobot/agent/loop.py:1786-1804 | Queued and deferred messages are all completed with an error, in order; exactly the waiters for their turns are resolved. |
| InboxService.SessionInbox.WorkerCancelled | nanobot/agent/loop.py:1770-1784 | A cancelled worker ends its message, its inbox and, if still its own, its queue. |
| InboxService.SessionInbox.ReclaimInbox | nanobot/agent/loop.py:1127-1145 | The inbox is reclaimed only if it is still the one seen when the call began. |
| InboxService.SessionInbox.ContinueTurn | nanobot/session/turn_continuation.py:106-141 | The continuation is put into the queue of the worker that ran the turn, registered or not; the invariants are kept. |
| InboxService.SessionInbox.PopQueue | nanobot/command/builtin.py:213-230 | Discards and counts what is in the session's queue and completes none of it; waiters stay; the former worker neither drains nor has anything left; the invariants are kept. |
| InboxService.PendingQueue.ConvertPrefix | nanobot/agent/loop.py:1342-1352 | Converts up to the first barrier or failure while messages arrive. |
| InboxService.PendingQueue.DrainPending | nanobot/agent/loop.py:1254-1360 | Rows and queue afterwards make up the snapshot and the arrivals in order, only user input up to the first other message being converted; a failure returns nothing and restores all. |
| Journal.NextCursorIsAboveAll | nanobot/agent/memory.py:505-521 | The next cursor is above counter and entries; the look at the last line agrees with the full scan exactly unless that line is a malformed object with a cursor above all others. |
| Journal.MalformedTailIsAhead | nanobot/agent/memory.py:505-521 | A file on which the two differ: the next cursor is 6 by the last line and 1 by the scan. |
| Journal.MemoryStore.AppendHistoryRecord | nanobot/agent/memory.py:425-446 | Appends one record under the next cursor and brings the counter to the file's maximum. |
| Journal.MemoryStore.CompactHistory | nanobot/agent/memory.py:557-585 | Keeps the objects from the smaller of the limit and the first unprocessed one on. |
| Journal.CompactedIsPart | nanobot/agent/memory.py:557-585 | Compaction invents nothing and keeps every entry Dream has not passed. |
| Journal.CompactionIsTight | nanobot/agent/memory.py:557-585 | No more than the limit is kept, unless what is kept begins with an entry Dream has yet to read. |
| Journal.FilterKeepsOrder | nanobot/agent/memory.py:59-106 | Removing lines keeps the cursors increasing. |
| Journal.FilterOneMore | nanobot/agent/memory.py:59-106 | Lines are kept or removed in order, one by one. |
| Journal.MemoryStore.DropSessionHistory | nanobot/agent/memory.py:59-106 | Removes exactly the session's objects, of the given generation or all, and counts them; lines that are no objects stay. |
| Journal.MemoryStore.BuildDreamBatch | nanobot/agent/memory.py:718-738 | The first twenty well-formed entries behind Dream's cursor, fewer only if there are no others. |
| Journal.BatchHasAllUpToLast | nanobot/agent/memory.py:718-738 | A batch holds every entry between Dream's cursor and its last cursor. |
| Journal.MemoryStore.FinishDream | nanobot/agent/dream.py:72-106 | Only a completed run moves the cursor; every run compacts. |
| DreamRuns.CursorsIncrease | nanobot/agent/memory.py:425-521 | In every run, crashes included, cursors in the file strictly increase and the next is above all of them and the counter. |
| DreamRuns.DreamSkipsNothing | nanobot/agent/dream.py:60-106 | In every run each appended entry was dropped, was in a completed batch, or is in the file above Dream's cursor, unless its cursor was passed when it was appended. |
| DreamRuns.CoveredForeverIff | nanobot/agent/memory.py:425-521 | For every reachable store: after an append, the entry is covered in all continuations if and only if its cursor is above Dream's and above every outstanding batch, that is, if counter and file still tell of a cursor as high as these. |
| DreamRuns.NoCrashNothingLate | nanobot/agent/memory.py:425-446 | Without a crash between record and counter the counter is at the highest cursor and no entry comes late. |
| DreamRuns.AppendReusesIff | nanobot/agent/memory.py:505-521 | The next cursor is not above all that were given out if and only if counter and file have both lost the highest one. |
| DreamRuns.CrashThenDropSkipsAnEntry | nanobot/agent/memory.py:59-106 | A run after which an entry is behind Dream's cursor, unread and not dropped. |
| StreamTrace.EveryTraceIsWellFormed | nanobot/agent/turn_delivery.py:384-399 | Segments never decrease, nothing follows a segment's final end, and open means the current segment has output without one. |
| StreamTrace.AbortClosesEverything | nanobot/agent/turn_delivery.py:401-404 | An abort publishes one final end if the stream is open, nothing otherwise, and leaves no segment open. |
| StreamTrace.TurnDelivery.PublishEvent | nanobot/agent/turn_delivery.py:384-399 | A well-formed trace stays so, also when publishing raises: at most one event is added, to the current segment, and exactly if the turn streams and publishing succeeds; an exhausted retry status is remembered, and another one forgets it. |
| StreamTrace.TurnDelivery.AbortStream | nanobot/agent/turn_delivery.py:401-404 | Unless publishing raises, every segment with output then has its final end, after at most one more event; the trace stays well-formed in any case. |

## Left out

- Sockets, TLS, HTTP parsing, JSON framing, HMAC and the byte limit of a request in `nanobot/peers.py`: acceptance is
  stated at the level of the decoded envelope.
- Adding columns to an old peer database, and the wake-up event of the retry loop: they do not change rows.
- Finality of outbox states and exactly-once publication of results: the code does not give them, as marks are written
  unconditionally.
- `request_pressure`, provider usage and the summary call of the compaction, and the bookkeeping of accepted messages
  in `ContextCompactionState`: only the passes over messages are modelled.
- Message contents that are neither missing, text nor a list, markers whose blocks are not mappings, and unhashable or
  non-text ids.
- SaveTurn.Session.SaveTurn: does not model timestamps, latency stamps and the acknowledgement of pending follow-ups.
- Priority commands other than `/stop`, recovery admission and the journal of pending follow-ups in the agent loop;
  `_dispatch_one` is one action from taking a message to its end.
- InboxTheorems.PlainWaitersAreServed: says who will take the message, not that the worker is scheduled or that
  publishing its completion succeeds.
- InboxService.PendingQueue.DrainPending: conversion of one message is a function that may fail; the row's fields are
  not modelled.
- Two sessions at once: all state of the inbox is kept per session key, so the model has one key.
- Torn lines in the journal, blank lines, the vector index, and compaction interleaved with an append.
- `raw_archive`, `archive` and legacy migration in `nanobot/agent/memory.py`: they append through the modelled record
  function.
- Language model calls, prompts, logging, event emission and Git commits.
