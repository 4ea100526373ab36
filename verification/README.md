# A verified model of the conversation core

An agent's conversation is an append-only log of sequenced events. What a language
model is shown is rebuilt from that log every time: records above the last
conversation boundary, minus hidden ranges, minus the sequence intervals earlier
compactions stand for, with one summary note per compaction put in their place. A
turn keeps a second copy of that list and updates it by hand while it streams,
calls tools, folds in what the user types, compacts and stops. This project models
that core, the stateful stores beside it and two concurrent protocols of the host,
and proves what they keep over whole runs.

## How it is laid out

- `EventLog`, `Text`: records, messages, sequences, decimal text, `trim`, UTF-8 lengths.
- `HiddenRanges`: the hidden ranges and their normal form.
- `Projection`, `ProjectionLaws`: planning and merging, and what the merge promises.
- `Compaction` (module `Compacting`): size estimates, the eligible middle, rounds, selection, spans, jobs.
- `CompactionRuns`, `DisjointRuns`, `BatchRuns`, `Splice`: runs of a log under appends,
  plans and recorded compactions, any subset of a plan's summaries failing.
- `TurnPlans`: plans made on whatever list a turn holds, and what they cover.
- `Requests`: what a rebuilt list reads, record by record and note by note.
- `TurnSync`, `TurnTrace`, `TurnDeeds`, `TurnLoop`: when the turn's copy is the rebuilt one;
  what a turn does and keeps, as values; its trace held against its part of the log; the
  turn as a class with its own list, every call outside it an oracle whose answer the trace
  records, and `Run`, the whole loop.
- `Hazards`, `PlanHazards`: where the code's own rules do not hold by themselves, and
  exactly when they do; conversations behind the hypotheses of the run theorems.
- `Todos`, `Activity` (module `ActivityFold`), `ToolGroups`: stores with run-long invariants.
- `CacheBreakpoints`, `Base64`: index arithmetic and bit accumulation.
- `BuildCache`, `Delegation`: racing writers, and a wait with missed wake-ups.

A loop of the source is a method with invariants, proved equal to a specification
function or predicate; the laws are lemmas about that specification, and say what it
computes without it. In the run modules a state machine stands for every interleaving.

## What is assumed

The code does not establish these itself; each is a hypothesis where it is needed.
Where an input that breaks the result is named, a lemma proves that it does.

- *Plans on the projection.* The runs of `CompactionRuns`, `DisjointRuns` and `BatchRuns`
  plan on a fresh projection of the log, and so does `Splice`. A turn plans on its own
  list (agents/agent-core/src/lib.rs:623-630), which may lack user text the log has: a
  nudge pushed without its sequence (`NudgeIsPlannedOver`), a note logged while its call
  was under way (`SpawnNoteIsPlannedOver`). `TurnPlans` says exactly what such a plan
  covers, and `Turn.RecordCompaction` carries it.
- *Whole batches.* No user-kind record and no conversation boundary lands between a
  call and its results (`BatchRuns.Orderly`). The spawn note of a sub-agent does
  (crates/thetis/src/delegation.rs:391-396, `SpawnNoteBreaksTheRequest`), and so does a
  nudge flushed behind a reply that called tools (agents/agent-core/src/lib.rs:394,
  `FlushBehindCallsIsLegalIff`). Equality of the turn's list with a rebuild does not need it.
- *Whole hiding.* Hidden ranges never cut a batch (`HiddenWhole`; without it,
  `HiddenResultBreaksTheRequest`), and for disjointness of spans the hidden set is the
  same for every plan (without it, `UnhidingOverlaps`).
- *A calm turn.* The claim that the turn's list equals a fresh projection is made for
  turns in which others log only bookkeeping, and nothing logged since the turn began is
  hidden. With a nudge it fails (`CompactThenAnswer`).
- *A cancel repeats.* Once raised, the host reports a cancel on every later poll.
- *A registry that answers.* The wait's promptness is stated over what readings say; a
  failed reading counts as no children, as in the source.
- *One staging directory a writer* for the build cache, whose staging directory is named
  after the process: the property holds exactly then (`PublishesWholeIff`). The two callers
  see to it by letting one build at a time run (crates/thetis/src/pipeline.rs:588,
  crates/thetis/src/control.rs:276-281).

## What turned out differently

- The cache's lookback reaches one message further than stride plus twenty: exactly
  stride plus twenty-one (`MarksReachBack`, `MarksReachNoFurther`), and only while the
  anchors hold something to mark. A reply that only calls tools does not
  (agents/agent-core/src/lib.rs:1537): with the newest anchor there, a message just out of
  the last one's reach is found exactly when that anchor is not blank
  (`BlankAnchorLeavesHole`).
- `flush_pending` is documented as legal only with no call unanswered, and is called
  right behind the reply. The request is acceptable exactly when the reply called
  nothing or nothing was queued (`FlushBehindCallsIsLegalIff`).
- A nudge found while a compaction runs is already in the log the list is rebuilt
  from, and is then flushed as well. It is read on the request's list and pushed again
  behind the reply exactly when the compaction was recorded and the nudge stands above the
  floor and is not hidden (`CompactThenAnswer`). The source avoids this for nudges queued
  before a compaction, not for those that arrive during one.
- A compaction planned on a turn's own list can summarize away what the user said. It does
  exactly when a recorded job's span holds two neighbours with the words' sequence strictly
  between theirs (`JobCoversIff`, `UserTextIsCoveredIff`). That every message has a sequence
  is no guard (`SpawnNoteIsPlannedOver`); that the list misses nothing is
  (`GuardedRunsSpareUserText`).
- A satisfied `first_failure` wait can lapse: a child recorded as cancelled may settle
  as done afterwards (`SettlingUndoesAFailure`). `SatisfiedLapsesOnlyIf` says exactly when.
- "Nothing already admitted is ever taken away" by a tool search fails without a usable
  pin, when the active set falls open to every group and the search starts from the
  always-on ones (`SearchWithoutPinWithdraws`). It holds exactly when the pin was usable,
  nothing was added, or every admissible group is always on or added (`AdmitKeepsIff`).
- Two threads of one process storing one key at once would publish meta without an artifact
  (`SharedStagePublishesHalf`). It is a hazard of the API, which its callers rule out.

## Model

| member | source | states |
|---|---|---|
| HiddenRanges.Parse | agents/agent-core/src/hidden.rs:16-45 | the parsed ranges are canonical and hide exactly the sequences some well-formed entry spans; anything unreadable hides nothing |
| HiddenRanges.CanonicalUnique | agents/agent-core/src/hidden.rs:31-44 | two canonical range lists that hide the same sequences are the same list |
| HiddenRanges.IntersectsMeansOverlap | agents/agent-core/src/hidden.rs:60-63 | `intersects` is true exactly when some hidden sequence lies in the interval, given in either order |
| Projection.ConversationFloor | agents/agent-core/src/lib.rs:110-116 | the backward search finds the last boundary, or 0 |
| Projection.NeedsAttribution | agents/agent-core/src/lib.rs:1392-1407 | the early-exit scan says whether more than one identified author spoke above the floor |
| Projection.PlanProjection | agents/agent-core/src/lib.rs:118-171 | the planning loop gathers exactly the live spans and notes, and whether the last price is newer than the last compaction and the floor |
| Projection.Project | agents/agent-core/src/lib.rs:173-224 | the projecting loops return the merge of the visible records and the sorted notes, each message with its origin, and the last current price with the length it covers |
| ProjectionLaws.MergeConserves | agents/agent-core/src/lib.rs:173-224 | as multisets, the merged list is the shown records plus the notes: nothing lost, nothing twice |
| ProjectionLaws.MergeOrdered | agents/agent-core/src/lib.rs:180-188 | origins never decrease, records keep log order, and a note stands before a record exactly when its first sequence is at or before it |
| ProjectionLaws.ItemsAre | agents/agent-core/src/lib.rs:95-101 | a record is shown exactly when it bears a message, is above the floor, not hidden and in no live span; a note exactly when a live compaction left it |
| ProjectionLaws.ItemsMergeInOrder | agents/agent-core/src/lib.rs:118-224 | the whole projection is an ordered merge in which each shown record and each live compaction contributes exactly one message |
| Splice.ItemsStrict | agents/agent-core/src/lib.rs:173-224 | where recorded spans are disjoint the origins strictly increase |
| Requests.SummariesAreRead | agents/agent-core/src/compaction.rs:338-351 | for every live compaction the list has, at its first sequence, a user message that gives its count, its first and last sequence and ends in its summary |
| Requests.RecordsAreRead | agents/agent-core/src/lib.rs:190-216 | every record shown is read in its own words at its own sequence: text, calls, results, and a speaker's name only where several spoke |
| Requests.AttributeMeansSeveral | agents/agent-core/src/lib.rs:1392-1407 | speakers are named exactly when two identified authors spoke above the floor |
| Compacting.FindEligibleMiddle | agents/agent-core/src/compaction.rs:165-184 | the two edge walks end where the specification does: off orphaned results at both ends, or nowhere |
| Compacting.MiddleIff | agents/agent-core/src/compaction.rs:165-184 | the middle runs from the first message behind the kept head that is no result to the last one before the kept tail whose next is none; there is no other |
| Compacting.FindRounds | agents/agent-core/src/compaction.rs:186-208 | the walk returns the rounds of the middle |
| Compacting.RoundsPartition | agents/agent-core/src/compaction.rs:186-208 | rounds ascend without overlap and hold exactly the non-user messages of the middle |
| Compacting.RoundsWhole | agents/agent-core/src/compaction.rs:196-205 | no round parts a call from the results that follow it in the middle |
| Compacting.Select | agents/agent-core/src/compaction.rs:212-228 | the selection is the shortest oldest-first prefix whose estimate reaches the need, or every round |
| Compacting.SelectionUnique | agents/agent-core/src/compaction.rs:212-228 | that description fits only one selection |
| Compacting.FindSpans | agents/agent-core/src/compaction.rs:232-241 | extending the open span in place computes the spans |
| Compacting.SpansAreMaximalRuns | agents/agent-core/src/compaction.rs:232-241 | spans hold exactly the selected messages, keep a gap between them and start and end on round boundaries |
| Compacting.PlanCompaction | agents/agent-core/src/compaction.rs:527-624 | what is planned are the runs of the fewest oldest rounds that bring the context to its target, or of all there are, one job a run for those outside hidden ranges; there is no plan exactly when the lists disagree, nothing is to be shed, a run has no source or all are hidden |
| Compacting.SheddingIff | agents/agent-core/src/compaction.rs:564-571 | the spans computed are exactly those that description fits |
| Compacting.NothingToShedIff | agents/agent-core/src/compaction.rs:562-571 | nothing is to be shed exactly when the context is at its target, or the middle holds user messages only, or there is no middle |
| Compacting.PlannedUnique | agents/agent-core/src/compaction.rs:527-624 | the description of a plan fits one plan |
| Compacting.EstimateGrows | agents/agent-core/src/compaction.rs:49-53 | a longer list is never estimated smaller |
| CompactionRuns.PlannedJobs | agents/agent-core/src/compaction.rs:527-624 | each job covers a run of records nobody said, every later one stands right behind a user message, and none touches a hidden range |
| CompactionRuns.UserTextIsNeverCovered | agents/agent-core/src/compaction.rs:165-241 | over every run whose plans are made on the projection, hidden ranges free to change between plans, no recorded or planned interval holds a user message, nudge or system note |
| TurnPlans.JobCoversIff | agents/agent-core/src/compaction.rs:527-624 | on a list a turn holds, a planned job covers a user-kind record exactly when two neighbours of its span stand on either side of it |
| TurnPlans.NothingMissingSpares | agents/agent-core/src/compaction.rs:527-624 | no job covers user text when every user-kind record not hidden is on the list in its place or outside everything said there |
| TurnPlans.UserTextIsCoveredIff | agents/agent-core/src/lib.rs:623-660 | over every run, whatever such lists its plans are made on and whichever summaries fail, some recorded interval holds user text exactly when a recorded job's span straddled some when it was planned |
| TurnPlans.GuardedRunsSpareUserText | agents/agent-core/src/lib.rs:623-660 | so none ever does while plans are made on lists that miss nothing |
| TurnSync.InSyncMissesNothing | agents/agent-core/src/lib.rs:553-585 | a list equal to a rebuild misses nothing, while no recorded interval holds user text |
| DisjointRuns.NewJobApart | agents/agent-core/src/compaction.rs:516-624 | a job planned on the projection overlaps no interval recorded before |
| DisjointRuns.RecordedSpansAreDisjoint | agents/agent-core/src/compaction.rs:165-241 | over every run with a fixed hidden set, recorded intervals are pairwise disjoint, within a compaction and across them |
| Splice.RecordingSplices | agents/agent-core/src/lib.rs:118-224 | recording a compaction turns the projection into the same list with one note where the first summarized stretch began and the summarized records gone |
| Splice.CompactionSplicesTheList | agents/agent-core/src/compaction.rs:406-411 | the next request is shorter by exactly the number of messages the note says it replaced, less the note |
| BatchRuns.OwedMeansToolsFollow | agents/agent-core/src/lib.rs:1093-1099 | in a list whose calls are answered in order, every tool message follows its calling turn or a sibling result |
| BatchRuns.ProjectionAnswers | agents/agent-core/src/lib.rs:173-224 | a log of whole batches, under coverage and hiding that never part one, projects to a list that answers its calls, and to an acceptable request once nothing is owed |
| BatchRuns.PlanSpansClean | agents/agent-core/src/compaction.rs:165-208 | on such a list no planned span starts on a result or stops short of one |
| BatchRuns.CompactedRequestsStayValid | agents/agent-core/src/compaction.rs:165-208 | after any run of appends and compactions each projected tool message still follows its call or a sibling, and no visible call has lost its result |
| TurnSync.AppendInSync | agents/agent-core/src/lib.rs:377-387 | appending one event and pushing its message by hand leaves the list, the origins and the price equal to what a rebuild gives |
| TurnSync.PriceIsOfTheNewest | agents/agent-core/src/lib.rs:118-200 | the rebuilt price is that of the newest visible priced reply younger than every compaction and boundary, covering what stands before it; without one there is no price |
| TurnSync.SyncedAfterOthers | agents/agent-core/src/lib.rs:553-585 | bookkeeping others log meanwhile leaves the copy equal to a rebuild, whatever batches the log holds |
| TurnSync.LogStandingAfterCompaction | agents/agent-core/src/lib.rs:654-660 | recording a compaction planned on the copy keeps every batch whole |
| TurnLoop.Turn.DrainInbox | agents/agent-core/src/lib.rs:1047-1080 | nudge texts are queued in order, a cancel is sticky and outranks them |
| TurnLoop.Turn.FlushPending | agents/agent-core/src/lib.rs:1084-1090 | everything queued and everything just polled is pushed in order and the queue is empty |
| TurnLoop.Turn.Rehydrate | agents/agent-core/src/lib.rs:553-585 | the list, origins and price are the projection's |
| TurnLoop.Turn.RecordUsage | agents/agent-core/src/lib.rs:1121-1133 | a reported price covers the list as it stands, totals add up, and no report changes nothing |
| TurnLoop.Turn.RunCompaction | agents/agent-core/src/compaction.rs:421-513 | the jobs are asked for one after the other until a stop; what is recorded are those whose answer was of use, in order, with their message count and one text block each, and nothing exactly when none was; nudges are carried back |
| TurnLoop.Turn.MaybeCompact | agents/agent-core/src/lib.rs:601-681 | an attempt is made exactly when due, at the measured size; the next waits for a tenth more when nothing was eligible, a quarter more when no summary came or less than a tenth was shed, and for nothing otherwise; not due, nothing changes; a compaction is recorded exactly when an answer was of use, is made of those answers, and is read on the list, which is then the projection of the log; a nudge logged meanwhile is on the list exactly when it was recorded and the nudge is above the floor and not hidden |
| TurnLoop.Turn.RecordCompaction | agents/agent-core/src/lib.rs:654-660 | one record is logged and the list rebuilt through it, which reads its summary; it covers a user-kind record exactly when two neighbours of a recorded job's span stood on either side of it, and none where the list missed nothing |
| TurnTrace.FruitlessAttemptsDouble | agents/agent-core/src/lib.rs:601-677 | twenty consecutive fruitless attempts at least double the context, so their number is logarithmic in its largest size |
| TurnLoop.Turn.StreamCompletion | agents/agent-core/src/lib.rs:923-1001 | the reply is what the items heard spell and the calls last asked for; without a stop all of the stream is heard up to its end, and it is an error exactly when it has none; the inbox is polled at least every sixteen items |
| TurnTrace.SpokenSplits | agents/agent-core/src/lib.rs:957-961 | what a stream spells is what its pieces spell, one behind the other |
| TurnLoop.Turn.LogReply | agents/agent-core/src/lib.rs:377-387 | a reply is logged before it is acted on and priced before it is pushed; exactly its calls are now owed |
| TurnLoop.Turn.Dispatch | agents/agent-core/src/lib.rs:1006-1036 | one call is run and answered by its own result, next in order, and its tool is listed as used once |
| TurnLoop.Turn.CancelRemaining | agents/agent-core/src/lib.rs:1100-1119 | each call never run gets its not-run result, in order, and nothing is owed any more |
| TurnLoop.Turn.RunTools | agents/agent-core/src/lib.rs:444-491 | the calls run are the first of the batch, in order, each answered by its own result; only a stop leaves the rest, answered as not run; the turn ends as asked exactly when all ran and a successful one hands control back, and otherwise goes round unless a look found a cancel |
| TurnLoop.Turn.Answer | agents/agent-core/src/lib.rs:377-491 | what follows a reply, case by case: without calls a stop, a nudge, a reminder or the end; with calls the batch, which never ends the turn as stopped of itself |
| TurnLoop.Turn.FinishTalking | agents/agent-core/src/lib.rs:396-430 | a stop outranks a nudge, a nudge earns another round, otherwise a bounded and changed reminder is logged and shown, and exactly without one does the turn end |
| TurnLoop.Turn.Prepare | agents/agent-core/src/lib.rs:341-361 | everything typed so far is said first, a compaction is tried exactly when due at the size the list then has, and a look for a stop comes last |
| TurnLoop.Turn.Run | agents/agent-core/src/lib.rs:317-504 | it stops of itself only behind a reply without calls, nothing typed and no reminder due; it ends as asked exactly when no cancel was seen and the last batch handed control back, as stopped exactly when a cancel was seen, unless it ran out, and as failed only with its stream; its replies are what its streams spelled, the calls run are those asked for, in order, each result what came of its call, and only a stop leaves some, answered as not run; after a reported cancel nothing costly happens, and nothing costly but behind a look; every nudge logged was said once in order or still waits; completions are bounded by calling replies, nudges, reminders and one; attempts are spaced; a request is acceptable exactly when its list was, as last rebuilt, and no text was put among open calls since; undisturbed, each request equals the projection of the log at that moment, and is acceptable where the log's batches were whole |
| Hazards.FlushBehindCallsIsLegalIff | agents/agent-core/src/lib.rs:387-394 | the flush behind a reply keeps the request acceptable exactly when the reply called nothing or nothing was queued |
| Hazards.ProjectionAcceptableIff | agents/agent-core/src/lib.rs:173-224 | with nothing hidden or compacted, a request is acceptable exactly when the log's batches are answered with no user text inside |
| Hazards.UserTextInsideABatch | agents/agent-core/src/lib.rs:213-215 | a user-kind record inside an open batch spoils every later request, whatever follows |
| Hazards.SpawnNoteBreaksTheRequest | crates/thetis/src/delegation.rs:391-396 | the spawn note logged during its own tool call is such a record |
| Hazards.CompactThenAnswer | agents/agent-core/src/lib.rs:349-394 | from a compaction to the flush behind the next reply, a nudge logged meanwhile and taken by then is on the request's list and pushed again behind the reply exactly when the compaction was recorded and the nudge is above the floor and not hidden |
| TurnTrace.NudgeListedIff | agents/agent-core/src/lib.rs:118-224 | a nudge younger than every recorded interval is on the rebuilt list, reading as what was typed, exactly when it is above the floor and not hidden |
| PlanHazards.NudgeIsPlannedOver | agents/agent-core/src/lib.rs:1084-1090 | a nudge pushed without its sequence is planned over, and gone from every rebuild once the compaction is recorded |
| PlanHazards.SpawnNoteIsPlannedOver | crates/thetis/src/delegation.rs:391-396 | so is a note logged while its call was under way, though every message behind the prompt has a sequence |
| PlanHazards.HiddenResultBreaksTheRequest | agents/agent-core/src/lib.rs:173-224 | hiding one result of an answered batch leaves a request that shows a call without it |
| PlanHazards.UnhidingOverlaps | agents/agent-core/src/compaction.rs:527-624 | a range hidden for one plan and shown for the next lets a planned interval overlap a recorded one |
| Todos.Replace | agents/agent-core/src/todos.rs:145-163 | the claiming loop computes the rewrite, or the first error, and refuses an over-long list |
| Todos.RewriteKeepsIdentities | agents/agent-core/src/todos.rs:145-163 | for each content exactly min(old, new) identities survive with their creation times, oldest first, the rest being newly minted |
| Todos.TodoStore.WriteAll | agents/agent-core/src/todos.rs:165-169 | writing succeeds exactly when every item can be read and there are at most fifty; the list then reads as they do, in order, with the identities kept; otherwise nothing changes |
| Todos.TodoStore.AddAll | agents/agent-core/src/todos.rs:171-185 | adding puts one new item a spec behind the old ones, under the next ids, or finds no such list and changes nothing |
| Todos.TodoStore.UpdateAll | agents/agent-core/src/todos.rs:244-263 | updating makes every change in turn, each on the item it names by id or else by place, replacing what it names and keeping the rest; where one cannot be made nothing changes |
| Todos.ChangedIff | agents/agent-core/src/todos.rs:205-263 | a call's changes lead from one list to another exactly when each takes effect on what the ones before it left |
| Todos.NudgeForIff | agents/agent-core/src/todos.rs:297-310 | a reminder is due exactly below its bound, with an item open and the states moved since the last one |
| Todos.FingerprintIff | agents/agent-core/src/todos.rs:273-275 | two lists have one fingerprint exactly when ids and states agree |
| Todos.NudgeNames | agents/agent-core/src/todos.rs:297-308 | a reminder names every open item with its id |
| Todos.HistorySound | agents/agent-core/src/todos.rs:122-130 | over any sequence of calls live ids are distinct and below the counter, and the list never exceeds its limit |
| Todos.DroppedIdNeverReturns | agents/agent-core/src/todos.rs:145-163 | an identity that left the list is never live again |
| CacheBreakpoints.Mark | crates/thetis/src/cache.rs:126-158 | marking changes that one message, keeps its words, and puts the mark on its last block; blank or unrecognisable messages are left alone |
| CacheBreakpoints.Anchors | crates/thetis/src/cache.rs:91-104 | the stride walk finds exactly the two greatest positive multiples below the last message |
| CacheBreakpoints.BreakpointPositions | crates/thetis/src/cache.rs:80-119 | positions strictly increase, number at most four, and are exactly the last message, the last system message and the anchors |
| CacheBreakpoints.FindsIff | crates/thetis/src/cache.rs:43-68 | an entry is found from some mark exactly when it lies within twenty of the last message, the last system message or an anchor that something can be hung on |
| CacheBreakpoints.MarksReachBack | crates/thetis/src/cache.rs:80-119 | for strides up to twenty the marks find every entry back to stride plus twenty-one messages, while the last message and the anchors covering it can be marked |
| CacheBreakpoints.BlankAnchorLeavesHole | crates/thetis/src/cache.rs:126-158 | where only the newest anchor covers the message just out of the last one's reach, it is found exactly when that anchor can be marked |
| CacheBreakpoints.MarksReachNoFurther | crates/thetis/src/cache.rs:80-119 | one message further back no mark finds it whenever the list ends just behind a multiple and no system message stands there |
| CacheBreakpoints.AnAnchorStays | crates/thetis/src/cache.rs:91-104 | when a request grows by at most a stride, its newest anchor stays an anchor, and carries a mark in both exactly when it can be marked |
| CacheBreakpoints.Apply | crates/thetis/src/cache.rs:43-68 | each position that can be marked is, the rest of the body is untouched, and the count returned is theirs, at most four |
| BuildCache.StepKeepsSound | crates/thetis/src/buildcache.rs:84-132 | every file operation of every writer keeps the published entry whole, one writer's own and unchanged |
| BuildCache.PublishedOnce | crates/thetis/src/buildcache.rs:84-132 | over every interleaving a published entry never changes and no lookup sees a partial one |
| BuildCache.StoresAgree | crates/thetis/src/buildcache.rs:84-132 | all stores that succeed, anywhere in the run, return the published meta |
| BuildCache.OwnStepsFinish | crates/thetis/src/buildcache.rs:84-132 | over every run, a writer none of whose operations fails always has a next one until done, is done after at most ten of its own whatever others do between them, and then holds the published meta |
| BuildCache.OthersRespect | crates/thetis/src/buildcache.rs:99-105 | every step of another writer keeps what one writer counts on |
| BuildCache.Cache.Store | crates/thetis/src/buildcache.rs:84-132 | among such others, a success names the published meta, an existing entry wins, it is this call's own exactly when its rename went through, which leaves the entry its artifact beside its meta and no staging directory, and only a failing operation makes it fail |
| BuildCache.PublishesWholeIff | crates/thetis/src/buildcache.rs:99-111 | every run publishes only whole entries exactly when no two writers share a staging directory |
| BuildCache.SharedStagePublishesHalf | crates/thetis/src/buildcache.rs:99-111 | two writers that share one reach, by their own operations, an entry with meta and no artifact |
| BuildCache.PreimageInjective | crates/thetis/src/buildcache.rs:67-75 | lists of NUL-free parts with the same preimage are the same list |
| BuildCache.NulInsidePartClashes | crates/thetis/src/buildcache.rs:67-75 | a part holding a NUL clashes with the two parts around it |
| Delegation.SatisfiedIsFinal | crates/thetis/src/delegation.rs:106-155 | on a fixed set of children whose outcomes stand, a satisfied wait stays satisfied for the same reason |
| Delegation.SatisfiedLapsesOnlyIf | crates/thetis/src/delegation.rs:117-155 | where outcomes may be revised, satisfaction lapses exactly for a first-failure wait that loses its failure while something runs |
| Delegation.SettlingUndoesAFailure | crates/thetis/src/subagents.rs:228-267 | cancelling and then settling well is such a revision |
| Delegation.SatisfiedForGood | crates/thetis/src/delegation.rs:106-155 | readings that succeed, on the same children and with no outcome revised, keep a satisfied wait satisfied at every later moment |
| Delegation.GrowingSetReopens | crates/thetis/src/delegation.rs:123-130 | a child spawned meanwhile reopens a wait for all |
| Delegation.SatisfiedIff | crates/thetis/src/delegation.rs:106-155 | each predicate over the rows as read: all concerned finished, one finished, one failed or all finished, with its reason; naming nobody it has is an answer too, and time alone never is |
| Delegation.Wait | crates/thetis/src/delegation.rs:418-478 | the wait ends with the verdict on its last reading; at once if the first one satisfies it or fails; by the capped timeout; within one poll of the predicate holding for good or first holding on outcomes that stand; at once on a stop; and reports a timeout only on an unsatisfied last reading at the deadline |
| Delegation.Family.CancelChild | crates/thetis/src/delegation.rs:486-503 | a parent's own child is marked, then signalled, then announced; anything else is refused and changes nothing |
| Delegation.ClampResult | crates/thetis/src/delegation.rs:607-621 | an answer too long is cut after the longest run of whole characters that fits |
| ActivityFold.AgentsAreTheLargestBalance | crates/thetis/src/activity.rs:88-99 | the agents count is the largest balance of child starts over finishes in any recent stretch |
| ActivityFold.ModeIsAtWork | crates/thetis/src/activity.rs:101-179 | a conversation works exactly from the first frame of work after its last turn ended; the step is empty outside work and the outcome inside |
| ActivityFold.StepsAreToolCalls | crates/thetis/src/activity.rs:120-124 | steps count the parent's tool calls since work last began |
| ActivityFold.EndShows | crates/thetis/src/activity.rs:130-154 | outside work a conversation shows how its last turn ended: waiting, idle or broken by what ended it and what was last being done, and when |
| ActivityFold.StepIsLastLabel | crates/thetis/src/activity.rs:110-124 | at work it shows the last thing it was seen doing |
| ActivityFold.SpellShows | crates/thetis/src/activity.rs:125-129 | the cost is what replies cost since work last began, and the clock at work is that of its first frame |
| ActivityFold.Activity.NoteValue | crates/thetis/src/activity.rs:229-249 | each snapshot stays the fold of its frames, its revision counts its publications, and consecutive publications differ in what they show |
| ToolGroups.RepairPin | agents/agent-core/src/groups.rs:950-970 | a pin is read as its usable groups plus the always-on ones, in table order, or as none when it names nothing usable |
| ToolGroups.ReadingIsUnique | agents/agent-core/src/groups.rs:950-970 | that description fits only one reading |
| ToolGroups.Session.Active | agents/agent-core/src/groups.rs:911-917 | the groups in force, falling open to every admitted group without a pin |
| ToolGroups.Session.RouteOnce | agents/agent-core/src/groups.rs:809-880 | a usable pin is returned and kept; otherwise the always-on, configured, skill and matched groups are pinned, and read back as themselves |
| ToolGroups.Session.Admit | agents/agent-core/src/groups.rs:885-907 | exactly the new admissible finds are added, each once, to what the pin stood for; a usable pin only grows |
| ToolGroups.AdmitKeepsIff | agents/agent-core/src/groups.rs:882-907 | everything in force before a search is in force after it exactly when the pin was usable, nothing was added, or every admissible group is always on or added |
| ToolGroups.CoreAlwaysInForce | agents/agent-core/src/groups.rs:930-942 | whatever the pin holds, `core` is in force and no denied or unknown group is |
| ToolGroups.RouteTwice | agents/agent-core/src/groups.rs:809-880 | routing again on any evidence gives the same groups, which are those in force |
| ToolGroups.SearchWithoutPinWithdraws | agents/agent-core/src/groups.rs:885-917 | without a usable pin a search that finds a group not always on leaves in force exactly the always-on groups and its finds, of all that were |
| Base64.Decode | agents/agent-core/src/lib.rs:1501-1534 | the accumulator loop computes the packing of the six-bit groups |
| Base64.Widened | agents/agent-core/src/lib.rs:1524-1531 | the accumulator never holds more than twelve bits, and what is left over is below two to the bits left |
| Base64.RoundTrip | agents/agent-core/src/lib.rs:1644-1656 | decoding the padded encoding of any bytes gives them back |
| Base64.RefusedIff | agents/agent-core/src/lib.rs:1517-1525 | a payload is refused exactly when a foreign byte stands in front of the padding |
| Base64.BlanksAreIgnored | agents/agent-core/src/lib.rs:1518-1520 | ASCII white space inserted anywhere changes nothing |

## Left out

- TurnLoop.Turn.Run: equality with a fresh projection is promised for turns in which others log bookkeeping only, and hidden ranges are fixed within a turn; with a nudge in the turn the list holds text of origin 0 that the log has elsewhere. A nudge taken while streaming or compacting is counted and said, but does not by itself earn another completion, as in the source.
- CompactionRuns.UserTextIsNeverCovered: plans on the projection only; for a turn's own list the exact condition is `TurnPlans.UserTextIsCoveredIff`.
- BuildCache.Cache.Store: promises a cleared staging directory only to the call that published; the source ignores a failed removal after a lost race.
- BuildCache.PublishesWholeIff: a file two writers write at once is read as its last opener's, not as a mixture of both.
- TurnLoop.Turn.StreamCompletion: a stream is a finite list of items that may fail at its end; the served model name and the wording of errors are not kept.
- TurnLoop.Turn.Dispatch: the host stops a worker whose tool traps; such a turn has no further steps and no exit to state anything about.
- TurnTrace.FruitlessAttemptsDouble: stated below saturation of u32, where a tenth more no longer grows.
- Delegation.Wait: readings of the registry take no time, and the rings that wake it are finitely many; of failed readings only the first is spoken of.
- ActivityFold.AgentsAreTheLargestBalance: stated while no stretch of the history leaves more children running than a u32 counts.
- CacheBreakpoints.MarksReachBack: one cached block per message.
- Skill retrieval, tool offering and routing around `rehydrate`, accounting reports and progress frames: they append no events and change no message.
- JSON text, attachments and their inlining budget, system-prompt and summary wording: messages are datatypes, sizes follow the keys and text they would hold, summaries and prompts are any text.
- The fractions behind the compaction thresholds, dollar costs and scores: thresholds are naturals, costs are integers, and the groups a query matches are a parameter.
- Overflow of the token totals, which the source adds without saturation.
- `list` and `artifact_path` of the build cache, hashing itself, directory creation, and names of other keys.
- Parsing of wait predicates, provider vendor lookup, todo JSON and rendering: one-branch rules.
- Browser, gateway, authentication, storage engine, tool tables and every call into them.
