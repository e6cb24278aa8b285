# moot, modelled and proved

moot is a local message bus for coding agents. Agents and human observers join a hub under a
name. What an agent says reaches every other agent, but only those it addresses are woken; the
rest overhear it, and find it as context in front of their next wake. Every agent has a bounded
wake queue and a bounded context buffer, both of which announce what they had to drop. A round
counter freezes the floor when agents wake each other too long, and `session_done` resets it.
Registrations outlive their connections for a while, and a watchdog reaps, pings and infers.

This project models that hub, its parts, and three smaller pieces of moot, and proves what they
promise over whole runs, with every cap in force.

## How it is built

The hub is modelled twice.

* `Hub.dfy` and `Participant.dfy` are the objects of the source: a hub with its participants,
  their queues, context buffers, token buckets and duplicate windows, updated in place by
  methods that follow the source's methods. `Bucket.dfy`, `Dedup.dfy` and `Participant.dfy`
  hold the classes of the parts.
* `HubState.dfy` and `HubSpec.dfy` say what each of those methods does as a function of the
  state, `Mailbox.dfy` what happens to one mailbox. Every method of the objects is proved to
  leave exactly the state its function gives, so what is proved of the functions holds of the
  objects (`Hub.TakeLawfulStep`).

The laws are proved of the functions, one file per subject: `MailboxLaws.dfy`, `Slicing.dfy`
and `LawMail*.dfy` (order, conservation, privacy, shape, nobody waits), `LawIdle.dfy` (slices
add up to one merge), `LawRoute.dfy` (who gets what), `LawTold.dfy` (histories match the frames
sent), `LawFloor.dfy` (session end, rounds), `LawSession.dfy` and `LawRound.dfy` (session ends told
of the log, marks and round after them, registrations that are away), `LawFreeze.dfy` (freeze), `LawRecords.dfy` (rate, duplicates, quorum, recent
window), `LawRestart.dfy` and `LawNumbers.dfy` (restart, ids). `HubFrames.dfy` says what the
transitions leave alone. `HubTheorems.dfy` draws the conclusions for all runs and restarts, and
`Witness.dfy` and `WitnessSession.dfy` give runs for those that may surprise.

A run is any sequence of inputs, each at its own time: an inbound frame, the end of a
connection's reader, a transport that fails between frames, a watchdog tick. Each is atomic,
because the server handles them under one lock. Besides, any single send may meet a failed
transport (`Env.fails` is arbitrary), so connections can be lost in the middle of a step. A lost
connection never comes back. Time does not run backwards, and the monotonic clock is not
negative: with a negative clock the initial `last_say` of 0 could answer a quorum.

Each registration carries a history the source does not have: what was routed into its mailbox,
handed out and lost, and which says were accepted from it. The state carries a log of what was
sent and recorded. They are there for the laws to speak of; no transition reads them, except
that a newcomer notes how long the log of what agents were sent and said was before it.

`Names.dfy` is the name suggester, `Stream.dfy` the threads of `moot stream`, `Footer.dfy` the
wrapping and cursor arithmetic of the input footer, `Transcript.dfy` the reading back of the
transcript.

`dafny verify dfyconfig.toml` checks everything.

## Where code and documentation part

* docs/PROTOCOL.md:32-35 and :285 say that deliveries to observers never count toward rounds.
  In the code an agent's name can be reclaimed by an observer, which inherits the agent's queue;
  the flush at src/moot/core/hub.py:418-419 then counts like any other (hub.py:261-264).
  `HubWitness.ObserverDeliveryCounts` is a run in which that happens, and
  `HubTheorems.ObserverFramesCount` says for all logs which frames to observers count.
* src/moot/core/hub.py:108-109 says that ids stay unique across restarts. Over the transcript
  they do exactly as long as every start finds no record or a last record at most a day old
  (`HubTheorems.NextStartNumbersOn`, with `LawNumbers.OldIdsComeAgain` for the failing input).
  Over everything handed out a restart numbers on from above exactly if the last id used was
  that of a record from yesterday or today, or none was used (`LawNumbers.RestartNumbersOn`); the
  notes of a mute break that (`LawNumbers.MuteIdsComeAgain`), as docs/PROTOCOL.md:213-218 grants.
* src/moot/core/dedup.py:24-30 says that distinct recipients never collide. The text that is
  hashed lets recipients collide exactly if one goes on from the other with a line feed and a
  flag (`Dedup.KeysCanMeet`). Names have no line feed, so at the hub the promise holds.
* src/moot/spoke/tui.py:53-54 promises rows of at most `width` cells. That needs two cells as
  soon as a double-width character can occur (`Footer.FitNeedsTwoColumns`).
* docs/PROTOCOL.md:104-113 says that a session ends when all agents are finished, that its end
  clears every mark, and that it resets the round counter. A say flushes its sender's queue
  before it sets or lifts the sender's mark (hub.py:452-459), so with a marked sender whose last
  slice waits, the flush can end the session first. If the say is no `done`, the session has
  ended although its sender has just gone on (`LawSession.StepMinuted` says exactly when,
  `SessionWitness.EndComesAstray` is such a run). If it is a `done`, the mark is set again after
  the end: it stays if there is another agent (`LawSession.MarkAfterAnEnd`,
  `SessionWitness.MarkOutlivesEnd`), and ends the session a second time if there is none
  (`LawSession.StepEnds`, `SessionWitness.EndComesTwice`). And a hello that ends the session by
  reaping a stale holder flushes the returned one's queue right after the reset
  (hub.py:302-307, 418-419), which leaves round 1 (`LawRound.RoundAfterAnEnd`,
  `SessionWitness.EndLeavesRoundOne`).

## Model

| member | source | states |
|---|---|---|
| HubTheorems.StepGood | src/moot/core/hub.py:921-973 | one step, whatever it is, keeps everything the theorems below rest on: mailboxes, floor, records, histories, session |
| HubTheorems.RunGood | src/moot/core/hub.py:832-973 | so does any run of frames, closed and lost connections and watchdog ticks, in any order, with sends failing anywhere |
| HubTheorems.LivedGood | src/moot/core/hub.py:108-114 | so does any number of restarts on the same transcript |
| HubTheorems.SentInOrder | src/moot/core/hub.py:204-268 | the ids of all frames sent to an agent since it first joined, one frame after the other, strictly increase, across drops, evictions, disconnects and reclaims; and no frame holds a private message to somebody else |
| HubTheorems.DeliveryOrder | src/moot/core/hub.py:204-268 | everything handed out so far precedes everything queued or buffered; queue and context are in order and share no id, so context never overtakes a queued wake |
| HubTheorems.ExactLoss | src/moot/core/hub.py:197-260 | every copy routed to a registration is delivered, queued, buffered or lost, exactly once; the losses equal the counts announced so far plus `queue_dropped` plus `_evicted` |
| HubTheorems.Privacy | src/moot/core/hub.py:593-608 | no queue, context or handed-out frame of a registration holds a private message whose `to` is another name, whatever kinds it rejoins under |
| HubTheorems.FrameShape | src/moot/core/hub.py:230-268 | every frame is sorted by id, holds 1 to `deliver_wake_cap` wakes and at most `context_cap` + 1 overheard lines; queue and context keep their caps between steps and hold only lines of their kind |
| HubTheorems.NobodyWaits | src/moot/core/hub.py:230-290 | an agent with a connected client and a non-empty queue is not idle |
| HubTheorems.ReclaimRoundTrip | src/moot/core/hub.py:334-419 | a registration leaves, anything happens short of its expiry, and it is reclaimed: budget, duplicate window and history are as they were, and the mailbox too, less the one slice handed over on the return |
| LawSession.AwayIsUntouched | src/moot/core/hub.py:832-973 | no step does anything to a registration that is away, but for its own return or its expiry |
| LawTold.StepTold | src/moot/core/hub.py:204-228 | the frames a mailbox records as handed to an agent are exactly the frames sent to it since it joined, and the says a registration remembers exactly those accepted from it since; every step keeps that |
| LawMailSteps.StepSound | src/moot/core/hub.py:197-620 | every step keeps order, conservation, privacy and shape of every mailbox, and leaves no deliverable agent waiting; the two are proved together because an immediate wake keeps the order only if the queue is empty |
| LawMailSteps.BacklogFacts | src/moot/core/hub.py:395-415 | a joiner's backlog is in order, holds nothing of its own and, for an agent, nothing private to others |
| LawMail.RouteAllMail | src/moot/core/hub.py:590-608 | one pass over the participants keeps every mailbox sound while drawn batches are still in hand |
| MailboxLaws.EnqueueHolds | src/moot/core/hub.py:197-202 | queueing a newer message keeps order, conservation with exact loss, privacy and shape, the drop of the oldest included |
| MailboxLaws.OverhearHolds | src/moot/core/buffer.py:23-27 | appending a newer line to the context keeps the same, evictions included |
| MailboxLaws.WakeHolds | src/moot/core/hub.py:604-605 | an immediate wake drawn from an empty queue keeps the same |
| MailboxLaws.SliceHolds | src/moot/core/hub.py:236-260 | drawing a slice of queue and context keeps the same, the placeholder for drops included |
| MailboxLaws.HandHolds | src/moot/core/hub.py:204-214 | handing a drawn batch over as one sorted frame keeps the same |
| MailboxLaws.SortKeeps | src/moot/core/hub.py:208-208 | sorting by id orders a batch and neither loses nor adds a message |
| Slicing.SlicesAreOneMerge | src/moot/core/hub.py:230-268 | flushing until the queue is empty takes exactly ceil((queue + drop line) / wake cap) frames, empties the context, and the frames' numbered messages are the id-sorted merge of queue and context |
| LawIdle.FlushIsSlice | src/moot/core/hub.py:230-268 | the hub's flush does to the mailbox exactly one such slice, and nothing else touches it |
| LawIdle.IdleReportsDrain | src/moot/core/hub.py:698-716 | from a waiting queue, exactly that many idle reports, at any times, drain it to that merge, one frame each, as long as the agent's own connection still works whenever it reports |
| LawRoute.SayIsRouted | src/moot/core/hub.py:590-608 | an accepted say is routed to every agent but the sender exactly as its addressing asks, a private one to no third party, and to no other registration |
| LawRoute.SayGoesOut | src/moot/core/hub.py:590-694 | what an accepted say sends, note for note: its record, one frame to every connected observer, one wake to every idle connected addressee ending with its copy, the news of a freeze exactly if this wake exhausts the rounds, and the `ok` with the number of those that must wait |
| LawRoute.SystemReaches | src/moot/core/hub.py:270-290 | a note from the hub is routed once to every agent, under an id of its own, and to nobody else |
| LawRoute.GoalReaches | src/moot/core/hub.py:772-789 | the goal line reaches every live agent's context, wakes nobody, and reaches nobody else |
| LawRoute.SayIsAnswered | src/moot/core/hub.py:447-630 | every say is answered exactly once, on its connection, with its seq: `ok` with the next id if accepted, `err` if not |
| HubTheorems.HistoryIsAccepted | src/moot/core/hub.py:524-588 | an agent's history of says, and the log, grow by exactly the say when it is accepted and not otherwise |
| LawFloor.StepFloor | src/moot/core/hub.py:610-676 | every step keeps: `session_done` not due, not frozen implies round < max_rounds, round equals the wake occasions in the log |
| HubTheorems.SessionNeverMissed | src/moot/core/hub.py:656-671 | between steps, if there is an agent, some agent is unfinished or has a queue: no completed session is left unannounced |
| HubTheorems.SessionEndsWereDue | src/moot/core/hub.py:656-671 | whenever the log says a session ended, there were agents on the floor, and the last say accepted from each since it joined was a `done`: at that point, or, if what comes last there is a say, just before it; so at that point for all but the sender of that say |
| HubTheorems.PresentIsLive | src/moot/core/hub.py:294-420 | who the log says is on the floor, and as what kind, is on the floor as that |
| LawSession.StepMinuted | src/moot/core/hub.py:447-671 | every step keeps log and floor in agreement, every mark backed by a last say that is a `done`; and a step ends a session with an agent whose last say is no `done` exactly when it is an accepted say other than `done` of an already marked agent without `idle-events` that is not idle, whose waiting slice is its last, whose connection outlives the `ok`, while all others are marked, with nothing waiting, and are not made to wait by the say |
| SessionWitness.EndComesAstray | src/moot/core/hub.py:452-459 | a run from an empty start with such an end: the last thing an agent says is no `done`, and its own flush ends the session |
| LawSession.StepEnds | src/moot/core/hub.py:447-459 | a step announces at most two session ends, and two exactly when it is an accepted `done` of the only agent, already marked, not idle, without `idle-events`, with a waiting slice that is its last and a connection that outlives the `ok`: the flush ends the session, the mark ends it again |
| SessionWitness.EndComesTwice | src/moot/core/hub.py:452-457 | a run from an empty start with such a step |
| LawSession.MarkAfterAnEnd | src/moot/core/hub.py:447-671 | a step that ends a session leaves an agent marked exactly when it is an accepted `done` whose own flush ends the session, under the conditions above, while another agent is on the floor; the marked one is the sender, and no other |
| SessionWitness.MarkOutlivesEnd | src/moot/core/hub.py:452-457 | a run from an empty start with such a step |
| LawRound.RoundAfterAnEnd | src/moot/core/hub.py:302-419 | after a step that ended a session the round is 0, but for exactly one kind of step, after which it is 1: a hello that reaps a stale holder, without whom all others are finished with nothing waiting, and then flushes to the returned one a slice with a wake that is not the hub's own |
| SessionWitness.EndLeavesRoundOne | src/moot/core/hub.py:302-419 | a run from an empty start with such a step |
| HubTheorems.RoundBudget | src/moot/core/hub.py:610-676 | round equals the number of wake occasions (says that wake an agent, flushes with a non-system wake) since the last reset or session end; an open floor has fewer than max_rounds of them |
| HubTheorems.ObserverFramesCount | src/moot/core/hub.py:230-268 | over the log: a frame to an observer is a wake occasion if and only if it is a flush with a wake that is not the hub's own, and then its round number is the raised tally |
| HubWitness.ObserverDeliveryCounts | src/moot/core/hub.py:418-419 | a run from an empty start in which a delivery to an observer counts: an agent leaves a queued message behind and an observer takes over its name |
| LawFreeze.StepSpends | src/moot/core/hub.py:473-480 | on a frozen floor every step whatever, short of an observer's say, resume, reset, mute or unmute, keeps it frozen and pays each frame to an agent with a waiting wake |
| LawFreeze.FreezeBackstop | src/moot/core/hub.py:230-268 | over any such run agents are sent at most the wakes waiting at the freeze, over live and dead registrations; each frame lowers that number for good |
| LawRecords.StepRecords | src/moot/core/hub.py:504-588 | every step keeps bucket and duplicate window true to the full history of accepted says, the quorum true to the log, and the recent window true to the transcript |
| HubTheorems.RateIsBounded | src/moot/core/bucket.py:16-30 | of the says the log holds from a registration since it joined, at most burst + rate * T lie in any stretch of time no longer than T, reclaims included |
| Bucket.RetryIsExact | src/moot/core/bucket.py:25-38 | after a refusal the next take succeeds exactly when at least `retry_after` has elapsed |
| Bucket.TakeKeepsLedger | src/moot/core/bucket.py:16-30 | a granted take keeps the ledger between the bucket's level and the times of all takes granted |
| Bucket.RateBound | src/moot/core/bucket.py:16-30 | a ledger bounds the takes of any stretch by capacity + rate * length |
| HubTheorems.DuplicateIsHistory | src/moot/core/dedup.py:21-34 | `seen` answers true exactly when the log holds, since the registration joined, the same (to, private, text) accepted from it no longer ago than the window |
| HubTheorems.SaysAreSpaced | src/moot/core/dedup.py:21-34 | identical says the log holds from one registration are more than the window apart |
| Dedup.KeyInjective | src/moot/core/dedup.py:14-15 | the text that is hashed determines recipient, privacy and text whenever recipients have no line break, as registered names have none |
| Dedup.KeyCollidesAcrossLines | src/moot/core/dedup.py:14-15 | without that proviso it does not: two different says with one key |
| Dedup.KeysCanMeet | src/moot/core/dedup.py:14-15 | two recipients can share a key if and only if one is the other followed by a line feed, a flag digit, and then nothing or a line feed; recipients without line feeds never can |
| Dedup.SeenIsHistory | src/moot/core/dedup.py:17-34 | the expiring dictionary answers what the full history would |
| Dedup.SeenKeepsHistory | src/moot/core/dedup.py:17-34 | a look at the window keeps dictionary and history tied, and a new say extends the history |
| HubTheorems.QuorumFiresOnce | src/moot/core/hub.py:888-907 | between two quorum events an observer asked agents again |
| HubTheorems.QuorumIsSound | src/moot/core/hub.py:888-907 | a quorum event names agents the last asking say addressed, at least one, each with a say accepted strictly later than it |
| HubTheorems.QuorumWhenQuiet | src/moot/core/hub.py:888-907 | a tick that tells of a quorum leaves every agent idle with an empty queue |
| LawRestart.WindowIsTranscriptEnd | src/moot/core/hub.py:564-588 | the recent window equals the last `recent_window` msg records of the whole transcript if and only if those records are no older than the day before the hub started |
| LawRestart.RestartKeepsWindow | src/moot/core/hub.py:108-114 | a hub started on the transcript has the running hub's recent window if and only if the window's records lie in yesterday's and today's files |
| LawNumbers.RestartNumbersOn | src/moot/core/hub.py:110-120 | it numbers on from above every id the running hub has used, notes included, if and only if that has used none, or the last it used is the id of the last record and that is from yesterday or today |
| LawNumbers.RestartAboveTranscript | src/moot/core/hub.py:110-114 | it numbers on from above every recorded id if and only if nothing is recorded, or the last record is from yesterday or today and carries the largest id |
| HubTheorems.LivedNumbered | src/moot/core/hub.py:108-120 | as long as every start finds no record or a last record at most a day old, the ids of the whole transcript rise, through any number of restarts |
| HubTheorems.NextStartNumbersOn | src/moot/core/hub.py:108-120 | and the next start numbers on from above every recorded id if and only if it finds that too |
| LawNumbers.StepNumbered | src/moot/core/hub.py:536-588 | a hub whose whole transcript is numbered in order goes on so |
| LawNumbers.OldIdsComeAgain | src/moot/core/hub.py:110-114 | a hub started on older files only gives a recorded id again |
| LawNumbers.MuteIdsComeAgain | src/moot/core/hub.py:270-290 | the notes of a mute use ids that no record keeps: the first one is the next id a restarted hub gives |
| LawRestart.RestartKeepsBacklog | src/moot/core/hub.py:395-415 | then a fresh joiner is given the same backlog by both, and a fresh agent the same mailbox |
| LawRestart.TwoFiles | src/moot/core/transcript.py:68-71 | yesterday's and today's files hold the records since yesterday, in order |
| LawRestart.BootGood | src/moot/core/hub.py:80-114 | a hub that starts on well-formed files satisfies everything its steps keep |
| LawRestart.RestartStarts | src/moot/core/transcript.py:38-71 | what a good hub has written can be started on at any later time |
| Names.SuggestName | src/moot/core/proto.py:225-234 | terminates; the result is the first free candidate, at some n of at most k + 2 for k taken names |
| Names.SearchEnds | src/moot/core/proto.py:225-234 | the pigeonhole: n tries without a free candidate need n - 2 taken names |
| Names.CandidateInjective | src/moot/core/proto.py:225-234 | candidates for different n differ, truncated stem or not |
| Names.CandidateValid | src/moot/core/proto.py:225-234 | a candidate is a valid name, of at most 32 characters, if and only if its number is below 10^30 |
| HubTheorems.TakenNameIsSuggested | src/moot/core/hub.py:325-332 | a hello for a name in use is told that candidate, free among live and dead names, and its connection is closed |
| Buffer.ContextBuffer.AppendLine | src/moot/core/buffer.py:23-27 | pushes out the oldest lines until there is room, counts them, appends |
| Buffer.ContextBuffer.Drain | src/moot/core/buffer.py:40-49 | returns the placeholder for evictions, if any, and the longest prefix within the id bound, and keeps the rest |
| Bucket.TokenBucket.Take | src/moot/core/bucket.py:25-30 | refills, and takes a token exactly if there is one |
| Bucket.TokenBucket.RetryAfter | src/moot/core/bucket.py:32-38 | the time until a token is there |
| Dedup.DedupWindow.Seen | src/moot/core/dedup.py:21-34 | forgets what is too old, answers whether the key is left, records it if not |
| Participants.Participant.EnqueueWake | src/moot/core/hub.py:197-202 | appends to the queue, dropping and counting the oldest at the cap |
| Participants.Participant.TakeSlice | src/moot/core/hub.py:236-260 | the next slice of queue and context, with the drop line in front and the id bound while wakes remain |
| Participants.Participant.Report | src/moot/core/hub.py:698-714 | a state report, and whether it starts a blocked episode |
| Hub.Hub.constructor | src/moot/core/hub.py:80-114 | starts empty, with window and id counter read back from the transcript |
| Hub.Hub.EmitEvent | src/moot/core/hub.py:149-159 | sends an event to the connected observers, in joining order, any of which may be lost on the way |
| Hub.Hub.Deliver | src/moot/core/hub.py:204-228 | one frame, sorted by id; an agent becomes busy |
| Hub.Hub.FlushQueue | src/moot/core/hub.py:230-268 | draws and sends one slice, counts a round unless it is system-only, then checks limit and session |
| Hub.Hub.SystemMessage | src/moot/core/hub.py:270-290 | every agent is woken with a note of its own id, or has it queued |
| Hub.Hub.HandleHello | src/moot/core/hub.py:294-420 | reaps a dead holder, refuses a live one with a suggestion, otherwise reclaims or registers, welcomes, gives the backlog, announces, flushes |
| Hub.Hub.HandleSay | src/moot/core/hub.py:447-459 | routes the say, infers idleness, sets or lifts the finished mark |
| Hub.Hub.RouteSay | src/moot/core/hub.py:461-630 | the checks in their order, each with its own refusal and cost, then registration and routing |
| Hub.Hub.RegisterSay | src/moot/core/hub.py:536-588 | a fresh id, the record in transcript and window, the quorum armed by an observer that asks agents |
| Hub.Hub.RouteEach | src/moot/core/hub.py:590-608 | one pass over the participants: shown, overheard, woken or queued |
| Hub.Hub.CheckSessionDone | src/moot/core/hub.py:656-671 | tells of a completed session, resets the round and clears the marks |
| Hub.Hub.CheckRoundLimit | src/moot/core/hub.py:673-694 | freezes at the limit |
| Hub.Hub.HandleState | src/moot/core/hub.py:698-716 | records the state, arms the blocked timer on a transition or changed detail, flushes on idle |
| Hub.Hub.HandleCmd | src/moot/core/hub.py:720-770 | observers only: freeze, resume, reset, mute, unmute, goal |
| Hub.Hub.BufferGoal | src/moot/core/hub.py:772-789 | the goal line goes into every live agent's context |
| Hub.Hub.WatchdogTick | src/moot/core/hub.py:832-919 | expires dead registrations, reaps and pings, assumes idleness, tells of blocks, quorum and stall |
| Hub.Hub.Handle | src/moot/core/hub.py:921-955 | validates, counts as a life sign, dispatches |
| Hub.Hub.Disconnect | src/moot/core/hub.py:962-973 | the registration moves to the dead, its mailbox kept, and the session is checked |
| Hub.Hub.TakeStep | src/moot/core/hub.py:921-973 | any one input leaves the state the transition function gives |
| Hub.Hub.TakeLawfulStep | src/moot/core/hub.py:921-973 | and leaves a hub of which all the laws above still hold |
| Transcripts.ReadDay | src/moot/core/transcript.py:42-63 | the records of a day's file, oldest first; blank and corrupt lines are ignored, and the msg records are those of the file |
| Transcripts.RecentMsgs | src/moot/core/transcript.py:68-71 | the msg records of yesterday's file, then of today's, whatever else the files hold |
| StreamThreads.StepKeeps | src/moot/cli/stream.py:94-269 | every step of every thread, the reader's exits from `_adopt` before and after `live.set()` included, keeps the table, the lock discipline, the slots and the cover of unfinished says |
| StreamThreads.AllKeep | src/moot/cli/stream.py:94-269 | so does every interleaving of them, across any number of rejoins |
| StreamThreads.AnswersAreOwn | src/moot/cli/stream.py:200-269 | whatever the hub sends: the answer a say takes from its slot is a frame with its own seq, read on the connection it was registered on, or the local `hub_unreachable` |
| StreamThreads.RepliesAreUnshared | src/moot/cli/stream.py:200-210 | no reply lands in the slots of two says |
| StreamThreads.NobodyHangs | src/moot/cli/stream.py:193-198 | once `_fail_pending` has returned for the connection a say was registered on, the say has finished or has an item to take |
| StreamThreads.OutageRefuses | src/moot/cli/stream.py:242-249 | a say is refused at its first look exactly if the reader has closed the stream: before, during or after its last `_fail_pending`; and at its second look if there is no live connection; the two looks are two steps |
| StreamThreads.Stream.BeginSay | src/moot/cli/stream.py:245-249 | under the lock, the first of the two looks |
| StreamThreads.Stream.CheckLive | src/moot/cli/stream.py:248-249 | the second |
| StreamThreads.Stream.RegisterSay | src/moot/cli/stream.py:250-253 | a fresh seq and slot under the lock, with the connection of the moment |
| StreamThreads.Stream.TakeAnswer | src/moot/cli/stream.py:260-261 | the first item of the slot is the answer |
| StreamThreads.Stream.LookUp | src/moot/cli/stream.py:200-209 | the waiter of a seq, if there is one |
| StreamThreads.Stream.FailPending | src/moot/cli/stream.py:193-198 | every say in the table at the snapshot gets the local refusal; no unfinished say is left without an item |
| StreamThreads.Stream.AdoptConn | src/moot/cli/stream.py:174-180 | the new connection takes the place of the old |
| Footer.DisplayForm | src/moot/spoke/tui.py:108-125 | the buffer as drawn |
| Footer.DisplayIsHarmless | src/moot/spoke/tui.py:108-125 | no control character but the line feed is ever drawn, and no character disappears |
| Footer.DisplayIsStable | src/moot/spoke/tui.py:108-125 | text without control characters is drawn as it is |
| Footer.DisplayPos | src/moot/spoke/tui.py:128-130 | the drawn prefix is the drawing of the prefix |
| Footer.WrapRows | src/moot/spoke/tui.py:52-70 | the wrapped rows |
| Footer.WrapIsFaithful | src/moot/spoke/tui.py:52-70 | the rows put together again are the text; a break is a line feed of the text or was needed because the next character did not fit |
| Footer.RowsFit | src/moot/spoke/tui.py:52-70 | every row fits a width of at least two cells |
| Footer.FitNeedsTwoColumns | src/moot/spoke/tui.py:52-70 | with a double-width character about, all rows of all texts fit if and only if the width is at least two |
| Footer.CursorRowCol | src/moot/spoke/tui.py:90-105 | the cursor is at the last row of wrapping the text before it, behind that row's cells, at every width |
| Footer.PrefixRows | src/moot/spoke/tui.py:52-105 | wrapping a prefix gives the rows of the whole up to where the prefix ends |
| Footer.Screen.DrawFooter | src/moot/spoke/tui.py:650-668 | the window contains the cursor's row, shows the rows it should, stays within the text if it can, and does not move if it need not |
| Footer.Screen.RedrawFooter | src/moot/spoke/tui.py:580-587 | what is drawn is a contiguous stretch of the wrapped input, at most five rows, with the cursor behind the wrapped part before it |

## Left out

- HubTheorems.RateIsBounded: says nothing of observers, whom the hub does not limit.
- HubTheorems.DeliveryOrder: exempts lines with id 0 (goal, placeholders), which sort to the front of their frame, and frames with a backlog that an observer is sent again when it reclaims.
- HubTheorems.StepGood: assumes every cap of the configuration is at least 1, as the context buffer and the bucket demand of theirs; with a queue cap or window of 0 the source's list operations misbehave.
- Bucket.RetryIsExact: is about the exact waiting time; the `err` frame rounds it to milliseconds.
- LawRestart.BootGood: assumes files whose records are dated in order and whose last two days are numbered in order; what a good hub has written is such a file.
- Hub.Hub.Deliver: the order of `sorted` is a function on the batch, not an in-place sort; participants are looked up by name in the lists of pending wakes.
- StreamThreads.Stream.FailPending: runs undisturbed as a method; the step relation of the same file lets every other thread in between its puts.
- Hub.Hub.HandleHello: leaves out the `room_declared` record, the role, and what the welcome tells.
- Connections are numbers; `connected` and `name` of a client are the hub's sets of gone and named connections. Sockets, outbound queues, and the closing of a socket are not modelled.
- Frames come from the connection that holds the name: `handle` looks a participant up by name only, and a superseded connection is not ruled out by it.
- JSON, UTF-8 and field validation, beyond the rules the floor relies on (valid names, a named recipient for a private say, a positive grant for resume); everything else that fails is one malformed frame. The documented name pattern is used, without the trailing line feed that the regular expression lets through.
- sha256: the hashed text stands for its digest.
- The texts of errors, events, roster and welcome; role and room; `_session_done_at` and the detail of a stall.
- Notifications and the presence of observers.
- The goal file; only the goal line in the context buffers is modelled.
- Deliver and event records of the transcript are entries of the log; only msg records are read back. Which lines are JSON is given; a record glued to a torn line is a corrupt line.
- One time stands for all clock reads of a step.
- The rejoin loop's backoff and budget, the replay of the last reported state, and the relaying of states in `moot stream`.
- Terminal escape output, the divider and the resizing of the footer; the character tables are any tables.
