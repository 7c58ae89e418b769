# The run-dispatch protocol of funduq, and the readings of its event log

funduq queues runs per agent, offers them to connected providers, and relays each claimed run's events
to its log, its subscriber and its thread. This project models that machinery and proves what it keeps
over every interleaving.

- **The broker** (`broker_spec.dfy`). One function per atomic step, an `await` ending a step, so an offer
  is two steps with anything in between. Run objects are addressed by handle, because an offer, a pipeline
  and a one-shot hold the *object* while `push` and `forget` go by run id. `broker.dfy` and
  `live_roster.dfy` are the classes with the mutable fields; every method is proved to do exactly its step.
  The theorems over all executions are in `broker_stranded`, `broker_contested`, `broker_ledger`,
  `broker_capacity`, `broker_wakeup`, `broker_figures`, `broker_order`, `broker_grace`, `broker_roster`,
  `broker_offers` and `broker_quality`.
  `broker_ownership`, `broker_overtaken` and `broker_claims` say when exactly one pipeline acts for a run, and
  for how long.
  `gates.dfy` puts the gates of `report_event` and `finish_run` in front.
- **The status table** (`status.dfy`) and what its rows tell of their histories (`status_times.dfy`), **the doors**
  in front of a thread's queue (`doors.dfy`), and the reply and queue lanes of the A2A and AG-UI doors (`lanes.dfy`).
- **The pipeline and its handlers**: what a round does as functions (`pipeline_spec.dfy`), the handlers and
  the loop as methods over a run object and a database (`pipeline.dfy`), and what follows for the stream,
  the meaning of the commands, the database and successive rounds (`pipeline_stream`, `pipeline_meaning`,
  `pipeline_records`, `pipeline_rounds`). Any database call of a handler may raise: `pipeline_settles` says
  exactly when the row is settled and the reply handed over all the same, `pipeline_calls` what is then stored,
  sent and asked. `last_words` has the pause, the status and the A2A caller's last word in the fields of the
  events relayed. `pipeline_turns` takes one turn on the one run object that the broker and the handlers share.
- **The event folds**: reduced thread messages (`reduce.dfy`) and the A2A stream and snapshot (`a2a.dfy`).
- **The provider's side**: the runtime's intake (`runtime.dfy`, `runtime_repeats.dfy`) and the shared output
  queue whose reports go through the gates (`wire.dfy`).
- **The whole system** around one solely owned run (`dispatch.dfy`): the broker with all its other runs, its
  holder's output queue and the run's round move together. `owned_runs.dfy` and `end_to_end.dfy` are what
  follows for its stream, its row, its reply and its caller, over every execution in which no offer of the run,
  left outstanding by a late ack, is accepted or refused; `TiedIffSpared` shows that this hypothesis is exact.
- **Actor chains** (`identity.dfy`), over an uninterpreted hash and signature scheme.

What the proofs found out about the code:

- An id that is untracked and in no queue is not always safe to enqueue: a second one-shot of a queued run
  cancelled twice, a pipeline that will still read a closing command, or an outstanding offer can forget the
  new run. `EnqueueStrandsIffContested` gives the exact condition, `UntrackedAndUnqueuedCanBeContested` an
  execution. Conversely, an id still standing in a queue does not strand a run, but it breaks that queue's order.
- `resume_run` reopens without a status guard (`core.py:955`): a failed run becomes queued with its
  `completed_at` still set. The table keeps `completed_at` right exactly while no reopen wins over a terminal row.
- The comment on the unlocked queue check speaks of an overshoot by one; it is the number of doors that
  checked before any of them created, less one, and that is reached.
- A second cancel of a claimed run is refused by the status table, as is a second claim; nothing else is
  unless a sweep failed the row.
- Nothing rechecks a run when its offer is answered (`broker.py:431-440`, `broker.py:464-472`). Cancelled while on
  offer and then accepted, it is ended and forgotten by its one-shot: its provider holds it, and nothing it reports
  is heard. Reported for while on offer and then accepted, it gets a second pipeline on the same queue; and then
  refused, a one-shot that ends it beside its pipeline. `CutOffHappens`, `TwoPipelinesHappen` and
  `RefusalAfterAckHappens` are such executions. `ClaimLasts` says exactly which claims leave a run to one pipeline
  and for how long, and every result about a run's stream, row, reply and caller is stated for those.
- A reply can reopen a run between the commit of its pause and the end of its stream, so that its row says queued at
  END; `SettledAtTheEndIff` says exactly when other writers leave a row settled.
- A pipeline left over from an older run of an id that meets a malformed event puts its Fail on the queue of the
  id's newer run, as it pushes by run id (`handlers.py:66`); `OthersKeep` has it among what can reach a run.
- A cancel spawned while a run was queued, handled after a late ack claimed it, only asks: it ends the
  stream and leaves the row unsettled, unless the row was settled before. `OneShotSettles` has the condition.
- If the write of a claim is lost, the run streams to its end and its row stays queued; if the last commit of
  a finish is lost, the row says completed and the thread never gets the reply. `SettledIffWritten` and
  `ReplyIffWritten` say exactly when not, `LostClaimsStayQueued` and `LostCommitLosesTheReply` what is left then.
- `max_queued_runs` above one lets a runtime run more than it declared; zero makes its queue unbounded; and a
  run delivered again while it waits or its first task is alive breaks the bound, for every pair of limits.
- The stream's last A2A status is "working" when an unmapped event follows RUN_FINISHED, while the stored one is
  "completed"; `LastStatusIsStored` says exactly when the two agree.

## Model

| member | source | states |
|---|---|---|
| Broker.RunBroker.StartLoop | funduq/funduq/broker.py:258-264 | starts the sweep loop once, with the event clear; a second start changes nothing |
| Broker.RunBroker.EnqueueRun | funduq/funduq/broker.py:301-334 | refused exactly while the broker is stopped; otherwise a new run object is tracked under its id, last in its agent's queue, and the event is set |
| Broker.RunBroker.RegisterProvider | funduq/funduq/broker.py:336-348 | links the refs, stops their clocks, gives a new key a bucket holding what the connection declared and keeps an existing one, sets the event |
| Broker.RunBroker.UnregisterProvider | funduq/funduq/broker.py:356-361 | unlinks the refs and starts their clocks now; the loops do no more |
| Broker.RunBroker.NoteAbnormalEvent | funduq/funduq/broker.py:231-255 | counts one event and withdraws every ref of a provider whose counter reaches the tolerance |
| Broker.RunBroker.PushCommand | funduq/funduq/broker.py:484-501 | known ids only; appends to the object the id names; a Fail for a claimed run is an abandonment |
| Broker.RunBroker.RequestCancellation | funduq/funduq/broker.py:510-524 | sets the flag and either queues the cancel to the pipeline or spawns a one-shot |
| Broker.RunBroker.LateAcknowledge | funduq/funduq/broker.py:583-620 | takes exactly an unclaimed run of an agent the claimant serves, out of the queue, charged and counted |
| Broker.RunBroker.ExpireQueued | funduq/funduq/broker.py:526-559 | walks snapshots of the unserved queues and gives up exactly the entries whose grace is over |
| Broker.RunBroker.BeginSweep | funduq/funduq/broker.py:275-284 | expire, clear the event, start over all agents that have a deque |
| Broker.RunBroker.OfferPending | funduq/funduq/broker.py:363-397 | drops the unofferable head, skips agents unserved or without room, or makes one offer |
| Broker.RunBroker.FinishOffer | funduq/funduq/broker.py:399-472 | the four answers: unanswered, refused for good, declined, accepted, each with its exact effect on queue, bucket and counters |
| Broker.RunBroker.TakeNext | funduq/funduq/broker.py:172-186 | a pipeline takes the head command; a malformed event drains the queue and pushes a Fail by run id |
| Broker.RunBroker.HandlerDone | funduq/funduq/broker.py:187-193 | a closing command ends the run and forgets its id, any other returns to waiting |
| Broker.RunBroker.OneShotDone | funduq/funduq/broker.py:564-578 | a one-shot ends its object's stream and forgets its id |
| Broker.RunBroker.Forget | funduq/funduq/broker.py:636-649 | drops whatever object the id names and gives its claimant's slot back, waking the loop |
| LiveRosters.LiveRoster.ServedBy | funduq/funduq/live_roster.py:37-38 | exactly the linked refs of the key |
| LiveRosters.LiveRoster.NoteEvent | funduq/funduq/live_roster.py:40-46 | one counter of one key grows by one, every other stays |
| Gates.ReportEvent | funduq/funduq/core.py:627-651 | relayed exactly for the holder of the run, or for the provider that takes it late |
| Gates.FinishRun | funduq/funduq/core.py:653-666 | ends the stream exactly for the holder |
| Gates.OnlyTheHolderIsHeard | funduq/funduq/core.py:632-651 | a report is heard if and only if its provider holds the run, or nobody does and the provider serves its agent; it reaches that run only, behind a claim if nobody held it; any other changes nothing |
| Gates.OnlyTheHolderFinishes | funduq/funduq/core.py:653-666 | an end marker reaches its run if and only if it comes from the run's holder, and changes nothing else |
| BrokerSound.AlwaysSound | funduq/funduq/broker.py:443-472 | every link and claim belongs to a key with a bucket, in every reachable state |
| BrokerStranded.FitNext | funduq/funduq/broker.py:172-193 | each step keeps every run fit, enqueues of uncontested ids included |
| BrokerStranded.NoStrandedRun | funduq/funduq/broker.py:564-578 | every tracked run is in its own agent's queue, claimed with a live pipeline, or about to be ended by a one-shot; it is untracked exactly when END_OF_STREAM is out |
| BrokerContested.EnqueueStrandsIffContested | funduq/funduq/broker.py:326-334 | enqueueing an id can lead to a stranded run if and only if the id is tracked, on offer, or an older object of it can still forget it |
| BrokerContested.UntrackedAndUnqueuedCanBeContested | funduq/funduq/broker.py:510-524 | an execution after which an id is untracked and in no queue, and yet contested |
| BrokerOwnership.OwnershipLasts | funduq/funduq/broker.py:172-193 | a step of a broker whose enqueued ids are uncontested keeps a run solely owned (tracked, claimed, one pipeline, no one-shot, in no queue) if and only if its own pipeline does not end it by that step, and no offer of it, left outstanding by a late ack, is accepted or refused by it |
| BrokerOvertaken.OwnedIffNeitherEndedNorOvertaken | funduq/funduq/broker.py:172-193 | so over every uncontested execution it is solely owned at a later moment if and only if neither has happened by then; once it has ended itself nothing acts for it |
| BrokerOwnership.OthersKeep | funduq/funduq/broker.py:484-524 | no step but a move of its own pipeline or such an answer touches it, except to bring commands, and exactly these: pushes and cancels under its id, and the Fail of an older run's leftover pipeline |
| BrokerOwnership.RetiredStays | funduq/funduq/broker.py:636-649 | once it has ended, no step touches it but the acceptance or refusal of an offer of it still outstanding |
| BrokerClaims.ClaimOwnsIff | funduq/funduq/broker.py:464-472 | an acceptance or a late ack, on offer or not, leaves the run solely owned if and only if it was tracked, unclaimed and without a one-shot; any other claim leaves it to several tasks or finds it ended |
| BrokerClaims.ClaimLasts | funduq/funduq/broker.py:399-472 | whatever happens in between, a claimed run is solely owned at a later moment if and only if it was so claimed, its own pipeline has not ended it, and no offer of it has been accepted or refused since |
| BrokerClaims.AcceptedWithAShotIsCutOff | funduq/funduq/broker.py:464-472 | accepted with a one-shot pending, a run can be ended and forgotten with its claim unread, and every later push under its id is lost |
| BrokerClaims.AckedOfferHasTwoPipelines | funduq/funduq/broker.py:583-620 | acked late while on offer and then accepted, a run has two pipelines on one queue with two claims |
| BrokerClaims.AckedOfferRefusedHasAShot | funduq/funduq/broker.py:431-440 | acked late while on offer and then refused, it has a one-shot beside its pipeline |
| BrokerClaims.CutOffHappens | funduq/funduq/broker.py:510-524 | an execution from the start of the broker in which a cancel during the offer does the first |
| BrokerClaims.TwoPipelinesHappen | funduq/funduq/broker.py:583-620 | an execution from the start of the broker that does the second |
| BrokerClaims.RefusalAfterAckHappens | funduq/funduq/broker.py:431-440 | an execution from the start of the broker that does the third: the run is ended and forgotten, its claim unread, and every later push is lost |
| BrokerLedger.LedgerStep | funduq/funduq/broker.py:443-467 | what each step adds to the slots charged beyond the tracked claims |
| BrokerLedger.SlotLedger | funduq/funduq/broker.py:454-467 | in_flight equals tracked runs claimed plus phantom slots, which grow only at the named steps and never shrink |
| BrokerLedger.ForgetGuardPasses | funduq/funduq/broker.py:641-647 | the in_flight guard of `forget` never fails for a claimed run |
| BrokerFigures.BucketHoldsFirstFigure | funduq/funduq/broker.py:342-347 | over every execution a key has a bucket if and only if a connection under it has come with an agent, and it holds for good what the first such connection declared |
| BrokerFigures.CapacityBound | funduq/funduq/broker.py:385-397 | a provider that first connected declaring a limit has at most that many in flight, the outstanding offer included, plus the late acks |
| BrokerFigures.NoLostWakeup | funduq/funduq/broker.py:275-294 | asleep with the event clear, an agent with queued runs is unserved, its provider has in flight what it first declared, or it did not accept an offer of the sweep just made |
| BrokerOrder.QueueIsFilteredHistory | funduq/funduq/broker.py:326-331 | each queue is its enqueue history with the departed filtered out |
| BrokerOrder.EnqueueKeepsHistoryIffUnqueued | funduq/funduq/broker.py:326-331 | an enqueue keeps every queue a filtered history if and only if the id was in no queue |
| BrokerOrder.NoOvertaking | funduq/funduq/broker.py:363-397 | when a run is offered every earlier run of its agent has left the queue, and is being finished or ended |
| BrokerGrace.SweepExpiresExactly | funduq/funduq/broker.py:526-559 | a sweep removes from an unserved queue exactly the runs past their grace, and nothing from a served one |
| BrokerGrace.FullGrace | funduq/funduq/broker.py:526-559 | an expired run was enqueued a whole window earlier and its agent had no connection during that window |
| BrokerGrace.HowRunsLeave | funduq/funduq/broker.py:363-397 | the only five ways an entry leaves a queue |
| BrokerRoster.AttachServes | funduq/funduq/broker.py:336-348 | a connection serves every agent it names under its key, whose clock stops, and disturbs no other agent |
| BrokerRoster.WithdrawnIffAllowanceReached | funduq/funduq/broker.py:231-255 | disconnecting apart, an agent loses its connection by a step if and only if an event counted by it against its provider reaches the allowance; without an allowance none does |
| BrokerRoster.ClockTellsLastServed | funduq/funduq/broker.py:342-361 | the clock of an agent without a connection is the time at which it last had one, or was last disconnected |
| BrokerRoster.ExpiredIffOverdue | funduq/funduq/broker.py:526-559 | a queued run is given up by a sweep if and only if its agent has no connection and for a whole window the run was queued and the agent neither had a connection nor was disconnected |
| BrokerOffers.FlagIffCancelled | funduq/funduq/broker.py:510-524 | a run object says a cancel was requested if and only if one was, while its id named it |
| BrokerOffers.OfferIsDue | funduq/funduq/broker.py:375-388 | whatever is offered is what the head of its agent's queue names, was never cancelled, and goes to the agent's own connection, whose provider first declared no limit or more than it has in flight |
| BrokerOffers.AnswerDecides | funduq/funduq/broker.py:399-472 | what each of the four answers does to the run on offer, in its own fields, and to its queue |
| BrokerOffers.AgainIffPlaced | funduq/funduq/broker.py:281-294 | a sweep that has looked at every agent is followed at once by another if an offer of it was accepted, and by sleep if none was |
| BrokerOffers.HandlersGoWithTheRun | funduq/funduq/broker.py:636-649 | an id has handlers if and only if it was enqueued with them and has named a run ever since |
| BrokerQuality.AbnormalityBound | funduq/funduq/broker.py:231-255 | unanswered and misdeclared are each at most tolerance - 1 plus the attachments |
| BrokerQuality.CountersCountTheirEvents | funduq/funduq/broker.py:419-453 | each quality counter is the number of its own events over the whole execution |
| Statuses.RunTable.CreateRun | funduq/funduq/repo.py:564-589 | a new row is queued with neither stamp |
| Statuses.RunTable.MarkRunStatus | funduq/funduq/repo.py:646-701 | applies exactly the legal transitions with their stamps, and tells refused, missing and not writable apart |
| Statuses.RunTable.ReopenRun | funduq/funduq/repo.py:603-625 | back to queued, under a guard only from the expected status |
| Statuses.RunTable.FailRuns | funduq/funduq/repo.py:793-842 | fails exactly the selected rows that still match, and returns exactly those |
| Statuses.EveryMoveIsLegal | funduq/funduq/repo.py:636-643 | any writer's move is in the transition table or a reopen |
| Statuses.CompletedExactlyWhenOver | funduq/funduq/repo.py:672-692 | completed_at is set exactly in the terminal statuses throughout a history, if and only if no reopen won over a terminal row |
| Statuses.GuardedNeverResurrects | funduq/funduq/protocols/agui.py:125-131 | histories with guarded reopens only keep it |
| Statuses.UnguardedReopenResurrects | funduq/funduq/core.py:945-956 | the unguarded reopen breaks it |
| Statuses.TerminalIsAbsorbing | funduq/funduq/repo.py:627-643 | with guarded reopens a run that is over keeps its status and stamps for good |
| Statuses.EveryAskIsSettledOnce | funduq/funduq/repo.py:603-643 | entries into input-required equal reopens plus failures plus the one still waiting |
| Statuses.RacingRepliesWinOncePerAsk | funduq/funduq/protocols/a2a.py:364-375 | of racing guarded replies at most one wins per question |
| StatusTimes.MarksFollowTheGraph | funduq/funduq/repo.py:636-643 | where a run may go from each status: a mark moves the row if and only if its target is such a successor; a run that is over has none, and none is queued |
| StatusTimes.ActivityIsLastAlive | funduq/funduq/repo.py:611-683 | last_activity_at is the time of the last write that created, touched, moved or reopened the run; being failed by a sweep is not one |
| StatusTimes.SweptIffSilent | funduq/funduq/repo.py:793-842 | in times: a sweep fails a run if and only if its status is one the sweep is for and, for the two timed ones, nothing has shown it alive since the cutoff |
| StatusTimes.StampsAreLastEntries | funduq/funduq/repo.py:667-683 | started_at is the time of the last entry into running, and completed_at that of the last entry into a status that ends a run, reopened since or not |
| StatusTimes.BirthIsForGood | funduq/funduq/repo.py:564-589 | a run keeps the thread and the time it was created with through every write |
| Doors.MoveKeepsBound | funduq/funduq/repo.py:719-747 | each move of a door or another writer keeps fresh queued runs plus passed doors within the bound |
| Doors.QueueOvershoot | funduq/funduq/protocols/agui.py:134-140 | with K doors ever between check and create on a thread, its queued runs, not counting reopened ones, guarded or not, never exceed limit - 1 + K; a limit below one lets nothing in |
| Doors.GuardedOvershoot | funduq/funduq/repo.py:719-747 | where every reopen carries its guard, the runs not counted are exactly those a winning reply put back |
| Doors.OvershootIsReached | funduq/funduq/repo.py:736-747 | and that many are reached, for every limit and K |
| Lanes.StartRun | funduq/funduq/protocols/a2a.py:334-400 | with other writers at every await: a message naming a task paused on its thread, and still paused at the guarded reopen, answers it; every other becomes a new queued run, or is refused for room; a run whose agent nobody serves is failed |
| Lanes.RepliesIffAsking | funduq/funduq/protocols/a2a.py:348-378 | a message becomes a reply if and only if the task it names is paused on its thread when the door looks and still paused when its reopen runs; that run is then queued again, or failed if nobody serves its agent, and no row is created |
| Lanes.UtteranceIsANewRun | funduq/funduq/protocols/a2a.py:379-397 | an utterance adds one row, new and queued, or failed if nobody serves its agent |
| Lanes.FullIffAtTheLimit | funduq/funduq/repo.py:719-747 | a message is refused if and only if it is no reply and as many runs wait on its thread as the limit allows; the door then writes nothing |
| Lanes.RunInput | funduq/funduq/protocols/agui.py:103-150 | a resume comes to a reply to the latest-created run paused on the thread, if that is still paused at the reopen, or to a snapshot, and never enters the queue; anything else enters the queue if there is room |
| Lanes.ResumeReplies | funduq/funduq/protocols/agui.py:112-132 | a resume is a reply to a latest-created paused run of the thread that is still paused at the reopen, and then queued, or failed if nobody serves its agent, or a snapshot that writes nothing; it is a reply whenever the paused runs are still paused at the reopen |
| Lanes.LoserIsAnUtterance | funduq/funduq/protocols/a2a.py:364-375 | of two replies to one task the one whose reopen comes second is never a reply, unless the run has asked again |
| Lanes.ReplyContinuesTheHistory | funduq/funduq/protocols/a2a.py:364-375 | a winning reply continues a guarded history by a guarded reopen |
| Pipeline.HandleClaim | funduq/funduq/handlers.py:33-36 | marks running, or nothing if the write raises |
| Pipeline.HandleRelay | funduq/funduq/handlers.py:39-80 | drains and fails on a malformed event; else flags, one seq, append, touch, forward, each only if no earlier call raised |
| Pipeline.HandleFinish | funduq/funduq/handlers.py:83-121 | settles, hands the reply over or closes with the owed error, under any lost call |
| Pipeline.HandleCancel | funduq/funduq/handlers.py:124-140 | cancels an unclaimed run; marks a claimed one cancelling and asks its claimant, whatever the table says |
| Pipeline.HandleFail | funduq/funduq/handlers.py:143-150 | append, mark, forward |
| Pipeline.RunPipeline | funduq/funduq/broker.py:172-193 | for a run with one pipeline: the loop over any schedule of arrivals, cancels, sweeps and faults computes `PipelineSpec.Run`, and touches no other run |
| Pipeline.RunOneShot | funduq/funduq/broker.py:564-578 | one handler, then the end |
| PipelineTurns.TakeTurn | funduq/funduq/broker.py:172-193 | a turn of any pipeline of a tracked run moves the broker and the run's round as their machines say, on the one run object both share |
| Dispatch.ClaimTies | funduq/funduq/broker.py:464-472 | every claim of a run that was tracked, unclaimed and without a one-shot, late acks on offer included, ties its object in the broker to its round as it was made |
| Dispatch.AlwaysTied | funduq/funduq/broker.py:172-193 | over every execution of the whole system in which no offer of it is accepted or refused, a solely owned run stays tied: its in_queue is what its round has not taken, its round is over exactly from its closing command on, and END and `forget` end both |
| Dispatch.TiedIffSpared | funduq/funduq/broker.py:399-472 | until it is over it is tied if and only if no offer of it has been accepted or refused |
| Dispatch.EveryClaimIsFollowed | funduq/funduq/broker.py:443-472 | every execution from the broker's start through such a claim and on through the whole system is one that these results are about |
| OwnedRuns.ArrivalsArePushes | funduq/funduq/broker.py:484-524 | each act of the system adds to the round's arrivals exactly what it puts on the run's in_queue: a push or cancel under its id, or its holder's report |
| OwnedRuns.OwnedRunStreamsItsRound | funduq/funduq/handlers.py:74-80 | over every execution of the system without lost writes, the caller of a solely owned run is sent exactly what it stored, in order, and END exactly when the broker lets go of it; seqs are contiguous |
| OwnedRuns.OwnedRunStoresFirst | funduq/funduq/handlers.py:74-80 | under any failing database calls, what a solely owned run is sent is what it stored with some left out, seqs grow, END is last, once, and exactly when the broker lets go |
| OwnedRuns.OwnedRunIsWhatCame | funduq/funduq/broker.py:172-193 | a solely owned run that is over stored exactly the events the broker had put on its in_queue before the first deciding command, then the verdict |
| OwnedRuns.OwnedRunGetsItsStatus | funduq/funduq/handlers.py:83-111 | from a queued row, without lost writes, it ends completed, failed, cancelled or input-required: the status those commands deserve, unless a sweep failed it |
| OwnedRuns.OwnedRunSettlesIffWritten | funduq/funduq/handlers.py:83-111 | with any writes lost, its row is settled if and only if a sweep failed it, or the closing status was written and a claim's was too or that status is cancelled or failed |
| OwnedRuns.OwnedRunSettledAtItsEnd | funduq/funduq/repo.py:603-625 | with sweeps and reopens between its close and END too: settled if and only if they failed it, or the close left it settled and no reopen has won since |
| OwnedRuns.OwnedRunRepliesIffWritten | funduq/funduq/handlers.py:109-115 | its thread gets the reduction of what it stored if and only if a finish that completes or pauses it closed it, no call of that was lost, a claim had been written and no sweep had failed the row |
| PipelineMeaning.RoundIsItsArrivals | funduq/funduq/broker.py:172-193 | a round's events are a function of the commands in arrival order and the cancel flag: those relayed before the first deciding command, then the verdict |
| LastWords.PauseIsLastAsked | funduq/funduq/handlers.py:68-72 | whatever arrives when, a round's pause is what the last RUN_FINISHED with an interrupt among its events asks, and there is none if and only if none of them asks |
| LastWords.StatusInCommands | funduq/funduq/handlers.py:83-97 | a round closed by a finish asks for input-required if and only if a RUN_FINISHED with an interrupt was relayed before it, else for completed if and only if another one was, else for cancelled if and only if a cancel was requested; otherwise it has failed |
| PipelineRecords.RefusalsExplained | funduq/funduq/repo.py:636-643 | a handler's transition is refused if and only if a sweep failed the row, or it is a second cancel or a second claim |
| PipelineRounds.ResumedRoundBegins | funduq/funduq/repo.py:870-875 | the last stored seq, read back by a reply's door, starts the next round above everything stored |
| PipelineRounds.RoundsPartitionTheLog | funduq/funduq/repo.py:852-875 | resume rounds partition the log, and each reads back exactly its own events |
| PipelineRounds.ReplyIsWhatWasStreamed | funduq/funduq/handlers.py:109-115 | the thread gets the reduction of exactly what the subscriber saw, for completed and paused rounds and no others |
| PipelineRounds.LastStatusStreamedIsStored | funduq/funduq/protocols/a2a.py:228-232 | if nothing follows RUN_FINISHED, the last status streamed to an A2A caller is the stored one |
| PipelineRounds.OneShotSettles | funduq/funduq/handlers.py:124-140 | a one-shot leaves the row settled if and only if it fails it, the run is unclaimed, or the row was settled before |
| PipelineSettles.StatusAtTheEnd | funduq/funduq/handlers.py:83-121 | the exact status an ended round leaves, whatever writes were lost |
| PipelineSettles.SettledIffWritten | funduq/funduq/handlers.py:33-111 | for every schedule and every fault, the exact condition under which an ended round's row is settled |
| PipelineSettles.SettledAtTheEndIff | funduq/funduq/handlers.py:107-121 | and the exact condition at the end of the stream, other writers coming between the status write and END |
| PipelineSettles.ReplyIffWritten | funduq/funduq/handlers.py:107-121 | and the exact condition under which its thread gets the reply |
| PipelineSettles.LostClaimsStayQueued | funduq/funduq/handlers.py:33-36 | if no claim was written and no sweep came, a round that finished well leaves its row queued after END |
| PipelineSettles.LostCommitLosesTheReply | funduq/funduq/handlers.py:109-119 | if a finish loses the reply or its commit, the row says completed, or asks, and the thread gets nothing |
| PipelineCalls.AskedOncePerCancel | funduq/funduq/handlers.py:136-140 | over every schedule and fault the claimant of a claimed run is asked to stop exactly once for each cancel handled, and nobody is asked for an unclaimed one |
| PipelineCalls.OneShotCancels | funduq/funduq/handlers.py:124-140 | a cancel by a one-shot ends an unclaimed run that is neither paused nor over; if it has been claimed since, its claimant is asked and a running one is cancelling |
| PipelineCalls.NotStalledSinceRelay | funduq/funduq/handlers.py:75-79 | a run that has relayed an event at or after a cutoff is not failed as silent since it |
| PipelineCalls.SentIffNothingLost | funduq/funduq/handlers.py:75-150 | over every schedule and fault, the subscriber is sent exactly the events of the handlers none of whose calls was lost, and the log holds exactly those of the handlers that got as far as storing |
| PipelineCalls.NumberedBeforeStored | funduq/funduq/handlers.py:75-150 | each event takes one seq, just before it is stored, whether the storing is lost or not |
| PipelineCalls.EndsIffClosed | funduq/funduq/broker.py:172-193 | a round is over if and only if it took a finish, a fail, or the cancel of a run nobody has claimed |
| PipelineCalls.CancelledIffRequested | funduq/funduq/broker.py:510-516 | a round counts as cancelled if and only if a cancel was requested while it lasted, or before |
| Reduce.ReduceEventsToMessages | funduq/funduq/agui_reduce.py:6-66 | the loop over the three dictionaries computes the fold |
| Reduce.ReductionIsFaithful | funduq/funduq/agui_reduce.py:13-66 | with fresh result ids and each call started once: order of first appearance, each message its own deltas concatenated, each call its own arguments |
| Reduce.CallIsListedOnce | funduq/funduq/agui_reduce.py:32-53 | each tool call is listed once in the whole result: in the one message of the parent its start names, or of its own id if it names none or an empty one, with its name and its own arguments |
| Reduce.ListedWasStarted | funduq/funduq/agui_reduce.py:32-43 | and nothing is listed that was not started under that message |
| Reduce.IndependentEventsCommute | funduq/funduq/agui_reduce.py:23-63 | events of different messages and calls commute up to the order of newcomers |
| Reduce.ExchangeKeepsMessages | funduq/funduq/agui_reduce.py:23-66 | exchanging two such neighbours never changes a message, whatever follows |
| A2A.BuildTask | funduq/funduq/protocols/a2a_translate.py:159-190 | one artifact per text id in order of first appearance, its deltas joined, and the unmapped events in order |
| A2A.SnapshotIsReplay | funduq/funduq/protocols/a2a_translate.py:85-130 | replaying the stream's appends gives the snapshot's artifacts, and its carried events the overflow list |
| A2A.ThreeWays | funduq/funduq/protocols/a2a_translate.py:33-42 | every event leaves by exactly one of three ways |
| A2A.TextInFields | funduq/funduq/protocols/a2a_translate.py:78-130 | text adds its delta, or failing that its content, to the artifact of its id, or of "text"; an event A2A has no word for is sent as it came |
| LastWords.WordsSent | funduq/funduq/protocols/a2a_translate.py:94-114 | an asking RUN_FINISHED is sent as paused with its interrupts, any other as completed, and an error as failed with its message, each in the state stored for that status |
| A2A.LastStatusIsStored | funduq/funduq/protocols/a2a.py:222-232 | the last streamed status is the stored one if and only if the run did not complete or its last non-text event says done |
| LastWords.LastWordIsStored | funduq/funduq/handlers.py:90-121 | the last RUN_FINISHED or RUN_ERROR of a round is sent with the state its row is to store: always for a failed run, for a paused one if and only if it asks, for a completed one if and only if it is no error, never for a cancelled one |
| LastWords.StatesTellStatusesApart | funduq/funduq/protocols/a2a_translate.py:49-52 | no two statuses share a state, a state is final exactly for the statuses that end a run, and only cancelling has none |
| A2A.ArtifactsReadLikeMessages | funduq/funduq/protocols/a2a_translate.py:78-82 | without chunks and empty ids or deltas, with no TOOL_CALL_RESULT under the artifact's id, result ids fresh and each call started once: each artifact has exactly one thread message of its id, with the same text |
| Runtime.ProviderRuntime.StartLoops | funduq-provider-sdk/funduq_provider_sdk/runtime.py:82-88 | starts once; again is no change |
| Runtime.ProviderRuntime.DeliverRun | funduq-provider-sdk/funduq_provider_sdk/runtime.py:51-73 | accepts exactly when started and, if a limit was declared, with fewer in flight and queue room; what is accepted waits last |
| Runtime.ProviderRuntime.RunNextJob | funduq-provider-sdk/funduq_provider_sdk/runtime.py:109-116 | the next job becomes a task in flight under its id |
| Runtime.ProviderRuntime.DoneCallback | funduq-provider-sdk/funduq_provider_sdk/runtime.py:114-116 | a finished task leaves, by run id |
| Runtime.IntakeBound | funduq-provider-sdk/funduq_provider_sdk/runtime.py:37-39 | running plus waiting never exceed declared - 1 + queue; with a queue of one, never the declared number |
| Runtime.IntakeBoundIsReached | funduq-provider-sdk/funduq_provider_sdk/runtime.py:65-73 | and that many run at once, for every pair of limits |
| Runtime.ZeroQueueIsUnbounded | funduq-provider-sdk/funduq_provider_sdk/runtime.py:37-39 | with a queue size of zero any number can wait |
| Runtime.UnlimitedNeverDeclines | funduq-provider-sdk/funduq_provider_sdk/runtime.py:31-39 | without a declared limit, whatever the queue size, every run delivered since the start waits, in order, or has been spawned |
| Runtime.InFlightIsLastSpawned | funduq-provider-sdk/funduq_provider_sdk/runtime.py:109-116 | over every execution a run is in flight if and only if a task was spawned for it and none of its tasks has finished since, and under the task spawned last |
| RepeatedIds.RepeatedIdRunsMore | funduq-provider-sdk/funduq_provider_sdk/runtime.py:113-116 | for every pair of limits and every state reached with distinct ids: an accepted delivery can lead, with new ids only, past the bound if and only if its run already waits or has a task |
| Wires.OutputQueue.Execute | funduq-provider-sdk/funduq_provider_sdk/runtime.py:118-131 | a task's reports are what its agent yielded, in order, then the end marker, whatever other tasks put in between |
| Wires.OutputQueue.ReportNext | funduq-provider-sdk/funduq_provider_sdk/runtime.py:133-144 | the head of the shared queue is reported for its own run, through the holder's gates, and is lost if its run is forgotten or held by another |
| EndToEnd.AlwaysConserved | funduq-provider-sdk/funduq_provider_sdk/runtime.py:118-144 | over every execution of the system, what the task of a solely owned run has put is what has reached its in_queue, then what still waits on the shared queue, in order |
| EndToEnd.ClaimConserves | funduq-provider-sdk/funduq_provider_sdk/runtime.py:118-131 | that holds of a run just claimed, all that its task has put still waiting |
| EndToEnd.CallerGetsWhatTheAgentYielded | funduq/funduq/core.py:627-666 | over every execution of the system in which no offer of it is accepted or refused, only its holder's valid reports and cancels reach it and no write is lost, the caller of a solely owned run gets what the agent yielded, in order, then at most one owed error, and END exactly when the broker lets go |
| EndToEnd.CallerGetsItFromTheStart | funduq/funduq/core.py:627-666 | the same over every execution from the start of the broker through the run's claim and on |
| ActorChains.VerifyActorChain | funduq/funduq/identity.py:304-361 | accepts exactly the chains without a faulty hop, returns their signers in order, and reports the first fault |
| ActorChains.VerifiesIffMade | funduq/funduq/identity.py:304-361 | a chain verifies if and only if every hop was signed by the holder of the key it names over the hop before it, none was issued in the future, and the last has not expired |
| ActorChains.NoHopFromTheFuture | funduq/funduq/identity.py:335-348 | a chain with a hop issued after now does not verify |
| ActorChains.FaultsExplained | funduq/funduq/identity.py:320-352 | what each error tells of the hop it is about, exactly |
| ActorChains.ExtendsVerify | funduq/funduq/identity.py:249-283 | any sequence of extends verifies to its signers in order, while its last hop is fresh and only then |
| ActorChains.TokenFixesItsPast | funduq/funduq/identity.py:300-301 | a token standing in two verifying chains has the same hops before it in both |
| ActorChains.SameLastTokenSameChain | funduq/funduq/identity.py:350-352 | two verifying chains with the same last token are equal |
| ActorChains.NoProperSuffixVerifies | funduq/funduq/identity.py:350-352 | dropping hops from the front never leaves a verifying chain |
| ActorChains.PrefixVerifiesWhileFresh | funduq/funduq/identity.py:335-348 | a prefix verifies if and only if its last hop is fresh |

## Left out

- Stopping and restarting the broker, task cancellation, and an exception inside a sweep.
- Forget listeners, change notifications, logging, health probe, roster listings and settings.
- `_Roster.attach` and `detach` beyond the mapping they hand over: one connection whose key is its refs' key.
- SQL: each repository call is one atomic step on maps. The metadata merge, a read followed by a write, is not modelled.
- What the two pipelines of a run acked late while on offer store and stream, and the round of a run its one-shot
  cut off: `BrokerClaims` shows that they happen and exactly when; all later results are for solely owned runs.
- The next round of a run at its provider (a task putting reports after the first one's end marker), and an error
  event appended by the health sweep between two rounds.
- Another writer between two database calls of one handler: a handler works at the step that takes its command,
  sweeps coming before it; its pipeline moves on, and END goes out, at a later step. What others write to the row
  between the closing handler's status write and END is `OwnedRuns.OwnedRunSettledAtItsEnd`.
- The ids minted for thread messages, the deltas' JSON shape, and task and context ids on A2A updates, which are constant for one run.
- AG-UI validation: a known type that fails it, or an event without a type, is one constructor of the event type.
- Signature, JWT and base64 internals: `Ideal` states what is assumed of the scheme; a token may carry any claims besides the four that are read. The signing payloads of registration, deletion, connection, delegation and resolution are not modelled.
- Lanes.StartRun: thread lookup and caller verification are not part of it.
- KYOK tokens and relay, connect challenges, agent cards, JSON-RPC envelopes and the SDK link wrappers.
- Broker.RunBroker.ExpireQueued: does not return the list of expired ids, which only a log line reads.
- Broker.RunBroker.StartLoop: a stopped broker is not started again.
- Pipeline.HandleRelay: the Fail for a malformed event is put on this run's own queue; the push by id that does it is `Broker.RunBroker.TakeNext`, and `PipelineTurns.TakeTurn` uses that one.
- Pipeline.RunPipeline: one loop; that a run has one is `BrokerClaims.ClaimLasts`. `PipelineTurns.TakeTurn` is a turn of any.
- EndToEnd.CallerGetsWhatTheAgentYielded: assumes a link is attached, as a report made without one is dropped, and that no Fail is pushed and no write is lost.
- Runtime.IntakeBound: a task cancelled before its first step, whose end marker never comes, is not modelled.
- Statuses.UnguardedReopenResurrects: one history; the condition for all of them is `CompletedExactlyWhenOver`.
