# Verified model of the AllStarLink control service

This project models, in Dafny 4.11, the parts of the service that decide whether a radio node is told to do
something, and proves what the service promises about them. Three things are modelled.

**The one-shot dispatch protocol** (`vnext/service.py`, `vnext/ledger.py`, `vnext/transport.py`). A request is admitted
into a durable table, takes the one control slot, is judged against a fresh observation, crosses a committed
`DISPATCH_STARTED` barrier, is written to the wire at most once, and ends with a dispatch and an effect status.

- `Protocol.dfy` cuts this into the steps between which something else can happen: any number of runtimes on any number
  of nodes, one table, one lock per node. Every save may commit, be lost, or be reported as failed after it became
  durable. Runtimes crash at any point, also between the barrier and the write; tasks are cancelled, replies are lost,
  refused or malformed. A ghost history records admissions, answers, observations, barriers and writes.
- `Invariant.dfy`, `Preservation.dfy` and `Safety.dfy` hold the inductive invariant and the proof that each step of
  each runtime keeps it for all runtimes. `Guarantees.dfy`, `Lifecycle.dfy` and `Refusals.dfy` read the promises off it,
  for every world of every run, and `Witnesses.dfy` builds the runs that show that the promises are not vacuous and the
  status table is exact.
- `OneShot.dfy` is a specification in a few lines (pending, started, acknowledged, final) that the whole system refines.
- `Ledger.dfy` and `Service.dfy` are the classes `ControlOwner`, `Ledger` and `Platform` with their fields updated in
  place. Each `Platform` method is proved to take the protocol's steps and no others, a failing start, the whole
  coroutine `Execute` and `Close` included; `Paths.dfy` says what a sequence of steps is, and `Steps.dfy` holds the
  lemmas about such compositions.
- `Decisions.dfy` tells what each stretch of a coroutine decides from what it was given alone (the links of the
  observation, the text of the reply, the operator's rules, the cause of the end), with every stored status and code, and
  the `Platform` methods are proved against that as well.

**The observation pipeline** (`vnext/transport.py`, `vnext/observation.py`). `Codec.dfy`, `Transport.dfy`, `Alinks.dfy` and
`Observation.dfy` go from characters to frames, headers, rows and tokens, to a node state; the loops of the source are
methods proved against recursive functions. `Snapshot.dfy` decides those functions declaratively, and `RoundTrip.dfy`
renders any node condition to the wire and gets it back.

**Transition events** (`ami_event_listener.py`). `Events.dfy` is the listener with its bounded queues, and the proof that the
event stream replays to the snapshots it summarises.

`Base`, `Models`, `Policy`, `Effects`, `CanonicalJson`, `Ami`, `Text`, `Rows` and `Recovery` hold what these share.
`dafny verify dfyconfig.toml` checks everything.

Findings where the code and its documents differ, or where a promise needs a condition:

- The single control slot does not bound the unfinished rows of a node to one. If the commit of an admission reports
  failure after becoming durable, the slot is freed, the runtime stays healthy and the row stays queued until the next
  start (`vnext/service.py:238-240`). `MisreportedCommitLeavesTwo` is such a run; `UnfinishedDecided` says exactly which
  unfinished rows there can be besides the slot's.
- `effect_status` reads `request["mode"]` although `command_for` accepts a link request without it
  (`vnext/models.py:52`, `vnext/service.py:64`). `EffectRaisesExactlyWithoutMode` says exactly when it raises, and
  `LinkWithoutModeRaises` gives an input; through the HTTP schema the mode is always filled in.
- `docs/ARCHITECTURE.md:20` speaks of an async lock that serializes executions; the code fails fast with `NODE_BUSY`.
- `docs/VNEXT.md:16-19` asks that `Conn` and ALINKS agree, and says that a link missing from ALINKS prevents a claim;
  the code asks only that ALINKS names are among the connections, and reports such a link with an unknown mode.
- `docs/VNEXT.md:151-152` promises that unknown gaps never generate invented unkey or disconnect events, and
  `ami_event_listener.py:61` says the same. For links this holds (`TransitionsAreExact`). For receiver and transmitter
  the listener forgets the key state in a gap (`ami_event_listener.py:62`) and announces it again afterwards, changed or
  not (`ami_event_listener.py:64-66`), an unkey among them: `GapRepeatsKey` is such a run, and `OnlyChangesAreAnnounced`
  and `KeyEventsAlternate` say exactly when the events are changes only.
- A worker can never run while its runtime is unhealthy (`WorkersAreHealthy`), so the health check at a coroutine's first
  step (`vnext/service.py:260`) is a second line of defence.

## Model

| member | source | states |
|---|---|---|
| Guarantees.AtMostOneWrite | vnext/service.py:257-423 | In every run of any number of runtimes, with crashes, cancellations, lost replies and misreported commits, no operation is written to the wire twice |
| Guarantees.EveryWriteIsEarned | vnext/service.py:278-339 | Every write is preceded, in this order and within one uninterrupted run of the writing runtime, by the admission, by a fresh observation that policy allows and whose links do not already fulfil the request, and by the committed barrier of that same operation; what is written is the literal `rpt cmd` text for that node, kind and target |
| Guarantees.DefaultWritesNeedSilence | vnext/policy.py:8-13 | With default policy, a link or announcement is only ever written on complete evidence that receiver, transmitter and every link are unkeyed |
| Refusals.RefusalsAreJustified | vnext/service.py:298-312 | Every policy refusal that is ever stored goes back to an observation of that operation, kept as its evidence, which the policy of that runtime refuses with just that code |
| Refusals.DefaultsNeverRefuseDisconnect | vnext/policy.py:8-13 | In no run with default policy is a disconnect ever refused by policy |
| Guarantees.LedgerIsTruthful | vnext/ledger.py:175-207 | In every reachable world, QUEUED and NOT_DISPATCHED mean zero writes, ACKNOWLEDGED and REJECTED exactly one, the other statuses at most one; also after a barrier commit that failed only in appearance |
| Guarantees.StatusesAreSound | vnext/service.py:257-479 | Every stored (dispatch, effect, terminal) triple and its error code lie in a fixed table; a pending effect marks exactly the unfinished rows, NOT_APPLICABLE is never stored, and a claimed observation is what the stored, complete evidence yields |
| Guarantees.TerminalIsForever | vnext/ledger.py:156-173 | Between any two worlds of a run no row disappears, is rebound or goes back, and a terminal row does not change at all, although the update itself has no guard |
| Guarantees.OneKeyOneOperation | vnext/ledger.py:87-154 | Over a whole history with restarts, all answers for one (node, credential, key) name one operation and one canonical request, written at most once |
| Guarantees.ConflictsAreReal | vnext/ledger.py:99-104 | A conflict and an answer for the same key are never for the same canonical request |
| Guarantees.ReservationStaysNew | vnext/service.py:217-229 | A key that was free at the lookup is still free at the insertion, so the not-created branch never runs |
| Guarantees.BarrierNeverRaces | vnext/ledger.py:175-184 | Whatever all other runtimes did between the barrier's read and its update, the row is still there as read: the worker's own operation, queued and not terminal |
| Guarantees.OneOwnerPerNode | vnext/ledger.py:12-35 | Two runtimes that are not stopped never have the same node, and a recovering one has no worker |
| Guarantees.OneWorkerPerOperation | vnext/service.py:231-236 | No operation has two live coroutines anywhere, and a runtime has one worker at most |
| Guarantees.UnfinishedHoldsSlot | vnext/service.py:210-240 | While a runtime is healthy and not closing, an unfinished row of its node is in the slot or stems from an admission reported as failed |
| Guarantees.HeldWasAdmitted | vnext/service.py:210-240 | Whatever holds a running runtime's slot was admitted by that runtime in the same uninterrupted run |
| Guarantees.UnfinishedDecided | vnext/service.py:210-240 | An unfinished row is in the slot if and only if its admission was not reported as failed |
| Guarantees.AtMostOneUnfinished | vnext/service.py:210-240 | Of the operations of a serving runtime's node whose own admission was not misreported, at most one is unfinished |
| Guarantees.OrphansAreNeverWritten | vnext/service.py:238-240 | An admission that was reported as failed never leads to a write in any history |
| Witnesses.MisreportedCommitLeavesTwo | vnext/service.py:238-240 | A concrete run in which a serving runtime has two unfinished rows, only one of them in the slot |
| Witnesses.ReachAwaiting | vnext/service.py:257-339 | For every kind of operation some run does write its command |
| Witnesses.EveryStatusIsReached | vnext/service.py:257-479 | For every line of the status table there is a run that stores exactly that triple for an operation of that kind |
| Witnesses.TableIsExact | vnext/service.py:257-479 | A (dispatch, effect, terminal) triple is in the table for a kind if and only if some run stores it |
| Guarantees.OnlyServingAdmits | vnext/service.py:136-154 | A step that adds a row is an insertion by a healthy, not closing runtime of that row's node |
| Lifecycle.UnhealthyAdmitsNothing | vnext/service.py:242-255 | After a lost save a runtime stays unhealthy, and no row of its node is added by anybody, at every later point of the run until that runtime ends |
| Lifecycle.ClosingWritesNothing | vnext/service.py:320-326 | From the moment it begins to close until it ends, a runtime crosses no barrier and writes no command |
| Guarantees.WorkersAreHealthy | vnext/service.py:242-255 | A runtime that lost a save has no coroutine left |
| Guarantees.RecoveryIsComplete | vnext/service.py:120-134 | A runtime starts serving only when every row of its node is terminal |
| Safety.StepKeeps | vnext/service.py:184-498 | The invariant of table, history, locks and all runtimes is kept by every step of every runtime |
| Safety.RunsAreOk | vnext/service.py:184-498 | The invariant holds in every world of every run |
| Preservation.EveryActionKeeps | vnext/service.py:184-479 | Each protocol action keeps the local invariant, moves rows only forwards, touches only its own node, and adds only its own events |
| Preservation.OneWorker | vnext/service.py:210-240 | A live worker is the only one of its runtime, holds the slot, and its row is unfinished and in step with its program counter |
| Preservation.NotStartedNotWritten | vnext/service.py:320-326 | A coroutine whose started flag is unset has written nothing, also when its barrier commit failed after becoming durable |
| OneShot.StepRefines | vnext/service.py:184-423 | Every step of the system is a step, or no step, of the one-shot specification; recovery is never a step back |
| OneShot.RunsRefine | vnext/service.py:184-423 | Every run of the system is a run of the specification from its empty state |
| OneShot.FinalStaysFinal | vnext/ledger.py:186-207 | In the specification a final operation stays final in the same way and is not written any more |
| OneShot.SpecTellsTheTruth | vnext/service.py:377-420 | In every state of the specification NOT_DISPATCHED excludes, and ACKNOWLEDGED or REJECTED implies, a write |
| Recovery.InterruptionsDoNotMatter | vnext/ledger.py:186-207 | Any number of interrupted recoveries followed by a complete one leaves the table of one complete recovery |
| Recovery.RecoveryIsFramed | vnext/ledger.py:186-207 | Recovery leaves rows of other nodes and terminal rows alone; an unfinished one becomes NOT_DISPATCHED/NOT_ATTEMPTED/PROCESS_RESTART_BEFORE_DISPATCH if it was queued and OUTCOME_UNKNOWN/UNKNOWN/PROCESS_RESTART_AFTER_POSSIBLE_DISPATCH otherwise, and nothing else of it changes |
| Steps.RunRecovers | vnext/ledger.py:186-207 | As long as commits succeed, each iteration of the recovery loop is one step of the protocol, keeps the invariant, and does not change what a complete recovery would leave |
| Steps.RunAborts | vnext/ledger.py:186-207 | The iteration whose commit fails is a protocol step too; it ends the recovery with what that commit left, and the invariant still holds |
| Steps.StepsRecover | vnext/ledger.py:186-207 | Row by row with every commit succeeding, the protocol's recovery comes to the table of one complete recovery |
| Steps.CancelEnds | vnext/service.py:377-397 | A delivered cancellation ends that task, changes at most its own row and adds nothing to the wire |
| Paths.WorksFrame | vnext/service.py:257-423 | Any sequence of protocol actions that concern one coroutine, with requests and the beginning of the close between them, keeps the invariant, every other operation's row, and history |
| Ledger.ControlOwner.Open | vnext/ledger.py:15-29 | The lock is obtained exactly if nobody holds it, and nothing changes otherwise |
| Ledger.ControlOwner.Close | vnext/ledger.py:31-34 | Closing gives back the lock if this owner still has it; closing again changes nothing, not even for a later owner |
| Ledger.Ledger.Get | vnext/ledger.py:72-77 | Finds exactly the rows of this ledger's node |
| Ledger.Ledger.FindIdempotent | vnext/ledger.py:87-105 | Answers, refuses or misses as the key's binding in the table says |
| Ledger.Ledger.Admit | vnext/ledger.py:123-154 | Answers from the table, refuses, or appends exactly one row; a failed commit leaves the old or the new table |
| Ledger.Ledger.Update | vnext/ledger.py:156-173 | Revises exactly one document in its place, or nothing; raises for an unknown row |
| Ledger.Ledger.StartDispatch | vnext/ledger.py:175-184 | Succeeds exactly for a queued, unfinished row whose DISPATCH_STARTED is then stored |
| Ledger.Ledger.Recover | vnext/ledger.py:186-207 | The loop updates the documents in the order read and stops at the first failing commit; the table is what exactly those updates leave, completely recovered on success |
| Rows.IdempotencyDecided | vnext/ledger.py:87-105 | For a bound key, the lookup answers exactly if kind and request are the bound ones, and conflicts otherwise |
| Rows.InsertKeepsKeys | vnext/ledger.py:49-59 | Inserting after a miss cannot violate the unique constraint |
| CanonicalJson.CanonicalInjective | vnext/ledger.py:64-70 | Two requests have the same canonical JSON text if and only if kind and members are equal, for all strings that need escapes or surrogate pairs |
| CanonicalJson.SortedPairsAscend | vnext/ledger.py:64-70 | Members are written in ascending key order |
| CanonicalJson.SortedPairsRestore | vnext/ledger.py:64-70 | Sorting loses and invents no member |
| Service.Platform.constructor | vnext/service.py:77-95 | A new runtime is stopped, healthy, empty, and valid over any valid table and history |
| Service.Platform.RequireLedger | vnext/service.py:136-154 | The ledger is handed out exactly while owning, healthy and not closing, and the refusal code says which was missing |
| Service.Platform.Admit | vnext/service.py:184-240 | Every outcome of an admission in its order of precedence, with its problem code: unavailable, unhealthy, without a command, bound to the same or to another request, busy, new; and the exact row, slot, task and answer of a new one under each commit outcome |
| Decisions.AdmissionIsDecided | vnext/service.py:184-240 | The same told from the table: invalid exactly if no command text spells the request, answered or conflicting exactly by the kind and members of the row that has this node, credential and key, new exactly if no row has them |
| Service.Platform.AdmitNew | vnext/service.py:217-240 | Reservation and insertion are one protocol step each without an await between them, and a failure gives the slot back |
| Service.Platform.Recall | vnext/service.py:201-208 | A bound key is answered or refused without changing table or slot |
| Service.Platform.Start | vnext/service.py:97-134 | Success means the lock is held and the node's rows are recovered; failure gives back the lock; either way the recovery was the protocol's steps, one a row, up to the failing one; a held lock changes nothing |
| Service.Platform.Save | vnext/service.py:242-255 | The update is stored as its commit says, and only a failed one ends health |
| Service.Platform.Begin | vnext/service.py:257-276 | The first stretch of the coroutine is the protocol's step: it goes on to observe its operation, or ends it as CONTROL_UNAVAILABLE exactly when the runtime is closing |
| Service.Platform.Judge | vnext/service.py:278-318 | The stretch from the observation to the decision: already satisfied, denied with its code, failing, or to be sent; sent exactly if the observed links leave the request unmet and the rules allow the traffic |
| Decisions.BeginDecided | vnext/service.py:257-276 | A coroutine that has not begun goes on to observe the document as stored, or, when closing, stores NOT_DISPATCHED/NOT_ATTEMPTED/CONTROL_UNAVAILABLE and ends |
| Decisions.ObservationDecided | vnext/service.py:278-318 | From links, traffic and overrides alone: ALREADY_SATISFIED if fulfilled, sent if unmet and allowed, else the policy code of the traffic; a mode-less link to a linked target unwinds |
| Decisions.JustifiedDecided | vnext/service.py:278-312 | Whatever an observation justifies sending is unmet by its links and allowed by the rules for its traffic |
| Service.Platform.Barrier | vnext/service.py:320-326 | Returns normally exactly if the barrier was stored, and then and only then the operation has crossed it; the stored row, the task and the event under each commit outcome |
| Decisions.BarrierDecided | vnext/ledger.py:175-184 | Crossed exactly if the runtime is not closing and the commit succeeds, with DISPATCH_STARTED stored; a commit that only seemed to fail stores it too, and the coroutine unwinds as unsent |
| Service.Platform.Sent | vnext/transport.py:65-69 | Directly after the barrier the write of this operation's command, spelled out for its node, kind and target, enters the history |
| Service.Platform.Interpret | vnext/service.py:346-365 | REJECTED on exactly the refusals, ACKNOWLEDGED on exactly the other replies whose response is Success, uncertain on the rest; a success that cannot be saved claims nothing |
| Decisions.ReplyDecided | vnext/service.py:346-365 | The same from the headers and output lines of the reply alone, with every stored status and code |
| Service.Platform.Replied | vnext/service.py:346-376 | The reply's outcome as above; an acknowledged announcement is finished in the same stretch as UNKNOWN/PLAYBACK_EFFECT_NOT_OBSERVABLE |
| Decisions.AnnouncedDecided | vnext/service.py:367-376 | An acknowledged announcement ends ACKNOWLEDGED/UNKNOWN with the code that no effect is observable |
| Service.Platform.Verified | vnext/service.py:440-469 | One turn of the effect loop is the protocol's step, with the verdict that the links of the state call for |
| Decisions.WatchDecided | vnext/service.py:440-469 | Confirmed as soon as the links fulfil the request; before the deadline nothing is stored otherwise; at it PARTIAL exactly if a link request's target is listed, UNSATISFIED if not, UNKNOWN without evidence, each with its code |
| Decisions.DecisiveDecided | vnext/service.py:440-455 | An observation ends the watch early exactly if its links fulfil the request or cannot be judged |
| Service.Platform.VerifyEffect | vnext/service.py:425-479 | The verdict is on the first observation that fulfils the request or is past the deadline, and no earlier one was passed over; between two lies one sleep, begun before the deadline, of half a second or of what is left; at most ceil(2T)+1 observations for a window of T seconds, at least one for a verdict |
| Service.Platform.Dispatch | vnext/transport.py:50-78 | One control action: the frame with this operation's command, spelled out, is written once directly after its stored barrier, or nothing is written and no barrier is recorded; a used session is never written to; a returned reply is the one the reply loop finds |
| Service.Platform.Failed | vnext/service.py:398-420 | An exception is stored as DISPATCH_OUTCOME_UNCERTAIN if the command may have been sent and as DISPATCH_NOT_ATTEMPTED otherwise |
| Service.Platform.Cancelled | vnext/service.py:377-397 | A cancellation before the first step saves nothing; any other is stored as WORKER_CANCELLED_AFTER_POSSIBLE_DISPATCH or WORKER_CANCELLED_BEFORE_DISPATCH |
| Decisions.CauseDecided | vnext/service.py:377-420 | Which of the four codes is stored, with its statuses, by the cause and by the started flag |
| Decisions.CancelDecided | vnext/service.py:377-397 | The flag is set exactly from the stored barrier on, and a coroutine that has not begun runs no handler |
| Service.Platform.Await | vnext/service.py:201-215 | While a coroutine waits, arriving requests get no further than an answer or a refusal and leave table, slot and wire alone, and the runtime may begin to close |
| Service.Platform.Execute | vnext/service.py:257-423 | A whole coroutine, with requests, closing and cancellation at each of its awaits, is a sequence of the protocol's actions; it ends with its operation terminal or admission stopped, with the slot free, every other row and the earlier history as they were, and its session's writes being the login with these credentials and at most one frame with this operation's command, spelled out |
| Service.Platform.Close | vnext/service.py:481-498 | Closing is the protocol's beginning of the close, cancellations and end; no task, slot, ledger or own lock is left, nothing was written, and each operation with a task ends with its handler's verdict unless it had not begun or its save failed; closing a runtime that does not own the node changes nothing else |
| Transport.AMISession.Frame | vnext/transport.py:25-48 | The header loop returns what reading the next frame means and leaves the rest of the stream |
| Transport.AMISession.Prepare | vnext/transport.py:50-64 | A value with a line break is refused first, a second control attempt next, and the attempt is remembered |
| Transport.AMISession.Exchange | vnext/transport.py:68-78 | One write, then exactly the reply that the budgeted search of the stream gives |
| Transport.AMISession.Action | vnext/transport.py:50-78 | A read action is refused unwritten or written once, as one frame, and never counts as a control attempt |
| Transport.ReplyFound | vnext/transport.py:71-77 | Fewer events than the budget and then the own reply: it is returned, and nothing behind it is consumed |
| Transport.ReplyIsOwn | vnext/transport.py:71-77 | A returned reply is the first frame that is no event, carries the own ActionID, and came within the budget |
| Transport.EventsExhaustBudget | vnext/transport.py:71-78 | A stream with as many events as the budget is given up on with the next frame unread |
| Transport.UnrefusedIsOneFrame | vnext/transport.py:53-68 | Whatever values the injection guard lets through, leading blanks included, the action is written as exactly one frame |
| Transport.OpenSession | vnext/transport.py:90-123 | A session is handed out exactly when the peer greets, the login has no line breaks and its own reply accepts it; the login text with user name, secret and identifier in their places is its one write, one frame, and the stream stands behind that reply |
| Transport.GreetingDecided | vnext/transport.py:107-108 | The peer greets exactly if the stream starts with the literal banner |
| Transport.LoginArrives | vnext/transport.py:110-120 | The login is one frame that reads back to action Login, this user name, this secret, events off and this identifier |
| Transport.Observe | vnext/transport.py:131-146 | An observation writes the login and then exactly XStat and SawStat about this node, each under its own identifier, and yields exactly the two replies that carry them |
| Transport.QuestionArrives | vnext/transport.py:131-146 | Each question is one frame that reads back to action RptStatus, this command, this node and this identifier |
| Transport.CommandIsClean | vnext/transport.py:53-54 | No accepted command is ever refused as a header injection |
| Transport.CommandArrives | vnext/transport.py:50-68 | The frame of a command text is one frame, and whoever reads it by the same rules finds exactly that command and ActionID |
| Codec.FrameRoundTrip | vnext/transport.py:25-48 | Reading written headers gives every one back under its lower-case name, repeated ones in order, exactly if the frame is within the limit |
| Codec.ParseLineDecided | vnext/transport.py:34-39 | Every line: it is read as a header if and only if it is a name without colon and white space, a colon, blanks and the value, with the name in small letters |
| Codec.FrameDecided | vnext/transport.py:25-48 | Every text: it is read as a message if and only if it is within the limit, each of its lines is a header, only var, conn and output repeat, and the message holds each name's values in order |
| Codec.LengthIsEncoded | vnext/transport.py:26-28 | The length that is limited is the number of bytes of the UTF-8 encoding |
| Codec.OneWriteIsOneFrame | vnext/transport.py:56-59 | A payload of headers without line breaks holds the terminator at its end only, whatever follows on the stream |
| Codec.CollectsValues | vnext/transport.py:34-48 | Collecting headers appends each value to the list under its name and to no other |
| Codec.ValuesRoundTrip | vnext/observation.py:33-40 | Zero, one or many headers of a name come back as the list that was written |
| Codec.SingleNamesStayScalar | vnext/transport.py:40-47 | No name but the repeatable ones is ever collected into a list |
| Models.CommandDecided | vnext/models.py:149-179 | Each accepted request has exactly one literal command text, told by kind, target and mode; any other request has none; only an unknown announcement kind is the coded problem |
| Models.ValidateNode | vnext/models.py:39-42 | A node is accepted exactly if it has one to six ASCII digits, the first not zero |
| Models.CommandDeterminesIntent | vnext/models.py:149-179 | Two accepted requests for a node become the same command if and only if they ask for the same thing |
| Models.CommandIsOneLine | vnext/models.py:149-179 | No accepted request puts a line break into its command |
| Policy.DefaultsDemandSilence | vnext/policy.py:8-13 | By default link and announcement pass if and only if complete evidence shows nothing keyed |
| Policy.EnforceDecided | vnext/policy.py:20-65 | Clear traffic passes, an override decides where there is one, disconnecting passes by default; each refusal has the code of its traffic |
| Ami.RefusalDecided | vnext/transport.py:179-195 | A reply is a refusal if and only if its response is Error or Failed, or some output line, scalar or listed, has one of four literal markers at some position up to ASCII case |
| Effects.EffectDecided | vnext/service.py:25-74 | On every publishable state: a link is satisfied exactly if established in mode R for monitor and T otherwise, partial exactly if listed otherwise; an unlink exactly if not listed; a clear exactly if no link has a numeric name |
| Effects.EffectIgnoresLinkOrder | vnext/service.py:25-74 | On every state the parser can publish, the verdict depends on the set of links only |
| Effects.ClearedMeansUnlinked | vnext/service.py:32-50 | A satisfied unlink_all satisfies unlink_node for every target |
| Effects.LinkedIffNotUnlinked | vnext/service.py:32-72 | For one target, a link is at least partial if and only if its unlink is unsatisfied |
| Effects.EffectRaisesExactlyWithoutMode | vnext/service.py:62-66 | Judging an accepted request raises if and only if it is a link request without a mode whose target is present in complete evidence |
| Effects.LinkWithoutModeRaises | vnext/service.py:62-66 | An accepted request and a publishable state on which it does raise |
| Alinks.ParseAlinks | vnext/observation.py:50-77 | The token loop computes the recursive parse |
| Alinks.ParseUndoesPrint | vnext/observation.py:50-77 | Every ordered map of safe names is parsed back from its printed value and count |
| Alinks.PrintUndoesParse | vnext/observation.py:50-77 | Every accepted value and count are what printing the parsed map gives |
| Alinks.TokenRoundTrip | vnext/observation.py:67-76 | A token is accepted as an entry if and only if it is that entry's safe name with its literal mode and key letters |
| Alinks.CheckName | vnext/observation.py:26-31 | A name is accepted exactly if it has 1 to 64 characters, none of them white space, a comma or a control character, and is not the truncation sentinel |
| Observation.ReadVariables | vnext/observation.py:85-90 | The Var loop computes the recursive collection |
| Observation.ReadConnections | vnext/observation.py:100-108 | The Conn loop computes the recursive collection |
| Observation.ReadXstat | vnext/observation.py:80-116 | The XStat parser's checks in their order compute the recursive parse |
| Observation.ReadSawstat | vnext/observation.py:119-133 | The SawStat parser's loop computes the recursive parse |
| Observation.ReadLinks | vnext/observation.py:163-181 | The loop over connections computes the links, stopping at the first contradiction |
| Observation.ReadSnapshot | vnext/observation.py:148-198 | The whole parse, with every failure turned into an unknown state |
| Observation.Observer.Conclude | vnext/observation.py:213-232 | A sample counts only if the generation did not change meanwhile, and the published state is fully justified or entirely unknown |
| Observation.VariablesDecided | vnext/observation.py:85-90 | Variables are accepted if and only if each row is a name, an equals sign and a value, no name repeats, and then they are exactly those |
| Observation.ConnectionsDecided | vnext/observation.py:100-108 | Connections are accepted if and only if every row matches the grammar with a safe, unrepeated name |
| Observation.XstatRowReads | vnext/observation.py:18-22 | The row language told by its fields: a row is read as this connection if and only if it is its name, any peer, digits, IN or OUT, hours:minutes:seconds and its literal status, spaced |
| Observation.KeyingsDecided | vnext/observation.py:124-133 | The same for the keyed flags of SawStat |
| Observation.SawstatRowReads | vnext/observation.py:23 | The same for SawStat: the name, 1 or 0 as keyed or not, and two signed numbers |
| Observation.AnswerDecided | vnext/observation.py:82-83 | A sample counts exactly if it says Success once and names this node once |
| Observation.SnapshotIsEvident | vnext/observation.py:148-198 | A published state is complete with distinct, identified links and traffic ACTIVE exactly if something is keyed, or it has no evidence at all |
| Snapshot.AgreeingSamplesAreComplete | vnext/observation.py:148-198 | Well-formed, mutually consistent samples give a complete state that reports exactly what they say |
| Snapshot.CompleteSamplesAgree | vnext/observation.py:148-198 | A complete state comes from no other samples, and reports no more than they say |
| Snapshot.CompleteExactlyWhenConsistent | vnext/observation.py:148-198 | Completeness if and only if some consistent reading of both samples exists; otherwise every evidence field is null; node and epoch are always the observation's |
| RoundTrip.ParsersUndoRendering | vnext/observation.py:80-198 | Any condition with any number of links, rendered as XStat and SawStat headers, is parsed back exactly |
| RoundTrip.ConditionSurvivesTheWire | vnext/transport.py:25-48 | The same through framing: both replies are cut out of the stream and read back to exactly that condition, unless one exceeds the frame limit |
| RoundTrip.ConditionIsObserved | vnext/transport.py:131-146 | The same through a session: behind a greeting and an accepted login, with fewer events than the budget before each reply, the observation finds both replies by their ActionIDs and reads exactly that condition |
| Text.WordsAreSpaced | vnext/observation.py:17-22 | Splitting at white space inverts joining words by any non-empty blanks |
| Text.CountOfDecimal | vnext/observation.py:54-56 | A printed count is canonical and reads back as the number |
| Text.DecimalOfCount | vnext/observation.py:54-56 | A canonical count is what printing its number gives |
| Text.SplitUndoesJoin | vnext/observation.py:62-63 | Comma splitting inverts comma joining of comma-free parts |
| Text.JoinUndoesSplit | vnext/observation.py:62-63 | Joining the split parts gives the text back |
| Events.Queue.Put | ami_event_listener.py:43-46 | With fewer than 200 events nothing is lost; a full queue loses its oldest event, never the new one |
| Events.Listener.Subscribe | ami_event_listener.py:30-33 | A new subscriber starts with an empty queue at the current end of the broadcast |
| Events.Listener.Broadcast | ami_event_listener.py:42-46 | Each current queue holds the newest 200 of what it held and the event, and every queue stays a bounded suffix of what was broadcast since it joined |
| Events.Listener.PollOnce | ami_event_listener.py:52-74 | One poll emits the snapshot first and once, a key event exactly if the key differs from the remembered one, one connected event for exactly the names that some direct link has and that were not remembered, and one disconnected event for exactly the remembered names that no link has; it remembers exactly the names of the links, or nothing; each queue holds the newest 200 of what it held and these events |
| Events.PollTells | ami_event_listener.py:52-74 | The same as a law of one poll over the state's own links and keys |
| Events.LatestAbsorbs | ami_event_listener.py:42-46 | However many events are put, a queue that is not consumed holds exactly the newest 200 of all of them |
| Events.PushDelivers | ami_event_listener.py:42-46 | Putting keeps a queue a contiguous suffix of at most 200 events that includes the newest |
| Events.GetDelivers | ami_event_listener.py:42-46 | Consuming keeps a queue a contiguous suffix |
| Events.NewestIsHeld | ami_event_listener.py:42-46 | Until it is emptied a queue ends with the newest event |
| Events.ReplayIsExact | ami_event_listener.py:64-74 | Over any gap-free stretch, folding the link events over the first links gives exactly the names that a direct link of the last state has, and no event is idle |
| Events.KeyEventsAreExact | ami_event_listener.py:59-67 | Over any stretch with gaps anywhere, the receiver events, and the transmitter events, are the values of the complete snapshots that directly follow an unknown one or one with another value |
| Events.OnlyChangesAreAnnounced | ami_event_listener.py:59-67 | They are exactly the changes seen between consecutive complete snapshots if and only if no complete snapshot directly follows an unknown one |
| Events.KeyEventsAlternate | ami_event_listener.py:59-67 | They alternate strictly if and only if no gap ends with the key as it was when last known, in particular over every stretch without gaps |
| Events.GapRepeatsKey | ami_event_listener.py:59-67 | A run in which a key that never changes is announced twice, before and after a gap |
| Events.TransitionsAreExact | ami_event_listener.py:52-74 | Over any stretch of snapshots with gaps anywhere, each link is announced exactly as often as the direct links of two consecutive complete snapshots show it appearing, and its departure exactly as often as they show it disappearing |

## Left out

- HTTP routes, problem documents, authentication, rate limits, SSE and OpenAPI (`vnext/api.py`, `asl_agent.py`): plumbing with shallow branches.
- Connecting, TLS and VPN, timeouts of single reads: a session is a given stream of characters that may end anywhere.
- SQLite and `flock` themselves: a transaction commits, is lost, or is reported as failed after becoming durable; a lock has one holder and is released when its process ends. `Ledger.list` is not modelled, and `existing` is the same query as `find_idempotent`.
- A failure of `asyncio.create_task` after the insertion has the same effect as a misreported commit and is folded into it.
- Timestamps, log texts, problem details, uuid generation: identifiers are parameters, and an identifier already in the table fails like the primary key does.
- Service.Platform.Execute: a process that dies in the middle and the steps of other nodes' runtimes are covered by the protocol and its invariant, not by this method.
- Service.Platform: a runtime object is proved against its own table; that other runtimes leave its rows alone between two steps is proved for the protocol (`Guarantees.BarrierNeverRaces`, `Safety.RunsAreOk`), not for several objects at once.
- Protocol steps are more permissive than the code in places, which only adds runs: a task may be cancelled at any await and not only by `close`, and an exception may arise at any await.
- Service.Platform.VerifyEffect: time is a real number without rounding, and a sleep lasts at least as long as asked.
- Codec.FrameRoundTrip: characters instead of bytes; the UTF-8 length is counted, but undecodable bytes are one more way for a stream to fail and are not modelled. Case folding of header names and output lines is ASCII only.
- A stream reader's own buffer limit raises a different exception than the frame limit does; both end the session.
- Messages reach the parsers as the frame reader yields them, a map from lower-case names to a string or a list of strings; other mappings, for which the parsers raise type errors, are not modelled.
- Requests have string members only, as the request schemas produce them.
- Observer's lock that queues concurrent snapshots, and `software_evidence` with its version probes: read-only, outside the control path.
- Legacy code in `ami_client.py`, `event_handler.py`, `node_cache.py`, `config.py` and deployment scripts: outside these three parts.
