# Verification model of July

July is a step-driven runtime that connects coding agents to chats, threads and Rooms. This
project models its hardest parts in Dafny and proves what they promise. `dafny verify
dfyconfig.toml` checks everything.

## What is modelled

| file | part of July |
|---|---|
| `Domain.dfy` | identifiers, sessions, transport events, white space |
| `TransportStream.dfy` | the text coalescer: merging, cutting and pushing back text under a 64 KiB bound, in characters of one to four bytes (section 3 of RFC 3629) |
| `OwnerMachine.dfy`, `AgentOwner.dfy` | the agent owner loop: commands interleaved with transport events, one pending delivery fanned out under back-pressure, the route table, the bookkeeping for disconnects and lost sessions |
| `SessionOpening.dfy`, `SessionManager.dfy`, `SessionStore.dfy` | the reference for opening a session, and the manager proved to follow it: recovering opens, replacements, recovery capsules, Room activation, and the session table behind them |
| `Permissions.dfy` | pending permission requests and their durable decisions |
| `RoomMachine.dfy`, `RoomActivation.dfy` | one Room activation: permit before commit, the storage worker as a barrier, the cancellable `next_event`, the cleanup task |
| `RoomTurn.dfy`, `RoomPublication.dfy` | the scheduler of a Room turn in the client, and the way of a message from commit to screen |
| `DeliveryMachine.dfy`, `MentionDelivery.dfy` | durable delivery of thread mentions (with a capsule) and direct messages (without), with failures, crashes and retries |
| `ChatService.dfy` | the DM and thread chat services: gathering text, persisting before emitting |
| `Reclaim.dfy` | repointing agents and reclaiming old installation roots |
| `ReplArguments.dfy`, `Keys.dfy`, `Mention.dfy` | three parsers: quoted arguments, terminal keys, leading mentions |

Three parts come in two forms. A pure machine (`OwnerMachine`, `RoomMachine`, `DeliveryMachine`)
has a state, inputs, a step and an invariant; results about all runs are lemmas there. A class
(`AgentOwner`, `RoomActivation`, `DeliveryRuntime`) has July's fields and methods, and each method
is proved to take exactly the machine's steps. The other parts are classes proved against
specification functions of their own.

What the code cannot choose is an input: arrivals, the iteration order of a
map, answers of the transport, failed writes, dropped futures, cancellations and process ends.
Text is a sequence of Unicode scalar values.

## Assumptions

- The transport echoes the binding id it was asked to open, and ids that the store generates are
  fresh. There is one owner per agent.
- A message's mentions are distinct (src/storage/sqlite.rs:1069), and a turn starts with at most one
  activation per agent.
- Store operations are atomic. For bindings and Room activations a failed operation changes nothing; a
  permission decision, a delivery or a chat message may have been written although its write errs.
- A message inserted again under its id is the same message (src/storage/sqlite.rs:3510-3549).
- Publications of different activations have different message ids.
- One process works on a delivery at a time; another process starting up may only fail pending rows.
- A running activation's final status is written by its cleanup or by another process that starts up.

## Findings

- A disconnect is taken off the transport before its bookkeeping is awaited inside a `select!`
  (src/runtime/session_manager.rs:565-593, src/runtime/workspace.rs:617-620). A command that arrives in
  between drops it, and bookkeeping that fails ends the loop before anything is routed
  (src/runtime/session_manager.rs:587-588, src/runtime/workspace.rs:691). `DisconnectReachesRoutesIff`: it
  reaches the routes if and only if neither happens. `DisconnectIsLost` gives a run for each.
- A retry whose claim errs is reported as a persisted failure whatever the row says
  (src/runtime/thread.rs:512-515). `DeliveredReportedFailed` shows a delivered message reported so, and
  `PlainFailureIsRetryable` gives the exact condition.
- The second agent listing of a reclamation counts as empty when it fails (src/cli/reconcile.rs:270-272), so
  a root that an agent still runs from can be removed. `ListingFailureRemovesUsedRoot` is a concrete
  case, `UsedRootsStayUnlessListingFails` the exact condition.
- A Room activation whose prompt fails is given up in four steps, and a refusal of storage at any of them
  returns early (src/runtime/session_manager.rs:204-214): the session stays owned without a route, although
  nobody holds it. `GiveUp` with `StaysOwnedIff` is the exact condition in storage's answers,
  `RefusedStepOrphans` runs such activations from the start, `OrphanIsKept` says that only an open of its own
  binding ends it. An activation whose caller is gone leaves such an orphan exactly when detaching fails
  (`OrphanedIff`), because that failure is ignored (src/runtime/workspace.rs:729-734).
- A command that cuts off the bookkeeping of a disconnect while a decision is being written leaves the
  decision in storage and its request pending (src/runtime/storage_worker.rs:774-784). The table takes no
  second decision, so every later audit of that request fails and its session cannot be detached until the
  request is answered: `StuckUntilAnswered`, `StuckBlocksAudit`, and `LostAnswerBlocksDetach` as a concrete case.
- Another process that starts up fails the unfinished Room activations of a running one
  (src/storage/sqlite.rs:1294), and storing a status afterwards succeeds without effect
  (src/storage/sqlite.rs:2664-2668). The user may be told that a turn completed which storage keeps as failed:
  `CompletedButStoredFailed`, with `CompletedIsHonest` as the exact condition.

## Model

| member | source | states |
|---|---|---|
| `TransportStream.CharBoundary` | src/transport/mod.rs:263-269 | the cut is the greatest character boundary not beyond the bound, at most three bytes below it, and any other position would split a character |
| `TransportStream.BoundaryWithinThree` | src/transport/mod.rs:263-269 | every text has a character boundary among any four neighbouring byte positions inside it |
| `TransportStream.CollapseKeepsCells` | src/transport/mod.rs:205-254 | merging maximal runs of same-session text keeps every character and control event with its session and place |
| `TransportStream.CollapseIsMaximal` | src/transport/mod.rs:205-254 | the merged form has no two mergeable neighbours, so it is the normal form streams are compared by |
| `TransportStream.CollapsePair` | src/transport/mod.rs:227-233 | two neighbouring texts of one session mean the same as their concatenation |
| `TransportStream.CollapseCongruence` | src/transport/mod.rs:205-254 | equal meaning is kept when the same events are put in front |
| `TransportStream.CollapseSuffix` | src/transport/mod.rs:205-254 | equal meaning is kept when the same events follow |
| `TransportStream.SplitKeepsMeaning` | src/transport/mod.rs:214-222 | cutting a text and pushing the remainder back does not change what the stream means |
| `TransportStream.NextDoesNotFit` | src/transport/mod.rs:235-243 | when a text is cut to fill the bound, its next character would not have fitted |
| `TransportStream.TransportEvents.Recv` | src/transport/mod.rs:205-254 | returns the next part of the stream, at most 64 KiB of text, cut only at characters, leaving the rest with unchanged meaning, and stops merging only when nothing more fits or is mergeable |
| `TransportStream.TransportEvents.Cut` | src/transport/mod.rs:214-222 | an oversized text becomes two non-empty parts, the first within the bound |
| `TransportStream.TransportEvents.Merge` | src/transport/mod.rs:224-252 | grows the text by following text of the same session and pushes back what does not belong or does not fit |
| `TransportStream.TransportEvents.TryRecv` | src/transport/mod.rs:256-260 | takes the pushed-back event before the channel and loses nothing |
| `TransportStream.TransportEvents.Run` | src/transport/mod.rs:205-260 | over any interleaving of arrivals, recv and try_recv, what was returned and what remains mean exactly what was sent |
| `TransportStream.TransportEvents.Drain` | src/transport/mod.rs:205-254 | reading until nothing remains ends for every input and hands out the meaning of the whole stream |
| `OwnerMachine.StepKeepsInv` | src/runtime/workspace.rs:578-825 | every step keeps: each route's session is the one owned under that id, pending targets are distinct ids with live routes, and every channel received what was read in order |
| `OwnerMachine.ConversationLossless` | src/runtime/workspace.rs:616-689 | in every run, what the transport said to a conversation since it was attached is what its queue accepted followed by at most the one pending event |
| `OwnerMachine.RoomControlLossless` | src/runtime/workspace.rs:650-678 | in every run, the permission requests, turn results, losses and disconnects said to a Room's session since its route was attached are those its queue accepted or is about to get, in order, and all it gets is an in-order selection of what was said |
| `OwnerMachine.ToldIsPassed` | src/runtime/workspace.rs:616-689 | in every run, what a live channel accepted or is about to get is, event by event and in order, what had to be passed on since it was attached: every event of a conversation; of a Room the previews there was room for, no completed private message, usage report or turn start, and every other event |
| `OwnerMachine.NeverMisdelivered` | src/runtime/workspace.rs:644-649 | in every run, no channel, live or gone, ever accepts an event of another session |
| `OwnerMachine.ReadIsSaid` | src/runtime/workspace.rs:629-689 | what a live route has read is exactly what the transport said to its session since the attach |
| `OwnerMachine.FailedCapsuleLeavesNothing` | src/runtime/workspace.rs:762-774 | an open whose recovery capsule fails leaves neither route, pending target nor ownership of its session and touches no other |
| `OwnerMachine.DisconnectReachesRoutesIff` | src/runtime/session_manager.rs:561-593 | a disconnect taken off the transport reaches every route if and only if no command comes first and its bookkeeping succeeds |
| `OwnerMachine.DisconnectIsLost` | src/runtime/session_manager.rs:565-593 | runs from the start in which an open conversation never learns of a disconnect: after a command, and after bookkeeping that failed |
| `OwnerMachine.FailedEventEndsTheLoop` | src/runtime/workspace.rs:636-643 | after an event that could not be recorded the loop takes no further step, and no channel read it |
| `OwnerMachine.FanOutReaches` | src/runtime/workspace.rs:680-688 | a disconnect is offered to every route there is |
| `OwnerMachine.OpenStep` | src/runtime/workspace.rs:736-782 | the open arm, field by field: route, ownership and pending targets after a delivered and after a failed capsule |
| `OwnerMachine.ActivateStep` | src/runtime/workspace.rs:715-735 | the Room arm, field by field, for an answered caller and for one that is gone |
| `OwnerMachine.DetachStep` | src/runtime/workspace.rs:804-818 | the detach arm, field by field, for a success and a failure |
| `OwnerMachine.RunMore` | src/runtime/workspace.rs:584-693 | runs of the loop compose step by step and every reachable state satisfies the invariant |
| `OwnerMachine.SubsequenceIn` | src/runtime/workspace.rs:650-674 | a channel never invents an event: what was accepted was read |
| `OwnerMachine.OrphanedIff` | src/runtime/workspace.rs:715-735 | after an activation its session is owned without a route if and only if a step of giving it up was refused, or its caller was gone and it was not detached |
| `OwnerMachine.OrphanIsKept` | src/runtime/workspace.rs:708-825 | an owned session without a route keeps that state over every step but an open of its own binding |
| `AgentOwnership.AgentOwner.Retire` | src/runtime/workspace.rs:585-589 | an exhausted delivery is dropped and nothing else changes |
| `AgentOwnership.AgentOwner.Deliver` | src/runtime/workspace.rs:602-611 | the send arm is exactly the machine's delivery step: the front target goes, a closed channel loses its route |
| `AgentOwnership.AgentOwner.HandleEvent` | src/runtime/workspace.rs:629-691 | the event arm is exactly the machine's step: recording comes first, with the books and rows it must leave, and succeeds exactly if storage goes along: a request of an owned session is pending, a lost one stored as lost, after a disconnect no request is pending and no owned row active; what cannot be recorded ends the loop unrouted |
| `AgentOwnership.AgentOwner.TakeDisconnect` | src/runtime/session_manager.rs:561-568 | a disconnect is off the transport, held by the event future and nothing else |
| `AgentOwnership.AgentOwner.Observe` | src/runtime/workspace.rs:630-643 | a request of an owned session is tracked, a lost one stored as lost exactly if that write works, and other sessions' events are not recorded |
| `AgentOwnership.AgentOwner.Bookkeep` | src/runtime/session_manager.rs:578-590 | an own disconnect decides every request and marks every owned row whose write is not refused, and succeeds if and only if none is; another agent's records nothing |
| `AgentOwnership.AgentOwner.CancelBookkeeping` | src/runtime/session_manager.rs:583-588 | bookkeeping cut off by a command has decided some requests and marked some rows; a decision whose answer is lost is stored while its request stays pending |
| `AgentOwnership.AgentOwner.FanOut` | src/runtime/workspace.rs:680-688 | the targets of a disconnect are exactly the routes, no binding twice, in the order the table is walked |
| `AgentOwnership.AgentOwner.Route` | src/runtime/workspace.rs:644-679 | an event goes only to the route of its own session; of a Room, text and tool previews are tried, completed private messages, usage reports and turn starts are dropped; everything else waits in the pending slot |
| `AgentOwnership.AgentOwner.HandleOpenSession` | src/runtime/workspace.rs:736-782 | the open arm is one machine step; it answers a session exactly if the binding is not attached, the open succeeds and a recovering open leaves no capsule owed, and makes exactly those calls |
| `AgentOwnership.AgentOwner.SettleCapsule` | src/runtime/workspace.rs:762-766 | a recovering open succeeds exactly if no capsule is owed or it is sent and recorded |
| `AgentOwnership.AgentOwner.AbortOpened` | src/runtime/workspace.rs:767-773 | route, pending targets and ownership of a failed open are all removed |
| `AgentOwnership.AgentOwner.HandleActivateRoom` | src/runtime/workspace.rs:715-735 | the Room arm is the machine step that the answers of storage and transport call for: nothing, an answered session, or one given up in steps of which each is granted or refused |
| `AgentOwnership.RefusedStepOrphans` | src/runtime/session_manager.rs:204-214 | real activations from the start, with every choice of refused statements: the session stays owned without a route exactly if one of them is refused |
| `AgentOwnership.AgentOwner.HandleDetach` | src/runtime/workspace.rs:804-818 | a detach succeeds exactly for an attached session whose requests can be decided and whose row can be marked, and then removes route, ownership and pending targets together |
| `AgentOwnership.AgentOwner.HandleOther` | src/runtime/workspace.rs:783-803 | the remaining commands reach the manager only for an attached session, change no route and answer what sending, auditing or responding comes to |
| `AgentOwnership.AgentOwner.HandleCommand` | src/runtime/workspace.rs:708-825 | each command is the step of the machine that belongs to it, with its binding, session or answer; while no disconnect is being recorded exactly the one the answers of storage and transport call for |
| `AgentOwnership.AgentOwner.CarryOut` | src/runtime/workspace.rs:708-825 | each command comes to exactly the machine's input that its storage and transport answers call for: which session opens and whether its capsule is settled, whether a detach succeeds, how an activation ends |
| `AgentOwnership.AgentOwner.RunOwner` | src/runtime/workspace.rs:578-693 | the loop over whatever becomes ready: each round takes what is ready if and only if the loop awaits it, as the step that belongs to it, nothing is left over unless the loop was left, the steps are a run of the machine, and over all of it no recorded capsule is sent again and no prompt twice |
| `AgentOwnership.OneMoreRound` | src/runtime/workspace.rs:584-693 | rounds of the loop compose: what was ready stays in order and their steps stay a run of the machine |
| `Permissions.LogDecided` | src/runtime/session_manager.rs:647-666 | a decision under an undecided key keeps one decision per request and every telling explained |
| `Permissions.LogTold` | src/runtime/session_manager.rs:664-668 | telling a selection is explained when the same selection was decided before |
| `Permissions.ForgottenLess` | src/runtime/session_manager.rs:595-674 | a request leaves the pending map only decided or with a cancelled reply |
| `Permissions.PermissionDesk.Track` | src/runtime/session_manager.rs:595-600 | a request becomes pending under its binding and request id |
| `Permissions.PermissionDesk.InsertDecision` | src/storage/sqlite.rs:3027-3060 | a decision is stored at most once for a key; one that lands without its answer counts as failed |
| `Permissions.PermissionDesk.Respond` | src/runtime/session_manager.rs:615-674 | an answer to a pending request is stored before it is told: a cancellation or an offered option is what is decided and told and answered as such if it is sent, an option that was not offered is decided and told as cancelled and answered as not offered, a write that fails drops the request with a cancelled reply, an unknown request changes nothing |
| `Permissions.AllAnsweredFairly` | src/runtime/session_manager.rs:615-674 | over any operations, every answer that could be stored is decided and told as it was given if it is a cancellation or an offered option, and as cancelled otherwise; each reply is told from that and from whether it was sent |
| `Permissions.PermissionDesk.AuditCancelled` | src/runtime/session_manager.rs:728-759 | every concerned request is tried; what lands is stored as cancelled, what is answered leaves the pending map, and it succeeds if and only if nothing concerned stays |
| `Permissions.AuditExactly` | src/runtime/session_manager.rs:728-759 | an audit request by request: what stays pending, what is decided as cancelled, what is untouched, and that it succeeds if and only if none of its session's requests stays |
| `Permissions.ClearIffNoneConcerned` | src/runtime/session_manager.rs:728-759 | an audit leaves nothing concerned pending if and only if none of it was decided before and every write is answered |
| `Permissions.TwoAudits` | src/runtime/session_manager.rs:206-213 | two audits in a row leave nothing pending if and only if each request is undecided and stored by the first, or refused by it and stored by the second |
| `Permissions.ServeOne` | src/runtime/session_manager.rs:595-759 | one operation logs exactly what the requests it found pending call for |
| `Permissions.OneMoreTurn` | src/runtime/session_manager.rs:595-759 | operations compose: their logs add up and the requests asked stay those tracked |
| `Permissions.Serve` | src/runtime/session_manager.rs:595-759 | over any interleaving of requests, answers, audits and failed writes: each operation logs and answers what it found pending, every answer is kept and told as it was given if it could be, the requests asked are those tracked in order, one durable decision per request, only stored and offered options are told, no request is forgotten |
| `Permissions.StuckIffUnanswered` | src/runtime/session_manager.rs:647-674 | a request that is decided in storage and still pending stays so over every operation but an answer to it |
| `Permissions.StuckUntilAnswered` | src/runtime/session_manager.rs:728-759 | over any operations such a request stays so until it is answered |
| `Permissions.StuckBlocksAudit` | src/storage/migrations/0002_session_runtime.sql:50 | every audit that concerns such a request fails and leaves it as it is |
| `SessionStore.Store.GetLatest` | src/storage/sqlite.rs:2742-2775 | the newest row of a scope |
| `SessionStore.Store.GetCurrent` | src/storage/sqlite.rs:2725-2741 | a row only while it is active or disconnected; no answer means that the scope has no such row |
| `SessionStore.Store.GetRecovery` | src/storage/sqlite.rs:2941-2947 | the recovery record of a binding |
| `SessionStore.Store.Insert` | src/storage/sqlite.rs:2684-2724 | a first row, refused under a known id or scope |
| `SessionStore.Store.UpdateStatus` | src/storage/sqlite.rs:2776-2790 | a closed row stays closed and nothing else changes |
| `SessionStore.Store.MarkDisconnected` | src/storage/sqlite.rs:2791-2811 | only a current row becomes disconnected |
| `SessionStore.Store.BeginReplacement` | src/storage/sqlite.rs:2812-2939 | the source is lost and a fresh, unattached generation with an undelivered recovery takes its place, both or neither |
| `SessionStore.Store.AttachReplacement` | src/storage/sqlite.rs:2948-2996 | a disconnected replacement whose capsule is not delivered is attached once; the same remote session again succeeds without effect, another one is refused |
| `SessionStore.Store.MarkCapsuleDelivered` | src/storage/sqlite.rs:2997-3025 | delivery is recorded only for a binding that is active and has a remote session, and again without effect |
| `SessionStore.Store.ClaimActivation` | src/storage/sqlite.rs:2526-2640 | a Room message is claimed at most once per agent, on the latest current binding if no unfinished activation holds it, else on a fresh one where the latest is lost or there is none |
| `SessionStore.Store.ReplaceRoomBinding` | src/storage/sqlite/room_recovery.rs:171-222 | the binding of a claimed, unsent message is lost and one fresh binding takes its place, or nothing changes |
| `SessionStore.Store.AttachRoom` | src/storage/sqlite.rs:2641-2654 | only a current row of a Room is attached, and becomes active |
| `SessionOpening.OpenedIsAttached` | src/runtime/session_manager.rs:318-366 | an open answers only a session whose row is active and has a remote session, never opens a closed row, resumes only a current one and makes at most three calls |
| `SessionOpening.OpenedUnder` | src/runtime/session_manager.rs:291-367 | a session is opened under the requested binding or a fresh one |
| `SessionOpening.RecoveringOpen` | src/runtime/session_manager.rs:304-366 | from the newest row's status, remote session and recovery record and from the answers: exactly when a recovering open gives a session, under which binding and with which remote session, exactly which calls it makes, and exactly when it replaces: a lost session, one that turns out to be gone, or one that never existed and is not owed; with the successor's recovery record and place in the scope |
| `SessionOpening.RecoveringOpenLeaves` | src/runtime/session_manager.rs:369-410 | short of a replacement, a session that is gone leaves its row lost, one that opens leaves it active under its remote session, and any other open changes nothing |
| `SessionOpening.FirstOpen` | src/runtime/session_manager.rs:260-317 | the first session of a scope is created exactly if the transport and the store agree and neither the id nor the scope has a row; its row is stored with it |
| `SessionOpening.PlainOpen` | src/runtime/session_manager.rs:299-303 | a plain open of a binding with a remote session resumes it exactly if it is the current row of its scope, and opens it exactly if the transport has it and its status is stored |
| `SessionOpening.NewestIsRequested` | src/runtime/session_manager.rs:304-320 | opening what is newest in a scope is the recovering open of that row |
| `SessionOpening.WaitingIsReused` | src/runtime/session_manager.rs:333-348 | opening an unattached replacement makes at most its own create, and a failure leaves the table as it was |
| `SessionOpening.OpenBegins` | src/runtime/session_manager.rs:318-366 | a replacement begun by an open that fails waits for its session |
| `SessionOpening.AtMostOneReplacement` | src/runtime/session_manager.rs:291-463 | opens of a scope, however many of them fail and however, begin at most one replacement and after it only create its session |
| `SessionOpening.TriesUseAll` | src/runtime/session_manager.rs:291-367 | tries stop at the first success and otherwise use every chance |
| `SessionManagement.NeverResent` | src/runtime/session_manager.rs:476-496 | at any two points of a run: a recorded capsule is not sent again and no Room prompt is sent twice |
| `SessionManagement.CallsNeverResent` | src/runtime/session_manager.rs:476-496 | all calls of a manager together resend nothing |
| `SessionManagement.SessionManager.FindResumable` | src/runtime/session_manager.rs:374-389 | it answers exactly for the current row of the scope, with its remote session, never for a closed one |
| `SessionManagement.SessionManager.ResumeSession` | src/runtime/session_manager.rs:369-407 | exactly the plain open: ownership follows a stored success, and a session that is gone is stored as lost before that is answered |
| `SessionManagement.SessionManager.ResumeRemote` | src/runtime/session_manager.rs:384-406 | the transport's answer decides the row: active, lost, or unchanged on another error |
| `SessionManagement.SessionManager.CreateSession` | src/runtime/session_manager.rs:266-289 | exactly the first open: the row is stored only for a session that exists and owned only once stored |
| `SessionManagement.SessionManager.BeginReplacement` | src/runtime/session_manager.rs:409-431 | the latest row gets a fresh, unattached successor of its scope exactly if capsule and transaction work, else nothing changes |
| `SessionManagement.SessionManager.CreateReplacementSession` | src/runtime/session_manager.rs:433-463 | exactly the round on a replacement that waits: owned only once its row holds the remote session created for it |
| `SessionManagement.SessionManager.OpenSession` | src/runtime/session_manager.rs:291-367 | for every requested binding and every answer: exactly the session, the table and the calls that the reference open gives (spelled out by `RecoveringOpen`, `FirstOpen` and `PlainOpen`) |
| `SessionManagement.SessionManager.OpenLatest` | src/runtime/session_manager.rs:318-366 | the recovering loop ends and does exactly what the reference does in at most two rounds |
| `SessionManagement.SessionManager.OpenStep` | src/runtime/session_manager.rs:322-365 | one round ends the open as the reference round does, or yields the replacement exactly when one is called for (spelled out by `RecoveringOpen`) |
| `SessionManagement.SessionManager.OpenCurrent` | src/runtime/session_manager.rs:333-363 | a round on a current row resumes it, creates what it is owed, or goes on to replace it exactly when its session is gone or was never there |
| `SessionManagement.SessionManager.OpenScope` | src/runtime/session_manager.rs:306-366 | one open of the newest row of a scope is exactly the reference open |
| `SessionManagement.SessionManager.OpenUntilAttached` | src/runtime/session_manager.rs:291-463 | repeated opens are exactly the tries from the table at hand, each made and each from where the one before left off, until one succeeds or none is left; together they begin at most one replacement |
| `SessionManagement.SessionManager.DeliverRecoveryCapsule` | src/runtime/session_manager.rs:476-496 | a capsule is sent only while it is not recorded, and success means exactly that nothing is owed or it was sent and recorded |
| `SessionManagement.SessionManager.CancelTurn` | src/runtime/session_manager.rs:498-511 | the requests of the turn are audited whatever the transport answers; success means both went through |
| `SessionManagement.SessionManager.DetachSession` | src/runtime/session_manager.rs:513-534 | ownership ends if and only if every pending request of the session is decided and its row marked, in that order |
| `SessionManagement.SessionManager.AbortSessionRecovery` | src/runtime/session_manager.rs:536-559 | ownership ends first, and both the audit and the marking are tried whatever storage says |
| `SessionManagement.SessionManager.DisconnectOwned` | src/runtime/session_manager.rs:845-861 | every owned current row is marked but those whose write is refused; it succeeds if and only if none is |
| `SessionManagement.SessionManager.NoteDisconnect` | src/runtime/session_manager.rs:578-589 | both parts of the bookkeeping are tried, and it succeeds if and only if every request could be decided and every owned row marked |
| `SessionManagement.SessionManager.OpenRoomSession` | src/runtime/session_manager.rs:218-264 | a Room binding is resumed if it has a remote session, else created, and owned exactly once its row is attached to it |
| `SessionManagement.SessionManager.OpenClaimed` | src/runtime/session_manager.rs:100-124 | a claimed message is opened on its binding, or on a fresh one exactly when a resumed session is gone and storage agrees |
| `SessionManagement.SessionManager.OpenMoved` | src/runtime/session_manager.rs:107-121 | the claim moves to a fresh binding if storage agrees and a session is created there |
| `SessionManagement.SessionManager.ClaimRoom` | src/runtime/session_manager.rs:62-68 | a message is claimed once, exactly if its Room can take a turn |
| `SessionManagement.SessionManager.RoomOpens` | src/runtime/session_manager.rs:55-133 | exactly when an activation opens a session, and under which binding: the message is new, the newest row of its Room is missing, lost, or open and free, and not owned; a session that is gone moves to a fresh binding |
| `SessionManagement.SessionManager.OpenOrMarkLost` | src/runtime/session_manager.rs:100-136 | a claimed message that cannot be opened leaves ownership as it was |
| `SessionManagement.SessionManager.SendRoomPrompt` | src/runtime/session_manager.rs:137-203 | the prompt of a message goes out at most once, only while the activation is alive, and counts once that is stored |
| `SessionManagement.SessionManager.ActivateRoomMessage` | src/runtime/session_manager.rs:55-216 | a Room message is prompted at most once ever and only while alive; it comes out with the session, without one, or with one that stays owned exactly if a step of giving it up is refused |
| `SessionManagement.SessionManager.GiveUp` | src/runtime/session_manager.rs:204-214 | the session stays owned if and only if storing it as lost, storing the activation as failed, deciding its requests in two audits or marking its row is refused |
| `SessionManagement.StaysOwnedIff` | src/runtime/session_manager.rs:204-214 | the exact condition in storage's answers: a refused status, activation or row, or a pending request decided before, never answered, or refused in the first audit and not stored in the second |
| `SessionManagement.LostAnswerBlocksDetach` | src/runtime/session_manager.rs:565-593 | a concrete case: after bookkeeping cut off in the middle of a write, the session can be detached only if its request is answered first |
| `RoomMachine.StepKeepsInv` | src/runtime/room.rs:124-236 | every step of activation, scope, storage worker, cleanup and another process's start-up keeps the barrier: publications handed out and waiting are those committed, and none is committed once the status job was taken |
| `RoomMachine.RequestKeeps` | src/runtime/room_messaging.rs:78-84 | a publication is queued with a reserved permit, possibly after the scope was revoked, and the channel never overflows |
| `RoomMachine.CommitKeeps` | src/runtime/storage_worker.rs:1700-1721 | a commit and its send through the reserved permit are one step of the worker |
| `RoomMachine.StatusBeginsKeeps` | src/runtime/storage_worker.rs:1407-1409 | jobs are applied one by one in order, so the status job is the barrier behind every earlier publication |
| `RoomMachine.PublishBeginsKeeps` | src/storage/sqlite.rs:1018-1115 | a publication of a revoked scope or a closed activation is rejected and gives its permit back |
| `RoomMachine.PollKeeps` | src/runtime/room.rs:124-198 | one poll of next_event, from the top or resumed inside the select or the cleanup, keeps the invariant |
| `RoomMachine.EndKeeps` | src/runtime/room.rs:181-198 | an event that ends the turn begins the cleanup with the result it means |
| `RoomMachine.PublishedComesOut` | src/runtime/room.rs:124-149 | in every run, late requests included, what came out is a prefix of what was committed, and with the terminal result it is all of it, in commit order; at most 64 publications wait |
| `RoomMachine.TerminalIsLast` | src/runtime/room.rs:124-149 | in every run there is at most one terminal result and nothing is handed out or committed after it, whatever is requested, dropped and polled again |
| `RoomMachine.RevokedPublishesNothing` | src/storage/sqlite.rs:1108-1112 | in every run, once the scope is revoked and no commit is under way, nothing is published again, however many requests still come |
| `RoomMachine.CleanupIsTold` | src/runtime/room.rs:209-231 | in every run the cleanup quarantines exactly a severed session, and every status it queues is the one the last event and the cancellation call for |
| `RoomMachine.OnlyMeaningComesOut` | src/runtime/room.rs:153-195 | in every run, what is handed out besides publications and the result is the in-order meaning of the session's events |
| `RoomMachine.EachKindComesOut` | src/runtime/room.rs:163-181 | in every run: the permission requests handed out are those the session asked, the previews its text, and the activities one for each tool that starts and one for each running tool that finishes, working if and only if no other tool was started and not finished since; each in order, none left out |
| `RoomMachine.OpenToolsStillRun` | src/runtime/room.rs:166-177 | the tools that count as open are those that were started and not finished since |
| `RoomMachine.CompletedIsHonest` | src/runtime/room.rs:200-236 | the status the cleanup writes is what the last event and the cancellation call for; Completed is told if and only if the turn completed uncancelled and its cleanup succeeded, and then storage says completed too if and only if no other process started up before |
| `RoomMachine.ResultTellsTheEnd` | src/runtime/room.rs:182-236 | after a clean cleanup the result tells how the session ended: completed, cancelled by the user, failed for the reason it gave, or broken off; after any other cleanup it is broken |
| `RoomMachine.OvertakenIff` | src/storage/sqlite.rs:1277-1296 | the activation was failed by another process if and only if one started up while its status was not final |
| `RoomMachine.CompletedButStoredFailed` | src/storage/sqlite.rs:2656-2684 | a run in which the user is told that the turn completed and storage keeps it as failed |
| `RoomMachine.NextWhenJoinable` | src/runtime/room.rs:132-149 | once the cleanup is done, each poll hands out exactly the next publication or the result, also after a dropped future |
| `RoomMachine.PollMovesOn` | src/runtime/room.rs:128-162 | a poll of a running turn hands out the next publication, or reads a ready event, or ends the turn at a closed stream, and waits exactly when there is nothing of these |
| `RoomMachine.PollsReachTheEnd` | src/runtime/room.rs:132-149 | once the cleanup is done, as many polls as publications wait and one more give them all and then the result, wherever futures are dropped |
| `RoomMachine.RunKeepsInv` | src/runtime/room.rs:95-236 | the invariant holds after every run |
| `RoomActivations.RoomActivation.Cancel` | src/runtime/room.rs:95-105 | the scope is revoked even when asking the owner fails, and the owner is asked until it accepted once |
| `RoomActivations.RoomActivation.ActivityAfterPermission` | src/runtime/room.rs:83-89 | Working if and only if no tool is open |
| `RoomActivations.RoomActivation.BeginFinish` | src/runtime/room.rs:200-236 | the cleanup gets the runtime, the choice to quarantine and the status to write from the result, which is kept for later polls |
| `RoomActivations.RoomActivation.Join` | src/runtime/room.rs:132-142 | the awaited cleanup replaces the result when it failed, and is joined once |
| `RoomActivations.RoomActivation.FinishUp` | src/runtime/room.rs:131-149 | late publications come before the result |
| `RoomActivations.RoomActivation.Translate` | src/runtime/room.rs:162-195 | each session event by its kind: the request it asks, the text it previews, the activity its tool calls for, the result it ends the turn with, or nothing |
| `RoomActivations.RoomActivation.Turn` | src/runtime/room.rs:128-198 | one turn of the loop answers as the machine's poll does or goes round with less to read |
| `RoomActivations.RoomActivation.NextEvent` | src/runtime/room.rs:124-198 | the loop ends and does exactly what the machine's poll does, so all results about runs hold of it; it answers what it added to what was handed out |
| `RoomTurns.TakeKeepsOrder` | src/cli/mod.rs:3087-3094 | taking a recipient out of the middle keeps every agent's order when no earlier one waits for the same agent |
| `RoomTurns.PickKeepsQueued` | src/cli/mod.rs:3087-3094 | a pick loses, repeats and reorders no recipient of an agent |
| `RoomTurns.ArriveKeepsQueued` | src/cli/mod.rs:3186-3188 | new mentions queue behind what waits, each (message, target) pair once |
| `RoomTurns.RecipientsOnce` | src/cli/mod.rs:3186-3188 | one message asks for each of its distinct mentions once |
| `RoomTurns.RecipientsInOrder` | src/cli/mod.rs:3186-3188 | a message asks for its mentions in the order they are written |
| `RoomTurns.RoomTurn.NextRecipient` | src/cli/mod.rs:3087-3092 | the first waiting recipient whose agent has no activation, or none if all are busy |
| `RoomTurns.RoomTurn.PickRecipient` | src/cli/mod.rs:3085-3120 | a startup begins only with none under way, never after cancellation, for the first recipient whose agent is free |
| `RoomTurns.RoomTurn.BeforeSelect` | src/cli/mod.rs:3081-3141 | going round again happens only when nothing is left at all, and whenever a request waits at the select its prompt is on the screen |
| `RoomTurns.RoomTurn.Prompt` | src/cli/mod.rs:3124-3141 | what is put on the screen is the front of the queue |
| `RoomTurns.RoomTurn.OnStarted` | src/cli/mod.rs:3158-3173 | a startup adds the one activation it was begun for, or none |
| `RoomTurns.RoomTurn.OnShared` | src/cli/mod.rs:3175-3191 | a message is displayed and its mentions queued the first time it is handed over, and not queued after cancellation |
| `RoomTurns.RoomTurn.OnPermission` | src/cli/mod.rs:3209-3224 | a request of a cancelled agent is declined at once, any other queues behind the rest |
| `RoomTurns.RoomTurn.OnTerminal` | src/cli/mod.rs:3225-3243 | an ended activation takes exactly its own requests out of the queue, and the screen is free again if it showed one of them |
| `RoomTurns.RoomTurn.Respond` | src/cli/mod.rs:3287-3316 | an answer resolves the front request if it names it and nothing otherwise |
| `RoomTurns.RoomTurn.OnLine` | src/cli/mod.rs:3247-3257 | a typed line answers exactly the request on the screen: the number of an option selects that option, any other line declines, and it fails exactly if the reply cannot be sent |
| `RoomTurns.LineHeeded` | src/cli/mod.rs:3247-3312 | over a run of wakes a typed line means the same: the front request leaves the queue with that outcome, and a reply that cannot be sent ends the turn |
| `RoomTurns.RoomTurn.CancelLive` | src/cli/mod.rs:3264-3272 | every agent at work is asked, and those that accepted are remembered; the strict form stops at the first failure |
| `RoomTurns.RoomTurn.OnCancel` | src/cli/mod.rs:3260-3285 | the cancel key stops all startups and dismisses the requests of agents that accepted, only those |
| `RoomTurns.RoomTurn.OnCtrlC` | src/cli/mod.rs:3319-3336 | an interrupt that reached every agent empties the queue for good |
| `RoomTurns.RoomTurn.InitialCancel` | src/cli/mod.rs:3071-3079 | a turn cancelled before it began starts nothing |
| `RoomTurns.RoomTurn.OnWake` | src/cli/mod.rs:3157-3337 | a wake ends the turn exactly if the input is gone, a needed reply cannot be sent or an agent at work cannot be interrupted; none begins a startup or takes a cancellation back |
| `RoomTurns.RoomTurn.Drain` | src/cli/mod.rs:3041-3343 | the wakes taken in order make the turn's histories what they must be: each was awaited, and reading stops only at the end, before a wake that is not awaited, or, exactly then failed, at the first wake that must end the turn; one activation or startup per agent, each recipient started at most once and each agent's in arrival order, nothing after cancellation; a turn that ends uncancelled started all of them |
| `RoomTurns.ClosedInputEnds` | src/cli/mod.rs:3247-3250 | no turn goes on after its input ended |
| `RoomTurns.RoomTurn.IsAwaited` | src/cli/mod.rs:3134-3319 | what the `select!` takes is told by the histories: agents at work, a startup under way, the user while there is a terminal or a request, an interrupt until the turn is cancelled |
| `RoomTurns.RoomTurn.AtTheEnd` | src/cli/mod.rs:3080 | when the loop ends no request is left, and uncancelled every recipient was started in order |
| `RoomTurns.RetainNone` | src/cli/mod.rs:3277-3283 | when every owner is gone no request is retained |
| `RoomTurns.RetainAppend` | src/cli/mod.rs:3242 | what is retained of the queue keeps its order |
| `RoomTurns.FirstSeenOnce` | src/cli/mod.rs:3176 | the displayed messages are those handed over, each once |
| `RoomPublication.RunKeepsInv` | src/cli/mod.rs:3157-3243 | in every joint run each activation is as its own runs leave it, and its wakes carry exactly what it handed out |
| `RoomPublication.HeardIsCarried` | src/cli/mod.rs:3175-3191 | what a turn heard of an activation is what that activation's wakes carried, in order |
| `RoomPublication.CommittedIsDisplayedOnce` | src/cli/mod.rs:3175-3191 | over any run of the activations and the turn that drains them: the turn heard what an ended activation committed, in commit order, and displays each of these messages exactly once |
| `RoomPublication.ScreenFollowsCommits` | src/cli/mod.rs:3175-3191 | with any number of activations, the screen shows each ended activation's messages in the order it first committed them |
| `DeliveryMachine.StepKeepsInv` | src/runtime/thread.rs:245-386 | every await of an attempt, with its failures, a crash or another process's start-up, keeps row and sending history consistent |
| `DeliveryMachine.LogGrows` | src/runtime/thread.rs:298-379 | what may be sent next without breaking the order of capsule, record, body and record |
| `DeliveryMachine.DeliveriesAreOrderly` | src/runtime/thread.rs:245-386 | in every run of sends, failures, crashes and retries: no body before the needed capsule's turn completed and was recorded, a recorded capsule never again, nothing after the recorded body |
| `DeliveryMachine.DeliveredForGood` | src/storage/sqlite.rs:1241-1275 | a delivered row is never claimed, failed or sent for again, and no second success is told |
| `DeliveryMachine.SucceededMeansDelivered` | src/runtime/thread.rs:355-386 | success is told exactly by the write that makes the row delivered |
| `DeliveryMachine.PlainFailureIsRetryable` | src/runtime/thread.rs:217-243 | a plain persisted failure leaves the row failed and claimable, exactly unless it was a retry's claim that erred over a row that was not failed or no longer is |
| `DeliveryMachine.DeliveredReportedFailed` | src/runtime/thread.rs:508-513 | a retry whose claim errs reports a persisted failure although the message is delivered |
| `DeliveryMachine.RetryCanSucceed` | src/runtime/thread.rs:480-541 | from every failed delivery a retry can still deliver, sending the capsule again only if it was not recorded |
| `DeliveryMachine.RunKeepsInv` | src/runtime/thread.rs:245-541 | the invariant holds after every run |
| `MentionDelivery.FinishCapsuleTurn` | src/runtime/thread.rs:132-215 | the capsule's turn counts if and only if it completes with nothing but its session's beginning, text, tools and usage before; the first permission request cancels the turn, every later one is declined, none granted |
| `MentionDelivery.CompletesIff` | src/runtime/thread.rs:132-215 | a capsule's turn completes if and only if its end is among the events and only its session's beginning, text, tools and usage come before it |
| `MentionDelivery.RequestsMore` | src/runtime/thread.rs:154-187 | the calls made are fixed by the permission requests read so far |
| `MentionDelivery.DeliveryRuntime.MarkCapsuleDelivered` | src/storage/sqlite.rs:1221-1239 | compare-and-set of the capsule mark on a pending row that owes one |
| `MentionDelivery.DeliveryRuntime.MarkDelivered` | src/storage/sqlite.rs:1241-1257 | compare-and-set from pending to delivered |
| `MentionDelivery.DeliveryRuntime.MarkFailed` | src/storage/sqlite.rs:1259-1275 | compare-and-set from pending to failed |
| `MentionDelivery.DeliveryRuntime.PersistDelivery` | src/storage/sqlite.rs:635-709 | a new message gets a pending row, with a capsule for a target that joins; a known message none |
| `MentionDelivery.DeliveryRuntime.ClaimFailedDelivery` | src/storage/sqlite.rs:1318-1364 | only a failed row is claimed, keeping its capsule record |
| `MentionDelivery.DeliveryRuntime.PersistedFailure` | src/runtime/thread.rs:217-243 | a plain failure is told only when this write made the row failed |
| `MentionDelivery.DeliveryRuntime.OpenSession` | src/runtime/thread.rs:253-297 | the open session is reused, admitted again for a retry, or a new one is opened |
| `MentionDelivery.DeliveryRuntime.DeliverCapsule` | src/runtime/thread.rs:298-349 | a capsule counts as delivered only after it was sent, its turn completed and that was recorded |
| `MentionDelivery.DeliveryRuntime.DeliverPersisted` | src/runtime/thread.rs:245-386 | without interference an attempt succeeds if and only if session, owed capsule, body and their records all do; success leaves the row delivered, a plain failure leaves it failed |
| `MentionDelivery.DeliveryRuntime.MentionThreadAgent` | src/runtime/thread.rs:412-478 | which commands are refused with nothing touched; without interference a mention succeeds if and only if its row is new and written, session, owed capsule and body go through; what the outcome says about the row |
| `MentionDelivery.DeliveryRuntime.RetryThreadMention` | src/runtime/thread.rs:480-541 | a retry works only on a failed row it claimed, and without interference succeeds if and only if the same session, owed capsule and body go through |
| `MentionDelivery.DeliveryRuntime.DeliverClaimed` | src/runtime/thread.rs:519-541 | a claimed mention fails beside another conversation's session, and else succeeds exactly when its parts do |
| `MentionDelivery.DeliveryRuntime.OpenDirect` | src/runtime/direct_message.rs:202-232 | a direct message uses the session of its own conversation or opens one, and fails beside any other |
| `MentionDelivery.DeliveryRuntime.DeliverDirect` | src/runtime/direct_message.rs:234-303 | without interference it succeeds if and only if sender, session, body and record do |
| `MentionDelivery.DeliveryRuntime.SendAgentMessage` | src/runtime/direct_message.rs:544-569 | which commands are refused, and without interference success exactly for a new row, a known sender, the conversation's own session and a recorded body |
| `MentionDelivery.DeliveryRuntime.RetryAgentMessage` | src/runtime/direct_message.rs:571-594 | a retry works only on a failed row it claimed, and without interference succeeds exactly as a first direct message does |
| `MentionDelivery.DeliveryRuntime.Restart` | src/storage/sqlite.rs:1277-1289 | a start-up makes every pending row failed and touches nothing else |
| `MentionDelivery.DeliveryRuntime.PerformAll` | src/runtime/thread.rs:412-541 | over any messages, retries and crashes: each attempt is refused or begins with its own write and tells the outcome of the run it made, sending stays orderly, success is told at most once and means the row is delivered for good |
| `MentionDelivery.SuccessOnce` | src/runtime/thread.rs:412-541 | over any linked attempts success is told at most once, from then on the row is delivered and neither it nor what was sent changes |
| `ChatService.TextConserved` | src/application/dm.rs:269-303 | while no turn fails, the agent stays connected and its session is there, messages and open text together are all text that was read: nothing is lost at a turn's end or a blank completion |
| `ChatService.NoBlankMessage` | src/application/dm.rs:284-286 | every message has a character that is not white space |
| `ChatService.InsertPending` | src/storage/sqlite.rs:3510-3549 | writing a pending message again after a try without answer stores it once |
| `ChatService.ChatSession.PersistCompletion` | src/application/dm.rs:348-357 | a message is emitted only once it is stored; a failed write keeps the same message pending |
| `ChatService.ChatSession.BeginCompletion` | src/application/dm.rs:282-299 | the gathered text becomes one message under a fresh id |
| `ChatService.ChatSession.Observe` | src/application/dm.rs:273-321 | text is kept by everything but a failure, a disconnect, a lost session or the end |
| `ChatService.ChatSession.NextEvent` | src/application/dm.rs:256-322 | a pending message is tried again before anything is read; each event by its kind gives what the chat shows and what becomes of the text; the stored messages of the agent are the meaning of what was read, up to the pending one |
| `ChatService.ChatSession.SendMessage` | src/application/thread_chat.rs:79-104 | an outgoing message is stored before it is sent and leaves the agent's messages alone |
| `ChatService.ChatSession.Activate` | src/application/dm.rs:383-409 | opening the same chat again keeps its text, any other is refused |
| `ChatService.ChatSession.Shutdown` | src/application/thread_chat.rs:188-195 | a chat that closed has stored every completed message; one that could not stays open with its text |
| `ChatService.ChatSession.Chat` | src/application/thread_chat.rs:106-215 | over any events and answers of the store: which events are taken is decided by those answers, nothing else is read, each message emitted is told, and all emitted are the fold of what was read, up to one that is pending |
| `Reclaim.BeforeIsOrder` | src/cli/reconcile.rs:256-264 | the sorting key of installation roots is a total order |
| `Reclaim.BeforeAt` | src/cli/reconcile.rs:256-264 | which root is older: one with another name than a ULID before one with, and otherwise the name that is less where the two first differ |
| `Reclaim.Sort` | src/cli/reconcile.rs:256-264 | the sorted list holds exactly the roots, oldest first |
| `Reclaim.SurplusByPosition` | src/cli/reconcile.rs:265-282 | the roots before the predecessor of the current one are exactly those older than one that is older than the current |
| `Reclaim.RecentRootsStay` | src/cli/reconcile.rs:265-282 | the current root, its predecessor and every later root are never removed |
| `Reclaim.UsedRootsStayUnlessListingFails` | src/cli/reconcile.rs:270-295 | a root some agent runs from is removed if and only if the second listing failed and the root is surplus and removable |
| `Reclaim.ListingFailureRemovesUsedRoot` | src/cli/reconcile.rs:270-272 | three installations under generated names and an agent on the oldest: reclaiming keeps all of them, but removes the one in use when agents cannot be listed |
| `Reclaim.SecondRunRemovesNothing` | src/cli/reconcile.rs:232-296 | after a reclamation whose removals all succeeded another run removes nothing |
| `Reclaim.Installations.Repoint` | src/cli/reconcile.rs:191-225 | exactly the agents whose executable is under the replaced root, and are not locked, get the new executable, expected name and expected version; everything else in their configuration, and every other agent, stays |
| `Reclaim.Installations.RemoveOld` | src/cli/reconcile.rs:282-296 | of the old roots exactly those go that no listed agent uses and that can be removed |
| `Reclaim.Installations.ReclaimRoots` | src/cli/reconcile.rs:232-296 | what one reclamation removes, told without positions |
| `Reclaim.Installations.RepointAndReclaim` | src/cli/reconcile.rs:174-229 | repointing comes first; a failed first listing changes nothing; exactly those roots go that are older than one older than the current, can be removed and, if the second listing succeeds, run no agent as it is then |
| `ReplArguments.Split` | src/cli/mod.rs:2826-2856 | the character loop computes the scanner's meaning of the line |
| `ReplArguments.SucceedsIffQuotesPair` | src/cli/mod.rs:2850-2852 | it fails exactly on an odd number of quotes |
| `ReplArguments.RoundTrip` | src/cli/mod.rs:2824-2856 | any arguments come back from a line they are written on, each in pieces with or without quotes, empty ones and ones with white space included, with any white space between |
| `ReplArguments.OneWord` | src/cli/mod.rs:2826-2856 | a word without white space or quotes is itself, quoted or not |
| `ReplArguments.ParseIsStable` | src/cli/mod.rs:2826-2856 | printing what was parsed, in quotes, and parsing it again changes nothing |
| `Keys.Decode` | src/cli/keys.rs:16-32 | more bytes are asked for exactly on an incomplete escape sequence, and a key takes at least one byte |
| `Keys.KeysByBytes` | src/cli/keys.rs:19-31 | every key from its own bytes, the two arrows apart, whatever follows |
| `Keys.DecodeIsStable` | src/cli/keys.rs:19-32 | a complete key stays the same whatever follows |
| `Keys.SplitAnywhere` | src/cli/mod.rs:4318-4322 | any split of the bytes gives the same keys and the same leftover as one read |
| `Keys.SelectAppend` | src/cli/mod.rs:4322-4331 | the selection goes on with later keys exactly where earlier ones left it |
| `Keys.OneKey` | src/cli/mod.rs:4322-4331 | the arrows move the selection by one and stop at the ends, Enter chooses, Quit and Interrupt choose nothing, every other key changes nothing |
| `Keys.Drain` | src/cli/mod.rs:4320-4332 | the inner loop takes all complete keys and keeps the incomplete rest |
| `Keys.SelectAdapter` | src/cli/mod.rs:4301-4334 | the chosen adapter depends on the bytes alone, not on how they were cut into reads |
| `Mention.Parse` | src/cli/mention.rs:19-39 | ends on every line; an answer exactly when the line opens with a mention |
| `Mention.ParsedIsProper` | src/cli/mention.rs:19-39 | distinct names of letters, digits, `-`, `_` and `.`, and a prompt that is the end of the line and opens no further mention |
| `Mention.CollectPrinted` | src/cli/mention.rs:21-34 | printed names are collected in first-typed order, each once |
| `Mention.RoundTrip` | src/cli/mention.rs:19-39 | a printed line of names and a prompt gives both back |
| `Mention.DistinctNamesComeBack` | src/cli/mention.rs:29-31 | distinct names come back as they are |

## Left out

- AgentOwnership.AgentOwner.RunOwner: covers the loop up to its exit; the shutdown of the manager afterwards (src/runtime/workspace.rs:695-705) is not modelled.
- OwnerMachine.RoomControlLossless: previews of a Room may be dropped, as in the code; which of them are is the channel's choice.
- RoomMachine.TerminalIsLast: the activation's handle stays alive; what dropping it does (src/runtime/room.rs:239-260) is not modelled.
- RoomTurns.RoomTurn.Drain: terminal output, agent names, registration and the texts of status lines are not modelled; a failed write to the terminal ends the turn in the code and is not one of the wakes here, nor is an interrupt that cannot be waited for (src/cli/mod.rs:3320).
- RoomTurns.RoomTurn.OnStarted: preparing and receiving a message (src/cli/mod.rs:3095-3118) is one answer of the environment: activated, already taken or refused.
- SessionStore.Store.UpdateStatus: making a row current that is not the newest of its scope is always refused, while the table's unique index (src/storage/migrations/0017_room_runtime.sql:43-45) refuses it only next to another current row.
- SessionStore.Store.MarkDisconnected: a binding's write that lands without its answer is not modelled apart from the rows that cut-off bookkeeping has marked.
- DeliveryMachine.DeliveriesAreOrderly: bodies are not promised to be sent exactly once over retries, because the code does not promise it either.
- MentionDelivery.DeliveryRuntime.MentionThreadAgent: runtimes work on one delivery row each; several rows do not interact.
- MentionDelivery.DeliveryRuntime.PerformAll: retrying a message through the runtime of the other kind, which storage refuses (src/storage/sqlite.rs:1339, src/storage/sqlite.rs:1387), is no attempt.
- ChatService.ChatSession.NextEvent: the kinds of failure inside a failed turn are one, and time stamps and metadata are left out.
- Reclaim.Installations.Repoint: the texts of warnings are only counted, and a file name that is not valid Unicode is not modelled.
- Mention.Parse: which characters are alphanumeric is a parameter, assumed to be neither white space nor the mention sign where the round trip needs it.
- What another process that starts up does to the bindings of a running one (src/storage/sqlite.rs:1291-1295); its effect on deliveries and Room activations is modelled.
- Statements and migrations of the SQLite store beyond the contracts in `SessionStore.dfy`, `Permissions.dfy` and `DeliveryMachine.dfy`.
- The workspace registry that routes commands to owners, the channels' receiving ends, ACP processes, sockets, the MCP server, the terminal and its screens.
- The text of Room prompts and recovery capsules, Work items bound to publications, command parsing beyond the three parsers.
- Real time, timeouts and fairness: nothing is said about when a step happens.
