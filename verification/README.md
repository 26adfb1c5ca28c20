# Verified models of the agent session core

Dafny models of the parts of OpenCovibe's backend that decide what a user sees of a running agent,
with the properties they must keep proved for every input, every run and every interleaving.

- **The Codex app-server multiplexer** (`codex_appserver.rs`). One pipe carries a root thread, its
  sub-agents and threads nobody has claimed yet. `AppServerSpec` gives the session as a function on
  values, with an arrival-ordered log for a buffer; `CodexAppServers.CodexAppServer` is the session
  as the code holds it, a map of queues and a byte counter updated in place by mutually recursive
  methods, each proved against the function. About the function: holding messages back and replaying
  them is the same as having known their owner all along; every interactive request meets exactly
  one fate; the buffer's caps, priorities and expiry; ids; the isolation of the root; flattened
  ownership; turn overrides. `Deliveries` reads off a run what reached the session; against it, with
  tables over the messages themselves, every event, prompt, record, signal, answer, turn, refusal,
  owner and phase is pinned (`SessionReports`, `LiveTurn`, `Readiness`, `Adoption`, `UserFrames`,
  `Refusals`).
- **Streaming UTF-8** (`stream.rs`): octet grammar and encoding of RFC 3629, sections 3 and 4, strict
  and lossy decoding, the chunk decoder and its read loop; what is shown does not depend on where
  reads cut the bytes, and exactly when that fails on broken input.
- **Per-run locks** (`spawn_locks.rs`): the lock table, its reference counts and its garbage
  collection as interleaved steps of any number of tasks, the count read and the removal being
  separate steps.
- **The Claude stream-json accumulator** (`claude_protocol.rs`): which tools are announced, under
  which name, with which input, which turn states are reported, and which text is shown, over whole
  sessions, each event against a table by kind (`ClaudeReports`).
- **Shell quoting** (`ssh.rs`): the printer of remote commands against the shell's reader of them
  (POSIX.1-2017 XCU, sections 2.2.1, 2.2.2, 2.3, 2.9.1 and 2.10.2).
- **Scoped ids** (`pipe_parser.rs`): which exec-mode events share a card.

## Hypotheses

Each is an explicit `requires` of the results that need it.

- Time does not run backwards, and over a run the sequence counter does not wrap at 2^64.
  `DeferKeepsBuffer` says exactly what a wrap costs.
- The results about runs start after `Startup`, which sets the root without a replay; `StartupKeeps`
  says exactly when that is harmless later.
- Requests are conserved over every run; that none is displaced needs that no request arrives under
  the stringified id of one still held or pending (`ExactlyOneFate`, `CollidingIdsLoseARequest`).
- For isolation, no spawn item names the root, no other thread announces the root, and no other
  thread's request bears the key of one of the root's. `RootIsHeardUnlessSpawned` shows why the first
  is needed. The context-compaction notice, which never names a parent, is not counted as a root
  event, nor are the identities of sub-agents.
  `SignalsFit` needs the first of these too.
- A later spawn item for the same thread overwrites its card, so no result says that a card stays;
  `CardsAreThoseGiven` says which it is at any time.

## Where the code differs from what it says

- A line carries one lifecycle signal. When the reply that opens the root finds several starts,
  completions or failures held for it, all but the last are lost to the client (`SignalsFit`,
  `OpeningOverwrites`).
- `decode_utf8_chunk` is documented to make progress on broken bytes; a read that both holds broken
  bytes and ends inside a character also loses that character, which the next read would have
  completed (`TransparentReads`, `CutIsVisible`).
- `build_remote_claude_command` says it admits only safe key names; the empty key and keys that start
  with a digit pass the filter and are run as a command (`RemoteCommandRunsAsMeant`, `OddKeyIsRun`).
- `SpawnLocks::acquire` keeps only referenced entries "on every acquire"; the last reference to a run
  dropped after the scan looked at it leaves its entry until the next one (`AcquireIsExact`,
  `LeftBehind`).
- `item.started` knows both spellings of a tool's type, `item.completed` only one, so that a tool in
  camel case is announced and never closed (`StartedIsEnded`).

## Model

| member | source | states |
|---|---|---|
| `DirectReplay.ReplayIsDirect` | src-tauri/src/agent/codex_appserver.rs:409-438 | Replaying the queue of an owned thread equals handling its messages one by one as they would be handled on arrival now, for any queue of young messages, whatever they spawn and replay in turn |
| `ReplayTransparency.RegistrationIsTransparent` | src-tauri/src/agent/codex_appserver.rs:180-241 | A spawn item that finds messages waiting for the threads it names gives the same state and the same output as with none of them there, followed by their arrival one by one at any times; for any number of threads named and any backlog of non-spawning messages |
| `ReplayTransparency.EarlyMessagesAreTransparent` | src-tauri/src/agent/codex_appserver.rs:243-300 | Messages that arrive before their thread's spawn item show nothing while they wait, and if none is evicted or expires first, everything but the buffer then ends up as if the spawn item had come first, with the same output |
| `RoomyBuffer.RoomMeansHeld` | src-tauri/src/agent/codex_appserver.rs:243-300 | With room in threads, queue and bytes and nothing growing stale, every message is held, in order, and nothing is answered |
| `RoomyBuffer.OrderDoesNotMatter` | src-tauri/src/agent/codex_appserver.rs:180-241 | Under those conditions, messages before the spawn item and messages after it give the same state (the sequence counter apart) and the same total output |
| `RootOpening.OpeningIsTransparent` | src-tauri/src/agent/codex_appserver.rs:873-889 | The id:2 reply with a backlog for the root equals the reply with none, followed by the backlog arriving, nested spawns and their replays included |
| `RootOpening.WorkPhase` | src-tauri/src/agent/codex_appserver.rs:1208-1226 | Replay neither reads nor sets the phase, since thread/started is never held back |
| `Registration.SpawnWork` | src-tauri/src/agent/codex_appserver.rs:180-241 | Registration in closed form: ownership and identity requests as if nothing had waited, then everything that waited, thread by thread, under the card's parent |
| `Registration.ChildMessage` | src-tauri/src/agent/codex_appserver.rs:1145-1205 | A non-spawning message of a registered child only adds to the pending requests, and what it reports depends on nothing but its card |
| `AppServerSpec.StepTaskShrinks` | src-tauri/src/agent/codex_appserver.rs:409-438 | Replay terminates: every step either takes entries out of the buffer or leaves it alone and shrinks the work in flight |
| `AppServerSpec.WorkFrame` | src-tauri/src/agent/codex_appserver.rs:409-438 | Replay never adds to the buffer, uses no sequence number, and never forgets an owner |
| `AppServerSpec.WorkConcat` | src-tauri/src/agent/codex_appserver.rs:214-240 | Working through two lists of replay and registration tasks in turn is working through their concatenation |
| `BufferPolicy.RelievePriority` | src-tauri/src/agent/codex_appserver.rs:256-279 | At every turn of an eviction loop, given what the earlier victims have left: the victim is in scope and has the lowest sequence of its class there; a request goes only for a request and only when no notification is left in scope |
| `BufferPolicy.RelieveRemovesVictims` | src-tauri/src/agent/codex_appserver.rs:256-279 | An eviction loop leaves exactly the entries it did not evict, in order, and evicts only within its scope |
| `BufferPolicy.RelieveStopsAtOnce` | src-tauri/src/agent/codex_appserver.rs:256-279 | An eviction loop evicts only while the pressure lasts |
| `BufferPolicy.RequestAdmission` | src-tauri/src/agent/codex_appserver.rs:249-299 | An incoming request is held if and only if it is at most 512 KiB by itself |
| `BufferPolicy.NotificationAdmission` | src-tauri/src/agent/codex_appserver.rs:249-299 | An incoming notification is held if and only if it fits by itself and the requests already buffered leave room for it |
| `BufferPolicy.RefusedNotificationCost` | src-tauri/src/agent/codex_appserver.rs:256-279 | A refused notification still costs the notifications its loops went through, and no request |
| `BufferPolicy.NotificationRelief` | src-tauri/src/agent/codex_appserver.rs:256-279 | For a notification a loop succeeds exactly when its pressure is gone once every notification in scope is |
| `BufferPolicy.RequestsSurvive` | src-tauri/src/agent/codex_appserver.rs:351-381 | Making room for a notification never displaces a request |
| `BufferPolicy.AdmissionPolicy` | src-tauri/src/agent/codex_appserver.rs:243-300 | The three loops together: survivors in order, no request displaced by a notification, and each victim justified at its turn against everything still buffered; only while the thread's own queue is full may a victim from it pass over other threads |
| `BufferPolicy.AdmissionKeepsCaps` | src-tauri/src/agent/codex_appserver.rs:27-30 | After admission the message can be added without breaking a cap |
| `SessionInvariant.ReachableInvariant` | src-tauri/src/agent/codex_appserver.rs:94-135 | In every reachable state: at most 32 threads, 64 entries a queue, 512 KiB in all; sequences strictly increase and ages follow them; no buffered thread has an owner; ids in use lie in [3, next) with disjoint waiters, and an identity lookup in progress is for a thread already marked as seen |
| `SessionInvariant.WorkSettles` | src-tauri/src/agent/codex_appserver.rs:409-438 | Replay takes out of the buffer exactly the queues of the threads that came to be owned, all of them |
| `SessionInvariant.DeferKeepsBuffer` | src-tauri/src/agent/codex_appserver.rs:243-300 | Deferral keeps the buffer within its caps, in order, and free of owned threads if and only if it does not hold a message under the last 64-bit sequence number |
| `SessionInvariant.StepKeepsBuffer` | src-tauri/src/agent/codex_appserver.rs:796-891 | Every line, tick and user action keeps the buffer invariant |
| `SessionInvariant.StartupKeeps` | src-tauri/src/agent/codex_appserver.rs:586-616 | Startup leads from a new session to the initial state; in any other it keeps the invariant if and only if nothing is held for the thread it resumes |
| `SessionInvariant.WorkKeepsIds` | src-tauri/src/agent/codex_appserver.rs:223-234 | Replay and registration keep the id invariant |
| `RequestFate.RequestsAreConserved` | src-tauri/src/agent/codex_appserver.rs:796-891 | Over any run, the requests received under each id, and under each key, are those held, pending, answered, rejected, and displaced while pending by another under the same key, counted once each |
| `RequestFate.ExactlyOneFate` | src-tauri/src/agent/codex_appserver.rs:77-85 | A request received once is in exactly one of: held, pending, answered, rejected with its own id; if and only if none with the same stringified id displaced it, and so whenever no request arrives under the key of a live one |
| `RequestFate.FreshKeysLoseNone` | src-tauri/src/agent/codex_appserver.rs:1126-1138 | If no request arrives under the key of one still held or pending, none is displaced, and no key ever names two live requests |
| `RequestFate.PresentKeepsAll` | src-tauri/src/agent/codex_appserver.rs:1126-1138 | Offering a request loses no pending one if and only if its stringified id is not taken |
| `RequestFate.CollidingIdsLoseARequest` | src-tauri/src/agent/codex_appserver.rs:557-562 | Ids 5 and "5" of two root requests: the first ends up nowhere |
| `RequestFate.SweepCount` | src-tauri/src/agent/codex_appserver.rs:332-349 | The expiry sweep answers exactly the requests it drops, whatever the order of the map |
| `RequestFate.AdmitCount` | src-tauri/src/agent/codex_appserver.rs:256-279 | Every evicted request is accounted for as a victim |
| `RequestFate.DeferConserves` | src-tauri/src/agent/codex_appserver.rs:243-300 | On deferral the incoming request is held or refused, and each request that made way is answered once |
| `RequestFate.WorkConserves` | src-tauri/src/agent/codex_appserver.rs:409-438 | Replay moves each request to the pending ones or answers it, through all nesting, and displaces a pending one only by presenting its key again |
| `RequestFate.StepConserves` | src-tauri/src/agent/codex_appserver.rs:796-976 | Every step accounts for every request |
| `IdCorrelation.IdsCountUp` | src-tauri/src/agent/codex_appserver.rs:172-176 | The client ids written over a run are 3, 4, 5, ... without gap or repetition |
| `IdCorrelation.LookedUpOnce` | src-tauri/src/agent/codex_appserver.rs:223-234 | thread/read is sent at most once for each thread over a run |
| `IdCorrelation.WaitersAreOutstanding` | src-tauri/src/agent/codex_appserver.rs:448-474 | The waiting callers are exactly those whose request was written and not yet resolved |
| `IdCorrelation.ReplyReachesItsCaller` | src-tauri/src/agent/codex_appserver.rs:857-867 | A reply is routed to a caller if and only if its id is outstanding, and then to the caller it was framed for, with its payload |
| `IdCorrelation.ResolvedForGood` | src-tauri/src/agent/codex_appserver.rs:857-867 | An id once resolved never resolves again |
| `IdCorrelation.StepAccounted` | src-tauri/src/agent/codex_appserver.rs:172-176 | Every step writes consecutive fresh ids and looks up only threads not seen before |
| `IdentityLookups.LookupsAreOutstanding` | src-tauri/src/agent/codex_appserver.rs:223-234 | The identity lookups waited for are exactly the thread/read requests written and not replied to since, id by id, through all replays |
| `IdentityLookups.LookupReachesItsThread` | src-tauri/src/agent/codex_appserver.rs:830-852 | An identity is reported if and only if a reply bears the id of such a lookup and describes a thread, and then for the thread that request asked about; nothing else in the session ever reports one |
| `IdentityLookups.IntroducedOnce` | src-tauri/src/agent/codex_appserver.rs:830-852 | Over any run no thread's identity is reported twice |
| `RootErasure.RootIsUndisturbed` | src-tauri/src/agent/codex_appserver.rs:1152-1205 | From the moment the root is known, erasing all traffic of other threads, answers to their requests and expiry ticks from the rest of a session changes neither the root's state nor what its user is shown nor what is written for it |
| `RootErasure.ErasureIsInvisible` | src-tauri/src/agent/codex_appserver.rs:1145-1520 | The same from any state in which the root is known and owned by nobody |
| `RootErasure.RootStep` | src-tauri/src/agent/codex_appserver.rs:796-891 | A step that concerns the root depends on nothing but the root's part of the state |
| `RootErasure.KnownRootIsQuarantined` | src-tauri/src/agent/codex_appserver.rs:1304-1317 | Every reachable state with a known root is such a state, if no spawn item names the root |
| `RootIsolation.OutsideStep` | src-tauri/src/agent/codex_appserver.rs:1152-1285 | A line of another thread never sets a lifecycle, the active turn, the phase or a root request, and shows no root event, even through the replays it sets off |
| `RootIsolation.WorkOutside` | src-tauri/src/agent/codex_appserver.rs:409-438 | So does everything replayed for other threads, at any depth |
| `RootIsolation.RootIsHeardUnlessSpawned` | src-tauri/src/agent/codex_appserver.rs:1152-1157 | The root's completed turn is signalled if and only if no spawn item has made the root a child |
| `RootIsolation.HearingWrites` | src-tauri/src/agent/codex_appserver.rs:796-891 | Hearing a line writes nothing but refusals and identity lookups |
| `Ownership.CardsAreTopLevel` | src-tauri/src/agent/codex_appserver.rs:187-222 | In every reachable state each registered thread was named by a spawn item that arrived, and its card is the id of a spawn item that arrived on the root or without a thread, at any nesting and through replay |
| `Ownership.EventsPointAtTopLevel` | src-tauri/src/agent/codex_appserver.rs:1145-1157 | Every event that names a parent names such a top-level card |
| `Ownership.WorkTraced` | src-tauri/src/agent/codex_appserver.rs:409-438 | Replay and nested registration keep both |
| `TurnOverrides.TurnsAreAsAsked` | src-tauri/src/agent/codex_appserver.rs:648-738 | The turns sent over a run are exactly the accepted ones with their overrides, the first and only the first backed by the startup defaults; a dropped turn does not use these up |
| `TurnOverrides.SettingsInForce` | src-tauri/src/agent/codex_appserver.rs:677-724 | Once a turn is accepted, each setting in force is the last override, else the startup default; extra directories alone call for the writable policy |
| `TurnOverrides.SandboxInForce` | src-tauri/src/agent/codex_appserver.rs:570-583 | The sandbox in force is read-only or unrestricted exactly for the modes of those names, absent exactly without mode and directories, and otherwise writable in the extra directories |
| `TurnOverrides.WritablePoliciesCarryDirs` | src-tauri/src/agent/codex_appserver.rs:570-583 | Every workspace-write policy ever sent carries the extra directories |
| `Deliveries.WorkReflects` | src-tauri/src/agent/codex_appserver.rs:409-438 | Replay at any depth tells the user, offers, records, signals and counts as live exactly what it delivers |
| `Deliveries.TaskReflects` | src-tauri/src/agent/codex_appserver.rs:419-436 | The same for one replayed or registered message |
| `Deliveries.RequestAsks` | src-tauri/src/agent/codex_appserver.rs:1084-1121 | A request offered is shown as leave for Bash, Edit or RequestPermissions exactly for command, file and permission approvals, as a question or as an elicitation otherwise, under its own key, item and card, and awaits that kind of answer |
| `Deliveries.NoteSays` | src-tauri/src/agent/codex_appserver.rs:1255-1317 | A notification shows exactly the text, thinking, tool starts and ends, output and notices it describes, under the card it arrived on |
| `SessionReports.EventsAreWarranted` | src-tauri/src/agent/codex_appserver.rs:1145-1317 | Over any run the events shown are, delivery by delivery and in order, those that the delivered messages warrant, each once |
| `SessionReports.ShownIffDelivered` | src-tauri/src/agent/codex_appserver.rs:1145-1317 | An event is shown if and only if some delivered message warrants it; in particular every prompt belongs to a delivered request with that key, tool, item and card |
| `SessionReports.DeliveriesWereHeard` | src-tauri/src/agent/codex_appserver.rs:243-300 | Nothing is delivered that was not received |
| `SessionReports.PendingIsOnOffer` | src-tauri/src/agent/codex_appserver.rs:1126-1138 | In every reachable state the pending requests are those offered and not answered since, each recorded with its own id, method, permissions and kind of answer |
| `SessionReports.OpenWasReceived` | src-tauri/src/agent/codex_appserver.rs:1031-1143 | Each request on offer was received, and stands under its own key |
| `Refusals.RefusalsAreTrue` | src-tauri/src/agent/codex_appserver.rs:77-85 | Every error sent in a reachable state is for a request, with the code and words of a cause that holds: no thread, larger than the buffer, 30 seconds old, or making way for another request; none is refused because the buffer is full |
| `Adoption.CardsAreThoseGiven` | src-tauri/src/agent/codex_appserver.rs:180-222 | Over any run a thread is owned if and only if a delivered spawn item gave it a card, and its card is the last one given: the parent's own card, or at the top the item's id; no spawn item is overlooked at any depth of replay |
| `Adoption.IdentitiesAreAskedFor` | src-tauri/src/agent/codex_appserver.rs:223-234 | Over any run a thread's identity was asked for if and only if a delivered spawn item named it |
| `Readiness.RootIsNamed` | src-tauri/src/agent/codex_appserver.rs:873-889 | Over any run the root is the thread resumed, or else the one named by the first error-free id:2 reply that names one |
| `Readiness.ReadyWhenOpened` | src-tauri/src/agent/codex_appserver.rs:873-889 | Over any run the session is ready if and only if an error-free id:2 reply was heard, or a thread/started named the root known at that moment, on no card |
| `Readiness.RootIsReported` | src-tauri/src/agent/codex_appserver.rs:1208-1226 | The thread reported to the client is the root, exactly when the opening reply names it or it announces itself |
| `LiveTurn.TurnIsLive` | src-tauri/src/agent/codex_appserver.rs:1227-1285 | Over any run the active turn is the one the last turn/started with an id named, if no completion, failure or terminal error was delivered on no card since; otherwise there is none |
| `LiveTurn.LineSignals` | src-tauri/src/agent/codex_appserver.rs:1227-1255 | A line that is no reply gives at most one signal: the start, completion or failure it is itself, when it is on no card |
| `LiveTurn.SignalsAreDelivered` | src-tauri/src/agent/codex_appserver.rs:1227-1255 | The starts, completions and failures delivered on no card are all signalled, in order, if and only if no single step delivers two of them |
| `LiveTurn.SignalsFit` | src-tauri/src/agent/codex_appserver.rs:873-889 | As long as the root is nobody's sub-agent, all of them are signalled, in order, if and only if no reply opens the root while two or more are held for it and young |
| `LiveTurn.OpeningSignals` | src-tauri/src/agent/codex_appserver.rs:409-438 | Opening the root delivers exactly the starts, completions and failures held for it and still young |
| `LiveTurn.OpeningOverwrites` | src-tauri/src/agent/codex_appserver.rs:873-889 | A turn/started and a turn/completed held for the root until the opening reply: only the completion is signalled |
| `UserFrames.AnswersAreGiven` | src-tauri/src/agent/codex_appserver.rs:893-975 | Over any run the answers written are, one for one and in order, those given to requests on offer, under the id of the request: accept exactly if allowed, cancel exactly if denied with an interrupt, decline otherwise; the permissions asked for exactly if allowed; and the action, content and answers entered |
| `UserFrames.OnlyAllowedIsAccepted` | src-tauri/src/agent/codex_appserver.rs:933-939 | Nothing is accepted or granted that the user did not allow |
| `UserFrames.WishesAreWritten` | src-tauri/src/agent/codex_appserver.rs:648-794 | Over any run every turn's text and every command is written in order, each once, to the root, once it is known; every steer and interrupt, and every denial that stops, exactly while a turn is live, for that turn |
| `UserFrames.NowIs` | src-tauri/src/agent/codex_appserver.rs:740-794 | The root and turn they are written for are those read off the lines heard and delivered |
| `CodexAppServers.CodexAppServer.constructor` | src-tauri/src/agent/codex_appserver.rs:137-163 | A new session is the initial state, with an empty buffer that agrees with its log |
| `CodexAppServers.CodexAppServer.StartupMessages` | src-tauri/src/agent/codex_appserver.rs:586-646 | In any state: settings remembered, a resumed thread taken for the root, the two opening frames in order |
| `CodexAppServers.CodexAppServer.ParseLine` | src-tauri/src/agent/codex_appserver.rs:796-891 | One line does to the session and reports exactly what the session function says; queues, byte counter and log agree again afterwards, and stay in order unless the sequence counter has wrapped |
| `CodexAppServers.CodexAppServer.ExpireDeferred` | src-tauri/src/agent/codex_appserver.rs:166-170 | A tick drops and answers exactly what has reached its age |
| `CodexAppServers.CodexAppServer.HandleReply` | src-tauri/src/agent/codex_appserver.rs:830-890 | Replies to identity lookups, to callers and to the opening request, with the root's backlog replayed before the session is ready |
| `CodexAppServers.CodexAppServer.HandleServerRequest` | src-tauri/src/agent/codex_appserver.rs:1031-1143 | A request is refused, held, or offered to the user |
| `CodexAppServers.CodexAppServer.PresentRequest` | src-tauri/src/agent/codex_appserver.rs:1078-1143 | An owned request becomes pending under its key, with its prompt, or is refused for lack of a thread |
| `CodexAppServers.CodexAppServer.HandleNotification` | src-tauri/src/agent/codex_appserver.rs:1145-1520 | A notification is held, or observed with its spawned threads registered; bytes in flight stay in the counter |
| `CodexAppServers.CodexAppServer.RegisterSubagents` | src-tauri/src/agent/codex_appserver.rs:180-241 | The threads an item spawns are registered in order, each with its replay before the next |
| `CodexAppServers.CodexAppServer.RegisterSubagent` | src-tauri/src/agent/codex_appserver.rs:214-240 | A card is recorded and its queue replayed only when there is a card; the identity is asked for once |
| `CodexAppServers.CodexAppServer.RequestIdentity` | src-tauri/src/agent/codex_appserver.rs:223-234 | One thread/read per thread, under a fresh id |
| `CodexAppServers.CodexAppServer.ReplayDeferredThread` | src-tauri/src/agent/codex_appserver.rs:409-438 | A thread's queue is taken out and handled, counter and queues agreeing throughout the mutual recursion |
| `CodexAppServers.CodexAppServer.TakeQueue` | src-tauri/src/agent/codex_appserver.rs:410-412 | The queue leaves the map while its bytes stay in the counter |
| `CodexAppServers.CodexAppServer.ReplayMessages` | src-tauri/src/agent/codex_appserver.rs:418-437 | The popped queue is worked off oldest first; its bytes are the counter's excess over the map |
| `CodexAppServers.CodexAppServer.ReplayEntry` | src-tauri/src/agent/codex_appserver.rs:419-436 | One entry: its bytes leave the counter, which never saturates; it is rejected, delivered or presented, never held again |
| `CodexAppServers.CodexAppServer.DeferThreadMessage` | src-tauri/src/agent/codex_appserver.rs:243-300 | Sweep, make room, hold or refuse, with the answers in that order; the buffer stays in order unless it holds a message under the last sequence number |
| `CodexAppServers.CodexAppServer.MakeRoom` | src-tauri/src/agent/codex_appserver.rs:255-279 | The three eviction loops in order, stopping at the first that fails |
| `CodexAppServers.CodexAppServer.MakeRoomForThread` | src-tauri/src/agent/codex_appserver.rs:256-263 | The thread-count loop |
| `CodexAppServers.CodexAppServer.MakeRoomInQueue` | src-tauri/src/agent/codex_appserver.rs:264-273 | The per-queue loop |
| `CodexAppServers.CodexAppServer.MakeRoomForBytes` | src-tauri/src/agent/codex_appserver.rs:274-279 | The byte loop, on the counter |
| `CodexAppServers.CodexAppServer.Hold` | src-tauri/src/agent/codex_appserver.rs:280-299 | The message goes to the back of its thread's queue with the next sequence number; the buffer stays in order exactly when that was not the last number |
| `CodexAppServers.CodexAppServer.EvictOldestDeferred` | src-tauri/src/agent/codex_appserver.rs:351-381 | The lowest-sequence notification over all queues goes, or for a request, failing one, the lowest-sequence request |
| `CodexAppServers.CodexAppServer.OldestMatching` | src-tauri/src/agent/codex_appserver.rs:352-362 | The minimum sequence of one class over all queues is the first of that class to have arrived |
| `CodexAppServers.CodexAppServer.EvictOldestDeferredInThread` | src-tauri/src/agent/codex_appserver.rs:302-330 | The same within one queue |
| `CodexAppServers.CodexAppServer.ExpireDeferredMessages` | src-tauri/src/agent/codex_appserver.rs:332-349 | Exactly the stale entries go, although only stale prefixes are scanned and removal is by thread and sequence |
| `CodexAppServers.CodexAppServer.StaleEntries` | src-tauri/src/agent/codex_appserver.rs:332-345 | Every stale entry is named once, queue by queue in the map's order |
| `CodexAppServers.CodexAppServer.RemoveListed` | src-tauri/src/agent/codex_appserver.rs:346-348 | Each named entry is removed and answered |
| `CodexAppServers.CodexAppServer.RemoveDeferredEntry` | src-tauri/src/agent/codex_appserver.rs:383-407 | One entry leaves its queue, an empty queue leaves the map, its bytes leave the counter, a request is answered |
| `CodexAppServers.CodexAppServer.FrameTracked` | src-tauri/src/agent/codex_appserver.rs:448-474 | A request under a fresh id, its caller recorded; nothing without a thread |
| `CodexAppServers.CodexAppServer.FrameUserTurn` | src-tauri/src/agent/codex_appserver.rs:648-738 | A turn with its settings; nothing, and no default used up, without a thread |
| `CodexAppServers.CodexAppServer.FrameResponse` | src-tauri/src/agent/codex_appserver.rs:893-991 | A pending request of that kind is answered and forgotten, and a denied permission profile may stop the turn; otherwise an error and no change |
| `ExpirySweep.SweepIsComplete` | src-tauri/src/agent/codex_appserver.rs:332-349 | After removing all that the sweep names, the log holds exactly the younger entries, in order |
| `ExpirySweep.StalePrefixIsAll` | src-tauri/src/agent/codex_appserver.rs:336-343 | The stale prefix of a queue is all that is stale in it |
| `QueueRefinement.DrainRepresented` | src-tauri/src/agent/codex_appserver.rs:410-412 | Taking a queue out of the map turns its bytes into bytes in flight, the counter unchanged |
| `QueueRefinement.StaleNames` | src-tauri/src/agent/codex_appserver.rs:336-344 | The names of exactly the stale prefix of a queue |
| `QueueRefinement.LowestInQueue` | src-tauri/src/agent/codex_appserver.rs:353-361 | The sequence of the first entry of a class in a sorted queue is its minimum |
| `QueueRefinement.Position` | src-tauri/src/agent/codex_appserver.rs:392-394 | The first position with that sequence |
| `QueueRefinement.RejectDeferred` | src-tauri/src/agent/codex_appserver.rs:77-85 | A request is answered with its own id; a notification goes silently |
| `Utf8Stream.ChunkIndependence` | src-tauri/src/agent/stream.rs:310-336 | However the encoding of a text is cut into reads, what is shown is the text, nothing is left over and no replacement is invented |
| `Utf8Stream.WellFormedStream` | src-tauri/src/agent/stream.rs:310-336 | The same for any octets the grammar of RFC 3629 section 4 generates |
| `Utf8Stream.OnTheWay` | src-tauri/src/agent/stream.rs:326-333 | After any number of reads, what has been shown is the part of the text that has arrived in full, and what is kept the beginning, at most three bytes, of the next character |
| `Utf8Stream.CutsLeaveNoTrace` | src-tauri/src/agent/stream.rs:71-90 | Bytes with nothing broken in them give, however cut, what one read of them would give |
| `Utf8Stream.TruncatedStream` | src-tauri/src/agent/stream.rs:315-325 | A stream that ends inside a character shows the text before it and one replacement, or only the text when the read failed |
| `Utf8Stream.TransparentReads` | src-tauri/src/agent/stream.rs:82-86 | A read loses nothing, whatever follows, if and only if it does not both hold broken bytes and end inside a character |
| `Utf8Stream.BrokenStreams` | src-tauri/src/agent/stream.rs:82-86 | If no read does, even a broken stream shows what decoding it in one piece would |
| `Utf8Stream.CutIsVisible` | src-tauri/src/agent/stream.rs:82-86 | FF E2 and then 82 AC: the euro sign is lost to the cut |
| `Utf8Stream.ChunkSettles` | src-tauri/src/agent/stream.rs:66-90 | A read yields what is settled and keeps what dangles, or, on broken bytes, decodes everything lossily and keeps nothing |
| `Utf8Stream.LeftoverIsSmall` | src-tauri/src/agent/stream.rs:66-90 | The leftover is empty or the beginning of one character, at most three bytes, on any input |
| `Utf8Stream.ReadStdout` | src-tauri/src/agent/stream.rs:310-336 | The loop emits exactly the text of its reads, never an empty piece, flushes at the end of the stream and drops the rest on failure |
| `Utf8Stream.LoopShowsTotal` | src-tauri/src/agent/stream.rs:310-336 | What the loop shows of a stream of chunks is the text of its reads followed, at the end of the stream, by the flush |
| `Utf8.ValidIsWellFormed` | src-tauri/src/agent/stream.rs:69-71 | Validation accepts exactly the strings of the grammar of RFC 3629 section 4 |
| `Utf8.InvalidIsTrue` | src-tauri/src/agent/stream.rs:72-82 | The valid prefix is well formed, and the error says truly whether a character is unfinished or how many bytes are broken |
| `Utf8.UnfinishedIsBeginning` | src-tauri/src/agent/stream.rs:74-75 | An error without length means exactly that the rest is the beginning of a character |
| `Utf8.NextIsGrammar` | src-tauri/src/agent/stream.rs:69-71 | The scan finds a character exactly where the grammar has one |
| `Utf8.EncodingsDecode` | src-tauri/src/agent/stream.rs:77-79 | Encodings of section 3 are well formed and decode to the text |
| `Utf8.DecodingsEncode` | src-tauri/src/agent/stream.rs:77-79 | A well-formed string is the encoding of its decoding |
| `Utf8.LossySplit` | src-tauri/src/agent/stream.rs:85-85 | Lossy decoding settles everything but the unfinished end, which is decoded with what follows |
| `SpawnLocks.MutualExclusion` | src-tauri/src/agent/spawn_locks.rs:30-43 | Over every interleaving at most one guard per run id is live |
| `SpawnLocks.OneMutexPerRun` | src-tauri/src/agent/spawn_locks.rs:38-40 | Two live handles are to the same mutex exactly when they are for the same run id |
| `SpawnLocks.CollectionIsSafe` | src-tauri/src/agent/spawn_locks.rs:34-36 | The collector, reading a count and acting on it later, removes no entry with a waiter or holder |
| `SpawnLocks.WaitersWaitForHolders` | src-tauri/src/agent/spawn_locks.rs:42-42 | A waiter can go on, or another task holds its run's lock |
| `SpawnLocks.TableIsNeverStuck` | src-tauri/src/agent/spawn_locks.rs:31-41 | Whoever is inside the table can always take a step |
| `SpawnLocks.RunKeeps` | src-tauri/src/agent/spawn_locks.rs:30-43 | Every interleaving of calls, scans, waits, cancellations and releases keeps the counts equal to the references there are |
| `LockCollection.AcquireCollects` | src-tauri/src/agent/spawn_locks.rs:34-40 | After an acquire the table holds every live run, and besides its own only runs that were live when its scan began |
| `LockCollection.AcquireLeavesWhatItSawLive` | src-tauri/src/agent/spawn_locks.rs:36-36 | The table after an acquire is exactly its own run and the runs referenced when the scan looked at them |
| `LockCollection.AcquireIsExact` | src-tauri/src/agent/spawn_locks.rs:34-40 | Right after an acquire the table holds exactly the runs with a live handle if and only if, during its scan, nobody dropped the last reference to a run the scan had already kept, other than the caller's own |
| `LockCollection.QuietAcquireIsExact` | src-tauri/src/agent/spawn_locks.rs:34-40 | In particular when no reference at all is dropped during the scan |
| `LockCollection.LeftBehind` | src-tauri/src/agent/spawn_locks.rs:34-36 | A guard dropped after the scan looked at it leaves an entry without a live handle |
| `ClaudeProtocol.ProtocolState.MapEvent` | src-tauri/src/agent/claude_protocol.rs:201-1405 | One event does to the accumulator and becomes exactly what the function on values says |
| `ToolAccounting.AnnouncementsAreOwed` | src-tauri/src/agent/claude_protocol.rs:675-703 | Over a session each tool is announced once per streamed block, and once more if a message mentioned it first |
| `ToolAccounting.InputIsWhatWasShown` | src-tauri/src/agent/claude_protocol.rs:749-771 | The input accumulated for a tool is what was emitted for it since its last announcement |
| `ToolAccounting.ResultsAreNamed` | src-tauri/src/agent/claude_protocol.rs:978-1010 | A result ends its tool under the name of the last streamed block, else of the first mention |
| `ToolAccounting.SurvivingAnnouncements` | src-tauri/src/agent/claude_protocol.rs:51-75 | Validation costs no announcement but those without an id, of which there is at most one |
| `TurnReports.TurnsAreReported` | src-tauri/src/agent/claude_protocol.rs:405-413 | The turn states of a session are exactly: running at its first init unless resumed, and idle, with the error if any, at each result |
| `ClaudeReports.SessionIsDue` | src-tauri/src/agent/claude_protocol.rs:201-1405 | Over any session the events are, line by line and in order, exactly those the received lines call for, kind by kind: tools, text, thinking, completed messages, output, denials, notices and turn states |
| `ClaudeReports.TextsAddUp` | src-tauri/src/agent/claude_protocol.rs:723-877 | Over any session and for each parent: the answer streamed is the text deltas received, the thinking streamed is the thinking received, and each message with text is completed once, under its id, with its text blocks joined |
| `ClaudeReports.LinesOwnTheirEvents` | src-tauri/src/agent/claude_protocol.rs:201-260 | Every event with a parent bears the one its own line or envelope names, the enclosed one first |
| `ClaudeReports.SessionRemembers` | src-tauri/src/agent/claude_protocol.rs:405-413 | The accumulator's memory is what the lines received so far say: tools and names, last tool, command awaited, init seen |
| `ShellQuoting.QuotingRoundTrips` | src-tauri/src/agent/ssh.rs:10-14 | Any list of arguments, escaped and joined with spaces, is read back by the shell as that list |
| `ShellQuoting.LexShellEscape` | src-tauri/src/agent/ssh.rs:10-14 | An escaped string is read as its characters, all literal, whatever surrounds it |
| `ShellQuoting.PathsAreRead` | src-tauri/src/agent/ssh.rs:16-30 | A printed path is one word with the path's text; only a leading ~ or ~/ is unquoted, and only those expand |
| `RemoteCommand.BuildRemoteClaudeCommand` | src-tauri/src/agent/ssh.rs:84-158 | The command assembled part by part |
| `RemoteCommand.PushCredentials` | src-tauri/src/agent/ssh.rs:103-112 | Each credential with the other one cleared, the token last |
| `RemoteCommand.PushUrl` | src-tauri/src/agent/ssh.rs:113-115 | The endpoint, if there is one |
| `RemoteCommand.PushTiers` | src-tauri/src/agent/ssh.rs:117-121 | One assignment per model tier |
| `RemoteCommand.PushExtra` | src-tauri/src/agent/ssh.rs:123-133 | One assignment per extra variable that passes the filter |
| `RemoteCommand.PushEnvironment` | src-tauri/src/agent/ssh.rs:101-135 | The assignments in order, ending with the checkpointing switch |
| `RemoteCommand.PushArgs` | src-tauri/src/agent/ssh.rs:138-140 | Every argument escaped, in order |
| `RemoteShell.CommandIsRead` | src-tauri/src/agent/ssh.rs:84-158 | The whole line as the shell reads it: cd with its path, and, then the words of one simple command |
| `RemoteShell.RemoteCommandRunsAsMeant` | src-tauri/src/agent/ssh.rs:123-133 | The shell sets every variable and runs the program with its arguments if and only if every admitted extra key is a POSIX name |
| `RemoteShell.ClaudeIsRead` | src-tauri/src/agent/ssh.rs:123-140 | What the shell sets and runs, whatever the keys: the variables before the first key that is no name, and from that word on everything is the command and its arguments |
| `RemoteShell.OddKeyIsRun` | src-tauri/src/agent/ssh.rs:125-128 | Any admitted key that is no name is run as the command |
| `RemoteShell.DigitKeyIsRun` | src-tauri/src/agent/ssh.rs:125-128 | The keys 9 and (empty) are admitted: the shell sets nothing and runs 9=x, or =x, with the rest of the command as its arguments |
| `RemoteShell.AssignmentIsRead` | src-tauri/src/agent/ssh.rs:125-128 | A printed assignment is read as one exactly when its key is a name, with that key and value |
| `RemoteShell.VariablesAreSet` | src-tauri/src/agent/ssh.rs:101-135 | What every variable ends up with: file checkpointing on; else the last extra one of a spellable key; else the credential, the endpoint, or the model of that tier, where one model serves all, of two the second is for the small tier, and of three an empty outer one gives way to the middle |
| `RemoteShell.OneCredential` | src-tauri/src/agent/ssh.rs:103-112 | At most one credential ends up nonempty: the token if there is one, else the key |
| `ScopedIds.CodexStdoutParser.constructor` | src-tauri/src/agent/pipe_parser.rs:27-33 | No turn has started |
| `ScopedIds.CodexStdoutParser.ParseLine` | src-tauri/src/agent/pipe_parser.rs:483-525 | One line moves the counter and becomes the events of its arm |
| `ScopedIds.ScopedIdInjective` | src-tauri/src/agent/pipe_parser.rs:36-41 | Scoped ids are equal exactly when process, turn and item id are, for every item id |
| `ScopedIds.SameCardSameItem` | src-tauri/src/agent/pipe_parser.rs:487-508 | Two lines touch the same card exactly when they are about the same item of the same turn of the same process, and otherwise share none; items without an id go under a stand-in (todo for lists, unknown for the rest), so two such items of one turn count as the same one |
| `ScopedIds.CounterCountsTurns` | src-tauri/src/agent/pipe_parser.rs:487-490 | The counter is the number of turns started, modulo its 32 bits |
| `ScopedIds.LineSays` | src-tauri/src/agent/pipe_parser.rs:137-262 | A line becomes exactly the events a table by event allows: each tool under its type's name, ending in an error exactly if its item failed or was declined |
| `ScopedIds.StartedIsEnded` | src-tauri/src/agent/pipe_parser.rs:137-262 | A tool announced at its start is closed on the same card under the same name at completion if and only if its type is spelled in snake case |

## Left out

- JSON parsing and the mapping of payload fields that steer nothing: inputs, outputs and end status of app-server tools, usage, rate limits, goals, plans, hooks, notices and guardian texts are opaque text or one kind of update.
- The clock is read once per line or tick and passed in; the code reads it again for each entry it holds or replays.
- The iteration order of hash maps: the sweep's order over threads is a parameter, any enumeration of them; the order of extra environment variables is that of a given sequence.
- Client ids are unbounded integers; the code's are 64 bits wide.
- CodexAppServers.CodexAppServer.ParseLine: says nothing about a buffer the sequence counter has already wrapped under, past 2^64 messages, because sequences then no longer order the queues; the call that wraps it is covered.
- Message sizes are given with each message instead of being computed from its serialised text.
- The framing of compact, rollback, fork, goal, MCP, skill, feature and model requests, all alike wrappers of `frame_tracked` with other fields.
- The text of a turn is kept; its images and skill directives are not.
- RootErasure.RootIsUndisturbed: client request ids are compared up to their number, because other threads' identity lookups draw from the same counter.
- RootErasure.RootIsUndisturbed: what its user is shown leaves out the answers to the user's own requests; a reply names its request by number, and without the other threads' lookups the same numbers would be other requests'.
- Utf8Stream: the 8192-byte read buffer, the process map, the events of a read besides its text, and all of the Codex branch of the loop.
- SpawnLocks: fairness of the mutexes, so that no result says a waiter is ever served; only that it is not stuck.
- ClaudeProtocol: statistics counters, strict test mode, the random message id given to a message without one, and the recognition of command output and task notes in a user text, which arrive here already told apart.
- ShellQuoting: double quotes, expansions, redirections, comments and unquoted newlines; the reader stops at them, and no printed command holds one.
- RemoteCommand: the `ssh` process itself, its options and the local expansion of the key path.
- ScopedIds: the drilling into nested error messages and the contents of tool inputs and outputs.
- Process spawning, storage, the session actor, the turn engine, the web server, the tray and all of the frontend.
