# A model of the room protocol

This project models a video-room service and proves what it promises. A relay
server holds rooms; each participant has one broadcast channel, read by its event
stream. Every browser tab runs a mesh: one peer connection per other participant,
negotiated by offers, answers and ICE candidates that travel as addressed POSTs up
and as events down. Around that core stand the chat store, the page that feeds the
mesh, and the meter that picks the speaker shown large.

| module | what it holds |
|---|---|
| `Types` | the messages, and the order on session ids that decides who offers |
| `Connection` | one peer connection, its flags, its candidate queue and its tasks, poll by poll |
| `Pair` | the two connections of a pair over a network that loses, delays and reorders |
| `Meshes` | the mesh as a value, and the classes `PeerHandle` and `Mesh` proved against it |
| `Rooms`, `Server` | channels with their ring, the room, admission; the classes `RoomState` and `AppState` |
| `Relay`, `Delivery`, `Placement`, `Presence` | the delivery protocol as a transition system, and its invariants |
| `Stranding` | signals that nothing will ever bring to their addressee |
| `System`, `Theorems`, `Outcomes`, `Loss`, `Streams`, `Deferral`, `Counting` | server and all meshes together, and what holds over whole runs |
| `Runs`, `AgreedRun` | runs of the whole room, step by step: two in which an offer is lost, one that ends in agreement |
| `Chat`, `ChatView` | the chat store, and what a client's list shows of the room's log |
| `Page` | the page's event handler, early events, and the stage |
| `Meter` | the dominant-speaker meter |

The pieces fit as follows. Code that updates state in place is a class whose methods
are proved against functions on values (`Mesh.OnEvent` against `Meshes.Handle`,
`RoomState.Broadcast` against `Rooms.Broadcast`, and so on). The transition systems
take their steps with those same functions, so a theorem about runs speaks of the
methods. A step of the whole system (`System.Next`) is one of: a join past the
password; one access of an event-stream handler to the room (snapshot, subscribe,
one announcement, one read); a stream ending, a client detaching or reconnecting; a
signal being posted, relayed or lost; an event reaching a client; a mesh being built
or processing its next event; one poll of one task, whose awaited browser call may
succeed or fail; a session leaving and closing its mesh, whose tasks go on.

Histories (`log`, `posted`, `seen`, `placed`, tags on entries) are carried in the
state to state the theorems. No step looks at them to decide what to do, except that
`Chat`'s `Send` takes each appended message to a session once, by `sent`.

## What is modelled how

- A room's entry is held exclusively by a join and shared by the other handlers, so
  `Relay.Can` lets nobody join while a stream is being opened, and nothing else is
  excluded: handlers of different sessions interleave between any two accesses.
- A broadcast channel behaves as tokio documents it: a receiver sees what is sent
  after it subscribed, a send without receivers is lost, and a full ring overwrites
  its oldest entry, upon which a receiver that has not read it gets an error.
- A peer connection accepts a description exactly in the states of section 3.2 of
  RFC 8829; glare is that of section 4 of RFC 3264. Whether the browser resolves or
  rejects a promise, creates a connection or refuses, is an input of the step, as are
  the texts of descriptions, the candidates found, and the clock.
- Between server and client a stream has a wire: the server reads its channel onto
  it, and events arrive later or never.
- Events that have reached a client and that its mesh has not processed form a queue
  (`seen` and `used`); `Page.RoomPage` shows that the early buffer and its replay
  are such a queue, and `Deferral` that a mesh built late might as well have been built
  as soon as its session joined.
- Real numbers stand for the meter's floats, and a reading is related to its sum of
  squares by `Meter.IsRms` instead of being computed by a square root.

## Where the code does not do what it says

- `src/server/mod.rs:226-227`, `src/server/rooms.rs:57-60` and `README.md:462` say that
  a pair whose signal was lost is rebuilt from the next resync. It is not: the offering
  side's `negotiated` flag blocks a second offer. A signal is stranded when it is neither
  in flight nor seen nor on what the stream its addressee listens to will still deliver;
  `Stranding.StrandedIsForGood` proves that this is exactly when nothing that can happen
  brings it there. A signal is stranded by its relay if and only if its addressee does not
  listen on its current channel, or the signal makes its stream lag too far
  (`Stranding.UnheardIsStranded`), and always by a POST that fails or is refused
  (`Stranding.LostIsStranded`). `Loss.LostOfferIsNeverReplaced` proves that the pair of a
  stranded offer stays dark for the rest of the run. `Runs.OfferIsLost` is such a run, and
  `Runs.OfferIsLeftUnread` one in which the addressee's channel even had a subscriber. The
  comment at `src/services/webrtc.rs:356-359` has it right.
- `src/server/mod.rs:138-141` says that events sent between the snapshot and the
  subscription are delivered live without duplication. For peers this holds, thanks to
  the announcements. For chat it fails both ways: `ChatView.MissedAndDoubled` says
  exactly which messages are missed and which are shown twice, and `MessageMissed` and
  `MessageDoubled` are runs in which each happens. With whole handlers as steps,
  `ChatView.ListIsSuffixOfLog` proves the list exact.
- `src/server/rooms.rs:51` says that a send fails when the buffer is full. It fails only
  without receivers; a full buffer costs the slow reader its stream (`Rooms.ReadFollowsLog`).
- A candidate queued before an offer that the browser then refuses stays queued although
  `remote_set` says it could be added. `Connection.RefusedOfferStrandsCandidate` is a run;
  `Connection.StrandedExactly` says, over all runs, exactly when candidates are stranded:
  a refusal came while they waited and nothing else was about to drain, and none of the
  steps that restore them has followed.

## Model

| member | source | states |
|---|---|---|
| `Types.BeforeIsStrictTotal` | src/services/webrtc.rs:222-225 | of two different ids exactly one side initiates, and nobody initiates with itself |
| `Types.BeforeIsLexicographic` | src/services/webrtc.rs:222-225 | where two ids first differ decides which comes first, and of an id and its beginning the beginning does |
| `Connection.PollTask` | src/services/webrtc.rs:372-458 | one poll of any spawned task: a candidate is popped only from a non-empty queue, and a description takes effect only in a state that allows it |
| `Connection.RejectionEndsTask` | src/services/webrtc.rs:373-385 | a task whose awaited promise is rejected makes no further call and posts nothing |
| `Connection.PostedIsApplied` | src/services/webrtc.rs:373-456 | an offer or answer is posted only as the text the browser made, after it has been applied |
| `Connection.OneOfferIsTakenUp` | src/services/webrtc.rs:405-427 | whatever signals a connection is sent, in whatever order, at most one offer is ever handed to the browser |
| `Connection.OutOfTurnIsIgnored` | src/services/webrtc.rs:405-471 | an offer that reaches a side which has offered, has taken one, or is mid-negotiation, and an answer to nothing, change nothing |
| `Connection.CandidatesGoOutAndIn` | src/services/webrtc.rs:263-284 | over any run, the candidates posted are those the connection found, and the candidates taken in are those handed to it, each once and in order |
| `Connection.CandidatesAreConserved` | src/services/webrtc.rs:487-512 | however many drains run and interleave, the candidates handed to a connection = those added, in arrival order and each once, then those queued; only closing discards any |
| `Connection.CandidatesFollowDescription` | src/services/webrtc.rs:417-432 | with tasks first polled in spawn order, every add-candidate call comes after a set-remote-description call, even for candidates that overtake the offer |
| `Connection.NoStrandedCandidates` | src/services/webrtc.rs:505-511 | once a remote description is in place and was not refused, a queued candidate always has a live task that will add it |
| `Connection.PollStrandsExactly` | src/services/webrtc.rs:427-432 | a poll strands queued candidates if and only if it finds the offer refused, some are queued, and no other task is about to drain |
| `Connection.EventServes` | src/services/webrtc.rs:505-511 | no event strands candidates, and a candidate that arrives gets the stranded ones added too |
| `Connection.StrandedExactly` | src/services/webrtc.rs:399-512 | over every run, candidates are stranded if and only if such a refusal happened and since then no candidate arrived, no answer was taken up or sent out, and the connection was not closed |
| `Connection.RefusedOfferStrandsCandidate` | src/services/webrtc.rs:427-431 | a run in which a refused offer leaves a candidate queued with no task left |
| `Pair.StepKeepsPair` | src/services/webrtc.rs:349-485 | every step of either end, over any loss and reordering, keeps the pair's invariant: roles, legality of calls, provenance, and what each flag implies about what was taken |
| `Pair.PairRunKeepsInv` | src/services/webrtc.rs:349-485 | the pair's invariant holds over every run of two connections alone |
| `Pair.QuietPairAgrees` | src/services/webrtc.rs:399-485 | with nothing pending and nothing failed, an offer that was taken has left both ends stable on that offer and its answer |
| `Pair.QuietPairAgreesExactly` | src/services/webrtc.rs:399-485 | an idle pair without faults agrees if and only if its offer and every answer have been taken |
| `Pair.UntakenAnswerLeavesWaiting` | src/services/webrtc.rs:461-485 | an answer that was sent and not taken leaves the offering end in have-local-offer with no remote description |
| `Pair.AgreementIsReached` | src/services/webrtc.rs:349-485 | a run from two fresh connections that ends in such agreement, for any offer and answer text |
| `Pair.UntakenOfferLeavesDark` | src/services/webrtc.rs:356-359 | while the offer has not been taken, the answering end is untouched and has sent no answer |
| `Meshes.NoticeAllAt` | src/services/webrtc.rs:186-191 | a presence list touches exactly the connections it names, each as if named once, whatever its order and repetitions |
| `Meshes.HandleAt` | src/services/webrtc.rs:182-210 | what any one event does to any one connection: it names the peer, or is a signal from it, or leaves it alone |
| `Meshes.WhoHasAnEntry` | src/services/webrtc.rs:182-237 | which peers have a connection after any event: an answer or chat brings in nobody, everything else brings in exactly whom it names, unless refused, and a departure takes out exactly that peer |
| `Meshes.KnownPeersAreNoOp` | src/services/webrtc.rs:227-230 | a list of known peers with nothing left to offer changes nothing |
| `Meshes.PeerHandle.MaybeOffer` | src/services/webrtc.rs:356-396 | in place: the guards, the flag set before the task is spawned |
| `Meshes.PeerHandle.ApplyOffer` | src/services/webrtc.rs:405-427 | in place: the two refusals, else `remote_set` and the answering task |
| `Meshes.PeerHandle.ApplyAnswer` | src/services/webrtc.rs:468-480 | in place: ignored unless an offer is outstanding |
| `Meshes.PeerHandle.PushCandidate` | src/services/webrtc.rs:505-511 | in place: queued, and a drain spawned once a remote description is set |
| `Meshes.PeerHandle.Poll` | src/services/webrtc.rs:372-458 | in place: one poll of one task does exactly what `Connection.Run` says |
| `Meshes.PeerHandle.DrainIce` | src/services/webrtc.rs:609-623 | the uninterrupted loop adds the queued candidates oldest first, each once, and empties the queue |
| `Meshes.Mesh.EnsurePeer` | src/services/webrtc.rs:227-237 | never a connection for oneself, never a second one, and a new entry has a handle of its own |
| `Meshes.Mesh.OnIce` | src/services/webrtc.rs:487-512 | makes the connection on demand, offers if it is ours to offer, queues the candidate |
| `Meshes.Mesh.ClosePeer` | src/services/webrtc.rs:514-534 | removes the one entry and closes its handle, which running tasks still share |
| `Meshes.Mesh.CloseAll` | src/services/webrtc.rs:213-216 | every handle is closed, each as by `close_peer`, and the map is empty |
| `Meshes.Mesh.OnEvent` | src/services/webrtc.rs:182-210 | applies one event to the map of handles exactly as `Meshes.Handle` does to its value, and keeps entries distinct |
| `Rooms.PushKeepsOk` | src/server/rooms.rs:45-67 | the ring is always the last 128 events of the channel's log; a send without receivers is lost |
| `Rooms.ReadFollowsLog` | src/server/mod.rs:173-179 | a reader gets the next event of the log, or is told that it lags; it is never skipped ahead |
| `Rooms.WhoGetsIn` | src/server/mod.rs:68-117 | for an existing room, each answer if and only if its condition: refused as malformed, for the password, for the capacity, or let in and told of all members |
| `Rooms.WhoFounds` | src/server/mod.rs:77-83 | a room comes into being if and only if a well-formed request claims it with a non-empty password, and the claimant is its one member |
| `Rooms.WhatJoiningDoes` | src/server/mod.rs:106-115 | who gets in has a fresh channel of its own and goes by the first 64 characters of the name given, or by its former name; nobody else is touched |
| `Rooms.RoomNames` | src/server/mod.rs:310-315 | a room name is valid if and only if it has 3 to 48 characters, all lower-case letters, digits or hyphens |
| `Rooms.BroadcastReaches` | src/server/rooms.rs:45-54 | a broadcast adds the event to the current channel of every participant but the one left out, if any, whose channel is read, and to no other channel |
| `Rooms.RoomInvariant` | src/server/mod.rs:75-117 | over any joins: capacity, non-empty password, every member came by the claim or a matching password, names belong to members |
| `Rooms.JoinsOnlyAdd` | src/server/mod.rs:93-115 | later joins change neither the password nor anyone's membership |
| `Server.RoomState.SendTo` | src/server/rooms.rs:61-67 | exactly the addressee's channel gets the event; nobody's if there is no such participant |
| `Server.RoomState.Broadcast` | src/server/rooms.rs:45-54 | every current channel but the excluded one gets the event once, whatever order the map is walked in |
| `Server.RoomState.Snapshot` | src/server/mod.rs:142-151 | everyone but the caller, each once, with their names |
| `Server.RoomState.OpenStream` | src/server/mod.rs:142-168 | snapshot, then subscription, then the announcement to everyone else |
| `Server.AppState.RequireRoom` | src/server/mod.rs:298-308 | OK exactly for a participant of an existing room |
| `Server.AppState.HandleJoin` | src/server/mod.rs:63-118 | answer and new room as `Rooms.Join` says, other rooms untouched |
| `Server.AppState.HandleSignal` | src/server/mod.rs:192-229 | the signal reaches the addressee's channel under the sender's session id, or is refused with nothing changed |
| `Server.AppState.HandleSse` | src/server/mod.rs:122-182 | the snapshot, the last 50 messages, where the live events start, and the announcement; or a refusal with nothing changed |
| `Server.AppState.HandleChatSend` | src/server/mod.rs:233-268 | the text cut to 2000 is appended to the log and broadcast to all; an empty text or a stranger is refused with nothing changed |
| `Relay.DoKeepsStreams` | src/server/mod.rs:129-179 | every step keeps: what a stream has delivered, has on the wire and has yet to read is one unbroken part of its channel's log |
| `Relay.DoKeepsDiscovery` | src/server/mod.rs:139-168 | every step keeps: of two live streams each is told of the other's session, by snapshot or announcement, or is about to be |
| `Relay.RangeIsNoRestriction` | src/server/mod.rs:129-169 | the range conditions that steps ask for hold in every reachable state |
| `Delivery.DoKeepsInv` | src/server/mod.rs:192-229 | every step keeps: each signal is delivered at most once, to its addressee only, with its sender's id and unchanged |
| `Placement.DoKeepsPlaced` | src/server/rooms.rs:61-67 | every step keeps: a signal relayed to a live stream is in what that stream reads for as long as it is the live one |
| `Presence.NamedIsListed` | src/pages/room.rs:588-617 | whoever a snapshot or a later announcement names is on the list |
| `Presence.ListAfter` | src/pages/room.rs:588-617 | what each event does to the list: replaced by a snapshot, a newcomer last under its name, the known unchanged, the departed and only they taken out |
| `Presence.JoinerIsKnownByName` | src/server/mod.rs:103-168 | who joins under a name is announced, and listed in every snapshot, under the first 64 characters of it |
| `Presence.ListIsClean` | src/pages/room.rs:588-617 | the list never has the client itself, nor anyone twice, nor a stranger |
| `Presence.MutualPresence` | src/server/mod.rs:129-170 | two sessions that have fully consumed a stream on their current channel list each other |
| `Streams.NothingIsSkipped` | src/server/mod.rs:173-179 | at every read in any run, what a stream has delivered is its channel's unbroken log from the subscription on; the read continues it, or ends the stream if more than 128 events wait |
| `Streams.RejoinClosesOldChannel` | src/server/mod.rs:114-115 | from a re-join on, nothing is ever sent on the channel the session had before |
| `Streams.TellingAllIsBroadcast` | src/server/rooms.rs:45-54 | telling everyone but the one left out, if any, one at a time and in any order, comes to one broadcast |
| `Streams.ChatReachesAll` | src/server/mod.rs:258-265 | the steps that send a chat message come to one broadcast to every participant, its sender included, and it is in every channel that is read |
| `Streams.ReadersAreTheLiveStreams` | src/server/mod.rs:153-179 | over any run, a channel's subscribers are exactly the live streams on it |
| `Streams.AnnouncedHearsReplies` | src/server/mod.rs:153-169 | over a run: a signal posted to a session any time after it was announced is added to what that very stream has yet to read, unless the stream ended or the session re-joined |
| `System.NextKeepsInv` | src/services/webrtc.rs:182-210 | every step of server, network, meshes and tasks keeps the whole system's invariant |
| `Theorems.NoGlare` | src/services/webrtc.rs:9-13 | over any run: per pair one side offers, at most once, and the other answers, at most once |
| `Theorems.OffersGoUp` | src/services/webrtc.rs:223-225 | every offer in flight goes from the smaller id to the larger, every answer the other way |
| `Theorems.OffersAreBounded` | src/services/webrtc.rs:349-366 | a room with n members sees at most n(n-1)/2 offers, however long the run |
| `Theorems.CallsAreLegalAndFromThePeer` | src/services/webrtc.rs:360-485 | over any run, with sessions leaving too: every description call was made in a state RFC 8829 allows, or on a connection already closed, and everything applied to c's connection for f was sent by f's connection for c |
| `Theorems.CandidatesArePosted` | src/services/webrtc.rs:263-284 | over any run of the whole room, what c's connection for f has found is what c has posted to f, each candidate once and in order |
| `Theorems.NothingIsAppliedAfterLeaving` | src/services/webrtc.rs:514-534 | once a session has left, its tasks may go on, but no description is applied to any of its connections |
| `Outcomes.MutualDiscovery` | src/services/webrtc.rs:186-195 | two sessions with fully consumed streams list each other, and a mesh that has caught up has the other's connection unless the browser refused it |
| `Outcomes.QuietAgreement` | src/services/webrtc.rs:349-485 | with nothing on its way and no browser operation failed, both ends are stable on the offer and its answer if and only if neither the offer nor an answer is stranded |
| `Outcomes.PairAgreement` | src/services/webrtc.rs:349-485 | if offer and answer were each relayed to a stream that their addressee has listened to since, then at rest and without failures both ends are stable, on that offer and its answer |
| `Outcomes.ListeningPairAgrees` | src/services/webrtc.rs:349-485 | so they are if both were listening when the offer was relayed and have been since: the answer, which follows, is heard too |
| `AgreedRun.AgreementComesAbout` | src/services/webrtc.rs:349-485 | a run of the whole room, from two joins to agreement, that meets every premise of `Outcomes.PairAgreement` |
| `Outcomes.KnownSnapshotIsNoOp` | src/services/webrtc.rs:356-366 | in any run, a resync that lists known peers creates no connection and makes no offer |
| `Stranding.UnheardIsStranded` | src/server/rooms.rs:61-67 | relaying strands a signal if and only if its addressee does not listen on its current channel, or lags so far that this event ends its stream |
| `Stranding.LostIsStranded` | src/services/webrtc.rs:356-359 | a POST that fails, or whose sender is refused, always strands its signal |
| `Stranding.DoKeepsStranded` | src/server/mod.rs:122-229 | no join, resync, reconnect, re-join or later signal brings a stranded signal back |
| `Stranding.StrandedIsForGood` | src/server/mod.rs:122-229 | a signal no longer in flight and not yet seen is stranded if and only if no continuation whatever brings it to its addressee |
| `Loss.LostOfferIsNeverReplaced` | src/services/webrtc.rs:356-366 | once an offer is stranded its pair stays dark for the rest of the run |
| `Loss.LostAnswerLeavesWaiting` | src/services/webrtc.rs:461-485 | once an answer is stranded the offering end waits for it for the rest of the run |
| `Runs.OfferIsLost` | src/services/webrtc.rs:186-191 | a run in which an offer is stranded: its addressee has joined and not yet opened a stream |
| `Runs.OfferIsLeftUnread` | src/server/rooms.rs:45-67 | a run in which an offer is stranded in a channel that has a subscriber, whose client has dropped the stream |
| `Chat.InMemoryChat.Append` | src/server/chat.rs:38-45 | appends to the one room's log; the store keeps its last 200 |
| `Chat.InMemoryChat.History` | src/server/chat.rs:47-56 | the last `limit` messages of the full log, of which 200 survive |
| `ChatView.NextKeeps` | src/server/mod.rs:151-158 | every step of the fine-grained chat protocol keeps its invariant |
| `ChatView.ListIsHistoryThenLive` | src/pages/room.rs:588-638 | a client's list is the history it was sent, then the live messages it has received |
| `ChatView.SentIsBroadcast` | src/server/rooms.rs:45-54 | what sending does to the session's channel in the chat model is what the room's broadcast does to it |
| `ChatView.SettledShows` | src/server/mod.rs:258-265 | how often a caught-up client shows each message: once if in the history window, once more if sent after the subscription |
| `ChatView.MissedAndDoubled` | src/server/mod.rs:138-158 | a message is missed if and only if it was appended after the history read and sent before the subscription, and doubled if and only if the other way round |
| `ChatView.MessageMissed` | src/server/mod.rs:151-158 | a run in which a message is missed |
| `ChatView.MessageDoubled` | src/server/mod.rs:258-265 | a run in which a message is shown twice |
| `ChatView.ListIsSuffixOfLog` | src/server/mod.rs:151-158 | with whole handlers as steps the list is at all times an unbroken run of the full log from fifty before the connect, and its suffix once caught up, over evictions, lags, re-joins and reconnects; each line has its message's text, sender, name and time, and is marked as own exactly if it is |
| `Page.RoomPage.OnSse` | src/pages/room.rs:569-641 | chat goes to the list only, all else to the mesh or the early buffer; lists updated, each line saying what its message says; mesh and buffer together have had every non-chat event in order |
| `Page.RoomPage.MeshReady` | src/pages/room.rs:237-243 | the new mesh gets, in order, all that waited, and the buffer is empty |
| `Page.DeferredIsImmediate` | src/pages/room.rs:220-243 | wherever among the events the mesh is built, replaying what waited and then taking the rest gives it each non-chat event once, in order, and the state of applying all events in that order |
| `Deferral.BuildCommutes` | src/pages/room.rs:220-243 | building a session's mesh commutes with every other step of the room, tasks included |
| `Deferral.EarlyBuildIsTheSame` | src/pages/room.rs:220-243 | a run that builds a mesh late is matched by one that builds it at any earlier moment of the session's membership, with the same other steps and the same states from there on |
| `Page.OnStage` | src/pages/room.rs:108-116 | empty only if nobody is listed; the speaker if listed, otherwise the first who is |
| `Page.StageShowsSomeoneElse` | src/pages/room.rs:108-116 | whatever the meter says, the stage never shows a client itself |
| `Meter.Energy` | src/services/audio_level.rs:182-190 | the sum of squared offsets around 128 |
| `Meter.WaveReads` | src/services/audio_level.rs:182-193 | a wave that swings d steps to either side of the middle reads as d/128 |
| `Meter.RmsIsNormalised` | src/services/audio_level.rs:179-193 | a reading is between 0 and 1, and 0 exactly for a silent window |
| `Meter.LevelMeter.Watch` | src/services/audio_level.rs:77-99 | idempotent; a new peer starts at level 0 |
| `Meter.LevelMeter.Forget` | src/services/audio_level.rs:102-111 | drops input, level and any claim on the stage |
| `Meter.LevelMeter.Loudest` | src/services/audio_level.rs:148-154 | some loudest peer above the floor, in whatever order the map is walked; none exactly when all are at or below it |
| `Meter.LevelMeter.Sample` | src/services/audio_level.rs:115-145 | every level smoothed once, and the stage given as the election rule says |
| `Meter.RunKeepsOk` | src/services/audio_level.rs:118-145 | levels stay between 0 and 1 and only somebody watched holds the stage |
| `Meter.WinnerIsLoud` | src/services/audio_level.rs:128-145 | nobody is shown exactly when all are quiet; the winner is watched, above 0.02/1.6, and within a factor 1.6 of the loudest |
| `Meter.NewHolderIsLoudest` | src/services/audio_level.rs:128-154 | whoever gets the stage, free or from another, is above the floor and no level exceeds theirs |
| `Meter.HolderLosesStage` | src/services/audio_level.rs:132-144 | the holder loses the stage if and only if all are quiet or somebody above the floor has reached 1.6 times its level |
| `Meter.SilenceEmptiesStage` | src/services/audio_level.rs:124-131 | from any state, eleven silent samples leave no speaker, peers coming and going meanwhile |
| `Meter.TenSilentSamplesDoNot` | src/services/audio_level.rs:124-131 | a run from the start in which ten silent samples still leave a speaker |
| `Meter.TakesAndKeepsStage` | src/services/audio_level.rs:115-145 | a peer that outweighs all others by more than the ratio takes the stage within N samples, 0.7^N being below both margins, and keeps it |
| `Meter.NoFlapping` | src/services/audio_level.rs:28-31 | while nobody reaches the ratio over the holder in level at the start or in any reading, and it is never quiet, the holder never changes |

## Left out

- Leptos views, routing, cookies, styles, the unread badge, time formatting and the attachment of streams to video elements: user interface.
- The browser's media, ICE connectivity and DTLS: a connection is its signaling state, and every call may succeed or fail.
- `ensure_running` and the Web Audio nodes: whether a peer can be listened to is an input, and so is each reading.
- TURN credentials, HTTP, JSON, the framing of event streams, keep-alives, configuration and start-up: messages are delivered as typed values.
- `PeerLeft` as something the server sends: it never does. The mesh and the page handle it, but the runs of `System` do not contain it: there a session closes all its connections at once, when it leaves.
- The camera that `close_all` releases, and the stream that the page closes beside it: a session that has left may detach or not.
- Page reloads and duplicated tabs: one mesh per session id is assumed, while re-joins and reconnects of a session are not limited.
- A chat snapshot in `Relay` is any list of messages; what it really is, `ChatView` models, for one session at a time and with peers' streams as anonymous readers of the channel.
- `Pull` and `Drop` in `Relay` begin when all announcements of that stream's handler are made, as the response is returned after them.
- `Meter.IsRms`: floats are not modelled; rounding is not captured, and neither are the retries of a parked audio context.
- The password gate in `Relay`: a join there is any request past the gate, which looks at nothing that changes; `Rooms.Join` and `Server.AppState.HandleJoin` have the whole request.
