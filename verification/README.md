# A verified model of the chat server

The repository is a multi-threaded TCP chat server with rooms, private messages,
room history, an admin kick and a broadcaster thread. This project states what the
server promises and proves it with Dafny: first for the parts that hold state, then
for the whole server under every interleaving of its threads. Run
`dafny verify dfyconfig.toml` in this directory.

## Layout

Wire protocol and streams

- `Common.dfy`: limits, status codes, string helpers.
- `Protocol.dfy`: client commands, their builders and their parser.
- `ServerLines.dfy`: server responses, their builders and the client's parser, and
  the relay of a message from one line to the other.
- `LineIO.dfy`: `send_all`, the two line readers and `trim_newline` against a kernel
  that may split, delay, interrupt or fail any call.
- `Streams.dfy`: the round trip from commands to bytes and back.

Stateful parts, each a class whose methods are proved against functions on sequences

- `Auth.dfy`: the user database.
- `Chains.dfy`: what a traversal of a linked list meets while nodes are unlinked.
- `Registry.dfy`: the linked list of online clients.
- `MessageQueue.dfy`: the head/tail list of the broadcast queue.
- `WaitQueue.dfy`: the condition-variable protocol of that queue.
- `RoomManager.dfy`, `RoomHistory.dfy`: the list of rooms with their ring buffers,
  what a run of additions leaves behind, and what the history payload says.

The running server

- `ServerState.dfy`, `Handlers.dfy`, `ServerSteps.dfy`: the transition system. Every
  handler thread, the main thread and the broadcaster has a program counter; one step
  is one locked section, one send, accept, close or free; any thread may take the
  next step. Its effects on registry, rooms and queue are the very functions that the
  class methods above are proved against (`AddResult`, `Removed`, `Moved`, `ByFd`,
  `ByName`, `Added`).
- `Legality.dfy`: what a handler thread knows at each place and what its steps may do.
- `Connections.dfy`, `Sessions.dfy`, `Broadcast.dfy`, `HistoryAgreement.dfy`,
  `Peers.dfy`, `Identity.dfy`, `Deliveries.dfy`, `Heap.dfy`: the parts of the
  invariant, each preserved by every legal step.
- `ServerInvariant.dfy`: the invariant holds after every run.
- `ServerTheorems.dfy`: what follows from it.
- `Logins.dfy`: passwords over whole runs, down to the AUTH line that was read.
- `Runs.dfy`: concrete runs that show what the code does not guarantee.

## Assumptions of the model

- A C character array is the string up to its terminator. `client_registry.c:63-64`
  and `commands.c:23-24`, `commands.c:152-154` copy up to size - 1 bytes into
  uninitialised structures and write no terminator of their own, so names of 31
  characters and texts of 511 would leave none. The model is exact for names of at
  most 30 and texts of at most 510 characters, and treats the longer ones as if a
  terminator followed.
- In the whole-server model sending a line is one step; no lock serialises the bytes
  of two threads that write to one descriptor.
- The whole-server results assume newline-terminated input: a line that the reader
  hands on is an arbitrary string, trimmed as `server_recv_line` does. The path of
  `src/server/server.c:228-230`, where end of file inside a line returns success
  without terminating or trimming the buffer, is not part of that model.
- `accept` returns a descriptor that no thread has open; a failing `accept` may return
  for any reason; `malloc` succeeds except where the accept loop handles its failure.
- The password digest and the rendering of times are parameters. Results about line
  sizes and relayed lines assume that a rendered time is a non-empty word of at most
  31 characters (`StampsOk`). `ListReadsBack` assumes that no name in the user file
  contains a newline or carriage return (`NamesOk`), as `strip_line` makes sure
  (`src/server/auth.c:11-21`).
- Registrations carry a number (`sid`) that exists only in the model, so that two
  logins under one name can be told apart. `peer`, `sessions`, `log`, `sent`, `adds`,
  `kicks`, `popped` and `late` are model-only history too. `unlinked` and `freed` stand
  for the memory of nodes that are no longer in the list.
- A failing send returns an error. The source installs handlers for SIGINT and SIGTERM
  only (`src/server/server.c:373-383`) and sends with flags 0
  (`src/common/utils.c:49`, `src/server/server.c:166`), so this takes SIGPIPE to be
  ignored; otherwise a send to a connection that is reset, or that KICK has shut down
  (`src/server/commands.c:283`), ends the process.
- `registry_remove` unlinks a node under the lock and frees it after the lock is released
  (`src/server/client_registry.c:103-114`). These are two steps here. In between the node
  keeps its fields and its link, and a traversal that is at it goes on along that link
  (`src/server/client_registry.c:374-375`), if need be to another unlinked node. When it
  would read a freed node the model enters `CStray` and says nothing about the
  broadcaster from then on. If the callback fails, `registry_foreach` returns without
  touching any node. `StrayExactly` gives the exact condition for `CStray`;
  `StrayHappens`, `UnlinkedStepsOn` and `VisitsUnlisted` are runs.

## Where code and documents differ

- `docs/DESIGN.md:33` and `docs/DESIGN.md:309` say that a message goes to every
  connected client. The code sends an event only to clients that are in its room
  (`src/server/broadcaster.c:19`). The model follows the code.
- A login that loses the race for its name is answered "server full"
  (`src/server/commands.c:56-63`). `LoginNeverFull` shows that the duplicate name is
  the only possible reason there.
- `JOIN_ROOM` accepts room names with spaces, and a BROADCAST line for such a room
  does not read back as what was sent: `BroadcastRelay` and `DeliveredReadsBack` are
  equivalences.
- `room_find_or_create` compares the full name and stores a cut one
  (`src/server/room_manager.c:15`, `src/server/room_manager.c:30`); `LongNames` says
  exactly when names stay unique. No name that long gets past the parser.
- `src/server/client_registry.c:366-369` hands the callback a copy of a node, and the
  callback sends to the copied descriptor. If the client's thread closes it in between,
  the line goes to whoever has that descriptor next. `SendReachesOwner` gives the exact
  condition, `MisdirectedHappens` a run, and `LineWentToOwner` what does hold.
- PM and KICK act on a descriptor looked up in an earlier locked section
  (`src/server/commands.c:191-200`, `src/server/commands.c:275-283`). If the target's
  thread closes it in between, a stranger gets the message or is shut down.
  `RecipientExactly` gives the exact condition, `StrangerHappens` a run, and
  `RecipientIsTarget` what does hold.

## Model

| member | source | states |
|---|---|---|
| Protocol.ParserExact | src/common/protocol.c:55-165 | For the five commands with arguments, a line is accepted as a command if and only if the arguments obey the length, no-space and non-empty rules and the line is exactly the builder's output for them; hence they are unique. |
| Protocol.ParseBuilt | src/common/protocol.c:128-170 | Every well-formed command, of all eight kinds, parses back from its built line to itself. |
| Protocol.ParseBuildParse | src/common/protocol.c:55-170 | Parsing, building and parsing again gives the first result, for every accepted line. |
| Protocol.ParseTwoTokens | src/common/protocol.c:32-53 | Succeeds exactly when the text splits at its first space into a fitting first token and a fitting non-empty rest, and then returns both. |
| Protocol.ParseClientLine | src/common/protocol.c:55-126 | Accepts the lines of the parser function and no others, fills the command structure with the arguments in the fields the handlers read, and otherwise reports a protocol error. |
| ServerLines.BuildResponse | src/common/protocol.c:382-454 | Succeeds exactly when line and terminator fit the buffer; otherwise the buffer holds a prefix. |
| ServerLines.BroadcastRelay | src/common/protocol.c:172-222 | For every sender, time, room and trim text the BROADCAST line fits, and the client reads back all four fields if and only if the room has no space. |
| ServerLines.ReadTextIsTrim | src/common/utils.c:15-25 | A text or room argument taken from a trimmed line fits its array and has no trailing newline or carriage return. |
| ServerLines.ChatRelay | src/common/protocol.c:399-408 | Whatever MSG line the server reads, its text comes out of the BROADCAST line unchanged, with sender, time and room, exactly when the room has no space. |
| ServerLines.PrivateRelay | src/common/protocol.c:410-417 | Whatever PM line the server reads, its text comes out of the PM line unchanged, with sender and time. |
| ServerLines.PresenceRelay | src/common/protocol.c:419-431 | USER_JOIN and USER_LEFT lines always fit and read back user and room, even for rooms with spaces. |
| ServerLines.ListRelay | src/common/protocol.c:372-376 | A user list of at most 511 characters is cut neither by the LIST line nor by its parser, and reads back unchanged exactly when it does not end in a newline or carriage return. |
| LineIO.TrimNewline | src/common/utils.c:15-25 | In place, drops every trailing newline and carriage return from the string in the buffer and nothing else. |
| LineIO.Socket.SendAll | src/common/utils.c:44-62 | Under every schedule of partial sends, interruptions and errors: success exactly when the schedule takes all bytes, then the whole line is on the wire; on failure a proper prefix of it. |
| LineIO.Socket.ReadBytes | src/common/utils.c:72-91 | The byte loop of both line readers fills the buffer with exactly what one read takes under any schedule of bytes, interruptions, errors and end of file, and tells how it ended. |
| LineIO.Socket.ServerRecvLine | src/server/server.c:192-241 | Consumes through the first newline or as many bytes as fit, retrying interruptions; the buffer then holds the trimmed line; errors and end of file are told apart. |
| LineIO.Socket.RecvLine | src/common/utils.c:64-96 | As the server's reader, and a last line that end of file cuts short is terminated and trimmed too. |
| Streams.TakeLineIsChunk | src/server/server.c:200-236 | Whatever interruptions happen, one read takes exactly the first chunk of the byte stream, leaves the rest, and reports end of file only inside an unfinished line. |
| Streams.ReadAllIsChunks | src/server/server.c:192-241 | Repeated reads of a newline-terminated stream yield exactly its chunks. |
| Streams.ChunksPartition | src/server/server.c:200-236 | The chunks concatenate back to the stream, each fits the buffer and holds a newline only as last byte. |
| Streams.StreamRoundTrip | src/server/server.c:192-241 | For every list of sendable commands and every splitting and interruption of its bytes, reading, trimming and parsing give back exactly that list. |
| Streams.UnderstoodExactly | src/common/utils.c:15-25 | For every well-formed command without newline or terminator inside, its line is understood as that command if and only if its text does not end in a carriage return. |
| Streams.SendCommands | src/common/utils.c:44-62 | If every send ends well, the wire has gained exactly the concatenation of the command lines. |
| Streams.Deliver | src/common/utils.c:44-62 | From send schedule to parsed list: if every send ends well, then under every splitting and interruption on the way the server understands exactly the commands sent, in order. |
| Auth.LaterLineWins | src/server/auth.c:88-123 | Because records are prepended while loading, the first match in the list is the last line of the file for that name. |
| Auth.AuthDb.constructor | src/server/auth.c:88-123 | The list holds the loaded records in reverse file order. |
| Auth.AuthDb.Verify | src/server/auth.c:148-176 | Succeeds exactly when the first record of that name has the password's digest; later records of the name are never considered. |
| Auth.AuthDb.IsAdmin | src/server/auth.c:178-199 | True exactly when the first record of that name has the admin flag: the same record that decides the password. |
| Registry.ClientRegistry.Add | src/server/client_registry.c:47-92 | Refused when full or when the name is taken, with nothing changed; otherwise the client is put in front. Names stay distinct and the count exact. |
| Registry.ClientRegistry.Remove | src/server/client_registry.c:94-123 | Removes the first node with the descriptor and keeps all others in order; reports when there is none. |
| Registry.ClientRegistry.SetRoom | src/server/client_registry.c:200-222 | Overwrites the room of the first node with the descriptor and nothing else. |
| Registry.ClientRegistry.GetUsername | src/server/client_registry.c:148-172 | The name of the first node with the descriptor, or not found and an empty name. |
| Registry.ClientRegistry.GetRoom | src/server/client_registry.c:174-198 | The room of the first node with the descriptor, or not found and an empty room. |
| Registry.ClientRegistry.IsAdmin | src/server/client_registry.c:224-241 | The admin flag of the first node with the descriptor; false if there is none. |
| Registry.ClientRegistry.GetSockfdByUsername | src/server/client_registry.c:243-264 | The descriptor of the node with the name, or -1. |
| Registry.ClientRegistry.UsernameExists | src/server/client_registry.c:125-146 | True exactly when a node carries the name. |
| Registry.ClientRegistry.BuildUserList | src/server/client_registry.c:281-313 | Succeeds exactly when the comma-joined names, newest first, fit the buffer with a terminator, and then yields exactly that list. |
| Registry.ClientRegistry.First | src/server/client_registry.c:363-365 | The first node of the list, or null when it is empty. |
| Registry.ClientRegistry.After | src/server/client_registry.c:374-375 | From a node that is still listed: the next node of the list, where the traversal of the whole-server model goes too, or null when none is behind. |
| MessageQueue.Queue.Push | src/common/message_queue.c:55-90 | Appends at the tail, or is refused with nothing changed once shutdown is set; tail is null exactly when head is, and the count is the length. |
| MessageQueue.Queue.Pop | src/common/message_queue.c:105-120 | Takes the oldest event; fails only when the queue is empty. |
| MessageQueue.Queue.SignalShutdown | src/common/message_queue.c:123-133 | Sets the flag and leaves the queued events in place. |
| MessageQueue.Queue.Drain | src/common/message_queue.c:92-121 | After shutdown exactly the queued events can still be popped, in order, and then every pop fails. |
| WaitQueue.NoLostWakeup | src/common/message_queue.c:71-132 | In every state of every run, for any number of producers and consumers and with spurious wake-ups: while somebody sleeps before shutdown, queued events are no more than consumers already woken; after shutdown nobody sleeps; accepted events are the popped ones followed by the queued ones. |
| WaitQueue.SleepersMissNothing | src/common/message_queue.c:100-108 | If some consumer sleeps and none is on its way, nothing is queued and everything accepted has been popped. |
| RoomManager.RoomNode.AddEntry | src/server/room_manager.c:102-113 | Reading the ring from its start gives the last 100 of the earlier entries followed by the new one. |
| RoomManager.Manager.FindOrCreate | src/server/room_manager.c:10-35 | Returns the first room of that name, else puts a new empty one in front, else (64 rooms) changes nothing. |
| RoomManager.Manager.HistoryAdd | src/server/room_manager.c:84-117 | Adds to that room alone, or reports full and changes nothing. |
| RoomManager.Manager.HistoryFormat | src/server/room_manager.c:119-164 | Succeeds exactly when the joined entries fit the buffer with a terminator, and then yields exactly that rendering; an unknown room gives an empty one. |
| RoomManager.Manager.HistoryLine | src/server/room_manager.c:166-181 | A HISTORY line is handed to send exactly when the payload has at most 2038 characters, and then holds it whole. |
| RoomHistory.AddedFind | src/server/room_manager.c:84-117 | One addition changes the history of its room only, keeps names unique and the table within its bound. |
| RoomHistory.TableRefines | src/server/room_manager.c:84-117 | After any run of additions over any rooms: names unique, at most 64 rooms, the lobby always there, and a room shows exactly the last 100 entries ever offered to it, oldest first; a missing room was offered nothing or the table is full. |
| RoomHistory.LongNames | src/server/room_manager.c:14-30 | Adding to a name beyond 31 characters keeps room names unique exactly when the cut name is new. |
| RoomHistory.PayloadInjective | src/server/room_manager.c:147-154 | Two histories without bars in their fields that render to the same payload are the same. |
| Legality.ActionLegal | src/server/commands.c:30-304 | Every step of every handler thread, from what it knows at its place, keeps its knowledge and has only effects that fit its session: it registers once, removes and moves only its own node, pushes only events of its own name, room and phase, records a chat line before pushing it, kicks only as admin. |
| Connections.OwnNode | src/server/client_registry.c:148-172 | A registered thread's descriptor finds that thread's own node. |
| Connections.OwnRemoval | src/server/client_registry.c:94-123 | Removal by a registered thread's descriptor removes exactly the node of its session. |
| Sessions.ChainedIsSessions | src/server/commands.c:111-119 | If every event may follow the last one of its user, the events of each user are a concatenation of sessions, all complete but possibly the last. |
| Chains.ChainUnlink | src/server/client_registry.c:103-114 | Unlinking a node leaves the way of a traversal as it was or takes just that node out of it; it does take it out if the traversal is at another listed node. |
| Heap.HeapHandler | src/server/client_registry.c:94-123 | Every step of a handler thread keeps the record of the nodes exact: a session's node is listed, unlinked or freed exactly as its thread is before the unlinking, before the free or past it, and links lead to older nodes. |
| Broadcast.TourUnlink | src/server/client_registry.c:363-377 | Unlinking any node keeps the record of a traversal exact: visited sessions followed by those it would now meet are those listed at the start, in order, without the skipped ones. |
| Broadcast.TourAdvances | src/server/client_registry.c:374-375 | So does following the link of the node under the cursor. |
| ServerInvariant.InvNext | src/server/server.c:264-355 | Every step of every thread keeps the whole invariant. |
| ServerInvariant.InvReachable | src/server/server.c:545-671 | The whole invariant holds in every state of every run, whatever the interleaving. |
| ServerTheorems.UniqueDescriptors | src/server/client_registry.c:69-89 | In every reachable state registry descriptors and names are pairwise different, although `registry_add` compares names only. |
| ServerTheorems.OwnLookup | src/server/server.c:292-308 | A thread between login and disconnect finds its own node under its descriptor, with its login name; removal by that descriptor removes this node and no other. |
| ServerTheorems.NoMissingNode | src/server/commands.c:97-104 | The "authenticate first" branches, the failing room lookups and the empty-argument branches of the command handlers are never taken: each goes on with the caller's own login name and room, PM and KICK unless the target is the caller. |
| ServerTheorems.RecipientIsTarget | src/server/commands.c:191-200 | From lookup to send or shutdown, as long as the session that PM or KICK found stays registered, the descriptor is that of the named target and of nobody else. |
| ServerTheorems.RecipientExactly | src/server/commands.c:191-200 | In every reachable state the descriptor that PM or KICK is about to use is that of the session found if and only if its thread has not closed its connection since. |
| Runs.StrangerHappens | src/server/commands.c:191-200 | A concrete run in which a private message is about to be sent on a descriptor that now is another connection's. |
| ServerTheorems.SenderIsOwner | src/server/commands.c:253-287 | A PM about to be sent carries the sender's own login name and a fitting non-empty text; PM and KICK never act on the caller's own name; the kicking session's name is an admin. |
| ServerTheorems.PrivateReadsBack | src/server/commands.c:197-200 | The PM line about to be sent fits and reads back as sender, time and text. |
| ServerTheorems.ConnectionBound | src/server/server.c:580-592 | registry size <= active_connections <= 100, and the counter is exactly the threads that have not given their connection back plus the one being handed over, although check and increment are separate locked sections. |
| ServerTheorems.DecrementGuard | src/server/server.c:97-112 | Wherever the counter is decremented it is positive, so the guard is never false. |
| ServerTheorems.LoginNeverFull | src/server/commands.c:56-63 | `registry_add` never reports a full registry in a run; it refuses a login exactly when the name came online since it was checked. |
| ServerTheorems.ListReadsBack | src/server/commands.c:209-227 | Over every run, whenever the list of online users fits its buffer, the LIST line reads back as exactly the comma-joined names of the registry, newest first. |
| ServerTheorems.EventsAreSessions | src/server/commands.c:111-157 | Over every run, each user's accepted events are a concatenation of sessions: JOIN lobby, CHATs there, then LEAVE, JOIN another room, CHATs there, any number of times, and a final LEAVE that only the last session may lack; across logins that reuse the name. |
| ServerTheorems.ReplayGivesRoom | src/server/commands.c:111-119 | Until shutdown, the last event of a user who is between commands is a JOIN or CHAT of its session in the very room that the registry holds. |
| ServerTheorems.OfflineIsClosed | src/server/commands.c:294-303 | Until shutdown, a user who is not registered has no open session in the log. |
| ServerTheorems.QueueRefinesLog | src/common/message_queue.c:55-121 | Over every run, accepted events are those dequeued followed by those queued. |
| ServerTheorems.DeliveredInOrder | src/server/broadcaster.c:39-85 | What the broadcaster gets out to a session is a subsequence of the accepted events: in order, without repeats, none before it was dequeued. |
| ServerTheorems.SameOrderForAll | src/server/broadcaster.c:39-85 | No two clients ever see two events in opposite orders. |
| ServerTheorems.DeliveredToRoom | src/server/broadcaster.c:15-37 | Every line was sent for a session that was in the event's room when the traversal looked at it. |
| ServerTheorems.FanOutExact | src/server/broadcaster.c:15-37 | Sound and complete: of the sessions visited exactly those seen in the event's room have been sent its line, and nobody else has; when no node is left to meet, everybody listed at the start and still registered was visited, and was sent the line if and only if seen in the room. |
| ServerTheorems.LineWentToOwner | src/server/broadcaster.c:23-25 | Every line went to the connection of its session's own thread as long as that connection is open, in particular while the session is registered. |
| ServerTheorems.SendReachesOwner | src/server/client_registry.c:366-369 | At the send, the copied descriptor is that of the session's thread if and only if that thread has not closed its connection since. |
| Runs.MisdirectedHappens | src/server/client_registry.c:366-369 | A concrete run in which a line goes to a connection that is not that of its session. |
| ServerTheorems.SnapshotIsCurrent | src/server/client_registry.c:363-375 | Every snapshot handed to the callback is the present content of a node that has not been freed: a listed one, or an unlinked one to which the link of the node under the cursor still leads; a traversal starts from the whole list. |
| ServerTheorems.TraversalExact | src/server/client_registry.c:354-380 | With adds, moves, unlinkings and frees interleaved at every unlock, in every state of a traversal: the sessions visited, followed by those it would meet along the present links, are those listed at the start, in order and each once, without skipped ones, none of which is still registered; when none is left to meet, everybody listed at the start and still registered has been visited; while the node under the cursor is listed, those left to meet are the ones behind it. |
| ServerTheorems.UnlinkSkipsAtMost | src/server/client_registry.c:103-114 | An unlinking makes a traversal under way skip that node or changes nothing for it; it skips it whenever the node under the cursor is another one and still listed. |
| ServerTheorems.StrayExactly | src/server/client_registry.c:103-114 | A step reads a freed node if and only if the broadcaster goes on after a callback that succeeded, the thread of the session under the cursor has unlinked its node, and that thread, or the thread of the node to which the kept link leads, is past the free. |
| Runs.StrayHappens | src/server/client_registry.c:367-375 | A concrete run, with one user and one client, that gets there. |
| Runs.UnlinkedStepsOn | src/server/client_registry.c:103-114 | The same run with the thread held up before the free: the broadcaster ends the traversal as usual. |
| Runs.VisitsUnlisted | src/server/client_registry.c:367-375 | A concrete run in which the broadcaster visits a session that was removed ahead of it while nobody is listed. |
| ServerTheorems.NoEventDropped | src/server/broadcaster.c:57-78 | In every reachable state the line of the event at hand fits, so the broadcaster drops none for its size. |
| ServerTheorems.DeliveredReadsBack | src/server/broadcaster.c:57-78 | Over every run, a delivered chat line reads back as sender, time, room and text of the accepted event exactly when the room has no space; presence lines always read back. |
| ServerTheorems.HistoryMatchesBroadcast | src/server/commands.c:148-160 | For every session, until shutdown the broadcast chat lines are the remembered ones in the same order with the same room, text and time, minus at most the one in flight; after shutdown a prefix. |
| ServerTheorems.RoomShowsRecent | src/server/commands.c:148-149 | Over every run, a room shows exactly the last 100 chat lines offered to it by whomever, oldest first; the lobby always exists and there are at most 64 rooms. |
| ServerTheorems.UnprovenIsInert | src/server/server.c:292-304 | A step of a connection that has not passed the password check changes neither registry nor queue nor any history, and leaves that condition only by a password that verifies. |
| Logins.RefusedLeavesNoTrace | src/server/server.c:278-304 | Over every run, a connection that was never given an AUTH line whose password verifies owns no session in registry, log, histories or kick record, whatever else it sent. |
| Logins.UnprovenLeavesNoTrace | src/server/server.c:292-304 | The same for a connection that has not passed the check in any state of the run. |
| ServerTheorems.Provenance | src/server/commands.c:253-287 | Over every run, whoever is registered, was announced, spoke or is remembered did so in a session whose own thread verified that very name; every kick was made by such a session whose password and admin flag are in the same first matching record, against a name other than its own. |
| Logins.ProvenanceOfRun | src/server/commands.c:42-56 | Over every run, each of these sessions belongs to a thread that, while waiting for a line, was given an AUTH line with that very name and a password that verifies. |
| ServerTheorems.ShutdownIsQuiet | src/server/server.c:650-668 | The queue only ever holds CHAT, JOIN and LEAVE, because the sentinel is pushed after the flag is set; once `running` is cleared at most one more event is dequeued. |
| ServerTheorems.BroadcasterEnds | src/server/broadcaster.c:46-53 | After shutdown the broadcaster can always step until it has ended or read a freed node; each of its steps lowers a rank that no other step raises. |

## Left out

- Socket setup, address lookup, signal installation, terminal output and command-line parsing: input, output and user interface.
- The password hash, `localtime`/`strftime` and the `sscanf` loader of the user file: the digest, the rendered time and the loaded records are parameters.
- `print_history_payload` and the rest of the client's display: splitting at "||" with `strtok_r` cuts at every single bar, so it is no inverse of the history format; injectivity of the format is proved instead.
- `server_destroy` racing with detached handlers, allocation failure outside the accept loop, raw memory layout.
- `registry_foreach_in_room`, `registry_build_room_user_list`, MQ_ROOM_JOIN, MQ_ROOM_LEAVE and the two name tables: not used by the running server.
- LineIO.Socket.ServerRecvLine: at end of file inside a line the source returns success without terminating the buffer, so only the raw bytes are stated there.
- MessageQueue.Queue.Pop: starts where the wait loop ends; waiting is the subject of module WaitQueue.
- ServerTheorems.DeliveredInOrder: a delivery is a completed send; whether the bytes of two threads mix on one descriptor is not modelled, and runs in which the broadcaster has read a freed node are followed only up to that point.
- ServerTheorems.BroadcasterEnds: counts the broadcaster's own steps, assumes that each blocking send returns, and says nothing after a freed node was read.
- The whole-server model is a state machine on values: handler threads, main thread and broadcaster are not classes, mutexes appear as the atomicity of a step, and the texts of replies to the commanding client are not recorded.
- `protocol_parse_server_line` and its field splitters are functions on the line; their writing into the caller's arrays is not modelled.
