# Verified model of the chat room server and its client

The server (`server/`, C++ coroutines) relays messages between clients that join named rooms; the client
(`ui/`, Rust) keeps a local list of rooms and messages that it reconciles with the server's answers. This
project models both and proves what they promise about order, completeness, progress and consistency.

## How the model is built

**The server as a step machine** (`Pipeline`). A session takes a room's mutex and fans a message out to one
`Channel` per subscriber; a listener coroutine moves it from there to the session's write channel; a writer
coroutine sends it. Every coroutine has a program counter, the room mutexes are part of the state, and a step is
what one task does between two points at which another can be seen. Any number of sessions, rooms and channels
may exist and any task may move next. Fields such as a room's `log` or a session's `sent` record history and no
step's effect on the rest of the state depends on them; a copy of a message carries its position in the room's log
from the fan-out to the socket, so that order and completeness are stated about entries and not only about texts.
On top of the machine:

| module | what it is about |
|---|---|
| `Membership` | the invariant that ties mutexes, connection lists, subscription maps and channels together |
| `AtomicBroadcast`, `Refinement` | the specification of a broadcast, and the simulation of it by the interleaved loop |
| `Delivery` | conservation from the room log to the socket |
| `Outputs`, `Guarantees` | replies and logs as folds over the requests; agreement, sender order, the room directory |
| `RequestLaws` | what a line must be to have each effect and to get each reply |
| `Endings` | what ends listeners and sessions, and what they still do afterwards |
| `Drain` | progress, termination, and what is delivered at rest, with one thread and with several |
| `Locks` | the lock order of every step, freedom from deadlock and from data races |
| `Scenario` | three concrete runs: a close that overtakes a fan-out, a message from end to end, and a message held back by a lost wake-up |

**The mutable objects as classes.** `Channel`, `TcpChatRoom`, `Directory`, `Session`, `LineReader` and the
client's `App` are changed in place, and so are the loops of the listener, the writer, the fan-out, the cleanup
and the session. Machine and classes are held together by shared functions: `Channel` is proved against the
functions of `ChannelModel`, from which the machine's steps are built; `TryFindRoom`, `HandleSub` and
`ParseMessage` against the functions of `Requests`, which the machine's dispatch uses; `Serve` against the reply
function of `Outputs`; and `UninterruptedFanOut` shows that the machine's loop meets the contract of the class's loop.

**The client** (`ClientModel`, `ClientApp`, `ClientState`, `ClientLaws`, `ClientViews`, `ClientFiling`, `Network`,
`Compose`). Each closure that changes the shared signals is a method of `App`, proved equal to a transition function; the properties are
proved about all sequences of transitions, and `Compose` puts a run of the server and a run of the client together.

## Assumptions

- One `async_send` sends a whole frame or fails; a failed send ends the writer. A socket may fail at any step.
- A serialised JSON object contains no raw newline, and a plain-text reply does not parse as JSON on the client.
- A request line is a datatype: blank, malformed (with the parser's message), not an object, or an object whose
  values are a string, an unsigned or a signed 64-bit integer, or something else.
- `log::println` is called nowhere inside the log's own section, and no channel is destroyed inside a channel's; log
  calls and destructors may otherwise occur anywhere and any number of times.
- One thread (`-j1`) performs the check in `async_read` and the start of the wait as one step.

## Where the code is followed against its documentation

- A relayed message carries the raw text in `data` (server/src/server.cpp:374), not a nested JSON string
  (README.md:210-213). The classifier's legacy branch for untyped messages is modelled as it is.
- The fan-out writes to one channel after the other under the room mutex; there is no wait group (README.md:183).
- Expired `weak_ptr`s are skipped and never removed, and the room limit is never consulted.
- Nothing is relayed to the sender (server/src/server.cpp:373); the client stores its own copy.
- A `msg` to an existing room whose text is not a string throws and ends the session (server/src/server.cpp:595).

## Properties that fail, and exactly when they hold

| property | holds if and only if | lemma |
|---|---|---|
| no wake-up of the server is lost | no reader starts to wait on a channel that has something to do | `NeverLostIffNoneDisturbed` |
| at rest, a live subscriber has received all it is owed | the last wait of its listener, and of its session's writer, did not begin with something for it queued | `DrainIsComplete`, with `WakeUpLosesMessage` |
| in a channel's run, no wake-up of its reader is lost | every wait starts right after its check | `NoLostWakeUpIffUndisturbed`, with `LostWakeUpExample` |
| room ids are distinct | at most 2^64 rooms exist | `IdsDistinctIffNoWrap` |
| a negative id names no room | fewer rooms exist than its two's complement says | `NegativeIdResolvesIffHuge` |
| a line comes back from framing as it was | it has no newline and does not end in CR | `RoundTripIffSendable` |
| the client's references stay intact | a select or a non-empty send names a listed room | `IntegrityIffOnScreen` |
| local ids stay unique at a confirmation | the server's id is not another local room's | `ConfirmKeepsUniqueIffFresh` |
| a re-keyed room shows what it showed before | nothing was filed under the new id | `ViewKeptIffUnused` |

A close can also overtake a running fan-out, so that a closing subscriber misses the message of that fan-out; the
specification allows exactly this, only while the broadcast is under way and for its message only (`CloseOneCloses`), and
`CloseOvertakesFanOut` is a run in which it happens.

## Model

| member | source | states |
|---|---|---|
| `Refinement.FanOutRefinesAtomicBroadcast` | server/src/server.cpp:351-376 | Every schedule of the server, with any joins, reads, closes, expiries and other fan-outs between the turns of a fan-out, is a run of the atomic broadcast: one append to the room log and one enqueue to every open subscriber but the sender's |
| `Refinement.StepRefines` | server/src/server.cpp:351-376 | From every state that satisfies the invariant, each single step is the one legal atomic action it stands for, or leaves the abstract state alone |
| `Refinement.FanOneStutters` | server/src/server.cpp:371-376 | A turn of the fan-out loop is invisible: it hands a channel the message it was already seen to hold |
| `Refinement.UnlockEndsBroadcast` | server/src/server.cpp:371-376 | The release of the room mutex is the action that declares the broadcast over: nothing is pending any more |
| `Refinement.CloseOneCloses` | server/src/server.cpp:219-224 | A close withdraws at most the message of the broadcast under way in its room, and only if the loop had not reached that channel |
| `Scenario.CloseOvertakesFanOut` | server/src/server.cpp:371-376 | A reachable schedule in which a subscriber's close overtakes the fan-out: it is owed the message, and its closed channel will never hold it |
| `Refinement.UninterruptedFanOut` | server/src/server.cpp:371-376 | The loop of the step machine, run without interruption, writes to every entry of the room but the sender's and to no other channel: the contract of the in-place `FanOut` |
| `Refinement.ReachableSettled` | server/src/server.cpp:351-376 | In every reachable state an open subscriber has taken, or (in its queue or still to be written) is about to get, exactly what it is owed; a closed one a prefix of it |
| `AtomicBroadcast.ActKeepsSettled` | server/src/server.cpp:351-376 | Every atomic action keeps that account, whichever subscriber takes, joins or closes |
| `Delivery.Conservation` | server/src/server.cpp:517-555 | In every reachable state, for an open subscription: sent ++ in the writer's hand ++ write queue ++ in the listener's hand ++ room queue ++ still to be written by a running fan-out equals the room log from the join on without the owner's messages, entry by entry with its log position |
| `Delivery.ReceivedIsPrefix` | server/src/server.cpp:517-555 | In every reachable state, closes and socket failures included, what was sent for a room is a prefix of that filtered log: nothing lost in the middle, duplicated, reordered or echoed |
| `Delivery.ReachableBalanced` | server/src/server.cpp:517-555 | Every frame a write channel accepted is sent, in hand or queued; every frame is a reply or comes from a listener of that session and carries that room's name; listeners forward in order |
| `Drain.DrainTerminates` | server/src/server.cpp:517-555 | With any number of threads, from every reachable state, every schedule of the server's own steps comes to rest. If no wait of the whole schedule was disturbed, every live subscriber has then received all it is owed, every write channel whose sends succeeded, closed ones included, has sent all it accepted, and of ended sessions no coroutine runs and no channel is held; otherwise a live subscriber has received all if and only if the last wait of its listener, and of its session's writer, did not begin with something for it queued. With one thread all is delivered, sent and ended |
| `Drain.DrainIsComplete` | server/src/server.cpp:517-555 | The same for every schedule, of clients and server, that has come to rest |
| `Drain.NeverLostIffNoneDisturbed` | server/src/channel.hpp:40-55 | With any number of threads, no wake-up of any listener or writer is lost, at any moment of a schedule, if and only if no reader starts to wait on a channel that holds something or is closed |
| `Drain.StepLosesIff` | server/src/channel.hpp:52-55 | From a state in which nothing is lost, a step loses a wake-up if and only if it is such a wait |
| `Drain.OneThreadDelivers` | server/src/main.cpp:7-16 | A run of one thread with no step left for that thread is at rest for any number of threads, and has delivered and sent everything |
| `Scenario.WakeUpLosesMessage` | server/src/channel.hpp:40-55 | A reachable schedule of several threads that comes to rest with an open subscription, a working socket, and the one message it is owed unsent |
| `Drain.StepShrinks` | server/src/server.cpp:226-396 | Every step the server takes on its own, with any number of threads, lowers a lexicographic measure of requests ahead and messages per hop, pending wake-ups and unfinished work |
| `Drain.EnvironmentIsFree` | server/src/server.cpp:519-534 | The steps the server does not take on its own are possible at any time: a new client, any line or a hang-up for an idle session, success or failure for any send |
| `Drain.ReachableEndsClosed` | server/src/server.cpp:513-578 | In every reachable state a listener has ended only on a closed channel, and a writer without a failed send only on a closed and empty one |
| `Endings.ClosedListenerTakesNoMore` | server/src/server.cpp:537-555 | After a channel has been closed, whatever follows, its listener takes at most the one message it was reading: it starts no other read, and what is still queued is never forwarded |
| `Endings.SessionEndsIff` | server/src/server.cpp:397-411 | In every run a session runs its cleanup if and only if its peer hung up or sent a line that leaves; a refusal, a rejected message or a failed socket does not end it |
| `Endings.EndedIsServedNothing` | server/src/server.cpp:306-309 | After that no line is served to the session, in any continuation |
| `Endings.ExpiredStaysExpired` | server/src/server.cpp:542-545 | An expired `weak_ptr` stays expired: no step revives a channel whose last reference is gone |
| `Drain.RequestCanMove` | server/src/server.cpp:226-396 | A session in the middle of a request has an enabled step, or the holder of the room mutex it waits for has |
| `Drain.HolderCanMove` | server/src/server.cpp:351-376 | Whoever holds a room mutex has an enabled step: nothing is awaited inside the critical section |
| `Locks.ServerNeverDeadlocks` | server/src/server.cpp:351-376 | Any number of tasks of any run, each stopped between any two of its lock operations, with log calls and channel destructors anywhere: while one has an operation left, some task is not blocked |
| `Locks.EveryTaskIsDisciplined` | server/src/server.cpp:456-511 | In every run every task takes directory or room, channel and log mutexes in strictly rising rank, wherever and however often it logs or drops the last reference to a channel, and between steps holds none except a room mutex inside the broadcast section |
| `Locks.NoDeadlock` | server/src/server.cpp:351-376 | The general form: unboundedly many tasks that keep the lock order cannot all be blocked |
| `Locks.StepRises` | server/src/channel.hpp:14-46 | Each step's lock operations, filled up with any log calls and channel destructors, keep the order and leave its task holding what its new program point says |
| `Locks.FillKeepsOrder` | server/src/log.hpp:17-37 | Sections of the log and of a channel's destructor may be added at any point where nothing of their rank is held |
| `Locks.ChangesAreGuarded` | server/src/channel.hpp:19-46 | Every step changes a channel's contents, a room or the directory only under the mutex that guards it |
| `Locks.ReadsAreGuarded` | server/src/channel.hpp:19-46 | A step that does not hold a channel's mutex does not look at its contents either: with any other contents it does the same |
| `Locks.WriteReadsAreGuarded` | server/src/channel.hpp:19-46 | The same for the write channels |
| `Locks.HolderIsHolding` | server/src/server.cpp:351-376 | A room's mutex is held by the session its state names and by no other task |
| `Locks.SearchesIff` | server/src/server.cpp:499-511 | The directory mutex is taken to judge a line if and only if the decision rests on a search for its room |
| `Membership.ReachableInv` | server/src/server.cpp:219-411 | The membership invariant holds in every reachable state |
| `Membership.StepKeepsInv` | server/src/server.cpp:219-411 | Every step of every task keeps the membership invariant |
| `Membership.OnePlace` | server/src/server.cpp:456-466 | In every reachable state each channel stands at exactly one place of exactly one room's connection list |
| `Membership.OneChannelPerRoom` | server/src/server.cpp:437-443 | A session owns at most one channel per room |
| `Membership.MapsAgree` | server/src/server.cpp:353-373 | Outside the push-to-emplace window an entry of a connection list is the session's own if and only if it is the one in its subscription map, so `locked != curr_chan` excludes exactly the sender |
| `Membership.ExpiredIsClosed` | server/src/server.cpp:397-411 | A channel whose `weak_ptr` is expired has been closed before |
| `Membership.SkippingExpiredChangesNothing` | server/src/server.cpp:371-376 | In every reachable state a fan-out turn equals one that writes to every entry, dead or alive, but the sender's |
| `Guarantees.SubscribersAgree` | server/src/server.cpp:351-376 | In every run, for two subscribers of a room: of the entries after both joins that neither of them sent, what one has received is a beginning of what the other has received, and both are a beginning of all such entries of the log |
| `Guarantees.ReceivedIsLogged` | server/src/server.cpp:549-555 | What was received, frame by frame with its log position: ascending positions from the join on, the text of that entry, never the reader's own, and no entry left out before the last one received |
| `Guarantees.SendersKeepTheirOrder` | server/src/server.cpp:345-376 | A sender's messages stand in a room's log in the order its requests were served; at most the last one is still waiting for the mutex |
| `Guarantees.SendersReachInOrder` | server/src/server.cpp:345-376 | End to end: what a subscriber has received from a sender is a slice, without a gap, of what the sender's requests post to the room, in the order served, from the first one logged after the join |
| `Guarantees.OnlyMembersPost` | server/src/server.cpp:353-359 | A message is logged exactly when its sender is subscribed, and then the sender's channel is open and stands in the connection list |
| `Guarantees.SessionOutputIsAShuffle` | server/src/server.cpp:226-396 | A session's output is one reply stream, which is the fold of the handlers over the lines the schedule brought to it, each judged by the directory and subscriptions of its moment, shuffled with one ordered stream per subscription; every frame belongs to exactly one of them |
| `Guarantees.ServedIsTheSchedule` | server/src/server.cpp:226-238 | The lines served are those of the schedule's reads, in order; at most a `csub` waits for the directory |
| `Guarantees.RoomsAreForEver` | server/src/server.cpp:484-496 | In every run the ids are 1, 2, 3, ... in creation order (modulo 2^64), and a room keeps its id, name and position at all later moments |
| `Outputs.ReachableOrdered` | server/src/server.cpp:226-396 | Reply streams and room logs are folds over the lines served, in every reachable state |
| `Outputs.StepKeepsOrder` | server/src/server.cpp:226-396 | Every step keeps both folds, whichever session moves |
| `Channels.RefinesClosableQueue` | server/src/channel.hpp:24-57 | In every run, values read ++ queue equals the writes before the first close, and the channel is closed if and only if a close happened |
| `Channels.FailsOnlyClosedAndEmpty` | server/src/channel.hpp:47-50 | A read fails only after a close, when everything accepted has been read |
| `Channels.NoLostWakeUpIffUndisturbed` | server/src/channel.hpp:40-55 | No moment of a run has a parked reader with something to do if and only if every wait starts right after its check |
| `Channels.DisturbedWaitLoses` | server/src/channel.hpp:52-55 | A wait that starts later starts on a non-empty or closed channel, with nobody to resume it |
| `Channels.LostWakeUpExample` | server/src/channel.hpp:52-55 | The concrete run that loses a wake-up: check, write, wait |
| `Channels.ApplyAllQueues` | server/src/channel.hpp:24-36 | Any sequence of writes and closes appends exactly the writes before the first close |
| `Channels.Channel.Close` | server/src/channel.hpp:24-28 | Closes, resumes a parked reader, and keeps the queue |
| `Channels.Channel.Write` | server/src/channel.hpp:30-36 | Appends and resumes a parked reader; does nothing on a closed channel |
| `Channels.Channel.Release` | server/src/channel.hpp:14-14 | The last owner's release closes the channel, any other leaves it as it is |
| `Channels.Channel.AsyncRead` | server/src/channel.hpp:38-57 | Whatever the other tasks do during the wait: a value is the oldest one accepted and not read, failure means closed and empty, and a reader stays parked only when nothing happened |
| `ChatRooms.TcpChatRoom.Subscribe` | server/src/server.cpp:456-466 | A new channel stands at the end of the list, all others where they were |
| `ChatRooms.TcpChatRoom.FanOut` | server/src/server.cpp:371-376 | Although the loop skips expired entries, every entry ever pushed ends up as if written to, and the sender's unchanged |
| `ChatRooms.Directory.CreateRoom` | server/src/server.cpp:487-491 | The new room comes last with the next id; ids stay in creation order |
| `ChatRooms.Directory.TryFindRoom` | server/src/server.cpp:499-511 | The linear search finds the first room of that id, or none |
| `ChatRooms.FindIsIndexing` | server/src/server.cpp:499-511 | While ids have not wrapped around, searching for id n is indexing room n |
| `ChatRooms.IdsDistinctIffNoWrap` | server/src/server.cpp:488-490 | Ids are pairwise distinct if and only if at most 2^64 rooms exist |
| `ChatRooms.NegativeIdResolvesIffHuge` | server/src/server.cpp:609-623 | A negative id is parsed as its two's complement, and resolves if and only if that many rooms exist, so never below 2^63 rooms |
| `Coroutines.SpawnListener` | server/src/server.cpp:537-578 | On an open channel everything queued is forwarded, in order, and the listener waits; on a closed one it ends at once and leaves the queue unforwarded |
| `Coroutines.SocketWriter` | server/src/server.cpp:513-535 | Queued frames are sent in order, also after a close; the first failing send loses its own frame, ends the writer and leaves the rest queued |
| `Sessions.Session.HandleSub` | server/src/server.cpp:415-454 | Finds the room to join, or the refusal, of the decision function |
| `Sessions.Session.ParseMessage` | server/src/server.cpp:580-607 | Finds the room and text, the refusal, or the end of the session |
| `Sessions.Session.JoinRoom` | server/src/server.cpp:273-300 | The new channel is at the end of the room's list and in the session's map, the confirmation is written, and no existing channel changes |
| `Sessions.Session.CreateAndJoin` | server/src/server.cpp:468-497 | The directory gains exactly one room at its end, joined and confirmed under its new id |
| `Sessions.Session.Broadcast` | server/src/server.cpp:345-376 | A member's message goes to the room's other channels and to no other channel at all; a non-member gets one refusal and changes no channel |
| `Sessions.Session.Cleanup` | server/src/server.cpp:219-224 | Exactly the session's own channels are closed, with their queues kept |
| `Sessions.CloseAll` | server/src/server.cpp:220-222 | The loop closes each of the given channels and none of the others |
| `Sessions.Session.CarryOut` | server/src/server.cpp:271-383 | A decision changes the directory, every connection list, the subscriptions and every channel as it says and in no other way, and its reply is the one the step machine's fold assigns to it |
| `Sessions.Session.Serve` | server/src/server.cpp:226-396 | One line: the decision is the one the step machine makes, and it is carried out with all its effects and no others |
| `Sessions.BlankIffEmpty` | server/src/server.cpp:233-236 | A line is ignored before parsing if and only if it is empty after trimming |
| `Sessions.Session.SettlingTurn` | server/src/server.cpp:226-229 | One pass of the loop serves the next line of the stream: what was answered before and what was due then is what is answered and due after it |
| `Sessions.Session.Run` | server/src/server.cpp:226-411 | For every byte stream in arbitrary chunks the loop terminates; its replies are the fold of the decisions on the stream's lines, each made on what the earlier lines left, up to the first that ends the session; and every way out has closed all of the session's channels |
| `RequestLaws.LeavesIff` | server/src/server.cpp:306-309 | A line ends the session if and only if it is a `desub`, or a `msg` to an existing room whose text is not a string |
| `RequestLaws.SilentIff` | server/src/server.cpp:226-396 | A line gets no reply if and only if it is empty, a `desub`, a `msg` to an existing room whose text is not a string, or a string `msg` to an existing room the session is in; every other line gets exactly one |
| `RequestLaws.RefusedIff` | server/src/server.cpp:251-395 | For each of the thirteen refusals, the line's fields and the directory that make it the answer, in both directions |
| `RequestLaws.TextsDiffer` | server/src/server.cpp:251-395 | The thirteen texts are told apart, so that the text names the refusal |
| `RequestLaws.SubConfirmedIff` | server/src/server.cpp:295-300 | `sub_ok` with an id and a name is the answer if and only if a `sub` names the first room with that id, it has that name, and no room with that id is joined |
| `RequestLaws.CsubConfirmedIff` | server/src/server.cpp:332-337 | `csub_ok` with an id and a name is the answer if and only if a `csub` carries that name and the id is the next one |
| `RequestLaws.PostsIff` | server/src/server.cpp:580-607 | A line is accepted as a message if and only if it is a `msg` that names an existing room and carries that string |
| `RequestLaws.JoinsIff` | server/src/server.cpp:415-454 | A line starts a subscription if and only if it is a `sub` that names an existing room with the id of no room joined |
| `RequestLaws.CStrIff` | server/src/server.cpp:264-264 | A type read as a C string is the part before its first NUL, and nothing else |
| `RequestLaws.ParseIdIff` | server/src/server.cpp:609-623 | A value is parsed as an id if and only if it is that unsigned integer, or a signed one equal to it modulo 2^64 |
| `Framing.LineReader.ParseData` | server/src/server.cpp:165-202 | Returns the next line of the stream, without exactly its trailing newline and carriage returns, and consumes exactly it, whatever the chunks; end of file only when no newline is left |
| `Framing.LineReader.NextLine` | server/src/server.cpp:165-202 | In terms of lines: each read takes the first of the lines to come, and fails only when there are none |
| `Framing.TrimIff` | server/src/server.cpp:183-188 | Trimming gives the prefix that drops only newlines and carriage returns and ends in neither, and nothing else is that prefix |
| `Framing.LineReader.ReadAll` | server/src/server.cpp:226-229 | Repeated reads yield the lines of the whole stream: independent of the chunking |
| `Framing.LinesAreTrimmedPieces` | server/src/server.cpp:183-188 | Each line is the newline-free piece of the stream without its trailing carriage returns and with nothing else removed |
| `Framing.PiecesAreTheStream` | server/src/server.cpp:168-175 | The pieces, a newline after each, and the rest are the stream: no byte is lost or made up |
| `Framing.FrameThenLines` | server/src/server.cpp:165-202 | Framing newline-free lines that do not end in CR and reading them back returns them |
| `Framing.RoundTripIffSendable` | server/src/server.cpp:183-188 | A line survives framing and reading if and only if it has no newline and does not end in CR |
| `ClientState.AlwaysIntegral` | ui/src/main.rs:75-143 | After every sequence of operations and server events on listed rooms, every message's room and the selection are listed, under all duplicate names and colliding ids |
| `ClientState.IntegrityIffOnScreen` | ui/src/components/sidebar.rs:340-347 | An operation keeps integrity if and only if the room that a select or a non-empty send names is listed |
| `ClientState.ConfirmCreateKeepsIntegrity` | ui/src/main.rs:85-107 | Re-keying moves room, messages and selection together, even onto an id already taken |
| `ClientLaws.SelectionLaw` | ui/src/components/sidebar.rs:340-347 | For every operation, the selection after it: a click selects, leaving clears it only if it was on the room, the header and connecting clear it, a confirmed creation takes it along, nothing else moves it |
| `ClientLaws.RoomLaw` | ui/src/main.rs:75-143 | For every operation and every room, its name, id and unread count after it: a subscription's confirmation renames the first room with its id, a creation's re-keys the first of its name, a click clears, a message for a room not selected counts one on, and nothing else changes |
| `ClientLaws.NewRoomLaw` | ui/src/components/sidebar.rs:110-256 | Which operations add a room, and which: under the typed name or the placeholder, with nothing unread, at the end |
| `ClientLaws.NextIdLaw` | ui/src/components/sidebar.rs:118-121 | The provisional id is one more than the largest id in use, 1 if there is none |
| `ClientLaws.LeaveLaw` | ui/src/components/sidebar.rs:377-378 | Leaving removes the rooms with that id and keeps all the others as they are, in order |
| `ClientLaws.CreatedRoomIsConfirmed` | ui/src/components/sidebar.rs:110-152 | Creating and confirming under a fresh id lists the room last under the typed name and the server's id, with its opening message alone, and a message relayed under that name is filed there and counted |
| `ClientLaws.SubscribedRoomIsConfirmed` | ui/src/components/sidebar.rs:196-256 | Subscribing and confirming lists the room last under the typed id and the server's name, with its opening message alone, and a message relayed under that name is filed there and counted |
| `ClientViews.RekeyingPreservesViews` | ui/src/main.rs:83-107 | With unique ids and a fresh server id, no message is dropped, changed or reordered, the re-keyed room shows what it showed, all other views and the selection are unchanged, and ids stay unique |
| `ClientViews.ViewKeptIffUnused` | ui/src/main.rs:93-100 | The re-keyed room's view is kept if and only if nothing was filed under the new id |
| `ClientViews.RekeyMerges` | ui/src/main.rs:93-100 | Otherwise the view under the new id shows exactly the messages of both, each as often as before, in the order in which they were stored |
| `ClientViews.MergeKeepsOrder` | ui/src/main.rs:93-100 | In that merged view each of the two old views keeps its own order |
| `ClientViews.ConfirmKeepsUniqueIffFresh` | ui/src/main.rs:89-92 | A confirmation keeps ids unique if and only if the server's id is not another room's |
| `ClientViews.TidyRuns` | ui/src/components/sidebar.rs:110-152 | Ids stay unique and integrity holds in every run in which confirmed ids are fresh and the counter does not run over |
| `ClientViews.OneViewChanges` | ui/src/components/chat.rs:107-112 | Every other operation touches at most one view: it appends one message to it, or empties it |
| `ClientViews.NewRoomShowsItsOpening` | ui/src/components/sidebar.rs:123-134 | A room just entered is new and shows its opening message and nothing else |
| `ClientViews.UnreadIsExact` | ui/src/main.rs:134-141 | In every such run unread equals, modulo 2^32, the server messages stored for the room since it was last active |
| `ClientViews.UnreadIsBounded` | ui/src/main.rs:134-141 | Below 2^32 stored messages it is that number exactly, so at most what is stored, and zero for the active room |
| `ClientApp.App.RekeyMessages` | ui/src/main.rs:95-100 | In place, exactly the messages of the old id get the new one |
| `ClientApp.App.Retain` | ui/src/components/sidebar.rs:377-378 | The rooms and messages of the id go, the others stay in order |
| `ClientApp.App.OnServerEvent` | ui/src/main.rs:64-157 | Every event of the poller changes rooms, messages and selection as `HandleEvent` says, and errors and connection events change none of them |
| `ClientApp.App.OnRoomConfirmed` | ui/src/main.rs:75-117 | In place: a created room, its messages and the selection are re-keyed together; a subscribed room is renamed; an unknown room changes nothing |
| `ClientApp.App.OnMessage` | ui/src/main.rs:118-143 | The message is appended under the first room of the group's name and unread grows by one (modulo 2^32) unless that room is active; without such a room it is dropped |
| `ClientApp.App.DoCreate` | ui/src/components/sidebar.rs:110-152 | A room with the next provisional id, the typed name and nothing unread, and its opening message, are appended; an empty name or no connection changes nothing |
| `ClientApp.App.DoSubscribe` | ui/src/components/sidebar.rs:196-256 | A room of that id with a placeholder name and its opening message are appended; a known id, a bad input or no connection changes nothing |
| `ClientApp.App.SelectRoom` | ui/src/components/sidebar.rs:340-347 | The room is selected and the first room of that id has nothing unread |
| `ClientApp.App.UnsubscribeItem` | ui/src/components/sidebar.rs:366-391 | All rooms and messages of the id go; the selection is cleared only if it was on them |
| `ClientApp.App.UnsubscribeHeader` | ui/src/components/chat.rs:83-94 | All rooms and messages of the id go and the selection is cleared |
| `ClientApp.App.DoSend` | ui/src/components/chat.rs:167-193 | The text is appended as the client's own message, also when offline; an empty text changes nothing |
| `ClientApp.App.OnConnect` | ui/src/components/connect_screen.rs:68-82 | All rooms, messages and the selection are forgotten |
| `Network.FramesAreToldApart` | ui/src/network.rs:154-210 | Two frames that classify to the same event are the same frame, plain-text replies aside |
| `Network.ClassifyLaw` | ui/src/network.rs:154-210 | For every object a server could send, also without a type or with missing fields: which kind of event it is, and each of the event's fields with its fallback |
| `Network.ConfirmationIsUnderstood` | ui/src/network.rs:156-178 | A confirmation the server sends for a room is understood as that confirmation, with the room's id and name |
| `Network.DigitsDenote` | ui/src/network.rs:171-171 | The number in a placeholder name denotes the id, without leading zeros |
| `Compose.ClientKeepsPartOfTheLog` | ui/src/main.rs:118-132 | End to end, over a run of the server and a run of the client that has handled any part of what its TCP task sends: the server messages kept for a room are an in-order, duplicate-free part of that room's log after the join, without the client's own |
| `Compose.TaskTellsAPrefix` | ui/src/network.rs:22-75 | Whatever the TCP task reports about the connection, before, between, after or instead of the lines it reads, the messages and confirmations it sends on are a prefix of those on the socket |
| `Scenario.EndToEnd` | ui/src/network.rs:32-58 | A concrete run of both sides, from connecting to the relayed message in the client's list, meets every hypothesis of `ClientKeepsPartOfTheLog`, and the kept list is not empty |
| `Compose.ClientKeepsInOrder` | ui/src/main.rs:118-132 | What the client keeps of a room is, in order and without repetition, part of what it heard under the room's name |
| `ClientFiling.KeptIsFiled` | ui/src/main.rs:118-132 | In every run with unique ids the server messages kept for a room are exactly those relayed under its name while it was the first listed room of that name |
| `ClientFiling.NothingIsLost` | ui/src/main.rs:118-132 | From any moment on, as long as a room stays the first of its name and no room is left, the client keeps every message relayed under that name, in order, after what it had |
| `Compose.HeardIsForwarded` | server/src/server.cpp:549-555 | What a client hears under a room's name is what that subscription's listener forwarded |

## Left out

- Sockets, the acceptor, signal handling, thread-pool start-up and the lifetime of the socket reference held by the writer: a socket is an append-only output that may fail.
- Partial sends: a frame is sent whole, as assumed above.
- The text of JSON (Boost.JSON, serde), escaping, the parser's error messages, and trimming and number parsing of what a user types: requests, frames and user inputs are values.
- Asio's timers beyond a reader that is away, polling, between check and wait, or parked.
- Shared ownership in the step machine: a `weak_ptr` is expired when its session is done and its listener holds no reference; `Channel.Release` models the count itself.
- The coroutines of the step machine are steps on values, not methods, because they suspend in the middle; `Session`, `SpawnListener` and `SocketWriter` are the in-place forms without interleaving, in which no other task moves between two statements.
- Guarantees.SessionOutputIsAShuffle: does not claim that `sub_ok` precedes the first relayed message, which the code does not ensure.
- Compose.ClientKeepsPartOfTheLog: needs unique local ids, one subscribed room per name, and that a confirmation renames no room under whose old name messages have come, because the client files messages by room name.
- Overflow of the client's provisional id and unread count wraps around as in a release build; a debug build would stop instead.
- The client's line loop is modelled by what it sends on (ui/src/network.rs:32-75), not as a loop; its command channel to the TCP task (ui/src/network.rs:77-133), toasts, timestamps, avatars, connection status and rendering are left out.
- The log-only recipient count and the text of log messages; the log mutex is kept as a lock.
- The UDP files, which hold no behaviour, and the enforcement of a room limit, removal of expired entries and per-room unsubscribe, none of which the server does.
- Failing allocations.
