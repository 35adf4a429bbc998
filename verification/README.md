# A verified model of the messenger

A desktop messenger: clients and a server exchange JSON packets over TCP, the server stores messages in SQLite
and delivers them when their recipients are online, and each client keeps its own copy of its chats. This
Dafny project models what the packets, the delivery protocol, the server's state, the client's state and the
password hashing do, and proves what they guarantee. `dafny verify dfyconfig.toml` checks all of it.

The model follows the program's form. What the program does step by step is a method with its loops or a class
with its fields, proved against a function that says what the step means; the theorems are about those
functions and about whole runs of them. Tables are maps by primary key, the clock is a parameter that never
runs backwards, handlers are atomic.

| file | what it models |
|---|---|
| `Options`, `Numbers` | shared small definitions |
| `Bits`, `ShiftRegisters`, `Crc` | words as bounded integers with XOR; the checksum and its algebra |
| `Remainders` | the checksum as a remainder of polynomials |
| `Framing` | encoding, decoding from a shared buffer, the receive loops |
| `Tracking` | the table of unacknowledged packets and its retry schedule, the same on both ends |
| `Protocol`, `Endpoints` | sequence numbers, duplicates and acks; `NetworkTransportState`, `NetworkClient`, `Connection` |
| `Links` | two endpoints on one connection, every interleaving of sends, retries and deliveries |
| `IdOrder`, `MessageTable` | the order of messages, the message table, its times and queries |
| `ServerLogic`, `ServerEffects`, `Servers` | sessions, sign-in, message handling; classes `Server` and `ServerStorage` |
| `Answers` | what every event adds to every queue and table, without the functions that compute it |
| `Attendance`, `Credentials` | who is online, registered and able to sign in over whole runs, with the program's password hashing |
| `Delivery`, `Notices` | all clients, all connections and the server together, server restarts included; what clients are told |
| `Conveyance`, `Settling` | what is queued arrives; how a connection comes to rest |
| `Receipts`, `EarlyReceipts` | what read receipts do to the meaning of "delivered" |
| `ChatState`, `ChatStore` | the client's chat index, its copy on disk, the chat window |
| `Statuses` | the status of messages and the receipts sent, over whole runs of the chat window |
| `Clients` | chat windows on top of the whole system |
| `RateLimiting` | the fixed-window limiter with lazy pruning |
| `Passwords` | HMAC, PBKDF2 and the stored text of a hash |

## Main results

- **Delivery.** In every run of any number of clients with the server, a private message is marked delivered
  only if its recipient's client has dispatched exactly that message, or if it is marked read after a receipt for
  it was served; a pending message of an online user is on its way unless given up after five retries; once that
  user's connection is quiet nothing is pending; and no message a client dispatches is forged, altered or
  misdelivered (`Delivery`). From every state a signed-in user's connection can be brought to rest with nothing
  pending, if nobody is coming or going on it and nothing was given up (`Settling`). A sender told that a message
  was delivered can rely on it, and private histories reach only those who sent or were sent the messages
  (`Notices`).
- **Answers.** Every event is answered with exactly the packets, on exactly the connections, that `Answers` says in
  terms of the tables and of who is online: public messages to everybody online, notices to the sender, the newest
  messages of a chat in order. In every run all that is queued reaches its client in order while the connection
  lasts (`Conveyance`), who is signed in and registered follows from the sign-ins let in, and everybody online has
  last been told who is (`Attendance`).
- **Receipts.** "Delivered" means dispatched by the recipient's client exactly if no receipt is served for a message
  before that; if receipts are sent only for messages that have reached a client, delivered and read mean that a
  client of the recipient was told exactly that message (`Receipts`), and the program's chat windows send no others
  (`Clients`).
- **Protocol.** On one connection tracked packets are dispatched exactly once, in order, in both directions; an ack
  means that very packet was dispatched exactly if ids are not reused; every ping gets its pong; and every link can
  settle (`Links`). For one receiver on any stream at all, pings are answered one by one, exactly the packets
  numbered above all earlier ones are dispatched, and acks mean dispatched exactly if numbers first arrive in order
  (`Protocol`).
- **Framing.** However bytes are cut, packets come out whole and in order; one damaged byte behind a header costs
  exactly one frame (`Framing`, from the injectivity of the checksum in `Crc`). The checksum is the remainder by the
  CRC-32 generator (`Remainders`).
- **Chats.** Every view of a non-empty chat key is the sorted filter of the messages, after any operations; the
  store mirrors memory after every event, and reloading shows the same (`ChatState`, `ChatStore`). A message has, in
  memory and on disk, the status last given to it (`Statuses`).
- **Server state.** The two user maps are mutually inverse, attaching cannot fail after its check, online users
  have sessions until they expire, message times stay in order, a registered password keeps working while no
  other does, but for one with the same derived key, and a session resumes exactly with its last token
  (`ServerLogic`, `MessageTable`, `Credentials`).
- **Limits and passwords.** The sliding-window bound, that no call is denied before its key has had its quota within
  the last window, the exact retry time and the invisibility of pruning (`RateLimiting`); PBKDF2 and HMAC against
  their standards, and verification through the stored text (`Passwords`).

## Where the code promises less than it seems

The lemmas named say exactly when the stronger reading holds, or show the input on which it does not.

- `encodePacket` does not enforce the 262144-byte limit that `tryDecode` does (`Framing.Codec.RoundTrip`).
- Where `char` is signed, the checksum of a payload is standard CRC-32 exactly if its sign fills cancel out
  (`Crc.SignedCharDiffersBySignDefect`), which they do not for one character that is not ASCII
  (`Crc.OneCharacterIsNotStandard`). Between ends that agree it still detects every change of one byte; ends that
  differ reject each other's packets exactly in those cases (`Framing.Codec.OtherSignednessIsRejectedIff`,
  `Framing.Codec.OneCharacterIsRejected`).
- Acks name only the id. In every run with given sends an ack means that very packet was dispatched, exactly if no
  id is used twice (`Links.AcksAreExactIff`; the shortest failure is `Links.ReusedIdConfirmsTheUnseen`).
- The server believes any signed-in user's read receipt for any id. One served before the recipient's client has
  dispatched the message makes it count as delivered and read, so it is not sent when the recipient signs in
  (`Receipts.DeliveredIsDispatchedIff` gives the exact condition, `EarlyReceipts.StrangersReceipt` the run). A
  message is marked read exactly if it was stored when a receipt for it came (`Receipts.ReadExactlyByReceipts`),
  while the "read" notice goes out even for an id that is not stored (`EarlyReceipts.ReadNoticeOfNothing`).
- A frame lost to a checksum mismatch and resent after a later one is acknowledged but taken for a duplicate
  (`Protocol.AckMeansDispatchedIff`).
- The automatic reconnect keeps the client's mark while the server numbers from 1 again
  (`Protocol.ReconnectLosesBelowTheMark`), and what is left in its buffer, which does no harm exactly if that is
  empty (`Framing.Codec.HarmlessIff`; `Framing.Codec.LeftoverSwallowsTheNextStream` says what happens).
- Sequence numbers are read with `toInt()`, so from 2^31 on repeats are not recognised
  (`Protocol.RepeatsAreSuppressedBelowTwo31`).
- A message stored under the id of one already delivered is never pending (`MessageTable.StoredIsPendingIff`).
- A message moved out of the empty chat key stays in its list (`ChatState.EmptyKeyStaysExactIff`).
- The client's rows are keyed by message id alone, so one user's save can replace another user's row
  (`ChatStore.SavingKeepsOthersIff`); a message with an empty id is shown but never stored
  (`ChatStore.ReloadShowsTheSame`).
- Pruning can change a decision, and break the sliding bound, once a window is longer than 600001 ms
  (`RateLimiting.PruningIsInvisibleExactly`, `RateLimiting.SlidingWindowBoundExactly`); the server's windows are
  not.

## Assumptions

- JSON is a pair of functions with `fromJson(toJson(j)) == j`; SHA-256 is any function to 32 bytes; UTF-8 is any
  function from text to bytes; token hashes are any function from text to text.
- `Links` and `Delivery`: one TCP connection is a lossless first-in first-out channel, its client called
  `startConnection`, no frame on it fails its checksum or exceeds 262144 bytes, which a history of 200 long
  messages can, and neither end sends 2^31 tracked packets. A client gives each message a new UUID. Requests to a
  connection and its signals keep their order, as queued calls between Qt threads do.
- The rate limiter's clock is positive and never runs backwards, and a key is used with one rule.
- In `ChatStore` the clock is positive. In `Clients` a window shows a history while only its own user has signed in on
  the connection.

## Model

| member | source | states |
|---|---|---|
| Crc.ComputeCrc32 | Shared/transportprotocol.h:24-35 | the nested loops compute the bitwise register function, with the sign extension of `char` where the target has it |
| Crc.SingleByteChangesCrc | Shared/transportprotocol.h:24-35 | with either signedness, changing exactly one byte of a payload always changes its checksum |
| Crc.CrcAffine | Shared/transportprotocol.h:24-35 | for three payloads of one length, crc(a) ^ crc(b) ^ crc(c) == crc(a ^ b ^ c) |
| Crc.UnsignedCharIsStandard | Shared/transportprotocol.h:24-35 | where `char` is unsigned the checksum is the table-driven CRC-32 of section 8 of RFC 1952, for all payloads |
| Remainders.ChecksumIsTheRemainder | Shared/transportprotocol.h:24-35 | modulo 2, the complement of the checksum is the one polynomial of degree less than 32 that differs by a multiple of x^32+x^26+x^23+x^22+x^16+x^12+x^11+x^10+x^8+x^7+x^5+x^4+x^2+x+1 from the message after 32 bits set and before 32 bits clear, for all payloads where `char` is unsigned |
| Remainders.RemainderIsUnique | Shared/transportprotocol.h:29-32 | two polynomials of degree less than 32 that differ by a multiple of that one are equal |
| Crc.SignedCharDiffersBySignDefect | Shared/transportprotocol.h:27-28 | where `char` is signed the checksum is the standard one XOR a term that depends only on which bytes are 0x80 or more |
| Crc.AsciiIsStandard | Shared/transportprotocol.h:27-28 | on payloads of bytes below 0x80 both targets compute the standard CRC-32 |
| Crc.OneRunIsStandardIff | Shared/transportprotocol.h:27-28 | where `char` is signed, a payload whose bytes of 0x80 or more are adjacent gets the standard checksum exactly if a run of that length leaves nothing in a clear register, whatever the bytes are |
| Crc.OneCharacterIsNotStandard | Shared/transportprotocol.h:24-35 | a run of one to four such bytes, so one character that is not ASCII in UTF-8 anywhere in ASCII text, never has the standard checksum there |
| Framing.EncodePacket | Shared/transportprotocol.h:37-54 | the bytes written are the frame of the packet: size, payload, checksum |
| Framing.Codec.FrameLayout | Shared/transportprotocol.h:37-54 | a frame is its payload between four bytes that write the size, most significant first, and four that write the checksum |
| Framing.TryDecode | Shared/transportprotocol.h:66-113 | status, packet and the bytes left in the caller's buffer are those of the decoding function, on every buffer |
| Framing.Codec.RoundTrip | Shared/transportprotocol.h:37-113 | an encoded packet decodes to itself with nothing left over exactly if its payload is at most 262144 bytes; `encodePacket` does not enforce the limit |
| Framing.Codec.DecodeIsMonotone | Shared/transportprotocol.h:66-113 | a decision taken on a buffer is not changed by bytes that arrive behind it |
| Framing.Codec.ChunkingIsInvisible | Server/connection.cpp:114-150 | any chunking of a byte stream gives the same packets, errors and residual buffer; while open the buffer is shorter than one largest frame |
| Framing.Codec.DrainLeavesPartialFrame | Client/networkclient.cpp:220-250 | the loop stops open only on an incomplete frame, and closes exactly on an oversized one |
| Framing.Codec.PacketsSurviveTheWire | Client/networkclient.cpp:220-250 | at every moment the packets handed on are a prefix of those sent, whole and in order, and all of them once all bytes are in: a connection is a first-in first-out channel of packets |
| Framing.Codec.CorruptFrame | Shared/transportprotocol.h:96-103 | changing one byte of payload or checksum makes that frame report a checksum mismatch and consumes exactly that frame |
| Framing.Codec.OtherSignednessIsRejectedIff | Shared/transportprotocol.h:96-103 | a frame from an end whose `char` has the other signedness reports a checksum mismatch exactly if the payload's sign fills do not cancel out, and else decodes like an own one |
| Framing.Codec.OneCharacterIsRejected | Shared/transportprotocol.h:96-103 | so one character that is not ASCII makes such a frame report a checksum mismatch |
| Framing.Codec.LeftoverSwallowsTheNextStream | Client/networkclient.cpp:285-302 | a partial frame kept in the buffer over a reconnect takes the bytes it still misses from the new stream; the mixed frame is decoded as one and the stream is read on from the middle |
| Framing.Codec.HarmlessIff | Client/networkclient.cpp:220-250 | what is left in the buffer changes the reports of no stream that follows exactly if it is empty: after a reconnect even one byte left behind spoils some stream |
| Framing.Codec.Resynchronises | Shared/transportprotocol.h:66-113 | in a stream of frames, one changed byte behind a header makes exactly that frame fail; all frames before and after decode unchanged |
| Framing.Receiver.OnReadyRead | Server/connection.cpp:114-150 | the receive loop with its shared buffer does what draining the buffer prescribes, and terminates |
| Tracking.CollectRetryActions | Client/networktransportstate.cpp:124-149 | the loop that edits and erases while iterating leaves exactly the polled table, resends each due packet once as it was sent, and names each dropped id once, in some order |
| Tracking.PollPartitions | Client/networktransportstate.cpp:124-149 | each poll partitions the table into kept, resent and dropped packets, and changes no kept packet and no payload |
| Tracking.UnacknowledgedPacketFate | Server/connection.cpp:170-198 | an unacknowledged packet is resent exactly five times and then dropped, at least 94000 ms after it was sent and, with polls at most d apart, at most 94000 + 6d ms; whatever else the table holds |
| Tracking.HistoryIsFate | Client/networktransportstate.cpp:111-149 | other packets tracked, acknowledged or polled in between do not affect a packet's resends |
| Protocol.DispatchesExactlyTheNew | Client/networkclient.cpp:362-372 | under any loss, repetition or reordering an endpoint dispatches exactly the packets numbered above all before them, so dispatched numbers strictly increase |
| Protocol.EveryNumberedPacketIsAcked | Server/connection.cpp:236-246 | every numbered packet with an id is acknowledged on every arrival, duplicate or not |
| Protocol.PingsAreAnswered | Client/networkclient.cpp:357-360 | on any stream at all, in any state, a receiver sends as many pongs as it receives pings |
| Protocol.AckMeansDispatchedIff | Server/connection.cpp:236-248 | at every moment of any stream each ack sent is of a packet dispatched, exactly if packets first arrive in the order of their numbers and above the receiver's mark; a frame lost to corruption breaks it |
| Protocol.ReconnectLosesBelowTheMark | Client/networkclient.cpp:285-302 | after an automatic reconnect, which keeps the mark, a fresh sender's packets are all dispatched exactly if the mark is 0, though all are acknowledged |
| Protocol.RepeatsAreSuppressedBelowTwo31 | Client/networkclient.cpp:362-372 | whatever the mark, the second arrival of a packet is suppressed and acknowledged exactly if its number is below 2^31; above, it is read as 0, dispatched each time and never acknowledged |
| Endpoints.NetworkTransportState.StartConnection | Client/networktransportstate.cpp:13-25 | counters, tracked packets and buffer are reset |
| Endpoints.NetworkTransportState.ScheduleReconnect | Client/networktransportstate.cpp:65-76 | returns the next delay of the schedule, or -1 without counting an attempt when reconnecting is off |
| Endpoints.ReconnectDelayDoubles | Client/networktransportstate.cpp:8-8 | the reconnect delay starts at 1 s and doubles up to 32 s |
| Endpoints.NetworkTransportState.TrackTrackedPacket | Client/networktransportstate.cpp:111-117 | the packet is tracked under its id, replacing one with the same id, due in 2 s |
| Endpoints.NetworkTransportState.CollectTrackedRetryActions | Client/networktransportstate.cpp:124-149 | the field afterwards is the polled table; the lists are the resent payloads and dropped ids |
| Endpoints.NetworkClient.SendTracked | Client/networkclient.cpp:327-341 | the packet is numbered, tracked and written if connected; an empty id is replaced by the new one |
| Endpoints.NetworkClient.ProcessPacket | Client/networkclient.cpp:343-378 | state, replies and dispatched packets are those the protocol prescribes |
| Endpoints.NetworkClient.RetryPendingMessages | Client/networkclient.cpp:266-283 | due packets are written again, given up ids reported, and the connection dropped when no pong came for 15 s |
| Endpoints.Connection.SendTracked | Server/connection.cpp:67-84 | the packet is numbered, tracked and written if connected; an empty id is replaced by the new one |
| Endpoints.Connection.ProcessIncomingPacket | Server/connection.cpp:212-249 | state, replies and emitted signals are those the protocol prescribes; the closed signal stays unique |
| Endpoints.Connection.CheckPendingMessages | Server/connection.cpp:170-205 | due packets are written again, and the connection closes, notifying once, when no pong came for 15 s |
| Endpoints.Connection.NotifyClosedOnce | Server/connection.cpp:269-277 | the closed signal is emitted at most once |
| Links.DoKeepsSound | Client/networkclient.cpp:327-378 | every send, resend and delivery of either side keeps what both directions rely on: order without gaps, honest acks, tracked packets on their way or answered |
| Links.ExactlyOnceInOrder | Client/networkclient.cpp:343-378 | in every run of both endpoints, in both directions, the tracked packets dispatched are exactly the first ones sent, with their contents, in order and once each; the rest are in flight |
| Links.AcksAreTruthful | Server/connection.cpp:212-224 | in every run an acknowledged packet's id has been dispatched by the peer, and the very packet has if ids are not reused |
| Links.AcksAreExactIff | Client/networktransportstate.cpp:119-122 | for any list of packets sent: in every run that sends them every packet confirmed was itself dispatched, exactly if no two of them have one id |
| Links.ReusedIdConfirmsTheUnseen | Client/networktransportstate.cpp:119-122 | the shortest case: of two packets with one id the second is confirmed by the ack of the first, unseen by the peer |
| Links.RunsSettle | Server/connection.cpp:170-198 | once nothing is in flight nothing is tracked and everything sent has been dispatched, in both directions |
| Links.EveryLinkCanSettle | Server/connection.cpp:170-198 | from every sound link, delivering what is in flight and the replies comes to an end, with everything sent dispatched and nothing tracked, in both directions |
| Links.EveryPingGetsItsPong | Server/connection.cpp:207-234 | in every run, for either end, the pings it has sent are the pongs it has received and those pings and pongs in flight; so once nothing is in flight every ping has had its pong |
| IdOrder.LexLessIff | Client/chatstate.cpp:10-17 | of two ids the one comes first that ends, or has the smaller character, at the first place where they differ |
| IdOrder.BeforeTransitive | Client/chatstate.cpp:10-17 | the order by time and id is transitive |
| IdOrder.BeforeTotal | Client/chatstate.cpp:10-17 | of two different ids one comes before the other |
| IdOrder.SortedUnique | Client/chatstate.cpp:10-17 | a set of ids has only one sorted list |
| IdOrder.StableSortIsSortSet | Client/chatstate.cpp:180-186 | sorting a list without duplicates gives the sorted list of its set, whatever order it was in |
| ChatState.ChatSessionState.UpsertMessage | Client/chatstate.cpp:82-118 | map and lists afterwards are those of the upsert function; returns the message as stored |
| ChatState.ChatSessionState.UpdateMessageStatus | Client/chatstate.cpp:130-151 | status and, if given, time are changed and the chat re-sorted; an unknown id changes nothing and is reported |
| ChatState.ChatSessionState.MessagesForChat | Client/chatstate.cpp:153-161 | returns the stored messages of the chat's list in order |
| ChatState.ChatSessionState.MarkIncomingMessagesRead | Client/chatstate.cpp:163-178 | exactly the unread incoming messages of the chat become read and are returned, in order |
| ChatState.ChatSessionState.EnsurePrivateDialog | Client/chatstate.cpp:60-69 | adds a dialog once, unless it is empty, the user or Broadcast |
| ChatState.UpsertKeepsIndexed | Client/chatstate.cpp:82-118 | an upsert, moving or re-timing a message as it may, leaves every non-empty chat's list sorted, without duplicates and exact |
| ChatState.UpsertStoresWhatIsGiven | Client/chatstate.cpp:82-105 | an upsert stores the message exactly as given, but for a chat key or a time that is missing, and changes no other message |
| ChatState.StatusIsSet | Client/chatstate.cpp:130-151 | a status change gives the message of that id exactly the given status, and the given time if positive; its other fields and all other messages stay |
| ChatState.ReadingMarksTheUnread | Client/chatstate.cpp:163-178 | reading a chat makes each incoming message listed there read and changes nothing else; the messages returned are those that were not read, each once |
| ChatState.UpdateStatusKeepsIndexed | Client/chatstate.cpp:130-151 | so does a status change with or without a new time |
| ChatState.ViewIsSortedFilter | Client/chatstate.cpp:82-186 | after any sequence of operations the view of a non-empty chat key is the sorted list of exactly the messages with that key |
| ChatState.EmptyKeyStaysExactIff | Client/chatstate.cpp:107-109 | an upsert keeps the empty key's list exact exactly if it does not move a message out of the empty key |
| ChatState.ViewsDependOnLastUpserts | Client/chatstate.cpp:82-118 | views after complete upserts depend only on the last one of each id |
| ChatState.UpsertsCommute | Client/chatstate.cpp:82-118 | complete upserts of different ids commute and a repeated one changes nothing, from any state |
| ChatStore.HistoryStore.LoadMessages | Client/historystore.cpp:73-104 | returns the owner's rows of the chat in order of time and id |
| ChatStore.HistoryStore.LoadDialogs | Client/historystore.cpp:106-128 | returns each chat key of the owner's rows but Broadcast once |
| ChatStore.HistoryStore.ClearUserData | Client/historystore.cpp:130-140 | deletes exactly the owner's rows |
| ChatStore.ChatWindow.AppendMessage | Client/chatwindow.cpp:438-447 | upserts in memory and writes the stored message through for the signed-in user |
| ChatStore.ChatWindow.OnMessageStatus | Client/chatwindow.cpp:37-45 | writes the changed message through; an unknown id changes nothing |
| ChatStore.ChatWindow.MarkCurrentPrivateMessagesRead | Client/chatwindow.cpp:467-485 | online and in a private chat: marks, saves and sends a receipt for exactly the newly read messages |
| ChatStore.ChatWindow.LoadLocalHistory | Client/chatwindow.cpp:413-436 | loads Broadcast and every dialog from the store |
| ChatStore.ChatWindow.ActivateSession | Client/chatwindow.cpp:54-75 | reloads only when the user changes |
| ChatStore.ChatWindow.DeactivateSession | Client/chatwindow.cpp:77-86 | forgets user and messages, leaves the store |
| ChatStore.StepKeepsSynced | Client/chatwindow.cpp:293-317 | every append, queued, delivered, read, open-chat, sign-in, sign-out and logout event keeps memory and store together |
| ChatStore.StoreMirrorsMemory | Client/chatwindow.cpp:438-485 | after every event of every run the signed-in user's rows are exactly the messages in memory, but for one with an empty id |
| ChatStore.LoadRebuilds | Client/chatwindow.cpp:413-436 | loading from an empty state rebuilds exactly the user's rows, whatever the order of the dialogs |
| ChatStore.ReloadShowsTheSame | Client/chatwindow.cpp:54-86 | signing out and in again shows each non-empty chat exactly as before, exactly if it had no message with an empty id |
| ChatStore.LeavingKeepsSynced | Client/historystore.cpp:130-140 | logging out removes the user's rows and no other user's |
| ChatStore.SavingKeepsOthersIff | Client/historystore.cpp:57-60 | saving for one user keeps another user's rows exactly if none of them has the same message id: rows are keyed by id alone |
| Statuses.StepGives | Client/chatwindow.cpp:293-317 | after any event in a session a message has exactly the status the event gives it, or the one it had if the event gives none |
| Statuses.StatusIsTheLastGiven | Client/chatwindow.cpp:438-485 | in every run, for as long as a user stays signed in, a message with an id has in memory and on disk exactly the status that the last event to give it one gave it |
| Statuses.OpeningSendsReceipts | Client/chatwindow.cpp:467-485 | opening a private chat online sends one receipt each for exactly its incoming messages that were not read, after which none is unread; otherwise nothing happens |
| Statuses.LastSessionDecides | Client/chatwindow.cpp:54-86 | in every run who is signed in, online or offline, is decided by the last activation, deactivation or logout |
| RateLimiting.RateLimiter.Allow | Server/ratelimiter.cpp:11-42 | entries and decision are those of the counting function, pruning included |
| RateLimiting.RateLimiter.PruneExpiredEntries | Server/ratelimiter.cpp:49-59 | the erase-while-iterating loop removes exactly the entries unused for more than ten minutes |
| RateLimiting.PruningIsInvisible | Server/ratelimiter.cpp:18-20 | on a key with a window of at most ten minutes the limiter decides as one that never prunes, whatever other keys and rules are used |
| RateLimiting.PruningIsInvisibleExactly | Server/ratelimiter.cpp:49-59 | pruning never changes a decision exactly if the window is at most 600001 ms |
| RateLimiting.SlidingWindowBound | Server/ratelimiter.cpp:22-41 | every half-open interval of one window sees at most 2 * maxHits - 1 allowed calls of a key whose window is at most 600001 ms, whatever the other keys |
| RateLimiting.SlidingWindowBoundExactly | Server/ratelimiter.cpp:49-59 | for one rule this bound holds in every run exactly if the window is at most 600001 ms; above, pruning lets more calls through |
| RateLimiting.SlidingWindowBoundIsTight | Server/ratelimiter.cpp:22-41 | for every rule with a window of at least 2 ms the program's limiter has a run that reaches this bound |
| RateLimiting.CountingWindowBound | Server/ratelimiter.cpp:22-41 | after any calls of any keys, each counting window a call then opens sees at most maxHits allowed calls of its key |
| RateLimiting.RetryAfterIsExact | Server/ratelimiter.cpp:32-37 | after a denial the key's calls before the retry time are denied and the first at or after it is allowed, whatever other keys and rules are used |
| RateLimiting.DenialsAreEarned | Server/ratelimiter.cpp:11-42 | in every run a call is denied only under a rule that limits, and only after maxHits calls of its key have been allowed within the last window, whatever the window and the other keys |
| RateLimiting.ReportedSecondsSuffice | Server/server.cpp:648-651 | the seconds reported are the least whole number not shorter than the retry time |
| RateLimiting.ServerRulesAreNeverDisturbed | Server/server.cpp:26-31 | none of the server's six rules is affected by pruning |
| MessageTable.TimesStayInOrder | Server/serverstorage.cpp:240-282 | over any stores, re-stores, acks and receipts with a clock that never runs backwards, created_at <= delivered_at <= read_at, read implies delivered, delivery times never change and the status never moves backwards |
| MessageTable.NewestAreTheLast | Server/serverstorage.cpp:310-320 | the nested newest-first query returns exactly the last min(max(1, limit), n) entries of the full order |
| MessageTable.SmallerLimitIsSuffix | Server/serverstorage.cpp:341-360 | a smaller limit returns the end of what a larger one returns |
| MessageTable.HistoryIsSymmetric | Server/serverstorage.cpp:341-360 | both users of a dialog get the same history |
| MessageTable.PendingUntilMarked | Server/serverstorage.cpp:384-410 | a message is pending for its recipient, and nobody else, exactly until marked delivered or read; other messages are unaffected |
| MessageTable.StoredIsPendingIff | Server/serverstorage.cpp:246-253 | a stored message is pending exactly if no delivered message has its id |
| MessageTable.SelectAscending | Server/serverstorage.cpp:384-392 | rows found in any order come out as the sorted list of their set |
| MessageTable.LoadPrivateHistory | Server/serverstorage.cpp:341-382 | the records are those of the history query with the status derived from the times |
| MessageTable.LoadPendingPrivateMessages | Server/serverstorage.cpp:384-410 | returns the pending list in order of time and id |
| ServerLogic.AttachSucceeds | Server/server.cpp:150-186 | in a consistent state attaching fails exactly if the earlier check fails, so never after it has passed |
| ServerLogic.VerifyKeepsGood | Server/serverstorage.cpp:84-189 | registering, logging in and resuming keep accounts and sessions consistent, and an accepted user has the session just issued |
| ServerLogic.ResumesIff | Server/serverstorage.cpp:145-189 | a session is resumed exactly with a token that hashes like the one last issued and until seven days after it was issued; resuming ends the old token unless the new one hashes alike; an ended session is refused |
| ServerLogic.SignInKeepsGood | Server/server.cpp:261-365 | signing in, with or without switching users, keeps the two user maps mutually inverse and online users with sessions |
| ServerLogic.UnregisterKeepsGood | Server/server.cpp:852-858 | so do logging out and closing |
| ServerLogic.ServeKeepsGood | Server/server.cpp:668-729 | so does every event |
| ServerLogic.EveryReachableStateIsGood | Server/server.cpp:150-377 | in every state reachable from a start on any valid database the user maps are mutually inverse, online users are registered, and each has the session row last issued unless expired |
| Credentials.LoginIff | Server/serverstorage.cpp:84-143 | after registering, and whatever the server serves meanwhile, a login is accepted exactly with a password that derives the registered password's key |
| Credentials.TokenResumesIff | Server/serverstorage.cpp:145-189 | in every run from any valid database a session is resumed exactly with a token that hashes like the one last issued to the user, until it expires, unless the user has logged out or been replaced on the connection since |
| Answers.PublicReachesEverybody | Server/server.cpp:422-478 | a public message let through is stored and goes, reliably and as sent, to exactly the connections of the users online; a refused one is stored nowhere and its sender alone is told |
| Answers.PrivateIsStoredOrRefused | Server/server.cpp:480-568 | a private message is refused for the first reason that applies, told to its sender alone, or stored with its time; then it goes reliably to the recipient if online, or its sender alone is told that it waits |
| Answers.AckedTellsTheSender | Server/server.cpp:691-722 | an acknowledged private packet marks its message delivered now unless it already was, and exactly one notice goes to the sender it names, exactly if online; no other ack does anything |
| Answers.ReceiptTellsTheNamed | Server/server.cpp:570-598 | a receipt let through marks the stored message read, and delivered unless it already was, and exactly one notice goes to the user it names, exactly if online |
| Answers.DialogsAreTheCorrespondents | Server/serverstorage.cpp:284-308 | the dialogs listed are exactly the users with whom the asking one has a stored message, either way |
| Answers.HistoryIsTheNewest | Server/server.cpp:773-806 | a history is answered on its connection alone, with min(max(1, min(limit, 200)), n) of the n messages of the chat, ascending by time and id, each field by field as stored with the status its times give; each message left out is earlier than all of them |
| Answers.LookupTellsWhoIsThere | Server/server.cpp:379-406 | a lookup is answered with whether the user is registered and whether online, or with an error if not let through |
| Answers.StrangersMustSignIn | Server/server.cpp:668-679 | a packet other than a sign-in from a connection without a user is answered with an error and changes nothing |
| Answers.OtherPacketsDoNothing | Server/server.cpp:681-689 | packets of any other type change and answer nothing |
| Answers.SignInAdmits | Server/server.cpp:261-365 | signing in succeeds exactly with a valid new name and password of eight characters, the right password, or the token of an unexpired session, unless online elsewhere; then the user is online there in place of the former one and has a session of seven days, and otherwise nobody's standing changes |
| Answers.SignInAnswers | Server/server.cpp:188-196 | whoever is let in is sent, in order, the new token, who is online, the correspondents and each waiting message once, oldest first, and everybody else online who is online; whoever is not is told the first reason that applies |
| Answers.LogOutAnswers | Server/server.cpp:367-377 | logging out ends the session, takes the user off, tells everybody still online and closes the connection |
| Answers.ClosingAnswers | Server/server.cpp:724-729 | the end of a connection takes its user off and tells everybody still online; the session stays |
| Attendance.SignedInIff | Server/server.cpp:167-186 | in every run a user is signed in on a connection exactly if some event signed the user in there and no later one signed the user out there |
| Attendance.RegisteredIff | Server/serverstorage.cpp:84-114 | in every run the registered users are exactly those of the start and those whose registration was let in |
| Attendance.EverybodyKnowsWhoIsOnline | Server/server.cpp:825-845 | in every run the last user list sent to each connection on which somebody is online names exactly the users online |
| ServerEffects.ServeExtends | Server/serverstorage.cpp:240-260 | with unused message ids no event changes the sender, recipient, text or creation time of a stored message |
| ServerEffects.StoredByItsSender | Server/server.cpp:480-543 | a message is stored only by a message packet with its id, from the user signed in on that connection, with that packet's recipient and text |
| ServerEffects.DeliveredExactlyBy | Server/server.cpp:570-709 | a stored message becomes delivered exactly by the ack of a private packet with its id or by a signed-in user's read receipt for it that the limiter lets through, and read exactly by the receipt |
| ServerEffects.ServeSendsOnlyStored | Server/server.cpp:545-567 | every event sends reliably only stored messages with their stored contents, private ones only to a connection where the recipient is signed in; a delivered notice goes only to the sender of the message acknowledged, a read notice names the user whose receipt is served, and a private history holds the asking user's stored messages |
| ServerEffects.ServeForgetsNobody | Server/server.cpp:808-823 | after every event a pending message of an online user was already waiting on the same connection or has just been queued for it |
| ServerEffects.ServeKeepsTimes | Server/serverstorage.cpp:262-282 | every event keeps the times of all rows in order and their status from moving backwards |
| Servers.ServerStorage.RegisterUser | Server/serverstorage.cpp:84-114 | adds the user with the password's hash and issues a session, or refuses with the first failed condition and changes nothing |
| Servers.ServerStorage.LoginUser | Server/serverstorage.cpp:116-143 | checks the password against the stored hash and issues a session, or refuses with the first failed condition and changes nothing |
| Servers.ServerStorage.ResumeSession | Server/serverstorage.cpp:145-189 | removes an expired session, refuses a token whose hash differs, or issues a new session |
| Servers.ServerStorage.IssueSession | Server/serverstorage.cpp:568-601 | replaces the user's session by one with the new token that expires in seven days |
| Servers.ServerStorage.StorePrivateMessage | Server/serverstorage.cpp:240-260 | inserts the row, or replaces sender, recipient and text of an existing one and keeps its times |
| Servers.ServerStorage.StoreBroadcastMessage | Server/serverstorage.cpp:221-238 | inserts the row, or replaces sender and text of an existing one and keeps its time |
| Servers.ServerStorage.MarkMessageDelivered | Server/serverstorage.cpp:262-269 | sets the delivery time only if it is not set |
| Servers.ServerStorage.MarkMessageRead | Server/serverstorage.cpp:271-282 | sets the read time, and the delivery time if it is not set |
| Servers.Server.CanStartAuthenticatedSession | Server/server.cpp:150-165 | false exactly if the user is online on another connection |
| Servers.Server.AttachAuthenticatedSession | Server/server.cpp:167-186 | signs the present user out if another signs in, and attaches or fails as prescribed |
| Servers.Server.FinalizeAuthenticatedSession | Server/server.cpp:188-196 | queues the answer, the user list for all, the dialogs and every pending message |
| Servers.Server.SendPendingPrivateMessages | Server/server.cpp:808-823 | queues exactly the pending messages, in order |
| Servers.Server.SendToAll | Server/server.cpp:825-845 | queues one item for each online user's connection |
| Servers.Server.HandleRegisterPacket | Server/server.cpp:261-295 | does what signing in prescribes, on every path |
| Servers.Server.HandleLoginPacket | Server/server.cpp:297-331 | does what signing in prescribes, on every path |
| Servers.Server.HandleResumeSessionPacket | Server/server.cpp:333-365 | does what signing in prescribes, on every path |
| Servers.Server.HandleLogoutPacket | Server/server.cpp:367-377 | ends the session, unregisters, announces and asks the connection to close |
| Servers.Server.HandleBroadcastPacket | Server/server.cpp:422-478 | refuses, or stores and sends to every online user |
| Servers.Server.HandlePrivatePacket | Server/server.cpp:480-568 | refuses in the program's order of conditions, or stores and sends or reports queued |
| Servers.Server.HandleReadPacket | Server/server.cpp:570-598 | marks read and tells the named user if online |
| Servers.Server.LoadBroadcastHistory | Server/serverstorage.cpp:310-339 | returns the newest broadcast messages in ascending order |
| Servers.Server.SendHistory | Server/server.cpp:773-806 | answers with the history of the chat asked for, or an empty one |
| Servers.Server.OnPacketReceived | Server/server.cpp:668-689 | dispatches to the handlers as prescribed and keeps the user maps mutually inverse |
| Servers.Server.OnTrackedPacketAcknowledged | Server/server.cpp:691-722 | marks an acknowledged private message delivered and tells its sender if online |
| Servers.Server.OnConnectionClosed | Server/server.cpp:724-729 | unregisters the connection and announces the users left |
| Delivery.DoKeepsInv | Server/server.cpp:480-729 | every step of the composed system keeps its invariant: connect, send, ping, resend, deliver, disconnect, flush a queue, handle a signal, restart the server |
| Delivery.DeliveredMeansDispatched | Server/server.cpp:691-722 | in every run a message is marked delivered only if its recipient's client has dispatched exactly the stored message, or if it is marked read and some step of the run served a signed-in user's receipt for it; until then it is pending |
| Delivery.PendingIsOnItsWay | Server/server.cpp:808-823 | in every run a pending message of an online user is queued for the connection, tracked by it, acknowledged and about to be marked, or given up after five retries |
| Delivery.SettledMeansDelivered | Server/server.cpp:691-722 | once a signed-in user's connection has nothing queued, in flight or unhandled and gave nothing up, no message is pending for that user |
| Settling.EverybodyCanBeServed | Server/server.cpp:808-823 | from every state of every run, a user signed in on an open connection that gave nothing up and on which nobody is coming or going can be served: some deliveries, flushes and handlings end with nothing pending for that user |
| Conveyance.EverythingQueuedArrives | Server/server.cpp:737-756 | in every run, while a connection lasts, nothing queued for it is lost, altered, repeated or overtaken by a later packet of its kind; once nothing is queued or in flight the client has dispatched it all, in order |
| Conveyance.AnswerArrives | Server/server.cpp:737-756 | in every run whatever an event adds to the queue of a connection is then queued, in flight or dispatched there while the connection lasts |
| Conveyance.PublicArrivesEverywhere | Server/server.cpp:465-477 | in every run, when a public message is stored, a packet with the stored message is from then on queued, in flight or dispatched at every user then online, while that connection lasts |
| Conveyance.DeliveredNoticeArrives | Server/server.cpp:709-721 | in every run, when an ack makes a message delivered while its sender is online, its notice is from then on queued, in flight or dispatched at the sender, while that connection lasts |
| Conveyance.ReadNoticeArrives | Server/server.cpp:589-597 | in every run a read notice for a receipt served is from then on queued, in flight or dispatched at the user the receipt names if online, while that connection lasts |
| Delivery.DispatchedIsAuthentic | Server/server.cpp:422-567 | in every run each numbered packet a client dispatches is a public or private message that was sent, with that text and to that recipient, by a client whose connection had signed in as the named sender, and a private one arrives only where the recipient had signed in |
| Delivery.RunsStayGood | Server/server.cpp:150-186 | in every run of the whole system, restarts included, user maps, sessions and message times stay consistent |
| Notices.DoKeepsTrue | Server/server.cpp:668-729 | every step of the composed system keeps true what all packets queued, in flight and dispatched tell clients about private messages |
| Notices.NoticesAreTrue | Server/server.cpp:711-721 | in every run: a client told that a message was delivered has hosted its sender, and the recipient named has dispatched exactly that message; a client told that one was read is told so only after a receipt from the user named, and it is marked read if it was stored by then; a private history holds only stored messages sent by or to a user of that client |
| Receipts.StepTrulyIff | Server/server.cpp:570-598 | a step makes a message count as delivered before its recipient's client has dispatched it exactly if it serves a receipt for it while it is stored and not dispatched |
| Receipts.DeliveredIsDispatchedIff | Server/server.cpp:570-598 | in every run "delivered" always means dispatched by the recipient's client exactly if no such receipt is ever served |
| Receipts.ReadExactlyByReceipts | Server/serverstorage.cpp:271-282 | in every run a message is marked read exactly if some step served a signed-in user's receipt for it while it was stored |
| EarlyReceipts.AnyonesReceiptDelivers | Server/server.cpp:570-598 | from any reachable state a user signed in on an idle connection can make any stored message count as delivered and read, so that it is not pending for its recipient, whose client has not dispatched it |
| EarlyReceipts.StrangersReceipt | Server/server.cpp:570-598 | from the first start, for any two users who can sign in and a third one who is away, there is a run in which the first writes to the third and the second one's receipt does this |
| EarlyReceipts.ReadNoticeOfNothing | Server/server.cpp:589-597 | a user signed in on an idle connection can make the server send any user online a read notice for an id that is not stored |
| Receipts.HonestReceiptsMeanReceived | Client/chatwindow.cpp:467-485 | if receipts are sent only for messages that reached a client, as a packet or in a private history from their sender, then in every run a message counts as delivered only once a client of its recipient has been told exactly it, and a read notice is only of such a message, marked read |
| Clients.ClientsReceiptsMeanReceived | Client/chatwindow.cpp:240-485 | clients whose chat windows show what their connections dispatch and send the receipts the program sends, over restarts and reconnects, meet that restriction: in every run of them a message counts as delivered only once a client of its recipient has been told exactly it, and a read notice is only of such a message, marked read |
| Passwords.HmacSha256 | Server/serverstorage.cpp:504-528 | the padding loop computes HMAC as in section 2 of RFC 2104, for keys shorter, equal and longer than a block |
| Passwords.DeriveBlock | Server/serverstorage.cpp:538-548 | the inner loops compute the function F of section 5.2 of RFC 8018; counts below 1 count as 1 |
| Passwords.DerivePbkdf2 | Server/serverstorage.cpp:530-556 | the nested loops compute PBKDF2 as in section 5.2 of RFC 8018, for all passwords, salts, counts and key lengths; a negative length gives an empty key |
| Passwords.ConstantTimeEquals | Server/serverstorage.cpp:29-41 | or-ing all differences decides equality exactly |
| Passwords.HexRoundTrip | Server/serverstorage.cpp:472-473 | every byte string survives its hexadecimal text |
| Passwords.DecimalRoundTrip | Server/serverstorage.cpp:483-484 | every count an int holds survives its decimal text |
| Passwords.HashTextRoundTrip | Server/serverstorage.cpp:465-489 | the stored text reads back as the count, salt and key it was made of |
| Passwords.HashPassword | Server/serverstorage.cpp:465-474 | returns the text of the derived key with 120000 iterations and a 16-byte salt |
| Passwords.VerifyPassword | Server/serverstorage.cpp:476-493 | true exactly if the text is well-formed and the password derives the stored key |
| Passwords.VerifiesIffSameKey | Server/serverstorage.cpp:465-493 | a password is accepted against another's hash exactly if both derive the same key; its own hash always accepts it |

## Left out

- Sockets, worker threads, timers and Qt signal delivery: only their order is kept, as stated above.
- Delivery over the automatic reconnect and over damaged frames: the guarantees do not hold there, as the lemmas named above show; runs of `Links` and `Delivery` do not contain them.
- JSON syntax, SHA-256, random numbers and UUIDs: parameters, as stated above.
- SQLite connections, schemas and failures: operations on tables succeed.
- The server's limiter inside `Server`: handlers receive its decision; the limiter is proved on its own in `RateLimiting`.
- The trimmed-length check of message texts inside `Server`: handlers receive its outcome. Password checks and token hashes are functions the handlers receive; `Credentials` puts the program's own password hashing in.
- Trimming of user names: names arrive trimmed.
- Error texts: refusals carry a reason instead.
- Servers.ServerStorage.ResumeSession: the second expiry check of the program is not there, because one clock reading per request makes it redundant.
- Servers.Server.SendDialogList: the dialog list is a set; its order without regard to case is left out, as are the display lists of dialogs and online users in the client.
- ChatStore.HistoryStore.LoadDialogs: the order of the dialogs is left open, for the same reason; no result depends on it.
- IdOrder.LexLess: the model compares code points, QString compares UTF-16 code units and SQLite UTF-8 bytes; all three agree on the ASCII ids the program makes.
- Passwords.ToInt: white space around the number is not skipped; the program never writes any.
- Endpoints.NetworkClient.ProcessPacket: what the packet dispatcher does with a packet, and its error for an invalid one, is not modelled; handing it on counts as dispatching.
- Delivery: a client may send any receipt, as the server accepts; only `Receipts.HonestReceiptsMeanReceived` and `Clients` restrict it.
- The last-session table, connection and login windows, widgets, `clientflowcontroller.cpp` and `clientflowstate.cpp`: user interface and flags, except that logging out ends the session before it deletes the user's rows.
- Host and port, ping timers, the logger and command lines: plumbing.
