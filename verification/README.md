# The io_uring SOCKS5 server, verified

A model of the SOCKS5 proxy server in `hw2-socks5-server`: one `IoUring` event
loop that serves any number of clients, each through a `Session` that reads a
handshake piece by piece, connects to a destination and then relays bytes both
ways. Sessions are created and deleted by hand, kept alive by a hand-kept event
counter, and draw on two free lists, one of events and one of buffer slots. The
kernel may complete the pending requests in any order and with any result that
it may give; all theorems hold for every such run.

`dafny verify dfyconfig.toml` checks the whole project.

## How it is built

- `Socks5`, `SessionSpec`, `ServerSpec`: the data, and every operation of the
  source as a function: the session's handlers from `read_some_from_client` to
  the loop body, the event pool, accepting, deleting, one turn of the loop, and
  runs. A `Crash` outcome stands for every place where the program would stop
  or leave its memory (failed assertion, null socket, closing descriptor -1,
  index past a vector, counter or size below zero, empty event pool, dangling
  session). Assertions are taken as enabled.
- `OneShot`: the independent definition that the incremental reader is measured
  against: what sections 3 to 6 of RFC 1928 (with the server's own choices) make
  of the whole byte stream, with no buffer and no state. Also the client's
  encoders and the decoder of replies.
- `Wire`: an observer's record of what went over each connection. Nothing in the
  server depends on it.
- `HandshakeProof`, `SessionProof`, `RelayProof`: each completion keeps the
  invariant of one session. `RingProof`: the event pool. `Safety`: the invariant
  of the whole server, kept by every step of every run.
- `Guarantees`, `HandshakeGuarantees`, `RelayGuarantees`: the main theorems, about
  every reachable world.
- `Witnesses`: runs from the start of the server. Every history of one session is
  a run; every valid client gets to be relayed; and the failures listed below
  happen.
- `Pools`, `Server`: the source's classes with their fields updated in place.
  Every method is proved to do what its function says, and `Server.IoUring.Valid`
  includes that the state is one that a run leads to, so every theorem about
  reachable worlds holds of the server between any two turns of its loop.

## Where the code does less than it looks

Each of these is modelled as written. A theorem says exactly when it harms, and
`Witnesses` has runs of the server from its start in which it does.

- After a short relay write the next request starts again at the front of the
  buffer; the offset goes into a field that sockets ignore
  (`RelayGuarantees.FaithfulIffWhole`, `Witnesses.ShortWriteRun`). With the offset
  read as a position in the buffer (`Config.offsetMoves`) everything sent is right
  (`RelayGuarantees.OffsetReadingIsFaithful`).
- Without root privileges a client read may fill the whole slot and so land on the
  unsent bytes of the other direction, and a long chunk from the client may reach
  where reads from the destination land. `RelayGuarantees.ClientReadHarmlessIff` and
  `RelayGuarantees.DestinationReadHarmlessIff` say exactly which reads do no harm;
  `Witnesses.MixedRun` is a run in which a client gets a byte nobody sent it.
- Bytes that the client sends right behind its request, and that are read with
  it, are never forwarded (`RelayGuarantees.EarlyBytesAreNotForwarded`,
  `Witnesses.EarlyBytesRun`).
- The method-selection reply is always `05 00`, even when the server has decided
  on `FF` (`HandshakeGuarantees.MethodReplyIsDueIffOffered`, `Witnesses.RefusalRun`).
- A domain name that contains a zero byte is looked up only up to it
  (`Socks5.HostNameIsWhole`).
- The write of the last reply to a refused client is not resumed when it is short
  (`HandshakeGuarantees.RefusalToldIffWhole`, `Witnesses.RefusalRun`).
- A session that fails before its connect request keeps a count of 1 with
  nothing pending: it holds its slot forever (`Guarantees.StrandedForever`), and
  enough of them shut the server (`Guarantees.ExhaustedForever`,
  `Witnesses.ServerFillsUp`).
- A failed accept is not submitted again: the server accepts exactly until then
  (`Guarantees.AcceptingUntilFailure`, `Guarantees.DeafForever`).
- When socket(2) fails with an errno, control falls through to a connect on a
  null socket; and a resolver answer that is neither IPv4 nor IPv6 fails an
  assertion. These are the only completions the program does not survive
  (`HandshakeGuarantees.StopsExactlyOnBadAnswer`), and every valid request can meet
  them (`Witnesses.BadAnswerStops`).

## Model

| member | source | states |
|---|---|---|
| Guarantees.NoDanglingCompletion | hw2-socks5-server/src/server.cpp:184-260 | in every reachable world each pending event names a live session, carries the kind of its request, and its memory lies inside the slot of that session, which is not in the free queue; with registered buffers it stays inside the half it names |
| Guarantees.RequestsAreAsSubmitted | hw2-socks5-server/src/server.cpp:274-368 | every pending request is one of the five system calls with its arguments in numbers: a read from the client asks for 16384 bytes with registered buffers and for 32768 without, one from the destination for 16384; each read and write starts at its half of the slot; buffer 2i or 2i + 1 is named by every read and write of a server that has registered its buffers, and by no other request |
| Guarantees.MemoryIsRegistered | hw2-socks5-server/src/server.cpp:274-368 | in the buffer vector, the memory of every pending request begins with a half of its session's slot and stays in that slot; with registered buffers it lies within the buffer whose index the request carries |
| Guarantees.CounterAccounting | hw2-socks5-server/src/server.cpp:151-168 | between turns the hand-kept counter of every live session is the number of its pending events, plus one until its connect request is submitted |
| Guarantees.Tokens | hw2-socks5-server/src/server.cpp:753-865 | no session stalls: a live session that has not failed has, before proxying, exactly one pending event and it is the one its fields call for (a write while a reply is unsent, the connect while connecting, a read otherwise); while proxying it has exactly two, one per direction and of that direction's kinds |
| Guarantees.FailedSessions | hw2-socks5-server/src/server.cpp:208-214 | a failed session has no socket and at most one pending event; a relay that failed has exactly one and its descriptor is closed; one whose descriptor is closed before connecting has none |
| Guarantees.FailedIffBrokenOrRefused | hw2-socks5-server/src/server.cpp:388-400 | a session has failed if and only if something of its connection broke or its client was refused |
| Guarantees.BreakingEndsTheSession | hw2-socks5-server/src/server.cpp:184-260 | when a request fails or a peer closes its end, the session's pending events become one fewer, and if it is still there it has failed, its descriptor is closed and its socket is gone |
| Guarantees.ExactDestruction | hw2-socks5-server/src/server.cpp:184-258 | after any turn a session that had submitted its connect is live if and only if it has a pending event, an earlier one is never deleted, and a deleted one's slot goes back to the queue exactly once |
| Guarantees.PoolNeverDry | hw2-socks5-server/src/server.cpp:23-45 | free and pending events partition the 4n ids without duplicates, and at most 2n are pending |
| Guarantees.PoolInHandler | hw2-socks5-server/src/server.cpp:34-45 | inside a handler, when its requests are submitted and the event it handles is not yet returned, no event was missing, the ids are still partitioned and at most 2n + 1 of the 4n are in use |
| Guarantees.CapacityConserved | hw2-socks5-server/src/server.cpp:74-88 | live sessions and free slots add up to the number of connections, and no two live sessions share a slot |
| Guarantees.RefusedWhenFull | hw2-socks5-server/src/server.cpp:151-168 | an accepted connection is turned away, leaving the world as it was, when as many sessions are live as there are slots; otherwise it gets a new session that holds its descriptor and the slot at the front of the queue; either way accepting goes on |
| Guarantees.DescriptorDiscipline | hw2-socks5-server/src/server.cpp:388-400 | the open client descriptors are exactly those of the live sessions that have not closed theirs, one each, so none is closed twice and a session that has not failed never has -1 |
| Guarantees.StrandedForever | hw2-socks5-server/src/server.cpp:151-168 | over every run, a session that failed before its connect request stays, failed and with its slot |
| Guarantees.ExhaustedForever | hw2-socks5-server/src/server.cpp:74-83 | over every run from a world all of whose slots such sessions hold, no slot is ever free again and the sessions stay the same |
| Guarantees.AcceptingUntilFailure | hw2-socks5-server/src/server.cpp:184-197 | after any run from the start the server is accepting if and only if no accept of that run has failed |
| Guarantees.DeafForever | hw2-socks5-server/src/server.cpp:184-197 | once the server does not accept any more, no run ever adds a session |
| Guarantees.StepIsReachable | hw2-socks5-server/src/server.cpp:170-264 | what a turn of the loop leads to is again reachable |
| Safety.StepKeepsInvariant | hw2-socks5-server/src/server.cpp:170-264 | every enabled completion, whatever its order and result, keeps the invariant of the whole server, and it stops the program exactly under the stated condition |
| Safety.SaneRun | hw2-socks5-server/src/server.cpp:170-264 | the invariant holds after every run |
| RelayProof.SessionStep | hw2-socks5-server/src/server.cpp:184-260 | the same for one session: from any state within the invariant, its next completion leads to a state within it, or to its deletion, or to a stop exactly under the stated condition |
| RingProof.CompletionOnRing | hw2-socks5-server/src/server.cpp:34-45 | dealing with an event (taking it, obtaining events for the new requests, returning it) finds the pool non-empty and keeps its partition and every session's requests |
| RingProof.AtMostTwoEach | hw2-socks5-server/src/server.cpp:23-32 | there are at most twice as many pending requests as sessions |
| HandshakeGuarantees.SessionFollowsOneShot | hw2-socks5-server/src/server.cpp:420-546 | before proxying, whatever the reads and writes were and whether or not the connection has since broken, a session stands exactly where the one-shot reading of all bytes received puts it (state, unread bytes, verdict, destination, what is still to be said), and the client has been sent a prefix of exactly the replies that reading calls for |
| HandshakeGuarantees.ChunkIndependence | hw2-socks5-server/src/server.cpp:702-751 | sessions that received the same bytes, and the same answers where the bytes ask for any, are in the same state with the same unread bytes and were told the same, however the bytes were cut into reads; and they stand alike if both connections broke or neither did |
| HandshakeGuarantees.OnlyAnswersMatter | hw2-socks5-server/src/server.cpp:583-700 | the one-shot reading depends on the outside world's answers only as far as the bytes ask for them |
| HandshakeGuarantees.ProxiedClient | hw2-socks5-server/src/server.cpp:623-700 | every proxied client's bytes were the encoding of a greeting that offers "no authentication" and of a CONNECT request followed by the unread bytes; it was told 05 00 and a success reply that decodes to the endpoint its request resolves to (for a name: what the lookup answers for that very name), and that endpoint is the one connected to |
| HandshakeGuarantees.InputIsConserved | hw2-socks5-server/src/server.cpp:702-751 | in every live session, failed or broken or not, the read buffer is the tail of what was received before proxying: bytes are consumed in order, from the front only |
| HandshakeGuarantees.BoundedHandshake | hw2-socks5-server/src/server.cpp:420-546 | a handshake takes at most 519 reads, 24 writes that move anything and one connect, and until it is over one request is pending and the bounds are not used up |
| HandshakeGuarantees.StopsExactlyOnBadAnswer | hw2-socks5-server/src/server.cpp:583-621 | a turn stops the program if and only if the completion makes the client's bytes ask for a socket and socket(2) fails with an errno or the resolver answers with a foreign family; no other assertion, null socket, bad descriptor, out-of-range access or underflow can occur |
| HandshakeGuarantees.RunStopsOnBadAnswer | hw2-socks5-server/src/server.cpp:723-841 | a run that stops early has met such an answer at the completion where it stops |
| HandshakeGuarantees.WreckedByAnswer | hw2-socks5-server/src/server.cpp:583-700 | the one-shot reading comes to grief if and only if the bytes ask for a socket and the answer is a bad one |
| HandshakeGuarantees.MethodReplyIsDueIffOffered | hw2-socks5-server/src/server.cpp:462-482 | what a client is told about its methods is what section 3 of RFC 1928 calls for if and only if it offered "no authentication"; a client that did not is dropped with nothing more said |
| HandshakeGuarantees.MethodIsChosen | hw2-socks5-server/src/server.cpp:464-475 | once a client's methods are in, the method noted is 0 if it is among them and FF otherwise |
| HandshakeGuarantees.GreetingIsJudged | hw2-socks5-server/src/server.cpp:442-482 | nothing is decided on fewer than three bytes; a client of another version or without methods is closed, told nothing, with nothing pending; before the method reply is told, a standing connection has failed if and only if it is such a one or does not offer "no authentication" |
| HandshakeGuarantees.RefusedWithCode | hw2-socks5-server/src/server.cpp:484-558 | a client past its greeting is refused if and only if its request has a code, and is told 05 00 05 code 00 01 and six zero bytes, no more: 7 for the version, command or reserved byte, 8 for the address type, 4 for a name not found, 1 when the socket fails otherwise than with an errno |
| HandshakeGuarantees.ReplyIsOnItsWay | hw2-socks5-server/src/server.cpp:435-440 | the bytes in the memory of a pending handshake write are all that the client is still to be told |
| HandshakeGuarantees.HostIsAsked | hw2-socks5-server/src/server.cpp:636-644 | an encoded request makes the server look up the host it names, and a numeric one none |
| HandshakeGuarantees.RefusalToldIffWhole | hw2-socks5-server/src/server.cpp:208-214 | a refused client is told the whole failure reply if and only if its one write is whole, and nothing is pending for it afterwards |
| HandshakeProof.MoreBytes | hw2-socks5-server/src/server.cpp:702-721 | reading on where the one-shot reading stopped gives what reading all bytes at once gives |
| OneShot.EncodedClientIsServed | hw2-socks5-server/src/server.cpp:442-700 | a well-formed client that offers "no authentication" gets through to the destination it encoded, for every address kind, and what it sends after its request stays unread |
| OneShot.ServedClientIsEncoded | hw2-socks5-server/src/server.cpp:442-700 | the converse: the server dials only for streams that are such encodings, and dials what they name |
| OneShot.RequestIsSection4 | hw2-socks5-server/src/server.cpp:515-538 | the requests of these two are, byte for byte, those of section 4 of RFC 1928: type 1 and four bytes, type 3, a length and a name, type 4 and sixteen bytes, and a port |
| OneShot.ReplyRoundTrip | hw2-socks5-server/src/server.cpp:810-841 | decoding the 10- or 22-byte success reply gives back its endpoint |
| OneShot.DecodedRepliesAreSuccessReplies | hw2-socks5-server/src/server.cpp:810-841 | only success replies decode |
| OneShot.FailureRoundTrip | hw2-socks5-server/src/server.cpp:548-558 | parsing a failure reply as section 6 lays it out gives its code and an all-zero address, and it is taken for a success only if the code is 0 |
| OneShot.SuccessIsCodeZero | hw2-socks5-server/src/server.cpp:810-841 | the decoder takes for successes exactly the replies whose code is 0 |
| Socks5.HostNameIsWhole | hw2-socks5-server/src/server.cpp:643-644 | the name given to gethostbyname as a C string is the whole name if and only if it has no zero byte |
| OneShot.StreamIsConserved | hw2-socks5-server/src/server.cpp:867-870 | what is unread is a suffix of the stream, shorter than what is wanted, and no reading ever wants to go past byte 519 |
| RelayGuarantees.RelayIsFaithful | hw2-socks5-server/src/server.cpp:702-711 | for each direction by itself, under any interleaving of the two: bytes written to one end, followed by what the pending write still has to send, are exactly the bytes read from the other end, as long as no write of that direction was short (or offsets count as positions) and no bytes of the other direction landed on unsent ones of this |
| RelayGuarantees.RelayStarts | hw2-socks5-server/src/server.cpp:799-803 | when the success reply is all out, exactly two requests are submitted: first the read from the destination, then the read from the client or, if bytes of it are left over, a write of no bytes |
| RelayGuarantees.RootNeverMixes | hw2-socks5-server/src/server.cpp:278-287 | with registered buffers the last condition is always met |
| RelayGuarantees.BytesAreCounted | hw2-socks5-server/src/server.cpp:843-865 | even then as many bytes go out as come in, up to the length of the pending write |
| RelayGuarantees.ClientReadHarmlessIff | hw2-socks5-server/src/server.cpp:274-293 | when a client read lands while a chunk is on its way to the client, what the client then gets is what the destination sent, whatever all the bytes are, if and only if the read ends before the unsent bytes begin |
| RelayGuarantees.DestinationReadHarmlessIff | hw2-socks5-server/src/server.cpp:328-347 | the same for a read from the destination while a chunk is on its way there: it is harmless, whatever the bytes, if and only if the unsent bytes end before the second half of the slot or begin after the read |
| RelayGuarantees.FlagsAreExact | hw2-socks5-server/src/server.cpp:274-347 | while nothing has gone wrong before, the condition of RelayIsFaithful is broken by exactly the reads that those two say do harm |
| RelayGuarantees.EarlyBytesAreNotForwarded | hw2-socks5-server/src/server.cpp:407-418 | at any event of the upward direction: what has been or is being passed on to the destination is what was read after the switch, and that is all the client sent after its request if and only if none of it was in the read buffer then |
| RelayGuarantees.PiecesTile | hw2-socks5-server/src/server.cpp:851-865 | after a piece of n bytes the remaining ones are requested, without gap or overlap and without underflow, and after the last piece exactly one read of the same direction |
| RelayGuarantees.SequenceTiles | hw2-socks5-server/src/server.cpp:851-865 | over any sequence of positive pieces that add up to the chunk, each request but the last asks for what the pieces before it have left, from their sum on, and the last is one read of the same direction |
| RelayGuarantees.OffsetReadingIsFaithful | hw2-socks5-server/src/server.cpp:349-368 | with the offset read as a position in the buffer, every sequence of positive pieces, each resubmitted by the handler, sends the chunk itself |
| RelayGuarantees.FaithfulIffWhole | hw2-socks5-server/src/server.cpp:295-313 | as the code stands, a chunk is sent as it is, whatever its bytes, if and only if its first completion is for all of it |
| RelayGuarantees.ShortWriteRepeats | hw2-socks5-server/src/server.cpp:353-362 | the smallest failing case: of a chunk 1, 2 written in two pieces the destination gets 1, 1 |
| Witnesses.EveryHistoryIsARun | hw2-socks5-server/src/server.cpp:170-264 | whatever legal completions lead a session by itself to a state, a run from the start leads the server to the world in which its only session is in that state |
| Witnesses.EveryValidClientIsProxied | hw2-socks5-server/src/server.cpp:420-841 | for every valid message, whatever follows it in the same read, and a created socket: a legal run from the start that ends with the session relaying to the endpoint the message resolves to, the client told 05 00 and the success reply |
| Witnesses.BadAnswerStops | hw2-socks5-server/src/server.cpp:583-621 | for every valid message and every bad answer: a legal run that ends on the null socket or, for a foreign family, on the failed assertion |
| Witnesses.RefusalRun | hw2-socks5-server/src/server.cpp:462-482 | for all methods without "no authentication" and every length n of the one write: a legal run that ends with the client told the first n bytes of 05 00, nothing pending for it and its session left for good |
| Witnesses.ServerFillsUp | hw2-socks5-server/src/server.cpp:151-168 | for every number of connections: a legal run to a world all of whose slots are held by sessions that nothing ever deletes |
| Witnesses.ShortWriteRun | hw2-socks5-server/src/server.cpp:851-865 | a legal run in which the client sends 1, 2 and the destination gets 1, 1 |
| Witnesses.MixedRun | hw2-socks5-server/src/server.cpp:274-293 | without registered buffers, a legal run in which the destination sends 1 and the client gets 0 |
| Witnesses.EarlyBytesRun | hw2-socks5-server/src/server.cpp:407-418 | for all bytes sent with the request and all sent later: a legal run in which the destination gets only the later ones |
| Pools.SizeFits | hw2-socks5-server/src/server.cpp:49-52 | the 32-bit size of the buffer vector is right if and only if there are fewer than 2^17 slots |
| Pools.SlotGeometry | hw2-socks5-server/src/server.cpp:90-108 | the two halves of a slot are the registered buffers 2i and 2i+1, and the registered buffers run from the vector's first byte to its last |
| Pools.IovecsDisjoint | hw2-socks5-server/src/server.cpp:54-61 | registered buffers do not overlap |
| Pools.IovecsTile | hw2-socks5-server/src/server.cpp:54-61 | each registered buffer begins where the one before it ends |
| Pools.OtherWindows | hw2-socks5-server/src/server.cpp:90-108 | what is written into one slot leaves every other slot as it was |
| Pools.EventPool.constructor | hw2-socks5-server/src/server.cpp:23-32 | 4n events, all of them free, in order |
| Pools.EventPool.ObtainEvent | hw2-socks5-server/src/server.cpp:34-40 | the front of the queue, a valid index, and the queue without it |
| Pools.EventPool.ReturnEvent | hw2-socks5-server/src/server.cpp:42-45 | the event goes to the back of the queue |
| Pools.BufferPool.constructor | hw2-socks5-server/src/server.cpp:49-62 | a vector of the 32-bit size, all slots free, the registered buffers; it is in order if and only if there are fewer than 2^17 slots |
| Pools.BufferPool.ObtainFreeBuffer | hw2-socks5-server/src/server.cpp:74-83 | the front of the queue, or the exception when it is empty |
| Pools.BufferPool.ReturnBuffer | hw2-socks5-server/src/server.cpp:85-88 | the slot goes to the back of the queue |
| Server.IoUring.EventLoop | hw2-socks5-server/src/server.cpp:170-264 | for any sequence of completions the program survives, the loop carries out a run over exactly those and ends in the world that run leads to, which is valid |
| Server.IoUring.Step | hw2-socks5-server/src/server.cpp:174-263 | one turn, for every completion the program survives (all but those of StopsExactlyOnBadAnswer): the whole new state is the specification's, and it is valid |
| Server.IoUring.Complete | hw2-socks5-server/src/server.cpp:184-260 | the loop body for a session's event, on the objects: handler, deletion, return of the event; all other sessions and their slots are what they were |
| Server.IoUring.HandleAccept | hw2-socks5-server/src/server.cpp:151-168 | accepting on the objects never fails and leads where the specification says: a new session in the next free slot with its first read pending, or the descriptor closed again |
| Server.IoUring.constructor | hw2-socks5-server/src/server.cpp:110-144 | a server in the initial world for fewer than 2^17 connections; with more its vector does not hold the slots |
| Server.IoUring.Delete | hw2-socks5-server/src/server.cpp:872-885 | the descriptor is closed unless it is -1, the slot goes back, every other session is untouched |
| Server.IoUring.Submit | hw2-socks5-server/src/server.cpp:288-292 | an event is obtained, filled in and becomes the request's user data |
| Server.IoUring.AddClientReadRequest | hw2-socks5-server/src/server.cpp:274-293 | counted; half a slot with registered buffers, the whole slot without (in numbers: RequestsAreAsSubmitted) |
| Server.IoUring.AddClientWriteRequest | hw2-socks5-server/src/server.cpp:295-313 | counted; from the start of the second half, naming a registered buffer only if there are any (RequestsAreAsSubmitted) |
| Server.IoUring.AddDestinationConnectRequest | hw2-socks5-server/src/server.cpp:315-326 | not counted |
| Server.IoUring.AddDestinationReadRequest | hw2-socks5-server/src/server.cpp:328-347 | counted; into the second half, naming a registered buffer only if there are any (RequestsAreAsSubmitted) |
| Server.IoUring.AddDestinationWriteRequest | hw2-socks5-server/src/server.cpp:349-368 | counted; from the start of the first half, naming a registered buffer only if there are any (RequestsAreAsSubmitted) |
| Server.Session.constructor | hw2-socks5-server/src/server.cpp:370-381 | the initial fields, in the slot obtained |
| Server.Session.FailDelayed | hw2-socks5-server/src/server.cpp:388-392 | failed, the socket gone, nothing else changed |
| Server.Session.FailImmediately | hw2-socks5-server/src/server.cpp:394-400 | as well, the descriptor is closed and set to -1 |
| Server.Session.ReadFromClient | hw2-socks5-server/src/server.cpp:407-418 | a read is requested, or a zero-length write when bytes are left over from the handshake |
| Server.Session.ReadSomeFromClient | hw2-socks5-server/src/server.cpp:420-431 | the awaited bytes are looked at if they are there, requested otherwise; the recursion through the readers ends |
| Server.Session.WriteToClient | hw2-socks5-server/src/server.cpp:435-440 | the pending reply is copied into the second half and a write requested |
| Server.Session.ReadClientGreeting | hw2-socks5-server/src/server.cpp:442-460 | does what the specification's reader does, in place |
| Server.Session.ReadAuthMethods | hw2-socks5-server/src/server.cpp:462-482 | consumes the methods and answers 05 00 whichever way the choice went |
| Server.Session.ChooseMethod | hw2-socks5-server/src/server.cpp:464-475 | method 0 if it is offered, otherwise FF and a delayed failure |
| Server.Session.ReadClientConnectionRequest | hw2-socks5-server/src/server.cpp:484-538 | does what the specification's reader does, in place |
| Server.Session.ReadDomainNameLength | hw2-socks5-server/src/server.cpp:540-546 | does what the specification's reader does, in place |
| Server.Session.SendFailMessage | hw2-socks5-server/src/server.cpp:548-558 | failed with the ten-byte failure reply on its way (its bytes: FailureRoundTrip, RefusedWithCode) |
| Server.Session.ConnectDestination | hw2-socks5-server/src/server.cpp:583-621 | the connect is requested, or the general-failure reply is sent |
| Server.Session.ReadAddress | hw2-socks5-server/src/server.cpp:623-700 | does what the specification's reader does, in place, for the three address types |
| Server.Session.ConnectByName | hw2-socks5-server/src/server.cpp:643-676 | looks up the client's name, does what the answer calls for, and rewrites the address type |
| Server.Session.HandleClientRead | hw2-socks5-server/src/server.cpp:702-751 | appends, waits for more, or reads the next message; relays when proxying |
| Server.Session.HandleClientWrite | hw2-socks5-server/src/server.cpp:753-808 | drops what was written, writes the rest, or moves on to the next state |
| Server.Session.StartProxying | hw2-socks5-server/src/server.cpp:799-803 | both directions start, the read from the destination first |
| Server.Session.HandleDestinationConnect | hw2-socks5-server/src/server.cpp:810-841 | the success reply with the address and port of the request is on its way |
| Server.Session.HandleDestinationRead | hw2-socks5-server/src/server.cpp:843-849 | the chunk read is to be written to the client from its start |
| Server.Session.HandleDestinationWrite | hw2-socks5-server/src/server.cpp:851-865 | the rest of the chunk is requested, or the next read |
| Server.Session.ConsumeBytesFromReadBuffer | hw2-socks5-server/src/server.cpp:867-870 | the first bytes leave the read buffer |
| Server.Session.Conclude | hw2-socks5-server/src/server.cpp:184-258 | which handler runs, and whether the session is to be deleted |

## Left out

- liburing and the kernel: submission queue limits, polling, registration and the system calls themselves. The kernel is the set of pending requests and may report any allowed completion; the bytes of a transfer move when it is reported.
- gethostbyname and the creation of destination sockets: their answers are part of a completion (for gethostbyname, a function of the name that is asked) and may be anything.
- Server.Session.ConnectDestination: an errno from socket(2) is excluded by `Can`; that the program then goes on to a null socket, and stops, is proved of the specification functions (StopsExactlyOnBadAnswer, BadAnswerStops).
- Server.Session.ConnectByName: a resolver answer of a foreign family is excluded by `Can`; the failed assertion is proved of the specification functions, likewise.
- Server.Session.ReadAddress: those two answers are excluded by `Can`, likewise; so are they for every method on the way to it and for Server.IoUring.Step.
- Pools.BufferPool.constructor: from 2^31 connections on the index of a registered buffer wraps around too; that is not modelled.
- Server.IoUring.constructor: limited to fewer than 2^31 connections by the buffer pool.
- The order in which new sessions reuse memory: a session's address is never handed out again, so a pointer to a deleted session is always noticed. Allocation failure and exceptions thrown by close are left out.
- Fields that C++ leaves uninitialised start at zero.
- The event loop has no end; Server.IoUring.EventLoop is the loop over any finite sequence of completions.
- The bytes of a refused client after its refusal, and the failed read_fixed error codes: nothing depends on them.
- Logging, signals, the command line, resource limits and threads: each thread owns one IoUring. The command line's bound of 2^15 connections is below the 2^17 assumed here.
- m_command (always CONNECT), translate_errno's choice of code (its reply is followed by the null-socket connect) and socket.cpp beyond "a socket exists and points to an endpoint".
- hw1-binary-serialization (its encoders are libcbor, libbson and msgpack), ntc-cmake, the benchmarks.
