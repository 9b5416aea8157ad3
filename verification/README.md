# Serial multiplexer: a verified model

The serial multiplexer shares one serial link to a network manager ("Picard")
among many TCP clients. This project models the four parts of it that carry
state and protocol, and proves what they promise:

- **Framing** (`Fcs16.dfy`, `Hdlc.dfy`): byte stuffing, the table-driven frame
  check sequence, and the byte-at-a-time decoder that accepts a frame by the
  residue of a running value. The table is proved to be eight clocks of the
  shift register of Appendix C of RFC 1662, and the residue test to be the
  comparison of checksums.
- **Client streams and sessions** (`MuxMessage.dfy`, `MuxParser.dfy`,
  `Session.dfy`, `SyncQueue.dfy`): the resynchronising message parser, which
  does not depend on how TCP cuts the stream, the hello state machine it feeds,
  and the FIFO towards the command loop.
- **Command loop and subscriptions** (`Subscription.dfy`, `Manager.dfy`,
  `FilterBits.dfy`, `Runs.dfy`, `Filters.dfy`, `Responses.dfy`, `Unions.dfy`, `FineRuns.dfy`,
  `UnionRuns.dfy`, `Retries.dfy`, `Resubscribing.dfy`, `AtomicRuns.dfy`, `ClientManager.dfy`): one command in flight, retries,
  routing of responses, notification filters with their pending and committed
  values, and the union of them all.
- **The link** (`Picard.dfy`, `Link.dfy`): 8-bit sequence numbers, dispatch of
  frames, and stop-and-wait over FIFO wires that lose anything.

`EndToEnd.dfy` joins the parts, `Counterexamples.dfy` holds concrete runs in which
something one might expect of the program fails, and `HexToBin.dfy` covers the
reading of the authentication token.

## How the model is built

Code that updates objects is modelled by classes with the same fields
(`CHDLC`, `CMuxParser`, `Client`, `CBoostClientManager`, `CBasePicardIO`,
`CSyncQueue`). Each method is proved equal to a function of the old state, and the
properties are proved of those functions, over one step or over whole runs.

The command loop is cut where other threads can run. `Manager.dfy` gives the
pieces: `Begin` (from taking a command to making it the current one, just before
its first transmission), `Transmitted` (a copy is handed to the link), `Wake` (a
wait is over), `Finish` (report a failure and clear the command), and for the
other threads `CommandComplete`, `AddClient`, `AddCommand`, `RemoveClient` and
`HandleNotif`. Three kinds of runs use them:

- *Fine runs* (`FineRuns`): every piece is a step of its own, in any order. The
  main results about responses, filters, notifications, rollback, retries and
  routing hold in every fine run. Where one might expect more than the program
  does, the result is an if-and-only-if with the condition under which it does.
- *Link runs* (`Link`): fine steps, with two pairs taken together: a timeout with
  the resend it causes, and an accepted response with the loop's waking. Taking
  a command and its first transmission are separate steps, and so is clearing a
  command. Wires in both directions lose anything, and the manager answers each
  copy of a request it sees with that copy's type and number. No further hello
  is exchanged. Every link run is, at the loop's end, a fine run that starts
  with the hello (`Link.LinkRunIsFine`).
- *Atomic runs* (`AtomicRuns`): the loop runs on from each wait to the next, so
  that three groups of fine steps are one step each: taking a command with its
  first transmission; a timeout with the resend or the clearing it causes; an
  accepted response with the loop's waking and the clearing. Every atomic run is
  a fine run (`AtomicRuns.AtomicRunIsFine`). Two corollaries are stated for them: exactly one
  response, and exact filters.

The groups of the last two kinds are assumptions about scheduling: the program
has no lock across any of them.

In all three, the record of a run also carries history that no step reads: which
copies were handed to the link and for which command, the state when the
current command was taken, which clients were removed since and how many
responses were accepted, and which SUBSCRIBEs have been answered.

A client is known to the specification by an identity of any type; in
`ClientManager` it is the object itself, in `Counterexamples` a number. A response
or notification is kept as an `Output` until `EndToEnd` turns what was written to a
client into the bytes on its socket.

## Where the code differs from what one might expect

The model follows the code in each of these.

- A reliable notification is acknowledged before the duplicate test, and the
  acknowledgement moves the number the test compares, so the duplicate filter
  never fires (`Picard.DuplicatesPassOn`).
- Until the first copy of a command is handed to the link, the number a response
  is compared with is 0. A response of the command's type numbered 0 is then
  accepted, though it can only answer an earlier command
  (`FineRuns.AcceptedUnsentIff`, `Link.LinkNextInv`,
  `Counterexamples.EarlyAnswerAccepted`, `Counterexamples.AnsweredEarly`).
- A command has as many responses as were accepted while it was current, and a
  timeout unless its result is OK, which is not always one
  (`FineRuns.AnsweredOnceIff` with the exact condition). A second copy may be
  answered before the loop wakes or before it clears the command
  (`Counterexamples.DuplicateAnswers`, `Counterexamples.BothCopiesAnswer`). Removing
  any client marks whichever client's command is in progress as disconnected,
  so an answered command may get a timeout as well
  (`FineRuns.RemovalCanAnswerTwice`, `Counterexamples.AnsweredTwice`).
- A SUBSCRIBE is rewritten when it is taken. A client removed before a copy is
  sent may leave bits in it that nobody asks for (`FineRuns.FilterExactIff` with the
  exact condition, `Counterexamples.DepartedFilterSent`).
- A SUBSCRIBE answered with an error code sets the union to the one saved when
  it was last computed, and commits the client's filter all the same. Union and
  filters then agree exactly if the saved union is what all clients ask for,
  whether the command was a client's or a resubscribe, answered before or not,
  and whoever has left (`FineRuns.ErrorAnswerCommits`,
  `Counterexamples.RefusedIsCommitted`, `Counterexamples.RefusedResubscribeSpoils`). Nothing
  else makes them differ (`UnionRuns.UnionExactIff`).
- A SUBSCRIBE that ends without an OK result is rolled back, but not past a
  removal, which saves another union, nor past a response that was accepted
  and committed the filter (`FineRuns.RollsBackIff` with the exact condition).
- The resubscribe queued when a client leaves carries the union of that moment
  and is not rewritten when it is sent
  (`Resubscribing.ResubscribeExactIff`, `Counterexamples.StaleResubscribe`).
- A resubscribe that exhausts its retries does not reset the connection, and the
  next command reuses its number (`Link.ExhaustionSafeIff`,
  `Counterexamples.LateAnswerAccepted`).
- An escape followed by a flag is data 0x5E; section 4.3 of RFC 1662 would
  discard the frame (`Hdlc.FrameAfterEscape`).
- The comment on the decoder's transitions says that an ordinary byte leads to
  the data state (`serial_mux/HDLC.cpp:125-134`). The code changes the state only
  after an escape and at a flag, and nothing depends on the difference.
- The 16-bit length of a message wraps for payloads over 65532 bytes
  (`MuxParser.SurvivesIffShort`).
- An empty payload can be encoded but is never delivered
  (`Hdlc.EmptyPayloadDropped`).

## Model

| member | source | states |
|---|---|---|
| Fcs16.TableEntry | serial_mux/HDLC.cpp:15-48 | each of the 256 table entries is eight clocks, without data, of the reflected 0x8408 register |
| Fcs16.TableStep | serial_mux/HDLC.cpp:58-61 | one table step is the register clocked with the eight bits of the byte, least significant first, and the value stays below 2^16 |
| Fcs16.ComputeFCS16 | serial_mux/HDLC.cpp:71-78 | the loop computes the bit-serial checksum: register started at 0xFFFF, complemented |
| Fcs16.CheckValue | serial_mux/HDLC.cpp:15-78 | the digits 1 to 9 have the published check value 0x906E |
| Fcs16.AcceptsIffChecksum | serial_mux/HDLC.cpp:168-178 | the residue is right exactly when the body ends in its own checksum, low byte first |
| Fcs16.WindowDetected | serial_mux/HDLC.cpp:58-61 | two strings of at most 16 bits that lead from one register value to the same value are equal |
| Fcs16.RegisterInjective | serial_mux/HDLC.cpp:58-61 | with the same data, different register values stay different |
| Fcs16.BurstDetected | serial_mux/HDLC.cpp:168-178 | of bodies of any length that differ only inside 16 consecutive bits at most one is accepted |
| Fcs16.TwoByteWindowIsBurst | serial_mux/HDLC.cpp:168-178 | a change inside two adjacent bytes is such a burst |
| Hdlc.AppendHDLC | serial_mux/HDLC.cpp:86-96 | appends the stuffed form of the source bytes |
| Hdlc.StuffHidesFlags | serial_mux/HDLC.cpp:86-96 | no flag occurs in stuffed bytes |
| Hdlc.StuffedAt | serial_mux/HDLC.cpp:86-96 | anywhere in a string 0x7E becomes 7D 5E, 0x7D becomes 7D 5D, and every other byte stays as it is |
| Hdlc.StuffAddsEscapes | serial_mux/HDLC.cpp:86-96 | stuffing adds one byte for each 0x7E or 0x7D, and changes nothing if and only if there is none |
| Hdlc.FlipMoves | serial_mux/HDLC.cpp:91-91 | escaping moves a byte by 32, back if it is there already |
| Hdlc.EncodeHDLC | serial_mux/HDLC.cpp:105-123 | a flag, the stuffed payload, its stuffed bit-serial checksum low byte first, a flag |
| Hdlc.EncodedForm | serial_mux/HDLC.cpp:105-123 | a frame is 0x7E, the stuffed payload with its two checksum bytes, and 0x7E, and is as long as that |
| Hdlc.CHDLC.constructor | serial_mux/HDLC.cpp:186-190 | a new decoder is the reset specification decoder |
| Hdlc.CHDLC.Append | serial_mux/HDLC.cpp:175-178 | the running value stays the fold of the buffer |
| Hdlc.CHDLC.ValidateChecksum | serial_mux/HDLC.cpp:168-173 | tests the closed running value against the residue |
| Hdlc.CHDLC.Callback | serial_mux/HDLC.cpp:180-184 | hands over a nonempty buffer, once |
| Hdlc.CHDLC.Reset | serial_mux/HDLC.cpp:186-190 | state, buffer and running value are initial, and the value is the fold of the empty buffer |
| Hdlc.CHDLC.AddByte | serial_mux/HDLC.cpp:137-164 | with the running-value invariant, one byte does exactly what the decoder that compares whole checksums does, in state, buffer and delivered frames |
| Hdlc.FlagDeliversIff | serial_mux/HDLC.cpp:147-161 | at a flag outside an escape a payload is delivered if and only if it is not empty and the buffer is it and its checksum; nothing else is delivered, and the decoder is reset |
| Hdlc.ByteStored | serial_mux/HDLC.cpp:137-163 | every other byte delivers nothing: it is stored moved by 32 after an escape, begins one if it is 0x7D, and is stored as it is otherwise |
| Hdlc.FeedStuffed | serial_mux/HDLC.cpp:137-164 | outside an escape, stuffed bytes end up in the buffer unchanged |
| Hdlc.FrameDelivered | serial_mux/HDLC.cpp:137-190 | outside an escape, whatever is buffered, an encoded nonempty payload is the last frame delivered and the decoder is reset |
| Hdlc.FrameAfterEscape | serial_mux/HDLC.cpp:137-164 | in an escape the payload is merged with what was buffered, and the merged frame is delivered exactly when the bytes before the payload fold to the initial value; the decoder is reset |
| Hdlc.DeliveredIffNotEscape | serial_mux/HDLC.cpp:137-190 | the payload is delivered next if and only if the decoder was not in an escape |
| Hdlc.Resynchronises | serial_mux/HDLC.cpp:137-190 | from any decoder state, of two encoded frames the second is delivered last |
| Hdlc.RoundTrip | serial_mux/HDLC.cpp:86-190 | the encodings of any list of payloads, one after the other, decode to its nonempty payloads in order, and so to the list if and only if none is empty |
| Hdlc.EmptyPayloadDropped | serial_mux/HDLC.cpp:147-160 | the encoding of an empty payload delivers nothing and leaves a reset decoder as it was |
| Hdlc.CorruptionNotDelivered | serial_mux/HDLC.cpp:147-178 | a burst of at most 16 bits in the unescaped content of an encoded frame leaves no body with a payload |
| Hdlc.CorruptFrameDropped | serial_mux/HDLC.cpp:137-178 | a decoder outside an escape that is fed a frame with such a burst in its unescaped content delivers what its buffer already held and nothing more |
| MuxMessage.SerializeMessage | serial_mux/MuxMessageParser.cpp:23-40 | token, length modulo 2^16, id, type, payload |
| MuxMessage.SerializeOutput | serial_mux/MuxMessageParser.cpp:46-73 | serialising a response gives the bytes of the message (id 0, type, prefix before payload) |
| MuxMessage.BodyRoundTrip | serial_mux/MuxMessageParser.cpp:13-40 | parsing a message's body gives the message back |
| MuxMessage.BodyFields | serial_mux/MuxMessageParser.cpp:13-21 | a body of three bytes or more is id (high byte first), type and payload, a shorter one an empty message of type 0 |
| MuxMessage.SerializedBytes | serial_mux/MuxMessageParser.cpp:23-40 | the bytes of a serialised message one by one: A7 40 A0 F5, length and id high byte first, type, payload |
| MuxParser.FirstToken | serial_mux/MuxMessageParser.cpp:101-104 | a token starts at the result unless it is the length, and none starts before it |
| MuxParser.CMuxParser.constructor | serial_mux/MuxMessageParser.cpp:79-84 | the buffer starts with 128 zero bytes |
| MuxParser.CMuxParser.Parse | serial_mux/MuxMessageParser.cpp:99-133 | true exactly when a whole message follows the first token; then it is handed over and the buffer shrinks by at least 6; otherwise a token-free buffer keeps its last 3 bytes |
| MuxParser.CMuxParser.Read | serial_mux/MuxMessageParser.cpp:91-97 | terminates, and hands over the messages of buffer and input parsed in one piece, in order |
| MuxParser.ParseAllExtends | serial_mux/MuxMessageParser.cpp:91-133 | parsing a longer string is parsing the rest together with the addition |
| MuxParser.FrontFrame | serial_mux/MuxMessageParser.cpp:106-127 | behind a token at the front, the length high byte first decides: with that many bytes the body is taken, whatever its length, and parsing goes on behind it; with fewer the buffer waits |
| MuxParser.TokenWaits | serial_mux/MuxMessageParser.cpp:108-111 | a token without its two length bytes waits |
| MuxParser.TokenEndsGarbage | serial_mux/MuxMessageParser.cpp:128-131 | token-free bytes in front of a token never start an earlier one |
| MuxParser.ChunkIndependence | serial_mux/MuxMessageParser.cpp:79-133 | for every cutting, a new parser hands over the messages of the stream parsed in one piece; the buffers agree from the first token on and in the last 3 bytes; the 128 zeros change nothing |
| MuxParser.RoundTripThroughNoise | serial_mux/MuxMessageParser.cpp:13-133 | messages of at most 65532 bytes separated by token-free noise parse to exactly those messages, even when payloads contain the token |
| MuxParser.SurvivesIffShort | serial_mux/MuxMessageParser.cpp:28-31 | a serialised message parses to itself if and only if its payload has at most 65532 bytes |
| MuxParser.ReadsKeepBounded | serial_mux/MuxMessageParser.cpp:79-133 | after any positive number of reads of at most 256 bytes: at most 3 token-free bytes, or at most 384 before the first token and 65540 from it on |
| Session.HelloCodes | serial_mux/BoostClient.cpp:175-200 | the answer to a hello over its bytes: 1 unless there are nine, else 3 unless the last eight are the token, else 4 unless the first is the version, else 0 |
| Session.HelloAcceptedIff | serial_mux/BoostClient.cpp:175-200 | a hello is accepted if and only if it is the version byte followed by the eight bytes of the token |
| Session.SessionRefinement | serial_mux/BoostClient.cpp:61-118 | for every cutting: if the first message of type 1 is the version followed by the token, the client is registered once and contributes the messages after it, else it is not registered and contributes none; it is sent one answer to that message, with the code its bytes call for, and nothing else |
| Session.BadInitDropsAll | serial_mux/BoostClient.cpp:61-99 | a refused or closed session does nothing, whatever it is sent |
| ClientManager.Client.constructor | serial_mux/BoostClient.h:98-110 | a new client waits for its hello, has no filters and nothing written |
| ClientManager.Client.Close | serial_mux/BoostClient.cpp:23-32 | the session is closed |
| ClientManager.Client.WriteMessage | serial_mux/BoostClient.cpp:46-57 | the output follows what was written before |
| ClientManager.Client.SetSubscription | serial_mux/Subscriber.cpp:19-22 | the pending filters are the new ones, the committed ones stay |
| ClientManager.Client.ResetFilter | serial_mux/Subscriber.cpp:29-33 | the pending filters go back to the committed ones |
| ClientManager.Client.CommitFilter | serial_mux/Subscriber.cpp:35-39 | the pending filters become the committed ones |
| ClientManager.Client.ParseHello | serial_mux/BoostClient.cpp:175-200 | the loop gives, over the bytes, code 1 for a wrong length, else 3 for a wrong token, else 4 for a wrong version, else 0 |
| ClientManager.Client.HandleCommand | serial_mux/BoostClient.cpp:61-99 | what it writes, queues and registers is what the session specification says for one message |
| ClientManager.Client.HandleMessages | serial_mux/MuxMessageParser.cpp:135-140 | the same for all messages of a read, in order |
| ClientManager.Client.HandleRead | serial_mux/BoostClient.cpp:101-132 | a read goes through parser and session as specified; an error removes the client from the manager exactly if it was authenticated; a read of nothing does nothing |
| SyncQueue.CSyncQueue.constructor | ext-tools/LogUtilities/SyncQueue.h:20-20 | the queue starts empty |
| SyncQueue.CSyncQueue.Clear | ext-tools/LogUtilities/SyncQueue.h:45-55 | terminates with an empty queue |
| SyncQueue.CSyncQueue.Push | ext-tools/LogUtilities/SyncQueue.h:57-66 | adds at the end |
| SyncQueue.CSyncQueue.Empty | ext-tools/LogUtilities/SyncQueue.h:68-73 | true exactly for the empty queue |
| SyncQueue.CSyncQueue.TimedPop | ext-tools/LogUtilities/SyncQueue.h:75-91 | takes the oldest element, or reports that there is none and changes nothing |
| SyncQueue.OrderPerSource | ext-tools/LogUtilities/SyncQueue.h:57-91 | for every interleaving of pushes and pops, what was popped of one source and then what waits is what it pushed, in its order |
| Subscription.WriteFilter | serial_mux/Common.cpp:32-43 | writing the parameters in place gives exactly the payload that decodes to them, with the rest untouched |
| Subscription.FilterRoundTrip | serial_mux/Common.cpp:32-58 | a payload with parameters written into it decodes to those parameters and is unchanged after the first eight bytes |
| FilterBits.PayloadBits | serial_mux/Common.cpp:44-58 | bit t of the filter is bit t % 8 of byte 3 - t / 8 of the payload, and bit t of the unreliable filter that of byte 7 - t / 8 |
| FilterBits.ShortPayloadBits | serial_mux/Common.cpp:44-58 | with four to seven bytes there is no unreliable filter |
| FilterBits.UnionBits | serial_mux/BoostClientManager.cpp:279-283 | a bit is in a union, in either word, if and only if it is in one of its members |
| FilterBits.MatchBit | serial_mux/Common.h:66-68 | notification type t < 31 passes if and only if bit t of the filter word is set |
| FilterBits.MatchPayloadBit | serial_mux/Subscriber.cpp:25-27 | a subscriber gets type t if and only if bit t % 8 of byte 3 - t / 8 of its payload is set |
| Manager.WithoutOrder | serial_mux/BoostClientManager.cpp:255-257 | exactly one entry, the given client's, is gone, and the others stay in their order |
| Manager.RemovalTakesOwnBits | serial_mux/BoostClientManager.cpp:253-269 | a removal takes only bits out of the union that nobody else asks for, and from a union that is everyone's a resubscribe is queued exactly if the leaver had such a bit |
| Manager.RemovalDisconnects | serial_mux/BoostClientManager.cpp:244-257 | removing any client, listed or not, ends a client's command in progress as disconnected and leaves a resubscribe alone; an unlisted one changes nothing else |
| ClientManager.CBoostClientManager.constructor | serial_mux/BoostClientManager.h:56-69 | a new manager is well-formed, idle and empty |
| ClientManager.CBoostClientManager.RecomputeSubscribeFilter | serial_mux/BoostClientManager.cpp:274-299 | the union of the pending filters of all listed clients, the old union kept, and whether they differ |
| ClientManager.CBoostClientManager.BeginCommand | serial_mux/BoostClientManager.cpp:64-126 | taking and preparing a command is the specification's step and keeps the manager well-formed |
| ClientManager.CBoostClientManager.Prepare | serial_mux/BoostClientManager.cpp:102-126 | a client's SUBSCRIBE opens its transaction and carries the union |
| ClientManager.CBoostClientManager.SendCurrent | serial_mux/BoostClientManager.cpp:128-129 | one request, of the command's type and whole data, under the link's number, which is recorded |
| ClientManager.CBoostClientManager.WakeUp | serial_mux/BoostClientManager.cpp:127-135 | the end of a wait is the specification's step |
| ClientManager.CBoostClientManager.CommandTimeout | serial_mux/BoostClientManager.cpp:319-335 | one response to the client, then all clients closed |
| ClientManager.CBoostClientManager.FinishCommand | serial_mux/BoostClientManager.cpp:136-148 | rollback, timeout response and clearing are the specification's step |
| ClientManager.CBoostClientManager.CommandCompleted | serial_mux/BoostClientManager.cpp:156-199 | the handling of a response is the specification's step |
| ClientManager.CBoostClientManager.ReceiveFrame | serial_mux/BasePicard.cpp:175-272 | what a frame does to the multiplexer and to the link's number is the step of the run: a response that of a received reply, an accepted hello that of a hello, a notification and a manager hello theirs |
| ClientManager.CBoostClientManager.RemoveClientNow | serial_mux/BoostClientManager.cpp:235-271 | the removal of a client is the specification's step |
| ClientManager.CBoostClientManager.HandleNotification | serial_mux/BoostClientManager.cpp:204-228 | each listed client whose committed filter has the bit is written to once, nobody else |
| ClientManager.CBoostClientManager.CloseClients | serial_mux/BoostClientManager.cpp:25-33 | every listed client is closed and the list is empty |
| ClientManager.CBoostClientManager.AddNewClient | serial_mux/BoostClientManager.cpp:42-47 | the client joins at the end |
| ClientManager.CBoostClientManager.AddCommandFrom | serial_mux/BoostClientManager.cpp:51-55 | the command joins the queue at the end |
| ClientManager.CBoostClientManager.SendResponse | serial_mux/BoostClientManager.cpp:302-317 | writes to the client if there is one |
| ClientManager.CBoostClientManager.RollBack | serial_mux/BoostClientManager.cpp:140-142 | the union and the client's pending filters go back |
| Runs.WorldKeepsForm | serial_mux/BoostClientManager.cpp:25-55 | connects, removals, requests, notifications and hellos keep the manager well-formed |
| Filters.WorldTransaction | serial_mux/BoostClientManager.cpp:235-271 | steps of the other threads keep the transaction invariant |
| Filters.TakeTransaction | serial_mux/BoostClientManager.cpp:64-123 | taking a command keeps the transaction invariant: everyone settled but the client whose SUBSCRIBE is in progress, which asks for what it sent |
| Filters.ReceiveTransaction | serial_mux/BoostClientManager.cpp:156-199 | a response keeps it, and settles the requester |
| Filters.FinishTransaction | serial_mux/BoostClientManager.cpp:136-148 | clearing a command keeps it, and settles everyone |
| Filters.ReceiveAnswered | serial_mux/BoostClientManager.cpp:192-195 | committed filters stay those of the latest answered SUBSCRIBE |
| Unions.TakeUnions | serial_mux/BoostClientManager.cpp:103-120 | a SUBSCRIBE that is taken carries the union of all pending filters, and the previous union is kept |
| Unions.ReadErrorUnions | serial_mux/BoostClientManager.cpp:253-269 | through a removal, the payload on its way bounds the union of those who remain, and equals it unless someone left with a bit of its own |
| Responses.ReceiveAnswers | serial_mux/BoostClientManager.cpp:156-199 | a response adds one to the client's responses exactly if it is accepted |
| Responses.FinishAnswers | serial_mux/BoostClientManager.cpp:136-148 | clearing adds one response unless the result is OK |
| FineRuns.DoFine | serial_mux/BoostClientManager.cpp:59-271 | every step of every thread keeps the invariant on filters, union, payload, numbers and responses |
| FineRuns.SettledWhenIdle | serial_mux/Subscriber.cpp:19-39 | in every state of every fine run without a command in progress each client's pending filters are its committed ones, those of its latest answered SUBSCRIBE |
| FineRuns.NotificationExact | serial_mux/BoostClientManager.cpp:204-228 | in every fine run a connected client is sent a notification of type t < 31 exactly once if bit t % 8 of byte 3 - t / 8 is set in the payload of its latest answered SUBSCRIBE, and any other client not at all |
| FineRuns.FilterExactIff | serial_mux/BoostClientManager.cpp:103-129 | in every fine run each copy of a client's SUBSCRIBE, first or resent, has every bit of the OR of its new filters and the committed filters of all other connected clients, and decodes to exactly that if and only if nobody was removed since it was taken with a bit that no one else asked for |
| FineRuns.AnsweredOnceIff | serial_mux/BoostClientManager.cpp:59-199 | in every fine run a finished command has had one response for each one accepted and a timeout unless its result is OK; exactly one if and only if none was accepted, or one was and the result is OK |
| FineRuns.AtLeastOneResponse | serial_mux/BoostClientManager.cpp:59-199 | with no assumption on interleaving, a command taken for a connected client has had a response of its own type when the loop lets go of it |
| FineRuns.AcceptedUnsentIff | serial_mux/BoostClientManager.cpp:123-162 | before a command's first copy is handed to the link, a response is accepted if and only if it has the command's type and the number 0 |
| FineRuns.RollsBackIff | serial_mux/BoostClientManager.cpp:138-145 | in every fine run a SUBSCRIBE whose result is not OK leaves the union and both filters of everyone as before it was taken if and only if the union saved last is that of before, and no response was accepted or the client asked for what it had; without a removal the saved union is that of before |
| FineRuns.SubscribeRollsBack | serial_mux/BoostClientManager.cpp:138-145 | in every fine run a SUBSCRIBE that ends without a response and with no removal meanwhile leaves the union and both filters of everyone as before it was taken, and then all clients are closed |
| FineRuns.ErrorAnswerCommits | serial_mux/BoostClientManager.cpp:176-195 | in every fine run every accepted error answer to a SUBSCRIBE, a client's or not, sets the union to the saved one and commits what the client asked for; the union is then what all clients ask for if and only if the saved one is |
| UnionRuns.StepTracked | serial_mux/BoostClientManager.cpp:59-299 | each step of every thread keeps the account: computing the union anew makes it everyone's, a refusal that brings back another one spoils it, and no other step changes either |
| UnionRuns.UnionExactIff | serial_mux/BoostClientManager.cpp:59-299 | in every state of every fine run while the connection stands, the union is what all clients ask for if and only if no error answer to a SUBSCRIBE that brought back another one was accepted since the union was last computed |
| AtomicRuns.NextInv | serial_mux/BoostClientManager.cpp:59-199 | every step of an atomic run keeps the fine invariant, and between steps nothing has been accepted of a command in progress |
| AtomicRuns.FilterExact | serial_mux/BoostClientManager.cpp:103-120 | in atomic runs every copy of a client's SUBSCRIBE is exact |
| AtomicRuns.ExactlyOneResponse | serial_mux/BoostClientManager.cpp:59-149 | in atomic runs each command taken for a connected client has had exactly one response of its own type when the loop is free again and none while it waits, whatever responses arrive |
| AtomicRuns.AtomicRunIsFine | serial_mux/BoostClientManager.cpp:127-135 | every atomic run is a fine run to the same state |
| FineRuns.RemovalCanAnswerTwice | serial_mux/BoostClientManager.cpp:244-250 | a removal between an accepted response and the loop's waking gives a second response |
| Retries.RetriesExact | serial_mux/BoostClientManager.cpp:126-135 | in every fine run no command is sent more often than the configured retries, all copies of the command in progress are alike, and one given up without a removal has used every retry |
| Retries.ResponsesRouted | serial_mux/BoostClientManager.cpp:78-199 | in every fine run and for every step but a notification, each client is written exactly what it is owed: for a command of type up to 20 or over 128 bytes the version payload (type 2) or code 1, for a command cleared without an OK result code 5, for a matching response that response as it came, and otherwise nothing |
| Retries.OkIsAnswered | serial_mux/BoostClientManager.cpp:91-199 | nobody is told OK of a command other than type 2 but by an accepted response with code 0 to it |
| Retries.ForwardedIff | serial_mux/BoostClientManager.cpp:71-100 | a command goes to the link if and only if its type is above 20, it has at most 128 bytes, and its client, if any, is connected |
| Retries.OthersKeepFilters | serial_mux/BoostClientManager.cpp:138-199 | a command other than SUBSCRIBE changes neither the union, saved or not, nor anyone's filters, however it ends |
| Resubscribing.ResubscribeExactIff | serial_mux/BoostClientManager.cpp:259-266 | whatever happens before its turn and between its copies, a resubscribe carries what those who stayed asked for at the removal; it carries what the connected clients ask for when it is sent if and only if that is the same |
| Picard.CBasePicardIO.SendCommand | serial_mux/BasePicard.cpp:65-97 | one request with the data cut to its length modulo 256, and the number it went under |
| Picard.RequestForm | serial_mux/BasePicard.cpp:69-82 | a request is 2, the type, the number, the length and the data |
| Picard.CBasePicardIO.SendAck | serial_mux/BasePicard.cpp:99-116 | one acknowledgement, and the number is the acknowledged one plus one, 0 after 255 |
| Picard.CBasePicardIO.FrameComplete | serial_mux/BasePicard.cpp:175-272 | what each kind of frame makes of every field, the numbers plus one and 0 after 255, what is sent and what is passed on; everything else changes nothing |
| Picard.FrameKinds | serial_mux/BasePicard.cpp:177-260 | which frames are responses, notifications (reliable or not), hello responses and manager hellos, over their bytes, and which protocol versions are known |
| Picard.DuplicatesPassOn | serial_mux/BasePicard.cpp:238-257 | every notification is passed on, whatever number came before |
| Picard.ResponseRecognised | serial_mux/BasePicard.cpp:260-270 | a response frame is recognised with its fields in place |
| Picard.NotificationRecognised | serial_mux/BasePicard.cpp:238-256 | a notification frame is recognised with its fields in place |
| Picard.RequestNotCut | serial_mux/BasePicard.cpp:69-82 | a command the loop lets through is sent whole |
| Link.LinkNextInv | serial_mux/BoostClientManager.cpp:122-169 | an event keeps the order of copies in flight if and only if it is neither the acceptance of a response numbered 0 before a command is sent nor the clearing of an exhausted resubscribe with its number in flight |
| Link.DeliverInv | serial_mux/BasePicard.cpp:260-270 | a delivered response to the command in progress is accepted; one to an earlier command is accepted if and only if the command in progress has not been sent and the response has its type and the number 0; one that is not accepted changes nothing |
| Link.LinkSafety | serial_mux/BoostClientManager.cpp:122-169 | in every run of safe events from an accepted hello: copies numbered s-1, then copies numbered s of the command in progress; a response is accepted if it answers that command, and if it answers an earlier one only in the unsafe case; one that is not accepted changes nothing |
| Link.LinkRunIsFine | serial_mux/BoostClientManager.cpp:122-169 | the state of the loop in every link run is reached by a fine run that starts with the hello |
| Link.ExhaustionSafeIff | serial_mux/BoostClientManager.cpp:138-147 | clearing a command keeps the link's invariant if and only if it is a client's or nothing in flight bears the current number |
| Counterexamples.StaleResubscribe | serial_mux/BoostClientManager.cpp:259-266 | a run in which a resubscribe clears the manager's filter although a client has just had one accepted |
| Counterexamples.RefusedIsCommitted | serial_mux/BoostClientManager.cpp:176-195 | a run in which a refused SUBSCRIBE leaves the client's filter outside the union |
| Counterexamples.RefusedResubscribeSpoils | serial_mux/BoostClientManager.cpp:176-179 | a link run in which a refused resubscribe empties the union while a client is connected and settled with an accepted filter |
| Counterexamples.AnsweredTwice | serial_mux/BoostClientManager.cpp:244-250 | a run in which a client gets an answer and a timeout for one command |
| Counterexamples.DuplicateAnswers | serial_mux/BoostClientManager.cpp:156-199 | a run in which a client gets two answers to one command before the loop wakes |
| Counterexamples.BothCopiesAnswer | serial_mux/BoostClientManager.cpp:127-147 | a link run in which both copies of a command are answered to the client, the second before the command is cleared |
| Counterexamples.AnsweredEarly | serial_mux/BoostClientManager.cpp:123-129 | a run in which a command is answered before it is sent and again afterwards |
| Counterexamples.EarlyAnswerAccepted | serial_mux/BoostClientManager.cpp:123-162 | a link run in which the second answer to one client's command completes another client's before anything is sent for it |
| Counterexamples.DepartedFilterSent | serial_mux/BoostClientManager.cpp:103-129 | a link run in which a SUBSCRIBE is sent with the filters of a client that has left |
| Counterexamples.RolledBack | serial_mux/BoostClientManager.cpp:138-145 | a run that meets the conditions of the rollback |
| Counterexamples.LateAnswerAccepted | serial_mux/BoostClientManager.cpp:138-147 | a run in which the late answer to an exhausted resubscribe completes the next command, whose request is still on the wire |
| EndToEnd.StreamReads | serial_mux/MuxMessageParser.cpp:46-133 | what is written to a client parses to one message for each write |
| EndToEnd.ResponseEndToEnd | serial_mux/BasePicard.cpp:260-270 | a response frame encoded on the wire that matches the command in progress reaches its client as one more message: its type, id 0, the code before the payload |
| EndToEnd.NotificationEndToEnd | serial_mux/BasePicard.cpp:238-257 | a notification frame encoded on the wire reaches each connected client whose filters come from a payload with its bit as one more message, and adds nothing for the others |
| EndToEnd.MessagesBecomeCommands | serial_mux/BoostClient.cpp:61-118 | a hello of the version and the token and then messages, with noise between them and cut anywhere, contribute exactly those messages |
| EndToEnd.RequestEndToEnd | serial_mux/BoostClientManager.cpp:93-129 | a connected client's command decodes at the manager to its type, the link's number, its length and its data; a SUBSCRIBE carries the union and its other bytes |
| HexToBin.HexToBin | serial_mux/SerialMuxOptions.cpp:25-60 | on every NUL-terminated text: the number of bytes spelled if they fit, with those bytes followed by zeros, and 0 otherwise; nothing is written at or past the limit |
| HexToBin.CharClasses | serial_mux/SerialMuxOptions.cpp:32-53 | which characters are white space, digits, separators and ends |
| HexToBin.DigitValues | serial_mux/SerialMuxOptions.cpp:46-46 | the value of each digit |
| HexToBin.SpellsRun | serial_mux/SerialMuxOptions.cpp:33-56 | a run of digits spells its pairs, an odd last digit by itself; an end behind it ends the text, one dash or colon goes on to the next run, anything else, or no digit at all, spells nothing |
| HexToBin.PrintedSpells | serial_mux/SerialMuxOptions.cpp:25-60 | bytes printed in hexadecimal with any mix of nothing, dashes and colons between them, after any white space, spell those bytes |

## Left out

- Sockets, the serial port, UDP, timers and asio: only "bytes arrived", "bytes written", "the wait ended" and "a read failed" remain.
- Process, thread and service set-up, logging, configuration parsing other than `hexToBin`, and the superseded CLR variants.
- `resetConnection` beyond its closing all clients and ending the run; a new connection starts a new run.
- Sending the hello request and waiting for its answer; the answer's effect is in `FrameComplete`.
- The authentication timeout of a session.
- Races inside one piece of the command loop or one call of another thread, such as a removal between looking up a client and making its command the current one; each of these is one step.
- Notification types of 31 and more, for which the shift has no dependable meaning, and SUBSCRIBE payloads shorter than eight bytes, which are written past their end: both are preconditions.
- A parser or decoder without a handler, which would drop what it finds.
- The manager's firmware, beyond the assumption on its answers.
- Version and build numbers other than this commit's, which the information response carries.
- Link.LinkSafety: assumes FIFO wires, no further hello, and that a timeout is one step with its resend and an accepted response with the loop's waking; which events are safe is exact (`Link.LinkNextInv`).
- AtomicRuns.ExactlyOneResponse: assumes the three groups of steps named above; without them `FineRuns.AnsweredOnceIff` says exactly when there is one response.
- AtomicRuns.FilterExact: assumes the same; without it `FineRuns.FilterExactIff` says exactly when a copy is exact.
- ClientManager.CBoostClientManager.Prepare: holds a command's payload as a value, so it applies `FilterToVector` where the source writes into the vector (`Subscription.WriteFilter`); no one else refers to that vector.
- ClientManager.Client: the subscriber that the source's client inherits from is part of it.
- ClientManager.Client.HandleMessages: the parser hands a read's messages over after the read, where the source calls back for each one during it; the handler does not touch the parser.
- ClientManager.Client.ParseHello: the expected token is a value of eight bytes, not memory shared with the configuration.
- HexToBin.HexToBin: characters above 127 are taken as unsigned and so as not hexadecimal; the source passes a possibly negative `char` to the classification functions. What the buffer holds when 0 is returned is not stated.
- EndToEnd.ResponseEndToEnd: assumes that nothing of 65532 bytes or more was written to the client before; the serial link cannot carry such a payload.
