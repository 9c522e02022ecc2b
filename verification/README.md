# zapd, modelled and proved

`zapd` is the local router of ZAP: every process of one user login can be elected to serve it, every other process (and the user's browser) is a node connected to it, and the router relays opaque frames between nodes by id. This project models the parts of it whose correctness rests on more than one function, or on more than one process, and proves what they promise:

* **The router** (`Router.dfy`, `Registry.dfy`, `Delivery.dfy`, `RouterTheorems.dfy`, `Listings.dfy`, `RegistryObject.dfy`). Any number of connections run `handle` over one registry. Each mutex section, and each piece of a task's own work between two of them, is one atomic step; any step of any connection may follow any other. Theorems are about every state of every run: who is in the registry, who is evicted, who is announced, what is delivered, in which order, in whose name, and what a listing tells. Tokens are drawn from a 64-bit counter that wraps; the theorems hold up to the first cleanup whose token collides with its successor's, which takes more than 2^64 connections (`RegistryInv.ShortRunsAreDistinct`).
* **The wire** (`Bytes.dfy`, `Utf8.dfy`, `Frames.dfy`, `Streams.dfy`, `Bodies.dfy`, `Forwarding.dfy`). The envelope, the control bodies and the stream reader down to the byte, with every 16-bit and 32-bit length truncation of the encoders and with lossy UTF-8 decoding (maximal subparts replaced by U+FFFD) modelled exactly. Strings are byte sequences that are valid UTF-8 in the sense of section 4 of RFC 3629.
* **Ids and the door's filter** (`Ids.dfy`, `DoorRules.dfy`).
* **Election** (`Election.dfy`, `LockFiles.dfy`). Processes, the kernel's record lock, the socket path, listeners and nodes' connections; crashes, resignations, forks without exec and squatters at any moment. POSIX.1-2017, fcntl() and close(): closing any descriptor of a file drops the process's record locks on it.
* **A node's one outstanding call** (`Node.dfy`). Callers, the reconnect loop, arriving frames and timeouts over the shared slot.
* **Pairing** (`Pairing.dfy`, `PairFile.dfy`, `PairStore.dfy`, `Door.dfy`). The code printer and parser, the publication protocol of the pairing file over inodes and names, and admission through the browser door with symbolic MACs (HMAC as in section 2 of RFC 2104, taken as perfect).

Code that changes things step by step is written as imperative Dafny: encoders append to buffers, decoders move a `Cursor`, and `Registry`, `Inner`, `Candidate`, `Files`, `Directory` and `Admission` are classes. `Registry` holds the map of peers, the token counter and the bytes its channels carry, `Inner` the writer, the flag, the slot and the reply channels, `Candidate` one process's flag and listener; the state of the whole machine is a ghost field, tied to those fields by `Valid()`, and each method's contract says what its fields and bytes become and which step of the machine that is. The theorems are lemmas about the machines and their runs.

Where the code and its documentation disagree, the code is modelled:

* The repository's README.md:45-48 asks every browser for the pairing proof. src/door.rs:155 exempts the fixed Blink origin, and so does `Door`.
* src/elect.rs:10-13 says that a child forked without exec "blocks nobody's takeover". That is true of the lock, and proved. But such a child inherits the router's accepted sockets, and a node's session to a router that has died stays open as long as the child does (`Election.ForkedChildPinsSession`). What holds in every run is that an accepted session is with the lock holder if and only if its server is alive (`SessionIsWithTheLiving`); without forks it always is (`WithoutForksOneRouter`).
* src/node.rs:14-16 says calls are matched by the responder. A late answer to an abandoned call settles the next call to the same node (`NodeCalls.LateAnswerSettlesNextCall`). A call about to be made can end so if and only if an earlier call to the same node is still unanswered and the session is not already ending (`CanBeMisansweredExactly`); a call made when none was gets its own answer or none (`AnswerIsForItsCall`).

The limit of 64 MiB (src/frame.rs:53) is checked by readers and by no writer. A listing of nodes whose HELLOs were all accepted can be past it, and then every node that asks loses its connection (`Listings.ListingCanOverflow`); so can a frame that was within it when it was read and is forwarded under a longer `from` (`Forwarding.RestampCanOverflow`).

The door's relay reads the router's pipe inside `select!` (src/door.rs:176-197), which drops the read when the browser speaks first; bytes such a read has taken are lost. The browser gets everything the router wrote, in order and unchanged, if and only if no read dropped before the last whole one had taken any (`DoorRules.BrowserHearsAllExactly`). Otherwise the connection may break (`DropAfterLength`), a frame may vanish with no sign of it (`DropsSwallowAFrame`), or the browser may be sent a frame that was only the bytes of a payload, under a `from` nobody registered (`DropUncoversAFrame`).

## Model

| member | source | states |
|---|---|---|
| Bytes.FromLe | src/frame.rs:82-87 | a number written to k bytes is read back exactly if it is below 256 to the k, and as something smaller otherwise |
| Bytes.LeFrom | src/frame.rs:178-184 | the bytes a number was read from are the bytes it is written as |
| Utf8.LossyIdentity | src/frame.rs:186-188 | lossy decoding changes exactly the byte strings that are not valid UTF-8 |
| Utf8.LossyLength | src/frame.rs:186-188 | lossy decoding at most triples a length |
| Utf8.LossyAscii | src/frame.rs:186-188 | an ASCII result of lossy decoding was the input itself: decoding never creates an ASCII string |
| Utf8.LossyOfCut | src/frame.rs:186-188 | a valid string cut anywhere grows by at most two bytes when decoded |
| Frames.EncodeFrame | src/frame.rs:77-92 | appending field by field gives the envelope, with each length truncated to its field's width |
| Frames.Cursor.Take | src/frame.rs:165-172 | the cursor gives the next bytes and moves past them, or reports a truncated frame and does not move; it never leaves its buffer |
| Frames.Cursor.Get16 | src/frame.rs:178-180 | two bytes little-endian, or an error that does not move the cursor |
| Frames.Cursor.Get32 | src/frame.rs:182-184 | four bytes little-endian, or an error that does not move the cursor |
| Frames.Cursor.String | src/frame.rs:186-188 | the next bytes decoded lossily, or an error that does not move the cursor |
| Frames.Cursor.End | src/frame.rs:191-200 | succeeds exactly at the end of the buffer |
| Frames.DecodeBody | src/frame.rs:128-151 | the cursor's walk finds exactly the frame laid out by the lengths in the header, or the same error |
| Frames.DecodeFrame | src/frame.rs:113-126 | one whole frame and nothing else is accepted |
| Frames.BodyOfEncoding | src/frame.rs:77-151 | the body of an encoding reads back as the frame exactly when no length was truncated, and is refused otherwise |
| Frames.DecodeEncode | src/frame.rs:77-126 | decode inverts encode exactly on frames that fit their widths and the frame limit; every other encoding is refused, never misread |
| Frames.EncodeDecode | src/frame.rs:77-151 | an accepted frame re-encodes to the same bytes if and only if its two strings were valid UTF-8 |
| Streams.Reader.Read | src/frame.rs:95-109 | one read consumes one frame, reports a clean end when fewer than four bytes are left, and an error otherwise |
| Streams.ReadHead | src/frame.rs:95-109 | reading a stream cut at any byte gives its first message whole and unaltered, or stops there |
| Streams.ReadCut | src/frame.rs:95-109 | a stream of messages cut at any byte and read repeatedly yields exactly the messages whole within the cut up to the first oversize one, then a clean end if and only if fewer than four bytes are left over |
| Streams.ReadEncoding | src/frame.rs:77-109 | any reader of an encoding, whatever follows it, gets the frame exactly when it fits, and an error otherwise |
| Streams.AbortedWriter | src/router.rs:125-131 | a writer cut off at any byte has told its reader a prefix of the frames queued, and the whole queue if it was not cut and all fit |
| Streams.HeardFits | src/frame.rs:95-109 | every frame a reader gets of such a stream is within the frame limit |
| Bodies.TakeStr | src/frame.rs:203-206 | a length-prefixed string is read exactly as its layout says |
| Bodies.TakeCaps | src/frame.rs:247 | the counted loop reads exactly the counted list, or fails with it |
| Bodies.TakeAttrs | src/frame.rs:248-250 | the counted loop of pairs reads exactly the counted list, or fails with it |
| Bodies.TakeDescriptor | src/frame.rs:244-257 | the cursor reads a descriptor exactly as its layout says and stops right behind it |
| Bodies.ReadHello | src/frame.rs:266-271 | a HELLO body is exactly one descriptor |
| Bodies.ReadProviders | src/frame.rs:291-303 | a PROVIDERS body is exactly its counted entries |
| Bodies.AppendDescriptor | src/frame.rs:230-242 | appends the descriptor's wire form and touches nothing before it |
| Bodies.WriteProviders | src/frame.rs:281-289 | the loop writes the wire form of the list, its count truncated to 16 bits |
| Bodies.DescriptorRoundTrip | src/frame.rs:229-258 | whatever follows it, a descriptor is read back whole if it fits its widths, and only then |
| Bodies.DescriptorCanonical | src/frame.rs:229-258 | a descriptor read with valid strings fits, and the bytes read are its wire form |
| Bodies.HelloRoundTrip | src/frame.rs:260-271 | a descriptor survives HELLO exactly when every length in it fits 16 bits |
| Bodies.HelloCanonical | src/frame.rs:260-271 | an accepted HELLO body is the wire form of what it means exactly when its strings were valid UTF-8 |
| Bodies.ProvidersRoundTrip | src/frame.rs:281-303 | a provider list survives the wire exactly when its count and every length in it fit 16 bits |
| Bodies.ProvidersCanonical | src/frame.rs:281-303 | an accepted provider list is the wire form of what it means exactly when its strings were valid UTF-8 |
| Bodies.BrandHelloAccepted | src/frame.rs:244-271 | whatever the bytes of its brand, a HELLO that gives a role and a brand is accepted with the brand they decode to, and counts as well-formed exactly if they are valid UTF-8 |
| Bodies.MalformedBrandHidesRegistry | src/frame.rs:186-188 | a HELLO whose brand is malformed is accepted with what its bytes decode to, which fits the wire again exactly below 21846 bytes of it; past that, every PROVIDERS reply that lists it decodes to something else than the registry |
| Ids.LabelIdempotent | src/id.rs:23-42 | labelling a label changes nothing |
| Ids.LabelIsLabel | src/id.rs:23-42 | any hostname labels to 1 to 16 characters of [a-z0-9-] |
| Ids.SplitId | src/id.rs:54-66 | an id falls apart into exactly the three parts it was made of |
| Ids.Stamped | src/id.rs:54-66 | a stamped id is one of this host, keeps the proposer's kind and name, and stamping it again changes nothing |
| Ids.StampInjective | src/id.rs:54-61 | two proposals register under one id exactly when they name the same kind and name |
| Ids.Restamped | src/id.rs:54-61 | another host's stamp on an id replaces the host part and nothing else |
| Ids.IdFacts | src/id.rs:54-61 | an id is 6 to 41 ASCII bytes and never the router's own name |
| DoorRules.Relay | src/door.rs:173-198 | the relay writes the HELLO and then, in order, exactly the messages that do not call another node, until one that is no frame; it answers `forbidden` to exactly the others |
| DoorRules.PipeIsFiltered | src/door.rs:173-207 | browser to router: wherever the pipe is cut, the router reads the HELLO and then a prefix of the passed frames as the browser's messages decode, none of which calls another node |
| DoorRules.RelayBack | src/door.rs:176-197 | router to browser: whatever reads `select!` drops and wherever, the loop sends one message for each frame it gets to read, in order, and ends as the reads end |
| DoorRules.RelayReadsAll | src/door.rs:192-195 | when no read was dropped with bytes taken, the relay reads the pipe like any reader: a prefix of its frames, and all of them with the right ending once it ends |
| DoorRules.DropIsHarmlessExactly | src/door.rs:176-197 | after a read dropped with n bytes of a frame taken, the next read gives that frame if and only if n is zero |
| DoorRules.DropAfterLength | src/door.rs:176-197 | a read dropped between the length and the body of a frame the router queues always breaks the connection: what follows, read as a length, is past the limit |
| DoorRules.BrowserHearsAPrefix | src/door.rs:192-195 | router to browser: wherever the router's writer stops and whatever else it queued, the messages decode to a prefix of the frames it was given, each unchanged, when no dropped read had taken bytes |
| DoorRules.BrowserHearsAllExactly | src/door.rs:176-197 | of a whole relay: everything the router wrote reaches the browser, in order and unchanged, if and only if there are as many whole reads as frames and no read dropped before the last of them had taken a byte |
| DoorRules.DropsSwallowAFrame | src/door.rs:176-197 | a read dropped within a frame and one dropped in the few bytes left of it lose that frame with no sign of it: the relay goes on with what follows |
| DoorRules.DropUncoversAFrame | src/door.rs:176-197 | a read dropped inside a payload makes the relay send on the frame the rest of that payload spells, with whatever `from` it says |
| Forwarding.ToIsExact | src/frame.rs:186-188 | lossy decoding never creates a match: a `to` that equals an id was that id on the wire |
| Forwarding.ForwardKeepsMeaning | src/router.rs:193-198 | a forward between registered ids truncates no field, grows by exactly the difference of the two `from`s (at most 41 bytes), decodes to the frame read with `from` replaced exactly when that size is within the limit, and is refused otherwise |
| Forwarding.RestampCanOverflow | src/router.rs:196-198 | a frame of the greatest size sent with an empty `from` is accepted by the router and refused by whoever it is forwarded to |
| RegistryInv.CleanupKnowsItself | src/router.rs:147-157 | the cleanup's token comparison holds exactly when the registered connection is this one, or is a successor whose token collides |
| RegistryInv.CollisionsAreFar | src/router.rs:60 | the tokens of a leaving connection and its successor collide only if a multiple of 2^64 draws lies between them |
| RegistryInv.CleanupIsSafeExactly | src/router.rs:147-157 | a cleanup keeps the registry invariant if and only if the tokens do not collide; where they do, it removes the entry of a live connection |
| RegistryInv.KeepsInv | src/router.rs:89-168 | every step of every connection, but a cleanup whose token collides, keeps the registry invariant: entries, evictions, tokens, tenures and fan-outs agree |
| RegistryInv.RunKeepsInv | src/router.rs:89-168 | the registry invariant holds in every state of every run up to the first collision of tokens, if there ever is one |
| RegistryInv.ShortRunsAreDistinct | src/router.rs:60 | there is none while no more than 2^64 connections have come |
| Delivery.KeepsFrames | src/router.rs:172-243 | every step keeps what queues, senders and errors say of each other |
| Delivery.RunKeepsFrames | src/router.rs:172-243 | the frame invariant holds in every state of every run up to the first collision of tokens |
| RouterTheorems.ShortRunsReach | src/router.rs:60-168 | every state of every run in which at most 2^64 connections have come is one of the states the theorems below speak of |
| RouterTheorems.EntriesAreLive | src/router.rs:89-112 | every entry belongs to a connection that has not left, which registered under that id with that token and descriptor, last of that id; two registered connections share a token only after more than 2^64 draws |
| RouterTheorems.CleanupSparesSuccessor | src/router.rs:147-157 | a cleanup removes an entry exactly when the entry is its own; a successor that took the id is not removed, unless its token collides |
| RouterTheorems.EmptyWhenAllLeft | src/router.rs:147-157 | when every connection has left, the registry is empty |
| RouterTheorems.OneEviction | src/router.rs:113-122 | a replaced connection has exactly one eviction, sent or owed by its heir alone; nobody else is ever evicted |
| RouterTheorems.PresenceConserved | src/router.rs:98-168 | for every id, registrations equal removals plus replacements plus one if it is registered now |
| RouterTheorems.FanoutsCounted | src/router.rs:134-166 | one PEER_CONNECTED fan-out for each registration, one PEER_DISCONNECTED for each removal; a takeover announces no departure |
| RouterTheorems.OnlyOwnEntryChanges | src/router.rs:96-118 | no step of a connection changes another's entry but an insertion under the same id, which leaves no gap, and never from a browser |
| RouterTheorems.DeliveredInOrder | src/router.rs:193-206 | joining the queues of an id's successive holders, the frames from one connection are exactly what it sent to that id, in order, once, minus those refused |
| RouterTheorems.RefusalsAnswered | src/router.rs:198-206 | each refused frame has had exactly one no_route error sent for it, in order, or is the one being told |
| RouterTheorems.NobodySpeaksAsAnother | src/router.rs:193-198 | a queued frame says `zapd` exactly when the router made it, and otherwise the registered id of the connection it was read from |
| RouterTheorems.DoorIsOnlyABrowser | src/door.rs:165-230 | a door connection registers as a browser only, replaces nobody, and all that is forwarded from it are RESPONSEs |
| RouterTheorems.WriterTellsAPrefix | src/router.rs:125-131 | however a connection's writer ends, what it wrote reads as a prefix of the frames its queue accepted, unless a listing past 4 GiB is among them |
| RouterTheorems.BrowserHearsItsQueue | src/door.rs:192-195 | what a browser gets through the door, message by message, decodes to a prefix of the frames its queue accepted, wherever the writer stopped, when no dropped read had taken bytes |
| RouterTheorems.BrowserHearsAllItsQueue | src/door.rs:176-197 | a browser gets all the frames of its queue, in order and unchanged, if and only if the relay makes as many whole reads and drops none with bytes taken before the last; for queues of frames within the limit |
| RouterTheorems.DoorPipeFeedsTheRouter | src/door.rs:165-207 | what the router reads from the relay's pipe, wherever it is cut, is what the machine lets a door connection do: a browser's HELLO, then frames that call nobody |
| RouterTheorems.FanoutTells | src/router.rs:233-243 | a presence fan-out puts exactly one frame, naming the subject, on the queue of every other registered peer that still takes frames, and none elsewhere |
| Listings.ListingIsExact | src/router.rs:214-223 | a listing holds each registered peer the filter lets through once, with its descriptor, and nobody else |
| Listings.ListingIsUnderstood | src/router.rs:176-186 | the asker learns what was listed exactly when its count and lengths fit 16 bits and the whole frame fits the limit; within the limit its stream goes on behind the reply, past it the reply and the stream are refused |
| Listings.ListingCanOverflow | src/frame.rs:281-289 | two nodes with HELLOs the router accepts, whose listing fits its widths and not the frame limit: no node can read it |
| Listings.ReplyIsQueued | src/router.rs:176-186 | the list owed goes out once, to the holder of the asker's id if it still takes frames, and to nobody else |
| Listings.ListingsAreSnapshots | src/router.rs:174-186 | every PROVIDERS frame in any queue, at any state of any run, carries the listing of the registry of one earlier state, under the filter asked for, to the id that asked |
| Listings.CleanListingsFit | src/router.rs:79-93 | while every accepted HELLO was well-formed and fewer than 65536 nodes are registered, every listing fits its widths, and is understood exactly if its frame is within the limit |
| RegistryObject.Registry.TakeToken | src/router.rs:95 | no registered connection has the token drawn, unless 2^64 draws lie between; the counter wraps |
| RegistryObject.Registry.Accept | src/router.rs:76-94 | a HELLO gets an id of this host, its descriptor and an empty channel exactly if its `from` can be stamped and its payload read; otherwise no channel changes |
| RegistryObject.Registry.Register | src/router.rs:97-119 | whoever may take over is the registered one from here on; whoever held the id is out of the registry, named, and not yet evicted; a browser whose id is held changes nothing; no other entry is touched |
| RegistryObject.Registry.Evict | src/router.rs:120-123 | an eviction channel is fired once: nobody fired it before |
| RegistryObject.Registry.Send | src/router.rs:226-231 | the bytes are at the end of the channel registered under the id exactly when there is one and its receiver is there; nothing else changes |
| RegistryObject.Registry.FanOut | src/router.rs:234-243 | whatever order the map is walked in, every registered peer but the subject that still takes messages gets one, naming the subject, and no other channel changes |
| RegistryObject.Registry.List | src/router.rs:214-223 | whatever order the map is walked in, the result holds each matching entry once |
| RegistryObject.Registry.Reply | src/router.rs:176-186 | the listing goes onto the channel of whoever holds the asker's id, and reads as what was listed exactly if it fits |
| RegistryObject.Registry.Forward | src/router.rs:193-198 | a frame goes to exactly the channel registered under its destination, under the registered id it came from; its reader gets just that frame, or refuses it exactly if it is past the limit |
| RegistryObject.Registry.TellNoRoute | src/router.rs:198-206 | the refused frame's sender is told which destination has no route, in a frame it can always read |
| RegistryObject.Registry.Announce | src/router.rs:134-139 | the connection's PEER_CONNECTED fan-out, its bytes and its place in the machine |
| RegistryObject.Registry.Depart | src/router.rs:158-164 | the PEER_DISCONNECTED fan-out of a connection that left the registry itself, its bytes and its place in the machine |
| RegistryObject.Registry.Welcome | src/router.rs:133 | WELCOME, in a frame its reader can always read, goes onto the connection's own channel exactly if its receiver is there, whoever holds the id by then |
| RegistryObject.Registry.Control | src/router.rs:187-191 | a second HELLO is answered with nothing, any other unknown control frame with one error its reader can always read, sent to whoever holds the id by then |
| RegistryObject.Registry.Hangup | src/router.rs:167 | once a writer is gone, nothing more is routed to its connection |
| RegistryObject.Registry.Deregister | src/router.rs:149-157 | comparing tokens says exactly whether this connection is still the registered one, or its token collides; the entry goes exactly then; the invariant survives exactly if there is no collision |
| NodeCalls.KeepsInv | src/node.rs:67-87 | every step of callers, frames, timeouts and the reconnect loop keeps the slot's invariant |
| NodeCalls.RunKeepsInv | src/node.rs:67-143 | the invariants of the slot and of the answers hold in every state of every run |
| NodeCalls.NoStrandedCall | src/node.rs:70-83 | a call awaiting its answer has it already, or has its sender in the slot while a session is up or a cleanup has yet to reach the slot, and that cleanup tells it |
| NodeCalls.OverwritesOnlyAbandoned | src/node.rs:123-128 | a slot overwritten by a new call belonged to a call that had timed out |
| NodeCalls.OneCallAtATime | src/node.rs:123-143 | no two calls are between their turn and their end at once |
| NodeCalls.FrameSettlesOne | src/node.rs:206-212 | a frame settles at most one call, one that asked its sender and has not ended, and empties the slot |
| NodeCalls.OneOutcome | src/node.rs:97-143 | an ended call never ends otherwise |
| NodeCalls.AnswerIsForItsCall | src/node.rs:97-143 | in every run: if no earlier call to the same node was still unanswered when a call took the slot, and that node sent nothing it was not asked for until the call ended, the call did not end with another call's answer |
| NodeCalls.CanBeMisansweredExactly | src/node.rs:123-143 | a call about to take the slot can still end with another call's answer if and only if an earlier call to the same node is unanswered and the session is not already being torn down; the condition is there to see before the call |
| NodeCalls.OutstandingShrinks | src/node.rs:123-143 | while a call is in the slot nobody else sends, so of the earlier calls still unanswered none are added |
| NodeCalls.AnswerWasFed | src/node.rs:206-212 | in every run, whatever answer a call got was an arriving frame, handed over while the call was in the slot and its node had sent it |
| NodeCalls.MisansweredExactlyWhenOutstanding | src/node.rs:206-212 | while a call awaits its answer in a live session, the answer to another call can end it next if and only if that other call to the same node is still unanswered |
| NodeCalls.LateAnswerSettlesNextCall | src/node.rs:206-212 | a reached state in which the first call to a node timed out and the second ended with the answer to the first |
| NodeCalls.Inner.Arm | src/node.rs:127-128 | the slot takes the call, whose channel is empty; whoever's sender it held no longer listens |
| NodeCalls.Inner.Send | src/node.rs:129-135 | the request is sent exactly if there is a writer that still takes it, and then the session is not yet being taken down |
| NodeCalls.Inner.Disarm | src/node.rs:136-139 | what is taken out of the slot is this call's own sender |
| NodeCalls.Inner.Settle | src/node.rs:206-212 | an answer goes to the channel of the call in the slot exactly if it comes from the node that one asked and the call still listens; the slot is emptied exactly in the first case |
| NodeCalls.Inner.Flush | src/node.rs:77-82 | the call in the slot, if it still listens, is told the router changed; after this nobody waits for an answer that cannot come |
| Election.KeepsInv | src/elect.rs:67-151 | every step of processes, kernel and nodes keeps the election invariant |
| Election.RunKeepsInv | src/elect.rs:67-151 | the election invariant holds in every state of every run |
| Election.ElectedHoldsLock | src/elect.rs:80-89 | a process with ELECTED set is alive and holds the lock |
| Election.SessionIsWithTheLiving | src/node.rs:148-162 | an accepted session is with the lock holder if and only if its server is alive, which is exactly as long as the server holds its end; otherwise a forked child's copy keeps it open |
| Election.PendingSession | src/node.rs:148-162 | a session not yet accepted waits at the lock holder's listener, or at one its server dropped and a forked child keeps, and then no later state of the run has it accepted |
| Election.PeerCheckIsExact | src/node.rs:148-157 | a node goes on with another process exactly if that one holds the lock at that moment, and with its own exactly if it has ELECTED set |
| Election.NoSplitBrain | src/node.rs:148-157 | of any two accepted sessions, both servers are alive if and only if they are one process and it holds the lock |
| Election.WithoutForksOneRouter | src/elect.rs:67-96 | in runs without forks, whatever crashes, resigns or squats, every session at any instant is with the process that holds the lock |
| Election.RogueIsNeverSpokenTo | src/elect.rs:101-110 | a node never goes on with a process that does not take part in the election |
| Election.BoundRoutersStay | src/elect.rs:131-151 | a router that has bound its door serves, and holds the lock, until it dies |
| Election.ListenerGoesBeforeLock | src/elect.rs:85-90 | a router that gives up has dropped its listener before it lets go of the lock |
| Election.LockIsKept | src/os/unix.rs:99-115 | the lock leaves a process only by its own unlock or its death |
| Election.ForkedChildPinsSession | src/elect.rs:10-13 | a run in which a forked child keeps a node's session with a dead router open while another process holds the lock |
| Election.LockCall | src/os/unix.rs:99-115 | an interrupted call is made again; the first that is not interrupted decides |
| Election.Candidate.TakeSeat | src/elect.rs:75-83 | whatever the others did meanwhile, ELECTED is set while this process holds the lock, with nothing bound yet |
| Election.Candidate.Bind | src/os/unix.rs:140-146 | a listener is kept exactly if the directory, the bind and the mode all worked, and then this process serves and still holds the lock |
| Election.Candidate.SetMode | src/os/unix.rs:144-145 | a mode that cannot be set drops the listener, forked children or not |
| Election.Candidate.GiveUpSeat | src/elect.rs:88-90 | ELECTED is cleared before the lock is let go; if the unlock works nobody holds it |
| Election.Candidate.Embed | src/elect.rs:74-92 | the loop is left exactly by a pass in which everything worked, serving and holding the lock; every failed pass ends standing again, with no listener and ELECTED cleared |
| LockFiles.OneHandlePerPath | src/elect.rs:112-127 | in every interleaving of any number of threads, a process has at most one descriptor on each lock file, all threads get the same one, and ELECTED is set only while the process holds the lock it was elected on |
| LockFiles.LockIsNotLost | src/elect.rs:88-90 | in every run, a lock held at one moment and not at a later one was let go in between by the elected thread, having resigned |
| LockFiles.ClosingLosesTheLock | src/elect.rs:112-115 | closing any descriptor in any thread loses a lock exactly if the process holds the one on that file, and ELECTED stays set |
| LockFiles.AskingAfreshLosesTheLock | src/elect.rs:112-115 | opening the file afresh to ask for the holder, and closing it, would lose the lock exactly if this process holds it, with ELECTED still set |
| LockFiles.Files.Handle | src/elect.rs:116-127 | one handle per path: the one kept, or a new one kept from now on |
| Pairing.HexRoundTrip | src/pair.rs:213-230 | 32-byte keys and strings of 64 lowercase hex digits correspond one to one, and nothing else parses |
| Pairing.UnhexArray | src/pair.rs:217-230 | the array filled pair by pair holds exactly the key the digits spell |
| Pairing.ParsePrints | src/pair.rs:71 | a parsed number prints as it was written exactly when written without `+` or leading zeros |
| Pairing.CodeRoundTrip | src/pair.rs:56-79 | a printed code with any whitespace around it parses to the same pairing exactly when its port is not zero |
| Pairing.ParsedCodePrints | src/pair.rs:56-79 | a code that parses is, whitespace apart, the code its pairing prints, exactly when its port is written canonically |
| PairFile.StepKeeps | src/pair.rs:141-211 | every careful step of loads, resets, failures and crashes keeps the file invariant |
| PairFile.RunKeepsInv | src/pair.rs:141-211 | the file invariant holds in every state of every careful run |
| PairFile.ReturnsWhatWasCurrent | src/pair.rs:141-183 | every code a load or reset returns was whole at the final path at some moment of the call |
| PairFile.NoInversion | src/pair.rs:141-178 | a call begun after another returned never returns an older version, and a reset then returns a newer one |
| PairFile.NoReadIsTorn | src/pair.rs:180-183 | every read that reaches the end of the file has a complete code, however it was cut into pieces |
| PairFile.NeverWrittenAgain | src/pair.rs:195-211 | the inode at the final path keeps its contents for the rest of the run |
| PairFile.CurrentIsNewest | src/pair.rs:195-211 | the final path holds nothing or the whole text of the newest version |
| PairFile.LoadsAgree | src/pair.rs:146-159 | in runs without resets all successful loads return one code, whoever won the mint |
| PairFile.WhatChangesAnInode | src/pair.rs:200-209 | in any state at all, a step changes an inode with something in it if and only if it creates a temporary file whose name already names that inode, or writes something else through a descriptor open on it |
| PairFile.WhatTearsAPublishedFile | src/pair.rs:200-209 | in a state of a careful run, a step would change a published inode if and only if it creates a temporary file under a name that still names it |
| PairFile.SharedNameLosesText | src/pair.rs:200-202 | a task's new temporary file empties what another task has written if and only if the two are of one process |
| PairFile.NewTmpSpoilsAMoveExactly | src/pair.rs:198-211 | a task about to move its whole code into place publishes a file that holds no code if and only if another task of its own process makes a temporary file first; a task of another process never harms it |
| PairFile.TornIsCareless | src/pair.rs:195-211 | a run that ever has a reader at the end of a published file with no code was not a careful one |
| PairFile.TwoPublishersTear | src/pair.rs:200-209 | a run in which two publishers of one process share the temporary name, every unlink succeeds, and a reader comes to the end of a published file that holds no code |
| PairFile.FailedUnlinkTears | src/pair.rs:209 | a run in which no two publishers of a process overlap, one unlink fails, and the process's next publication leaves a reader at the end of a published file that holds no code |
| PairStore.Directory.WriteAll | src/pair.rs:202 | however the text is cut into writes, what goes out before a failure arrives in order |
| PairStore.Directory.Publish | src/pair.rs:198-211 | wherever it fails: something is moved into place exactly if nothing but the unlink failed and it replaces or there was no file; what is in place then is the whole code; the file there was is left as it was exactly if the temporary name was not its name already |
| PairStore.Directory.Load | src/pair.rs:141-162 | the code there is, untouched; else the one freshly minted, exactly if its publication worked, and otherwise the failure of reading |
| PairStore.Directory.Reset | src/pair.rs:167-178 | the new code is returned and in place exactly if a code could be had and the new one published; otherwise it fails and what was in place is in place still; the replaced inode keeps the old code |
| Door.NoReflection | src/pair.rs:46-47 | what a router proves is never what a client must prove, whatever the nonces |
| Door.SplitsOneWay | src/pair.rs:91-97 | with labels and browser nonces of fixed lengths, what is MACed falls into label and two nonces one way only |
| Door.StepKeeps | src/door.rs:123-265 | every step of browsers, key holders and resets keeps the admission invariant |
| Door.RunKeepsInv | src/door.rs:123-265 | the admission invariant holds in every state of every run |
| Door.Agreement | src/door.rs:151-158 | whoever reaches HELLO came from an admitted origin to this loopback port, and either is the Blink extension or presented a client-labelled MAC over its own 32-byte nonce and its own connection's nonce, made by a holder of the loaded key after that nonce was sent |
| Door.NoProofServesTwo | src/door.rs:234-254 | no MAC answers two connections, and no two challenges carry the same router proof |
| Door.KeyWasInFile | src/door.rs:232-236 | the key a connection proves against was in the pairing file when it loaded it, so a reset binds whoever loads later |
| Door.AdmissionIsTheMachines | src/door.rs:151-160 | played through one connection's messages, the admission machine ends admitted exactly on the messages that are admissible |
| Door.Admission.ReadAuth | src/door.rs:257-265 | one AUTH frame's payload, or an end to admission |
| Door.Admission.Prove | src/door.rs:234-254 | succeeds exactly on a 32-byte nonce followed by the one MAC that answers the challenge; the challenge goes out exactly if the nonce has the right length |
| Door.Admission.BrowserHello | src/door.rs:212-230 | the next message, if it is a HELLO as a browser |
| Door.Admission.Admit | src/door.rs:123-163 | lets a browser in exactly if origin, host, proof and HELLO are right, and challenges nobody who need not prove anything |

## Left out

- RouterTheorems.WriterTellsAPrefix: takes the listings in the queue to be below 4 GiB, because past that the frame's own length field wraps and there is no saying what a reader makes of it; every other frame is proved to fit.
- RegistryObject.Registry.Deregister: past a collision of tokens the object's invariant is gone and nothing more is said of it; `RegistryInv.CollisionsAreFar` says how far off that is.
- DoorRules.BrowserHearsAPrefix: of a relay whose pipe is cut, or whose frames pass the limit, only this direction; the other is in `BrowserHearsAllExactly`, for whole pipes of frames within it, because what a cut relay has not got to cannot be told from what a dropped read took.
- NodeCalls.AnswerIsForItsCall: takes it that the node asked sends no answer it was not asked for; one that does can settle any call to it.
- DoorRules.RelayBack: the two directions of the door's relay are two loops here; the one loop of the code interleaves them. What passes between them is only which reads are dropped, and that is an argument of this one.
- Door.Agreement: takes MACs as perfect and nonces as never repeated; a message that cuts a MAC or a router's nonce into bytes is not a message of the model.
- PairFile.ReturnsWhatWasCurrent: takes it that nobody deletes the file, pids are not reused, a process publishes one code at a time and its unlinks succeed; `NewTmpSpoilsAMoveExactly`, `TwoPublishersTear` and `FailedUnlinkTears` show that each of the last two is needed.
- PairStore.Directory.Publish: one call by itself, with its own failures; what other callers do between its steps is in `PairFile`.
- Election.Candidate.Embed: the loop runs for a given number of answers of the system; in the code it has no end.
- Election.NoSplitBrain: the runtime directory is one for all processes and pids are not reused.
- LockFiles.OneHandlePerPath: descriptors inherited by forked children are not in the table, because record locks are not inherited either.
- The registry as an object: each method is one lock section, called in any order the machine allows; the tasks that call them are steps of the machine, not threads of Dafny.
- Connections whose first frame is not a HELLO end in src/router.rs:77 without touching the registry and are not tasks of the model.
- The node's `id` field, set by WELCOME and read for logging and by `Node::id`.
- Wall-clock time: admission, idle and call timeouts are steps that may happen at any await; backoff constants are left out.
- The door's eight permits and its `browser_only` answer to a refused HELLO.
- The TCP listener of the browser door, its retry loop, and the choice of a free port: the port is a parameter.
- Directory and file permission checks (`private`, `private_dir`): a refusal is one of the failures that may happen at any point of a call.
- Windows: named pipes, ACLs and `LockFileEx`; only the Unix election is modelled.
- HMAC, SHA-256, the operating system's random numbers, WebSocket framing and the HTTP upgrade beyond its Origin and Host headers.
- Logging, the command line, the Python binding, installers and npm scripts.
