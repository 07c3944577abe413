# Verified models of LocalSend's session, signaling and codec core

This project models the parts of LocalSend in which several loops, devices or tasks have to agree, and proves what they
agree on. It covers the WebRTC transfer session between two devices, the chunking and re-blocking of file contents, the
PIN challenges, the identity tokens, the signaling server's room registry together with what its clients are told, the
nonce caches of HTTP client and server, the answer callbacks of the signaling connection, the byte format between the
Rust core and the application, and the strings that group devices into rooms.

## How the models are built

- Loops and objects that change in place are methods and classes: the chunking and receive loops, `VerifyPin` and
  `HandlePin`, the registry's `AppState`, the caches, the callback table, the readers and writers of vectors. Each is
  proved against a specification function, and the theorems are about these functions.
- The two sides of a transfer session are machines (`Sending`, `Receiving`) that react to one message or one user action
  at a time. `Session` joins them by two queues; a move takes or emits one message or lets a user act, so a run is any
  interleaving. `SessionInvariant` holds the inductive invariant `Agree`, which says for every pair of stages what is
  under way in each direction. `SenderTask` and `ReceiverTask` hold the two tasks as sequential bodies, from the nonce
  to the last message, and prove that they do what the machines do with the same inputs; `PinRefinement` proves this
  for the PIN challenges, and `FileFlow` that a queue of file messages moves the receive loop where the sender means
  it to.
- The server is a machine whose steps are its locked sections (`Registry`) and single sends between them. A connection
  and the task that takes its requests (its worker) each have a queue of what they have to send, so messages overtake
  each other freely. Closing a connection does not stop its worker: the abort is a step of its own that may come late or
  never, and until then the worker goes on, even after the Left messages.
- The nonce exchanges are a schedule in which serving a request and taking its reply are separate events.
- JSON is a pair of functions per message type: decoding undoes encoding, and nothing of at most one octet decodes.
  Hashes and signatures are functions of which only "what a key signs, its public half verifies" is used, and only where
  a theorem says so (`SignsCorrectly`). Random nonces, UUIDs and hash table orders are arbitrary inputs.

## What the code does not do

Where a promise one might expect is false, the project states when it holds:

- An empty receiver PIN passes before the sender has answered, so the sender's PIN is read as the end of the file list
  (`SessionReach.EmptyPinMisleads`). A sender PIN without tries ends the session in an unexpected answer
  (`SessionWitness.SurprisedIff`). The file list can be shown exactly otherwise (`SessionWitness.ListShownIff`).
- A sender that closes its queue without a file, or after one that was not offered, makes the receiver parse the
  delimiter as a header and leaves the sender waiting (`SessionTheorems.ReceiverEndsIff`, `SessionTheorems.StuckIff`);
  that can happen exactly if the list can be shown (`SessionWitness.UnansweredIff`).
- A sender that rejects the receiver's token ends without telling the receiver (`SessionTheorems.StuckIff`), which can
  happen exactly as `SessionWitness.AbandonedIff` says.
- A token of fewer than five fields panics in the slice before the written error return (`Token.PanicsIff`).
- A Left message can overtake the Hello that lists the same peer, or an update of the peer; a client that takes messages
  as they arrive then lists that peer for good (`ServerClient.ClientListIff`, `ServerClient.GhostStays`,
  `ServerClient.UpdateStays`).
- A refused connection can leave an empty group behind, exactly if nobody was there (`Server.EmptyEntryIff`).
- Client and server end up with different nonces exactly if the last exchange served is not the last one taken, as
  overlapping exchanges can have it (`NonceCache.MirroredIff`, `NonceCache.OverlapBreaksMirror`).
- Vectors of 2^31 items or more do not survive the crossing (`Sse.VectorReadIff`).

## Model

| member | source | states |
|---|---|---|
| `Chunking.SplitIsCut` | core/src/webrtc/webrtc.rs:1265-1299 | the canonical cut concatenates to the input, has ceil(n / size) blocks, none empty and all full but possibly the last |
| `Chunking.CutIsCanonical` | core/src/webrtc/webrtc.rs:1265-1299 | there is only one such cut, so the chunks depend on nothing but the concatenated octets |
| `Chunking.EmitFullChunks` | core/src/webrtc/webrtc.rs:1285-1290 | the inner loop emits full chunks until fewer than 16 KiB are left, or stops at the first refused one |
| `Chunking.ProcessInChunks` | core/src/webrtc/webrtc.rs:1271-1299 | any partition of the input comes out as its canonical cut; if the callback fails, what was emitted before is a proper prefix of that cut |
| `Framing.ReceiveStringFromChunks` | core/src/webrtc/webrtc.rs:1321-1332 | collects binary messages up to the first text message or the end of the channel, and leaves what follows |
| `Framing.FramedIsRest` | core/src/webrtc/webrtc.rs:1303-1319 | a string sent in chunks and closed by a delimiter is what the reader still has to collect |
| `Framing.FramedLayout` | core/src/webrtc/webrtc.rs:1250-1319 | it is sent in binary messages of 16 KiB, the last one possibly shorter, and the text "0" |
| `Framing.FramingRoundTrip` | core/src/webrtc/webrtc.rs:1250-1332 | strings sent back to back are read back one by one, leaving exactly the messages behind them |
| `Reblocking.BufferReceiver` | app/rust/src/util/bytes.rs:7-35 | the loop passes on the blocks of the specification, in order, the unfinished one at the end |
| `Reblocking.ReblockConserves` | app/rust/src/util/bytes.rs:16-29 | no octet is lost, duplicated or moved, whatever the sizes of the arriving parts |
| `Reblocking.ReblockChunks` | app/rust/src/util/bytes.rs:10-29 | 16 KiB chunks meet the 1 MiB boundary exactly, so the blocks are the canonical cut into 1 MiB |
| `Reblocking.TwoStages` | core/src/webrtc/webrtc.rs:1280-1298 | from any partition at the sender to the receiving application: 16 KiB chunks become blocks that concatenate to the input, all of 1 MiB but possibly the last, none empty |
| `Reblocking.UnalignedPartsOverfill` | app/rust/src/util/bytes.rs:16-23 | the exactness rests on the chunk size: other parts give an oversized block |
| `Reblocking.RTCFileReceiver.Receive` | app/rust/src/api/webrtc.rs:422-434 | the first call hands over the whole file in blocks, every later one fails and hands over nothing |
| `Base64.DecodeEncode` | core/src/util/base64.rs:7-13 | every octet string is recovered from its base64url form |
| `Base64.EncodeDecode` | core/src/util/base64.rs:11-13 | a string that decodes is the encoding of what it decodes to, so decoding is injective |
| `Token.SplitJoin` | core/src/crypto/token.rs:133-133 | fields without the separator are recovered from the printed token |
| `Token.GeneratedFields` | core/src/crypto/token.rs:118-136 | a generated token splits into method, hash of public key followed by salt, salt, key type and a signature over that hash |
| `Token.GeneratedIsAccepted` | core/src/crypto/token.rs:166-175 | with a correct signature scheme, a token is accepted by the public half of the key that made it, for every key and salt |
| `Token.AcceptedIff` | core/src/crypto/token.rs:138-220 | a token is accepted for a nonce if and only if its fields are the method, the hash of public key followed by nonce, the nonce, the type of the key, and a signature over that hash that is valid under the key; further fields are ignored |
| `Token.OneNonceOnly` | core/src/crypto/token.rs:166-175 | a generated token vouches for no nonce but its own, whoever made it and whichever key checks it |
| `Token.PanicsIff` | core/src/crypto/token.rs:182-185 | the verifier panics exactly on tokens with fewer than four dots, although an error return is written for them |
| `Token.TimestampAcceptedIff` | core/src/crypto/token.rs:143-164 | a printed timestamp token is accepted for 3600 seconds from its own on, up to wrap-around of 64-bit subtraction |
| `Token.TimestampVouchedIff` | core/src/crypto/token.rs:143-164 | any token is accepted as a timestamp if and only if the holder of the key vouched for such a time, in eight octets |
| `Handshake.NonceReadIff` | core/src/webrtc/webrtc.rs:1087-1101 | accepted as a nonce are exactly the text messages with the base64url form of 16 to 128 octets |
| `Handshake.NonceRoundTrip` | core/src/webrtc/webrtc.rs:1078-1101 | an honest nonce message is read back as the nonce |
| `Handshake.TrustIffProven` | core/src/webrtc/webrtc.rs:275-293 | the token check passes if and only if no key is expected or the token vouches with the expected key for the nonce of this session |
| `Handshake.HonestTokens` | core/src/webrtc/webrtc.rs:275-287 | an honest token never crashes the check; if its key is expected it passes for its own nonce and for no other |
| `PinCheck.WrongGuesses` | core/src/webrtc/webrtc.rs:1211-1225 | how many messages precede the first one that decides the challenge |
| `PinCheck.VerifyPin` | core/src/webrtc/webrtc.rs:1174-1226 | against any peer: passed exactly if the PIN comes within the allowed tries, at most that many messages read, one notice before each (the first only if asked for), and all others left unread; the counter stays within eight bits |
| `PinCheck.HandlePin` | core/src/webrtc/webrtc.rs:1110-1166 | submits one PIN per request until passed, refused, unreadable or abandoned; exact counts of PINs sent and messages read |
| `PinCheck.HandledBound` | core/src/webrtc/webrtc.rs:1118-1165 | no more PINs are submitted than the user entered |
| `PinRefinement.JudgedIsVerification` | core/src/webrtc/webrtc.rs:1186-1225 | judging PIN after PIN gives the outcome stated for the loop as a whole |
| `PinRefinement.ReceiverRefinesVerifyPin` | core/src/webrtc/webrtc.rs:735-770 | the receiver's machine, fed any messages, ends, replies and leaves unread what verify_pin does without an initial notice, and confirms success |
| `PinRefinement.SenderRefinesVerifyPin` | core/src/webrtc/webrtc.rs:327-366 | the same for the sender's machine with an initial notice, where the file list takes the place of a confirmation |
| `FileLoop.ReceiveFiles` | core/src/webrtc/webrtc.rs:883-993 | the receive loop, for any messages and verdicts: its files, errors, answers and the point where it stops |
| `FileLoop.AnswerFile` | core/src/webrtc/webrtc.rs:890-912 | one answer per finished file, from the verdict of the application or its absence |
| `FileLoop.LoopConserves` | core/src/webrtc/webrtc.rs:883-993 | against any peer, for every stream of messages, a broken one included: each opened file got exactly the binary messages of its segment, every other binary message and failed file was reported once, the answers are those of the closed files in order, and after its end the loop takes nothing more |
| `FileLoop.DeliveredIff` | core/src/webrtc/webrtc.rs:926-975 | against any peer: a file reaches the application if and only if a segment brings it whose head is the header of an offered file with the very token given out for it |
| `FileLoop.RefusedIff` | core/src/webrtc/webrtc.rs:926-968 | against any peer: a file is reported as refused if and only if a segment begins with its header and no token was given out for it, another one was, or it was never offered, and for exactly that reason |
| `FileLoop.VerdictsAnswered` | core/src/webrtc/webrtc.rs:890-912 | against any peer: the i-th answer is for the i-th finished file; it is a success if and only if the application gave an i-th verdict and that was one, and otherwise carries its error, or the text for a missing error or verdict |
| `FileLoop.EndAnswersAll` | core/src/webrtc/webrtc.rs:890-933 | the loop finishes exactly on a delimiter that closes an opened file, and breaks exactly on any other text that is no header; either way every opened file was answered, the one just closed included |
| `SenderRecord.ActionKeepsRecord` | core/src/webrtc/webrtc.rs:500-552 | whatever the application queues: announced are the files with a token, each as the canonical cut of its contents, with less than a chunk held back |
| `SenderRecord.JoinedChunks` | core/src/webrtc/webrtc.rs:500-552 | put back together, the announced files are the queued ones with a token |
| `SessionInvariant.SenderTakes` | core/src/webrtc/webrtc.rs:246-486 | the agreement of the two devices survives every message the sender takes |
| `SessionInvariant.ReceiverTakes` | core/src/webrtc/webrtc.rs:677-993 | and every message the receiver takes |
| `SessionInvariant.SenderActs` | core/src/webrtc/webrtc.rs:500-556 | and everything the sender's user and application do |
| `SessionInvariant.ReceiverActs` | core/src/webrtc/webrtc.rs:785-912 | and everything the receiver's user and application do |
| `SessionInvariant.NextInv` | core/src/webrtc/webrtc.rs:232-560 | every step of either device or of the channel keeps the agreement |
| `SessionInvariant.RunInv` | core/src/webrtc/webrtc.rs:677-995 | the agreement holds in every reachable state, for any PINs, guesses, files, selections and interleavings |
| `SessionTheorems.NeverMisread` | core/src/webrtc/webrtc.rs:232-560 | the sender never meets an unexpected message nor a pairing request; the receiver only if the sender's PIN allows no tries, or the sender closed its queue when the last file it announced, if any, was not an offered one |
| `SessionTheorems.ReceiverEndsIff` | core/src/webrtc/webrtc.rs:890-923 | after the queue is closed the receiver finishes if and only if the last file announced was an offered one; otherwise the delimiter is taken for a header |
| `SessionTheorems.StuckIff` | core/src/webrtc/webrtc.rs:232-560 | some side can move, unless both have ended, the sender refused the token silently, or it waits for an answer to a queue without files |
| `SessionTheorems.ReceiverChallengeDecided` | core/src/webrtc/webrtc.rs:297-325 | the receiver's challenge ends alike on both devices. If a PIN entered was right, it was the last one and in time, and the file list was sent and shown, unless the sender's own challenge was lost after that; otherwise both gave up after all tries, no reply is unread and no list was sent |
| `SessionTheorems.SenderChallengeDecided` | core/src/webrtc/webrtc.rs:785-822 | the sender's challenge likewise: the list was sent and shown if and only if some PIN entered was right, and both gave up otherwise |
| `SessionTheorems.FilesArriveIntact` | core/src/webrtc/webrtc.rs:858-993 | on a finished session the delivered files are the queued files with a token that were offered, in order and octet by octet |
| `SessionTheorems.SelectionArrives` | core/src/webrtc/webrtc.rs:500-556 | with a selection among the offered files nothing is left out, and the application reads each file as full 1 MiB blocks and a rest |
| `SessionReach.EmptyPinMisleads` | core/src/webrtc/webrtc.rs:1192-1194 | with an empty receiver PIN the receiver never gets past the PIN status: the sender's PIN message is taken for the end of the file list |
| `SessionReach.AdmittedTrusts` | core/src/webrtc/webrtc.rs:275-293 | a sender gets past the token exchange only if both devices accept the token of the other |
| `SessionReach.ShownOnlyIfViable` | core/src/webrtc/webrtc.rs:774-834 | the receiving user sees a file list only if both tokens are accepted and neither PIN is empty or without tries where that defeats it |
| `SessionWitness.ListShownIff` | core/src/webrtc/webrtc.rs:774-834 | under exactly these conditions some run shows the list |
| `SessionWitness.CompletesIff` | core/src/webrtc/webrtc.rs:883-995 | a session can complete on both sides if and only if these conditions hold and a file is offered |
| `SessionWitness.UnansweredIff` | core/src/webrtc/webrtc.rs:554-558 | some run leaves the sender waiting for an answer to a queue without files, with the receiver ended in an error, if and only if the list can be shown |
| `SessionWitness.AbandonedIff` | core/src/webrtc/webrtc.rs:275-293 | some run leaves the receiver waiting for a sender that refused its token, if and only if it is refused, the sender's is not, and the receiver's PIN, if set, allows a try |
| `SessionWitness.SurprisedIff` | core/src/webrtc/webrtc.rs:774-822 | some run ends at the receiver in an unexpected answer for lack of tries, if and only if the sender's PIN allows none and everything before it can go well |
| `Gating.NothingOfTheFiles` | core/src/webrtc/webrtc.rs:366-395 | until the list goes out, nothing the sender emits or does depends on the files |
| `Gating.ListedIffCleared` | core/src/webrtc/webrtc.rs:275-395 | against any peer: the list goes out if and only if its token was accepted for the nonce of sender part and receiver part, and, with a PIN set, the right one came within the allowed messages after the point where the challenge starts |
| `Gating.TooLate` | core/src/webrtc/webrtc.rs:1211-1225 | so many wrong PINs from that point on, and the list never goes out, whatever follows |
| `Gating.FilesKeptUntilCleared` | core/src/webrtc/webrtc.rs:275-395 | against any peer: until then nothing the sender does depends on its files |
| `Gating.ReplayGetsNoList` | core/src/webrtc/webrtc.rs:275-293 | with an expected key, a token made for any other nonce never gets the list, whoever made it |
| `Gating.PublishedIffListed` | core/src/webrtc/webrtc.rs:695-834 | against any peer: the receiver shows a file list if and only if the peer was cleared likewise and then sent one, and it shows that very list |
| `Gating.NothingShownUntilCleared` | core/src/webrtc/webrtc.rs:709-834 | against any peer: until it is cleared likewise, the receiver publishes no list, asks for no selection and takes no file |
| `Gating.ReplayShowsNothing` | core/src/webrtc/webrtc.rs:709-718 | with an expected key, nothing is shown for a token made for any other nonce |
| `ReceiverTask.LearnFiles` | core/src/webrtc/webrtc.rs:774-822 | waits for the file list and submits PINs while the sender asks for them |
| `ReceiverTask.Challenge` | core/src/webrtc/webrtc.rs:735-770 | the receiver's own challenge within its task, with the confirmation |
| `ReceiverTask.Authenticate` | core/src/webrtc/webrtc.rs:695-733 | the token exchange, with every way to fail |
| `ReceiverTask.TakeFiles` | core/src/webrtc/webrtc.rs:837-993 | choice, tokens and receive loop |
| `ReceiverTask.AcceptOffer` | core/src/webrtc/webrtc.rs:673-995 | the whole receiving task as one body: for all inputs it sends, leaves unread, ends and hands over what the machine does |
| `ReceiverTask.TrackFiles` | core/src/webrtc/webrtc.rs:883-993 | the receive loop as steps of the machine, verdicts included |
| `SenderTask.ShipSends` | core/src/webrtc/webrtc.rs:500-552 | for a queued file the machine sends its header and the canonical cut of its contents, or nothing without a token |
| `SenderTask.SendFiles` | core/src/webrtc/webrtc.rs:500-558 | the queue of files, the delimiter and the one message awaited after it |
| `SenderTask.LearnSelection` | core/src/webrtc/webrtc.rs:398-486 | the answer to the file list, with every way to fail |
| `SenderTask.Challenge` | core/src/webrtc/webrtc.rs:327-395 | the sender's own challenge within its task, with the file list as its good end |
| `SenderTask.Authenticate` | core/src/webrtc/webrtc.rs:263-325 | the token exchange and the receiver's challenge |
| `SenderTask.SendOffer` | core/src/webrtc/webrtc.rs:233-560 | the whole sending task as one body: for all inputs it sends, leaves, ends and reports what the machine does |
| `Registry.KeysInOrder` | server/src/controller/ws_controller.rs:125-130 | a walk over a table yields every key once |
| `Registry.AppState.ProtectRequestCount` | server/src/controller/ws_controller.rs:358-369 | counts a request unless the limit is reached |
| `Registry.AppState.Register` | server/src/controller/ws_controller.rs:108-143 | the locked section of a new connection: limits, counter, the peers to tell and to list, and the new entry |
| `Registry.AppState.SetInfo` | server/src/controller/ws_controller.rs:282-297 | replaces the stored info of a peer that is there, and names the others in its group |
| `Registry.AppState.FindPeer` | server/src/controller/ws_controller.rs:324-332 | finds the target in the group of the origin only |
| `Registry.AppState.Unregister` | server/src/controller/ws_controller.rs:251-268 | removes a peer, and the group with its last peer, and names those left |
| `Registry.Budget` | server/src/controller/ws_controller.rs:358-369 | however the requests of different groups mix, each group is granted exactly what is left of its own limit, and every grant is counted |
| `Registry.AppState.ClearCounts` | server/src/config/scheduler.rs:11-18 | from then on every group is granted its requests up to the limit again, whatever it had used |
| `Server.NextKeeps` | server/src/controller/ws_controller.rs:88-273 | every step keeps the registry, the queues and the limits in order |
| `Server.RunSound` | server/src/controller/ws_controller.rs:108-265 | in every interleaving the registry is the set of connections admitted and not yet removed, and rooms and counters respect their limits |
| `Server.CounterIsReached` | server/src/controller/ws_controller.rs:358-369 | a counter is the number of requests that reached it since it was last cleared, capped by the limit |
| `Server.EmptyEntryIff` | server/src/controller/ws_controller.rs:108-143 | over every run: a group has an entry without a peer if and only if the last connection that came to it was refused with nobody there |
| `ServerRequests.RegistryIsLastSaid` | server/src/controller/ws_controller.rs:182-207 | over every run: the requests a connection's task takes on are exactly those that came below the limit, and the registry holds what the last one carried out said about the peer, or else what it said at first, while it is connected |
| `ServerRequests.WorkerServes` | server/src/controller/ws_controller.rs:182-229 | over every run: while a connection is open its task takes requests, unless one was refused |
| `ServerRequests.RefusalIsTold` | server/src/controller/ws_controller.rs:185-196 | a request over the limit is the last one taken; all that follows is the error 429 to its own client |
| `ServerRequests.RunGreets` | server/src/controller/ws_controller.rs:152-163 | over every run: each client is greeted exactly once, with what it said about itself |
| `ServerViews.NextViews` | server/src/controller/ws_controller.rs:152-163 | every step keeps what each client was told of each peer in line with the registry |
| `ServerViews.RunViews` | server/src/controller/ws_controller.rs:88-306 | and so does every run |
| `ServerClient.ToldCoversAll` | server/src/controller/ws_controller.rs:152-163 | nobody but the newcomer itself and the peer concerned ever says anything about a peer to a client |
| `ServerClient.ClientViews` | server/src/controller/ws_controller.rs:108-306 | in every interleaving, announced minus withdrawn peers are exactly the others in the room, each announced once; the last update, or else the first info, is what the registry stores, unless the peer is about to go |
| `ServerClient.ClientListIff` | app/lib/provider/network/webrtc/signaling_provider.dart:114-147 | the list a client keeps by taking messages as they arrive ends up as its room, except exactly for peers whose Left overtook the Hello that mentions them or an update of theirs |
| `ServerClient.GhostStays` | server/src/controller/ws_controller.rs:152-163 | the one overtaking does happen: a run after which a client lists a peer that is gone for good |
| `ServerClient.UpdateStays` | server/src/controller/ws_controller.rs:231-272 | and so does the other, because the aborted task may still send the update it is at |
| `ServerRouting.HandleLive` | server/src/controller/ws_controller.rs:313-356 | carrying out a request puts one message for its target on the way if that is in the room of the origin, and loses the request otherwise; no other request is affected |
| `ServerRouting.RequestsAccounted` | server/src/controller/ws_controller.rs:182-356 | over every run: each time a description was to be passed on is accounted for as delivered, under way, still to do, or lost because the target was absent or the task aborted |
| `ServerRouting.DescriptionsRouted` | server/src/controller/ws_controller.rs:182-229 | over every run, a description that arrived was asked for by an origin in the same room, under its server-given identity, with this target, session and content, and arrived no more often than that |
| `NonceCache.LruCache.Put` | core/src/http/server/controller/v3.rs:28-36 | the entry becomes the most recent one, and a new one may push out the oldest |
| `NonceCache.NonceMaps.NonceExchange` | core/src/http/server/controller/v3.rs:10-50 | an undecodable nonce or one of a wrong length changes nothing; otherwise both caches take the exchange |
| `NonceCache.NonceMaps.OnReply` | core/src/http/client/mod.rs:96-123 | the client's half; a failed exchange changes nothing |
| `NonceCache.CachedIsRecent` | core/src/http/server/mod.rs:43-55 | a cache holds the first entries of what an unbounded one would hold |
| `NonceCache.RememberedIff` | core/src/http/server/mod.rs:43-55 | a nonce is remembered exactly until 200 other peers came after it, and it is the latest one of its peer |
| `NonceCache.InStep` | core/src/http/server/controller/v3.rs:28-36 | after any history both caches hold the same peers in the same order |
| `NonceCache.MirroredIff` | core/src/http/client/mod.rs:80-121 | for every schedule of serving and taking exchanges among any devices with fresh nonces, while both remember each other: the one's received nonce is the other's generated one, and conversely, if and only if the last exchange of the two that was served is the last one taken |
| `NonceCache.UndisturbedMirrors` | core/src/http/client/mod.rs:80-121 | in particular if their last exchange was taken without another one of theirs in between |
| `NonceCache.OverlapBreaksMirror` | core/src/http/server/controller/v3.rs:28-36 | a schedule of two overlapping exchanges that leaves the devices at odds |
| `Signaling.ManagedSignalingConnection.Register` | core/src/webrtc/signaling.rs:364-370 | registers a callback for a session |
| `Signaling.ManagedSignalingConnection.Receive` | core/src/webrtc/signaling.rs:291-301 | an answer goes to the callback waiting for it, and every message to the application |
| `Signaling.CalledOnceAtMost` | core/src/webrtc/signaling.rs:291-301 | a callback is called once, with the first answer of its own session after its registration, unless replaced before; otherwise never |
| `IpGroup.ParsePrint` | server/src/util/ip.rs:12-15 | printing a number without leading zeros loses nothing |
| `IpGroup.SameGroupIff` | server/src/util/ip.rs:3-18 | same group string if and only if same IPv4 address or same first four IPv6 segments |
| `IpGroup.GroupFields` | server/src/util/ip.rs:3-18 | the string is the four numbers of an IPv4 address in decimal with dots, or the first four of an IPv6 address in hexadecimal with colons, without leading zeros |
| `Octets.NumberRead` | app/rust/src/frb_generated.rs:2936-2941 | a number in range is recovered from its octets in either order |
| `Sse.VectorReadIff` | app/rust/src/frb_generated.rs:2961-2969 | a vector comes back if and only if it has fewer than 2^31 items, because its length is cast to 32 bits |
| `Sse.VectorRoundTrips` | app/rust/src/frb_generated.rs:1816-1862 | vectors of anything that round-trips do so, leaving the octets behind them |
| `Sse.MaybeRoundTrips` | app/rust/src/frb_generated.rs:1864-1873 | optional values likewise |
| `Sse.BothRoundTrip` | app/rust/src/frb_generated.rs:1691-1709 | consecutive fields likewise |
| `Sse.PrefixFree` | app/rust/src/frb_generated.rs:1668-2105 | no encoding is the beginning of another one |
| `Sse.Serializer.EncodeVec` | app/rust/src/frb_generated.rs:2961-2999 | the writing loop appends the encoding of the vector |
| `Sse.Deserializer.DecodeVec` | app/rust/src/frb_generated.rs:1816-1862 | the reading loop yields what decoding the vector means, for any input |
| `SseTypes.BasicsRoundTrip` | app/rust/src/frb_generated.rs:1668-1743 | octets, numbers, flags, strings, UUIDs and device types round-trip |
| `SseTypes.RecordsRoundTrip` | app/rust/src/frb_generated.rs:1691-1727 | client infos and session descriptions round-trip |
| `SseTypes.FilesRoundTrip` | app/rust/src/frb_generated.rs:1756-1788 | file descriptions and lists of them round-trip |
| `SseTypes.MessagesRoundTrip` | app/rust/src/frb_generated.rs:2045-2094 | every message of the signaling server round-trips |
| `SseTypes.StatusRoundTrips` | app/rust/src/frb_generated.rs:1975-2010 | every session status round-trips |
| `SseTypes.MessageFitsIff` | app/rust/src/frb_generated.rs:3158-3195 | which messages can cross: exactly those whose strings and peer lists have fewer than 2^31 octets or items |
| `SseTypes.SetRoundTrip` | app/rust/src/frb_generated.rs:1611-1617 | sets of strings come back as the same set, whatever the order they were written in |
| `SseTypes.LeftLayout` | app/rust/src/frb_generated.rs:3175-3178 | the octets of a Left message: tag and length in machine order, identifier in network order |
| `SseLayout.MessageLayout` | app/rust/src/frb_generated.rs:3158-3205 | the octets of every message that can cross: its tag and its fields in order |
| `SseLayout.StatusLayout` | app/rust/src/frb_generated.rs:3086-3120 | the octets of every status |
| `SseLayout.FileLayout` | app/rust/src/frb_generated.rs:2915-2934 | the octets of every file description |

## Left out

- The pairing dialogue after a pairing request: shown unreachable with this receiver, and not followed further.
- Failing sends on an open data channel during a session, aborted sessions and lost connections: the channel is reliable, and users answer every prompt.
- Progress in time: `SessionTheorems.StuckIff` says when nothing can move, not how soon something does.
- Closing the channel: the sender closes it as soon as it has one message after its queue (`webrtc.rs` 558 and 619), answers still under way included; in the model the receiver goes on to its own end.
- Interleaving inside the sequential bodies: `SenderTask` and `ReceiverTask` take all inputs of a task as given queues; what depends on the order of the two sides is proved of the machines.
- FileLoop.ReceiveFiles: a receiving application that drops a file's stream early ends the original loop with an error; here consumers stay open.
- PinCheck.VerifyPin: the status messages to the user interface and the five-second limit on the last notice are not part of the contract.
- SessionTheorems.NeverMisread: assumes a receiver PIN that is not empty, because the opposite case always fails, which is proved separately.
- ServerClient.ClientViews: says nothing about the info of a peer that is closing, because its updates may be dropped with its worker.
- Server.RunSound: queues are unbounded, so blocking on a full queue, and with it deadlock freedom, is not covered.
- Token.TimestampAcceptedIff: subtraction wraps as in a build without overflow checks; with them a timestamp from the future panics.
- SseTypes.SetRoundTrip: the order in which a set is written is any enumeration of it.
- JSON text, UTF-8, SHA-256, Ed25519 and RSA-PSS, zlib, TLS, certificates, ICE, websockets and HTTP routing: library behaviour.
- The opaque pointers, streams and error codecs of the byte format, whose two directions do not mirror each other, and plain records of two strings that would repeat the proofs.
- The other take-once slots of the transfer controllers: each is an option emptied by the first call, like `RTCFileReceiver`.
- The peer certificate behind an identifier of the nonce caches: identifiers are given.
- User interface, platform code and the legacy HTTP protocol.
