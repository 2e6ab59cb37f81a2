# Exchatge client protocol, modelled and proved in Dafny

Exchatge is a desktop messenger. Its client talks to a server that forwards messages between users, and sets up an
end-to-end encrypted conversation with every partner. This project models that client's protocol stack and proves
what it guarantees, over every run of any number of clients whose messages may be lost, delayed and reordered.

`dafny verify dfyconfig.toml` checks all of it.

## How the model is laid out

| file | models |
|---|---|
| `Prelude.dfy` | options, bytes, C's widths, concatenation |
| `Padding.dfy` | ISO/IEC 7816-4 padding in a buffer, as `sodium_pad` and `sodium_unpad` do it |
| `Crypto.dfy` | sizes, key exchange, stream states, sealed headers and the multipart hash, over symbolic terms |
| `Protocol.dfy` | one client as a value: what each handler and each stretch between two waits does to it |
| `Effects.dfy` | what each of those stretches comes to, exactly and in terms of what its caller has |
| `Client.dfy` | the same client as the object that the source updates in place, over the queues and the list below, proved to refine `Protocol` |
| `World.dfy` | any number of clients, the messages in flight and every run |
| `Handshake.dfy` | the invariant of all runs, agreement and paired stores |
| `Delivery.dfy` | text messages under a stored conversation |
| `Slot.dfy` | the flags `settingUpConversation` and `exchangingFile` |
| `Completion.dfy` | fault-free handshakes |
| `Crossing.dfy` | crossed and declined invites |
| `Witnesses.dfy` | runs from the start of two clients to a handshake, to crossed invites and to a delivered text |
| `FileRuns.dfy` | whole file exchanges between two clients of a world |
| `FileExchange.dfy` | both passes over a file, the offer, the chunk loops with queue and clock, both reports |
| `Wire.dfy`, `Framing.dfy` | messages as bytes, and encrypted frames in the stream to the server |
| `RwMutex.dfy` | the reader-counting lock under any number of threads |
| `Queue.dfy`, `QueueThreads.dfy` | the queue object, and its operations step by step under any number of threads |
| `List.dfy`, `Users.dfy` | the list object, and the way from the server's bundles to a user that is looked up |
| `MissingMessages.dfy` | the round that fetches missed messages |
| `Decimal.dfy`, `OptionsFile.dfy` | decimal fields, the options file's lines and its key |

The action thread of the source runs one function at a time from the lifecycle queue, and a set-up blocks it in
`queueWaitAndPop`. A step of the model is what that thread does between two waits or sends; the listening thread's
handler for one message is a step too. Everything the environment decides is a parameter: which message arrives next
or is lost, whether a send or a libsodium call succeeds, whether a wait ends without a message, clocks, random draws
and the user's answers. A step that cannot be taken changes nothing, so every list of steps is a run.

libsodium is symbolic. A secret is named by the draw that made it, a session key by its Diffie-Hellman point, the two
public keys and its half, a ciphertext by the state that encrypted it and its plain text, a digest by what was
hashed. Opening and pulling succeed exactly under the key or state that sealed.

`Aborted` stands for a failed `assert`. It is an outcome of the model and not a precondition, except where the
comment on a method says that the source asserts it of its caller.

## Where the obvious claim is false

Each of these is proved, together with the condition under which the claim does hold.

- `logicMaxMessagePlainPayloadSize` (src/logic.c:1165) admits 136 bytes. A text of that size pads to 144, encrypts to
  161 and fails the assertion at src/logic.c:1123; up to 135 bytes every text is fine (`TextFits`).
- An invite or a file offer from a user who is not in the local list leaves the net slot taken until the client
  disconnects and logs in again (src/logic.c:409-410, src/logic.c:597-601). Nothing else leaks it, and three clients are
  enough to reach such a state (`ActKeepsSlot`, `LeakIsForever`, `LeakIsReachable`).
- Crossed invites do not always come to nothing. When any number of clients are free or wait for answers to invites, a
  conversation can still come about, without anybody asking for anything, if and only if an invite is still on its way
  from a client that waits for its addressee and has not been denied (`CrossedInvitesExactly`, `CrossedIsReachable`).
- A message that netSend encrypts but cannot send leaves the encoder ahead of the decoder. The receiver gets all the
  messages that left if and only if none left after one that did not (`ReadBackExactly`).
- The reader-counting lock does not exclude readers from writers when a second reader comes while the first is still
  waiting (`OverlapBegins`, `ExclusionFails`, `PatientRunsExclude`).
- The unlocked check of `queueWaitAndPop` is safe for a set of removing threads if and only if it has at most one
  thread (`SafeForOneRemoverOnly`).
- The check at src/logic.c:360 holds through a round of missing messages exactly when there are at most two
  conversations (`CheckHoldsUpToTwo`). The user is told that the round is over before all conversations have been asked
  for exactly when there are two (`ReportIsRightUnlessTwo`). A click on the update button during a round can abort the
  client exactly unless the round is over or has nothing to fetch (`ClickAbortsExactly`).
- A file's announced digest is the file's own if and only if the sender's hashing pass does not break off
  (`ChecksumOfFile`). The receiver still reports success only for the whole file, because of the announced size
  (`FileSafety`).
- A key of no bytes, written to the options file and read back, is one zero byte (`KeyRoundTrip`).

## Model

| member | source | states |
|---|---|---|
| Handshake.RunKeeps | src/net.c:788-992 | every step of every run, by any client, keeps the invariant: every message and session can be traced to the draws, keys and headers of exactly one partner, and stores are paired |
| Handshake.Agreement | src/net.c:885-992 | if an invited client returns streams, an inviter session of exactly the client it replied to has built streams from the same keys, each encoder in the state of the other's decoder, however messages were lost, delayed or reordered |
| Handshake.AgreementIsInjective | src/net.c:885-992 | two invited sessions with the same keys are the same session, so no inviter session answers for two |
| Handshake.InviterHasPartner | src/net.c:788-880 | an inviter returns streams only after its partner has sent it the header that its decoder is built from, sealed under the same keys |
| Handshake.StoresArePaired | src/logic.c:398-425 | in every reachable world, whenever two clients both hold a conversation with each other, each stored encoder is the other's stored decoder |
| Completion.FaultFreeRunsComplete | src/net.c:783-992 | however it is scheduled, a fault-free accepted handshake of two clients, among any number of others with nothing to do, never gets stuck, never has an awaited message cleared from a queue, and after sixteen steps both sides have stored mirrored streams and free slots |
| Completion.SomeRunCompletes | src/net.c:783-992 | from every stage of a handshake in a reachable world some run without requests ends with mirrored streams that no session before has had |
| Crossing.CrossedInvitesExactly | src/net.c:472-483 | in any reachable world of any number of clients that are free or wait for answers to invites, some run without further requests builds streams if and only if an invite is on its way from a client that waits for its addressee and has not been denied |
| Crossing.DeadRun | src/net.c:783-992 | once every waiting client, of any number, has a denial first in its queue or no key from whom it has invited that could still reach it, no run without requests builds streams or adds a conversation, though keys that went astray may be taken |
| Crossing.PendingCanComplete | src/net.c:783-992 | from such a pending invite, among any number of clients, a run ends with mirrored streams at both ends |
| Crossing.CrossedInvites | src/net.c:472-483 | freshly crossed invites are both pending, and once both waiting clients have heard and ignored them nothing is |
| Crossing.CrossedInvitesComeToNothing | src/net.c:472-483 | any number of clients that invite one another before hearing of each other's invites build no streams and no conversations, and whoever stops waiting has a free slot, in every run with losses in which nobody asks for anything and no wait ends while an invite to the waiting client is on its way |
| Crossing.DeniedInviteComesToNothing | src/net.c:885-899 | after an invite that is declined, or answered too late, every continuation without requests leaves the sessions as they were, adds no conversation, and leaves every client either still waiting or with both slots free, whether or not the denial arrives; any number of clients, with stale denials anywhere but no keys or other invites on their way |
| Crossing.DenialFreesInviter | src/net.c:895-899 | declining in time puts exactly one message on its way, the denial; whatever happens next without requests, when it reaches an inviter that still waits with an empty queue that one's next step frees its slot |
| Crossing.DeclineReachesInviter | src/net.c:802-809 | right after the decline the denial's delivery and one step of the inviter are enough |
| Witnesses.HandshakeIsReachable | src/net.c:783-992 | from the start of two clients some run ends with mirrored streams stored at both and sessions built |
| Witnesses.CrossedIsReachable | src/net.c:788-810 | from the start of two clients some run leads to invites that cross |
| Witnesses.DeliveryIsReachable | src/logic.c:168-209 | from the start of two clients every text of 1 to 135 bytes can be sent and is then stored byte for byte |
| Delivery.TextFits | src/logic.c:1108-1137 | a text that can be stored is sent without a failed assertion if and only if it has at most 135 bytes, one less than the user interface admits |
| Delivery.StoredStreamsAreFixed | src/logic.c:168-209 | no step of any kind rewrites the stored streams of a conversation that is there before and after it |
| Delivery.StreamsLast | src/database/database.c:418-507 | a conversation that is never deleted during a run has the same stored streams at its end as at its start |
| Delivery.OrderFreeDelivery | src/logic.c:168-209 | a text sent in any reachable world and processed by a partner who lists the sender and has a conversation with it is stored byte for byte, whatever happened in between to all other messages and clients and to the receiver, as long as the sender has kept its conversation throughout |
| Delivery.ChunkDelivery | src/logic.c:691-756 | a file chunk sent in any reachable world to the partner whose streams are loaded for it decrypts at the receiver to what was read, in any order and whatever happened in between, as long as the sender has kept its conversation throughout and the receiver has one with the sender |
| FileRuns.OrderlyExchangesComplete | src/net.c:999-1095 | from a chosen file on, however two clients are scheduled, among any number of others with nothing to do, and in whatever order chunks arrive, a run without faults never gets stuck until both are free; by then every piece read has been sent as one chunk, decrypts at the receiver to that piece and has been taken exactly once, and the run has taken three steps for each piece and nine others |
| FileRuns.EveryFileCanBeSent | src/net.c:999-1095 | for every way to split a file into pieces some run brings them all over in order and frees both ends |
| FileRuns.DeclinedOfferEndsBoth | src/net.c:1058-1067 | a declined offer frees the receiver at once and the sender when the answer arrives, and nothing but that answer is sent |
| Witnesses.ExchangeIsReachable | src/net.c:999-1095 | from the start of two clients every admissible file can be sent in any pieces |
| Slot.SlotIsExclusive | src/net.c:472-508 | in every run no client has both flags set, and each flag is accounted for by at most one operation or waiting reply |
| Slot.ActKeepsSlot | src/net.c:788-1095 | a step of the action thread leaks the slot if and only if it handles an invite from a user who is not listed |
| Slot.SetUpsReturnClean | src/net.c:783-992 | every return of the two blocking set-ups leaves their flag and queue clear and the other flag as it was |
| Slot.ExchangesReturnClean | src/net.c:994-1095 | so does every return of the two blocking file exchanges: a failed offer, a missing or wrong answer, a failed chunk, a failed reply, a loop that runs out of time, and the end of the file |
| Slot.RefusalsReturnClean | src/net.c:885-899 | so does a reply to either kind of invite that is too late or declined |
| Slot.LeakIsForever | src/logic.c:597-601 | once leaked, the slot stays taken in every continuation without a new login, unless an assertion fails |
| Slot.LeakIsReachable | src/logic.c:409-410 | from every initial world of three clients or more some run leaks a slot |
| Slot.ActionsTakeTurns | src/lifecycle.c:60-72 | the action thread removes the oldest action when it is free and leaves the lifecycle queue alone while an operation blocks it |
| Effects.HearingMeans | src/net.c:524-565 | what hearing a message does to every queue, flag and phase: each message joins the back of the queue of the operation it belongs to, file chunks and answers to offers that of file messages, keys and headers that of the set-up; an invite or an offer takes its slot and queues its reply exactly while both slots are free; only a malformed offer fails an assertion; nothing stored is touched |
| Client.Client.ProcessMessage | src/net.c:524-565 | the listening thread's handler, pushing to its array-backed queues, refines the state machine's step and has exactly those effects |
| Client.Client.TakeKey | src/net.c:802-822 | the stretch from the inviter's first wait, with all its early exits, refines the state machine's step |
| Client.Client.TakeHeader | src/net.c:832-863 | likewise from the inviter's second wait |
| Client.Client.TakeAnswer | src/net.c:911-939 | likewise from the invited client's first wait |
| Client.Client.TakeLastHeader | src/net.c:957-991 | likewise from the invited client's last wait to the stored conversation |
| Effects.SendingMeans | src/net.c:795-879 | a set-up sends exactly if the send succeeds, and to its partner; a failed send ends it and gives slot and queue back; the last header opens under the inviter's key to the header of the encoder that is returned, and the streams returned are stored, unless there is a conversation already, which fails an assertion |
| Client.Client.SendAndWait | src/net.c:795-879 | the sends between the waits refine the state machine's step and have those effects |
| Effects.AnsweringMeans | src/logic.c:398-425 | an invite is answered with a denial exactly if its sender is listed, the slot is held, the answer is in time and declines and the send succeeds; it is accepted exactly if it is in time and accepts; it fails an assertion exactly without a user list or, for a listed user, without the slot; an unlisted user is ignored |
| Effects.AnsweringOfferMeans | src/logic.c:579-648 | the same for the offer of a file, with a size of 0 in a denial |
| Effects.StartingMeans | src/logic.c:938-959 | starting a conversation that exists changes nothing, starting one or offering a file while a slot is taken fails an assertion, and otherwise the slot is taken and the send comes next |
| Effects.WaitingMeans | src/net.c:802-863 | a set-up waits on exactly while it is in time and nothing has come; its first message continues it exactly if flag, kind and key are those it waits for and libsodium does its part, and otherwise, or at the deadline, it is over with slot and queue clear |
| Effects.SendingTextMeans | src/logic.c:1108-1137 | a text is stored exactly if it is new, of 1 to 136 bytes and the partner has a conversation, and sent exactly if it is also no longer than 135 bytes and the send succeeds; what is sent is its padded form under the stored encoder |
| Effects.ReceivingTextMeans | src/logic.c:168-209 | a received text is stored if and only if it is new and the padded form of something that is not empty, sealed in the state of the stored decoder; unlisted senders and senders without a conversation are ignored, and everything else fails an assertion |
| Effects.FileWaitingMeans | src/net.c:1020-1090 | a sender goes on exactly with the echo of its file's size; a receiver takes messages until its deadline and fails an assertion exactly on a chunk without or beyond size or in another state than its decoder's |
| Effects.ChunkSendingMeans | src/logic.c:691-720 | a turn of the sending loop sends what was read exactly if there is something, the partner has a conversation and the send succeeds; an empty read ends the exchange after the first chunk and fails an assertion before it |
| World.RequestMeans | src/logic.c:997-1033 | whom the user names becomes the partner, at most one action joins the lifecycle queue, and exactly unlisted users to talk to or to send a file to fail an assertion |
| Client.Client.ReplyToConversationSetUpInvite | src/logic.c:398-425 | the handler of an invite, looking its sender up by binary search, forgets the old conversation in every case, sends the denial exactly when a listed user's invite is declined in time and the send succeeds, and draws a key pair exactly when it is accepted in time |
| Client.Client.AddConversation | src/database/database.c:418-447 | afterwards the user has a conversation, every conversation there was is as before, and an assertion fails exactly if it was one of them |
| Client.Client.RemoveConversation | src/database/database.c:546-567 | the conversation and all its messages are gone, and every other conversation and message is as before |
| Client.Client.SendMessage | src/logic.c:1108-1137 | stores the text, pads it and encrypts it under freshly loaded streams, leaving the store of streams as it was |
| Client.Client.ProcessReceivedMessage | src/logic.c:168-209 | decrypts under freshly loaded streams, removes the padding and stores the text, or drops the message, or fails an assertion |
| Client.Client.ReplyToFileExchangeRequest | src/logic.c:579-648 | the handler of a file offer declines with a size of 0 and has exactly the effects stated for an answered offer |
| Client.Client.TakeFileMessage | src/net.c:1072-1090 | one turn of the receiving loop: other messages are skipped, a chunk that does not decrypt fails an assertion, and a wait without a chunk in time ends the exchange |
| Client.Client.SendChunk | src/logic.c:691-720 | one turn of the sending loop, encrypting what was read under freshly loaded streams |
| Client.Client.Act | src/net.c:788-1095 | every stretch of the action thread, from popping the lifecycle queue to the end of a file exchange, refines the state machine's step |
| Padding.PaddingRoundTrip | src/crypto.c:446-483 | removing the padding of any byte string gives it back for every block size, whatever bytes it holds |
| Padding.PaddingIsUnique | src/crypto.c:446-483 | whole blocks unpad to a byte string if and only if they are its padded form |
| Padding.LargestPayloadIsTight | src/logic.c:1165 | a payload's padded form fits a budget if and only if the payload is no longer than floor(budget / block) * block - 1 |
| Padding.MarkerIsUnique | src/crypto.c:464-483 | padded bytes hold at most one marker that could end the payload |
| Padding.SodiumPad | src/crypto.c:446-462 | pads in place to the next multiple, or changes nothing when the buffer is too small |
| Padding.SodiumUnpad | src/crypto.c:464-483 | finds the marker by a loop without early exit if there is one, and reports none only if there is none |
| Padding.AddPadding | src/crypto.c:446-462 | returns the padded copy |
| Padding.RemovePadding | src/crypto.c:464-483 | returns the payload in front of the marker, or nothing |
| Crypto.KeyAgreement | src/crypto.c:88-103 | both sides of a key exchange derive the same pair of session keys, and a pair determines the two secrets and their roles |
| Crypto.CryptoKeys.ExchangeKeys | src/crypto.c:88-103 | the inviter's keys are those of the client side |
| Crypto.CryptoKeys.ExchangeKeysAsServer | src/crypto.c:204-217 | the invited client's keys, kept in swapped fields, are those of the server side |
| Crypto.CoderStreams.InitializeCoderStreams | src/crypto.c:105-124 | the inviter's decoder starts from the received header and its encoder from its own |
| Crypto.CoderStreams.Encrypt | src/crypto.c:262-288 | a push encrypts under the current encoder state and moves only that one on |
| Crypto.CoderStreams.Decrypt | src/crypto.c:290-317 | a pull succeeds exactly under the state that encrypted, and only then moves the decoder on |
| FileExchange.PiecesJoin | src/logic.c:441-467 | reads that do not fail yield the whole file, however they split it |
| FileExchange.FileSender.CalculateChecksum | src/logic.c:441-467 | the reading loop's digest is that of all that the reads yield, and there is none if they yield nothing |
| FileExchange.FileSender.NextFileChunk | src/logic.c:691-720 | one chunk is the next piece under the stored encoder state, fits a message body and is counted |
| FileExchange.FileSender.SendChunks | src/net.c:1034-1046 | the chunk loop sends all pieces in order, or a beginning of them when a send fails, and counts their bytes |
| FileExchange.FileSender.OfferFile | src/net.c:1004-1032 | the offer is accepted exactly if it was sent and the first message that lands in the queue is the answer with the file's own size; every other way out leaves flag and queue clear |
| FileExchange.FileSender.BeginFileExchange | src/logic.c:469-498 | without an accepting answer no chunk is sent and the file is reported as not transmitted; a failed send ends it after the chunks before; an assertion fails exactly if the first read of either pass yields nothing; success is reported exactly if neither a send nor a read has failed, and then the chunks hold the file; every return leaves flag and queue clear |
| FileExchange.SenderReportMeans | src/logic.c:469-498 | these conditions for the specification of the report, for all files and splits |
| FileExchange.FileReceiver.NextFileChunk | src/logic.c:722-756 | a chunk is written, hashed and counted exactly if it has a valid size and decrypts under the stored state |
| FileExchange.FileReceiver.Wait | src/collections/queue.c:83-94 | the receiver's wait: the queue holds the arrivals that have landed, and the wait yields the next one, or nothing at the deadline |
| FileExchange.FileReceiver.ReceiveChunks | src/net.c:1069-1095 | the receiving loop over the queue writes, accepts and ends as its specification over arrivals and clock says |
| FileExchange.FileReceiver.ReplyToFileExchangeInvite | src/net.c:1048-1095 | a reply in time carries the file's size if it accepts and 0 if it declines; a late, unsent or declining reply and every end of the loop leave flag and queue clear |
| FileExchange.FileReceiver.ReplyToFileExchangeRequest | src/logic.c:579-669 | success is reported exactly if the offer was accepted in time and answered, the loop ran to its end, and what it wrote has the announced size and digest; an assertion fails exactly if the loop hit one; every other return leaves flag and queue clear |
| FileExchange.TimedTermination | src/net.c:1072-1090 | the loop ends less than twice the timeout after the last chunk it took, however many other messages keep arriving |
| FileExchange.OneArrival | src/net.c:1072-1090 | what one arrival does to the loop: too late it ends it, a chunk is written exactly if it has a valid size and decrypts and fails an assertion otherwise, and other messages are passed over without counting as a chunk |
| FileExchange.PiecesJoinExactly | src/logic.c:441-467 | reads yield the whole file if and only if none fails before its end |
| FileExchange.ChecksumOfFile | src/logic.c:441-467 | there is a digest exactly if the first read does not fail, and it is the file's own exactly if no read fails before the end |
| FileExchange.FileSafety | src/logic.c:642-668 | for any loss, repetition, reordering or delay, and wherever the sender's hashing pass broke off, success is reported only if the bytes written are the file that was offered |
| FileExchange.FileCompleteness | src/net.c:999-1095 | for every non-empty file and every split of both passes into pieces, when the chunks arrive in order and in time, among whatever other messages, the sender takes the receiver's answer for an acceptance exactly if it accepts in time and its answer gets away; then the file is written and both report success, and otherwise neither does |
| Wire.UnpackPacked | src/net.c:372-410 | unpacking what was packed gives the message back, whatever follows it |
| Wire.PackUnpacked | src/net.c:372-410 | and packing what was unpacked gives the bytes back |
| Wire.HeadLayout | src/net.c:372-410 | the offset of every field of a packed message |
| Wire.LittleEndian | src/net.c:372-392 | numbers of four and of eight bytes are read with the least significant byte first |
| Wire.PackMessage | src/net.c:394-410 | filling the buffer field by field at running offsets yields the packed form |
| Wire.UnpackedIsTheMessage | src/net.c:372-410 | unpacking yields a message if and only if it is valid and the buffer begins with its packed form |
| Wire.UnpackMessage | src/net.c:372-392 | reading the fields at their offsets yields the one message whose packed form the buffer begins with, if there is one |
| Framing.FrameFits | src/net.c:580-605 | no frame's encrypted part exceeds the 273 bytes that the receiver accepts |
| Framing.FrameIsCutOut | src/net.c:589-605 | a frame is read exactly, whatever follows it in the stream |
| Framing.FramingRoundTrip | src/net.c:582-676 | reading what one thread sent gives back exactly its messages, the k-th under the k-th cipher state, and goes on with what follows |
| Framing.ReadBack | src/net.c:607-622 | when nothing follows, the receiver has the messages, is in the sender's state and waits |
| Framing.OtherStatesRefuse | src/net.c:589-605 | a frame is refused in every decoder state but the encoder's |
| Framing.FirstFrameExactly | src/net.c:582-605 | for any stream, exactly when its first frame is a message, when it has been cut by a disconnect and when it fails an assertion |
| Framing.SendsAreRead | src/net.c:636-676 | of any sends, some of which fail, the receiver gets those before the first failure, and then fails an assertion exactly if a later one got away |
| Framing.ReadBackExactly | src/net.c:636-676 | the receiver gets exactly the messages that got away if and only if none got away after one that did not |
| Framing.StreamGrows | src/net.c:636-676 | each send adds one frame under the state that the sends before it have reached |
| Framing.Sender.Send | src/net.c:636-676 | the encoder moves on even when the bytes cannot be sent, and the stream stays the one that all sends so far have left |
| Framing.Receiver.Receive | src/net.c:589-605 | one frame is taken off the stream, with each of its failures |
| Framing.Receiver.Listen | src/net.c:607-622 | the receive loop recovers what reading the whole stream means |
| RwMutex.RunKeeps | src/utils/rwMutex.c:37-57 | in every interleaving the counter counts the readers, and a locked mutex is held by exactly one of a writer, a leaving reader or the readers together |
| RwMutex.OneWriter | src/utils/rwMutex.c:49-57 | at most one thread writes or is about to release the mutex |
| RwMutex.ReadersKeepWritersOut | src/utils/rwMutex.c:37-47 | from the moment a first reader obtains the mutex nobody writes, and only the last reader's release ends that |
| RwMutex.ObtainingStartsIt | src/utils/rwMutex.c:37-41 | a first reader that obtains the mutex begins such a time |
| RwMutex.OverlapNeedsBarging | src/utils/rwMutex.c:37-41 | a reader beside a writer has come while a first reader was waiting, and that one still waits |
| RwMutex.OverlapBegins | src/utils/rwMutex.c:37-52 | readers and a writer begin to overlap in exactly two kinds of steps |
| RwMutex.PatientRunsExclude | src/utils/rwMutex.c:37-57 | if no reader comes while a first reader waits, readers and writers never overlap |
| RwMutex.ExclusionFails | src/utils/rwMutex.c:37-41 | three threads can make them overlap |
| RwMutex.NothingIsLeaked | src/utils/rwMutex.c:37-57 | once all threads are out the lock is as at the start |
| RwMutex.ReleasedIsFree | src/utils/rwMutex.c:43-57 | a last reader's release and a writer's unlock leave the mutex free and the thread out |
| RwMutex.EverybodyCanLeave | src/utils/rwMutex.c:37-57 | from every reachable state some run brings all threads out, and the lock is then as at the start |
| RwMutex.WaiterGetsIn | src/utils/rwMutex.c:37-57 | in every reachable state a waiting first reader can obtain the mutex after at most one step of another thread |
| RwMutex.RWMutex.Unlock | src/utils/rwMutex.c:43-57 | unlocking frees the mutex, and the thread is out |
| RwMutex.RWMutex.TryLock | src/utils/rwMutex.c:39-52 | an attempt succeeds exactly if the mutex is free, and then holds it for that thread |
| RwMutex.RWMutex.RaiseCounter | src/utils/rwMutex.c:37-41 | raising the counter is the transition system's step, and tells exactly the first reader to take the mutex |
| RwMutex.RWMutex.LowerCounter | src/utils/rwMutex.c:43-47 | lowering it tells exactly the last one to release the mutex |
| Queue.Queue.Push | src/collections/queue.c:47-54 | appends to the contents in a new array |
| Queue.Queue.Pop | src/collections/queue.c:56-81 | takes the oldest value off the contents |
| Queue.Queue.WaitAndPop | src/collections/queue.c:83-94 | returns a value if and only if something is there at some poll of which it and all before come in time, and then the oldest value at the first such poll, leaving the rest; otherwise it leaves the contents alone |
| QueueThreads.StepRefines | src/collections/queue.c:47-131 | in any interleaving every step pushes one value at the back of the abstract queue, takes one off its front, empties it or leaves it alone, as its operation should |
| QueueThreads.FirstInFirstOut | src/collections/queue.c:47-131 | what has been removed and then what is still there are exactly the values pushed, in order |
| QueueThreads.OneRemoverNeverPopsEmpty | src/collections/queue.c:83-94 | with a single thread that pops and clears, no pop after the unlocked size check finds the queue empty |
| QueueThreads.TwoRemoversCanFail | src/collections/queue.c:89-91 | any two removing threads of any system have a run in which one of them does |
| QueueThreads.SafeForOneRemoverOnly | src/collections/queue.c:83-94 | no run in which only these threads pop and clear fails if and only if at most one thread is among them |
| QueueThreads.EverybodyCanFinish | src/collections/queue.c:47-131 | from every reachable state of any threads some run brings every operation to its end with the mutex free |
| List.List.AddBack | src/collections/list.c:58-65 | appends |
| List.List.AddFront | src/collections/list.c:67-78 | the shifting loop puts the value before all others and keeps their order |
| List.List.Copy | src/collections/list.c:45-56 | a new list of duplicates in the same order |
| List.List.BinarySearch | src/collections/list.c:95-107 | finds a matching value if there is one in a list that the comparator's order sorts |
| Users.BodyRoundTrip | src/net.c:683-691 | unpacking the records of a bundle's body gives the users that it was made of |
| Users.UnpackedRecord | src/net.c:683-691 | a record is a little-endian id, a flag byte and a name, and holds nothing beyond what unpacking it keeps |
| Users.BundlesJoin | src/net.c:768-781 | however the list is cut into bundles, and whatever an earlier fetch left behind, the fetched list is the original and nothing is left over |
| Users.LocalsAreTheOthers | src/logic.c:287-318 | the local list holds exactly the users other than the current one, in ascending order, each with its id and name, whether there is a conversation with it and whether it is online |
| Users.FetchesFromThose | src/logic.c:287-318 | messages are fetched from exactly the users with a conversation, in ascending order |
| Users.OwnNameIs | src/logic.c:287-318 | the current user's name becomes that of its own entry, and stays as it is if there is none |
| Users.LookupIsExact | src/logic.c:162-166 | from the server's bundles to a lookup: exactly the others are found, each with its own entry |
| Users.Directory.OnNextUsersBundleFetched | src/net.c:768-781 | one bundle extends the list, or ends it and hands a copy on |
| Users.Directory.ProcessFetchedUsers | src/logic.c:287-318 | the loop builds the local list, the queue of conversations to fetch, and the current user's name |
| Users.Directory.FindUser | src/logic.c:162-166 | the binary search returns the one entry with the id, or none |
| MissingMessages.OrderedOnceEach | src/logic.c:339-366 | in every run of a round the conversations are asked for in list order and none twice, by at most one fetcher |
| MissingMessages.CheckHoldsUpToTwo | src/logic.c:339-366 | the check of counter against queue holds through every run of a round if and only if there are at most two conversations |
| MissingMessages.RestMeansDone | src/logic.c:339-366 | a round of at most two that has come to rest has asked for all and has ended |
| MissingMessages.RoundCanEnd | src/logic.c:339-366 | from every point of a round of at most two some run brings it to rest with all asked for and nothing left behind |
| MissingMessages.ReportIsRightUnlessTwo | src/logic.c:354-365 | in every run of a round all conversations have been asked for once the user is told that it is over, if and only if there are not two |
| MissingMessages.ClickAbortsExactly | src/logic.c:1155-1163 | at any point of a round a click on update can lead to a failed assertion if and only if the round is neither over nor about to begin with nothing to fetch |
| MissingMessages.TwoEndEarly | src/logic.c:354-365 | the run that shows both for two conversations |
| MissingMessages.ClickFetchesUsers | src/logic.c:1155-1163 | once a round is over a click asks for the list of users, and a second one before it has come fails |
| MissingMessages.Fetcher.ProcessFetchedUsers | src/logic.c:287-328 | the begin of a round over the real queue refines the state machine's step: every conversation has been asked for or is still to come, one at most has, and the round is over at once exactly if there is none |
| MissingMessages.AnsweringMeans | src/net.c:750-766 | a reply fails exactly by a stated relation of counter and queue, forgets no conversation, and reports the end exactly with the last message of the last fetcher |
| MissingMessages.Fetcher.OnNextMessageFetched | src/net.c:750-766 | the handlers over the real queues refine the state machine's step and have those effects |
| Decimal.ValueOfField | src/logic.c:1048-1066 | reading a zero-padded field gives back every number that fits it |
| Decimal.FieldOfValue | src/logic.c:1048-1066 | a field is the only text of its width that reads as its number |
| Decimal.FieldDigit | src/logic.c:1048-1066 | the digits of a field stand from the most significant one on |
| Decimal.DigitsFit | src/logic.c:1058 | a number has no more digits than the field exactly if it is below the power of ten |
| Decimal.Utoa | src/logic.c:1048-1066 | writes exactly the zero-padded decimal and nothing else, zero included, and fails its assertion exactly for numbers that do not fit |
| OptionsFile.JoinSplit | src/options.c:63-84 | the lines contain no line break and joined by line breaks are the text |
| OptionsFile.SplitJoin | src/options.c:63-84 | and no other lines without breaks join to it |
| OptionsFile.ReadOptionsFile | src/options.c:54-84 | the loop splits what the buffer holds of the file; a missing or empty file gives nothing |
| OptionsFile.ParseSspkOption | src/options.c:101-126 | the loop reads one number for each part between commas behind the equals sign, modulo 256, and none from a line that ends before it |
| OptionsFile.AtoiReads | src/options.c:101-126 | what `atoi` makes of blanks, a sign, digits and whatever follows them |
| OptionsFile.KeyRoundTrip | src/options.c:101-126 | writing a key's bytes in decimal and parsing them gives the key back if and only if it has any |

## Left out

- Rendering, the event loop, login and registration, stored credentials and the host id: user interface and thin glue.
- Sockets, DNS, SQL text, file system calls and clocks are channels, maps, byte sequences and time values. A socket receive is all or nothing, as src/net.c:582-587 treats it.
- The inside of libsodium, and attackers: all clients are honest, random draws do not repeat, and a failing libsodium call is a choice of the environment.
- In `World` the inviter's last send, `finishSettingUpConversation` and the storing of the streams are one step, and so is a denial.
- In `World` a file's offer carries its size only, and what the sender reads is chosen by the environment; digests, the bytes written and the reports are in `FileExchange`. The check that the partner is online is left out.
- Timeouts and the deadline of an invite are free choices of the environment in `World`; only the file loop and `WaitAndPop` have a clock.
- The flags that make a client drop usual messages while it fetches users or messages: in `World` that is a lost message. Broadcasts and fetched messages are not sent there.
- Server tokens and the initial secured connection to the server.
- Disconnecting and logging in again, which resets the flags (src/net.c:296-308): in `World` clients start once.
- A conversation's timestamp, and the encryption of database columns; the store is a map, because src/database/database.c:484 declares a smaller buffer than line 460 fills.
- Two messages with the same time, sender and conversation violate the primary key of the message table, so the second is a failed assertion in the model; delivery is stated for a first one.
- Delivery.OrderFreeDelivery: assumes that the sender keeps its conversation, because a new one has other streams, and that the receiver has the sender in its user list and is about to process the message, because an unlisted sender's message is dropped by the source.
- `netClean` while threads wait, memory lifetime, and the ownership and recursion of SDL's mutex.
- Queue.Queue.WaitAndPop: is given for a timeout that is not negative, because the other branch calls a getter that may be missing and never ends by time.
- Queue and list sizes near 2^32, where the source asserts, and allocation failures.
- QueueThreads.StepRefines: covers pushes, clears and the pops that follow a size check, because a pop without a check is the caller's own claim that the queue is not empty.
- Wire.UnpackMessage: a buffer that ends before its message does is undefined in the source, which is told no length; the model yields nothing there.
- A user bundle whose body is not a whole number of records is undefined in the source, which reads on; it is excluded.
- Timestamps of a round of missing messages: the assertion at src/logic.c:283 compares clocks and is left out.
- The other option parsers, and numbers beyond C's `int` in the key, for which `atoi` is undefined.
