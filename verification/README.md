# Verification of the relay server's core

A model, in Dafny, of the core of the Rigs of Rods multiplayer server and of three of its building blocks, with proofs.

**The relay session protocol.** The server keeps a list of clients, each with a map of registered streams, an outgoing
queue and some flags. It sends its clients messages only, and the design promises that a client can rebuild the server's
roster and stream table from them. `Relay` is the server as a state machine: every entry point that holds the clients
mutex is one step, and so are the receiver thread's start and the killer thread's sections. `Replica` says what a client
knows from the messages sent to it. `RelayInvariant`, `RelayMembership` and `RelayRuns` show what every step keeps;
`RelayTheorems`, `RelayLogs`, `RelayNames`, `RelaySpawns` and `RelayChat` say what that means for every run, from the start
of the server until the 32-bit user ids are used up or a message arrives of which the language promises nothing
(`RelayUndefined` says exactly which). `RelayEffects`, `RelayTalk` and `RelayMembers` say for every kind of step, in every
reachable state, who is sent what and what else changes, in the messages and fields themselves and not in terms of the
machine's own functions. `BroadcastQueue` is the coalescing queue below, and `Delivery` puts
server and sending threads together in any interleaving. The classes `Sequencing.Sequencer`, `Session.Client`,
`Session.Receiver`, `Broadcasting.Broadcaster` and `SpamFilter.Filter` have the fields and loops of the source and are
proved to make the steps of these machines; `ServerSteps` shows that they can make every one of them, and `ReceiverThread`
is the receiver's main loop with the steps of all other threads in between.
`Identity` treats ids, colours and nicknames, `SpawnRate` the vehicle spawn limiter.

**Streaming SHA-1 and HMAC.** `Sha1Standard` is FIPS 180-1 and section 2 of RFC 2104; `Bits` and `Sha1Words` treat the
arithmetic on `unsigned long` values that are hardly ever masked, for every width of at least 32 bits (`Sha1Words.LONG` is
any multiple of 2^32); `Sha1Hashing.Context` is the hashing context updated in place. `WordVectors` and `Sha1Calculation`
calculate with 32-bit vectors what the standard says with numbers, and `Sha1Examples` does so for two published examples, a
digest and an HMAC, which pins constants, padding and pads down.

**Script arrays.** `ArrayEdits` says what edits and sorts mean for sequences; `ScriptArrays.ScriptArray` is the raw buffer
with its capacity. **Text.** `Utf8` is the sanitising automaton, `StringSplit` the two splitters and the joiner.

What the outside world decides is a parameter: whether a socket accepts a message, what arrives, what the clock shows,
whether memory can be allocated and what it holds at first, what a comparison callback answers, which steps other threads
want to make. Ghost fields (`log`, `announced`, `accepted`, `spawnChecks`, `said`, `destroyed` and others) record history
and influence nothing. Where the source has undefined behaviour (a signed overflow, an access outside a buffer), the model
reports it (`undefined`, `Overrun`, a step that is not enabled) and promises nothing more; when that happens is part of the
contracts.

Some facts of the code that differ from what one might expect, each stated exactly below:

* A REGISTER message without payload is stored from the receiver's old buffer and broadcast as nothing (`RelayTheorems.RegistrationMirrorsExactly`, `RelayTheorems.EmptyRegistrationCounterexample`). Rosters and stream keys are replicated all the same; registrations are replicated as stored or as announced (`RelayTheorems.ViewsAreReplicas`), and exactly as stored where they come with a payload (`Session.PayloadViewsAreExact`).
* A private chat line is sent back to its sender (`RelayTheorems.PrivateLineComesBack`); one of fewer than four octets makes the server copy almost 2^32 octets into a buffer of 8192 (`RelayUndefined.ShortLinesOverflow`, `RelayUndefined.UndefinedOccurs`). A chat line that overruns the sanitiser, and a line or vehicle name that no zero ends, lead outside a buffer, too (`RelayUndefined.HandledExactly`).
* A client's drop state is never initialised, which decides how the reports on its connection begin and whether there are any (`RelayTheorems.QualityMessagesAlternate`).
* The spawn limiter admits one vehicle more than its notice announces (`SpawnRate.BoundIsReached`, `SpawnRate.AnnouncedLimitExactly`).
* An octet F8 to FF takes over the length declared before it, so SanitizeUtf8 can pass it (`Utf8.ForgedPasses`); before the first length has been declared, an octet F8 to FF where a sequence may begin, followed by five or more continuation octets, overruns the buffer, and nothing else does (`Utf8.BurstsExactly`, `Utf8.OverrunsOccur`).
* `RemoveRange` cuts its range correctly only while start + count does not wrap around (`ArrayEdits.RemovalIsExact`).
* A sort request whose end is no signed 32-bit number is silently ignored, and one whose start is none can run in front of the buffer (`ArrayEdits.RequestsAnswered`, `ArrayEdits.StartBeforeBuffer`).
* An array of fewer than 2^31 elements that is resized to 2^31 or more is emptied or worse (`ArrayEdits.ResizeIsExact`).
* An insertion for which there is no room overwrites elements (`ScriptArrays.ScriptArray.InsertAt`, `InsertAllAt`).
* `StringSplit` cuts the last part at a zero, `strict_tokenize` does not (`StringSplit.TerminatedThenJoin`), and neither ends on an empty delimiter (`StringSplit.LoopsEnd`).
* On stop, the message the sending thread takes next is never sent: if the queue is not empty then, exactly that message is lost (`BroadcastQueue.StopLosesExactly`, `BroadcastQueue.StopLosesMessage`).

## Model

| member | source | states |
|---|---|---|
| RelayTheorems.ViewsAreReplicas | source/server/sequencer.cpp:571-603 | In every reachable state, replaying everything queued for an introduced client gives exactly the server's roster and exactly the streams of all other clients, each as it is stored or as its last REGISTER announced it, through joins, failed welcomes, late introduction, re-registration, unregistration, leaves and auto-kicks; where announced and stored registrations agree, the registrations too are exact |
| RelayLogs.FaithfulViewsAreExact | source/server/receiver.cpp:106-158 | After every run whose registrations all come over a clear buffer, introduced clients' logs replay to exactly the server's roster and stream table |
| RelayTheorems.EarlyViewsAreSound | source/server/sequencer.cpp:137-145 | Before its introduction a client may miss things but is never shown anything stale |
| Delivery.DeliveredViewsAreReplicas | source/server/broadcaster.cpp:83-165 | For every interleaving of the server's steps, message by message, with the sending threads: whenever a client's thread is idle with an empty queue, what its socket has carried to an introduced client rebuilds roster and stream table as above |
| Delivery.FirmMessagesInOrder | source/server/broadcaster.cpp:83-165 | Until a thread stops or fails, the messages that may not be dropped arrive in the order the server issued them: sent, and carried by the socket as they are, then in hand, then queued |
| RelayTheorems.DataFollowsRegistration | source/server/sequencer.cpp:872-902 | Every stream-data message queued for a client after its introduction belongs to a stream whose REGISTER the client has been sent, with no later UNREGISTER or LEAVE |
| RelayTheorems.UnregisteredDataIsDropped | source/server/sequencer.cpp:872-882 | Data for a stream its sender has not registered, or has unregistered, is queued for nobody |
| RelayLogs.DataComesFromRegisteredStreams | source/server/sequencer.cpp:872-882 | In every run, whenever stream data is queued for anybody, it is the data of a connected client that has registered the stream and not unregistered it since |
| RelayLogs.NextFollows | source/server/sequencer.cpp:846-1385 | In every step what a client has been sent only grows; only the handled message adds data and chat lines, of its sender; flags stay set, spawn records change only for the sender of a vehicle registration, and only the sender of a chat line has said one |
| RelayLogs.ChatComesFromPublishedLines | source/server/sequencer.cpp:1022-1036 | In every run a chat line of a client reaches others only in the step that handles that line, and only if it is no command and the filter lets it pass |
| RelayLogs.FlagsStaySet | source/server/receiver.cpp:77 | In every run the receiving flag of a connected client stays set |
| Delivery.ServerStepIsPossible | source/server/broadcaster.cpp:136-165 | Whatever the server does, the clients' queues can take it in: every server step is a step of the combined system |
| RelayTheorems.RegistryHolds | source/server/sequencer.cpp:289-351 | In every reachable state user ids are distinct and below the next one, colours are distinct, the bot counter is right, clients minus bots never exceed the limit, and nobody has more than vehicle limit + 2 streams |
| RelayTheorems.NewUidClashes | source/server/sequencer.cpp:343-348 | The 32-bit user id counter keeps ids distinct if and only if the next id is not held by a connected client (it may be after a wrap-around) |
| RelayTheorems.LifeCycle | source/server/sequencer.cpp:445-547 | Until the killer thread is told to stop, every client ever created is connected, waiting to be killed, being killed or destroyed, exactly one of them; deleted clients have both threads stopped |
| RelayTheorems.SecondReportFindsNobody | source/server/sequencer.cpp:386-547 | However many threads report a client, it leaves once and is queued for killing once; the others keep their order |
| RelayTheorems.QualityMessagesAlternate | source/server/sequencer.cpp:854-868 | Every client is told about its connection in strict alternation: bad, good, bad, ... if the memory of its drop state, which nothing initialises, held 0; good, bad, good, ... if it held 1; nothing ever if it held anything else |
| RelaySpawns.SpawnsAreBounded | source/server/sequencer.cpp:81-117 | In every run no closed window of the configured length holds more than max rate + 1 accepted vehicle registrations of a client, although old timestamps are erased |
| RelaySpawns.SpawnsOfRun | source/server/sequencer.cpp:81-117 | In every run each accepted vehicle registration was allowed by the limiter, asked about all earlier ones |
| RelaySpawns.SpawnIsRecorded | source/server/sequencer.cpp:902-1001 | An accepted vehicle registration is recorded with its clock readings, and the limiter allows it |
| RelaySpawns.RefusedVehicleIsGone | source/server/sequencer.cpp:883-941 | A registration that is not accepted ends the connection |
| RelayTheorems.PrivateLineComesBack | source/server/sequencer.cpp:1305-1313 | In every reachable state every private line that is handled at all is sent to its own sender, whoever it is addressed to, and to nobody else |
| RelayUndefined.HandledExactly | source/server/sequencer.cpp:846-1385 | In every reachable state a message from a listening client is handled unless it is a private line whose unsigned copy length exceeds a queue entry, a chat line that no zero ends or that outgrows the sanitiser's buffer, or the registration of a vehicle whose name is read and has no end: of these the language promises nothing |
| RelayUndefined.ShortLinesOverflow | source/server/sequencer.cpp:1309-1311 | The copy of a private line exceeds the queue entry if and only if the line has fewer than four octets; it is then 2^32 octets long but for at most four |
| RelayUndefined.UndefinedOccurs | source/server/sequencer.cpp:1309-1311 | Each kind occurs: an empty private line, the chat line F8 80 80 80 80 80 and a vehicle name that fills the buffer, in a state with two listeners that every server with room for two reaches |
| RelayTheorems.FaithfulMeansCleared | source/server/receiver.cpp:106-158 | The registration that is broadcast decodes to the stored one if and only if the payload buffer is zero behind the payload (the terminator aside) |
| RelayTheorems.RegistrationMirrorsExactly | source/server/sequencer.cpp:961-966 | After an accepted registration another listener's view shows the stream as stored if and only if the buffer was clear behind the payload |
| RelayTheorems.EmptyRegistrationCounterexample | source/server/receiver.cpp:113-119 | A REGISTER without payload after another message, in a reachable state with two listeners: the old payload is stored, zeros are broadcast, and the other listener's view differs from the server's table afterwards |
| RelayTheorems.ReachableInv | source/server/sequencer.cpp:846-1385 | The server invariant holds in every reachable state |
| RelayEffects.DataIsRelayed | source/server/sequencer.cpp:872-882 | In every reachable state: data of a registered stream is sent, octet for octet and once, to every other client that listens and to nobody else, data of other streams to nobody; everybody else is told before who a sender is that has not been introduced, with token and guid blanked |
| RelayEffects.DataComesLast | source/server/sequencer.cpp:1359-1372 | So a listener other than the sender is sent that data last, once more than before and no other data; the sender and who does not listen are sent no data |
| RelayEffects.IntroductionIsComplete | source/server/sequencer.cpp:571-603 | With its first data a client is shown every client as it is and every stream as it is stored, in the order of the list and of the stream ids, nothing else and nothing twice but its own record |
| RelayEffects.RegistrationIsRelayed | source/server/sequencer.cpp:942-1001 | In every reachable state: a registration that is not refused is stored as its first 272 octets with octet 143 zero, and with the same change sent once to every other listener; the sender gets a line when more than seven tenths of its spawn rate or all but three of its vehicles are used up |
| RelayEffects.RegistrationIsRefused | source/server/sequencer.cpp:883-941 | In every reachable state: with vehicle limit + 2 streams, or for a vehicle, by the first four octets, with more than the maximum rate of timestamps in the interval or a name that is not printable or all blanks, the sender leaves; everybody gets one LEAVE, and who listens a line before it |
| RelayEffects.NameIsGood | source/server/utils.cpp:108-124 | A vehicle name is accepted if and only if the octets from 16 to the first zero are all 20 to 7E and not all blanks |
| RelayEffects.StreamEnds | source/server/sequencer.cpp:1012-1017 | An unregistration of an existing stream drops it and is sent once to everybody who listens, the sender too; of any other it changes nothing |
| RelayEffects.ResultGoesToOwner | source/server/sequencer.cpp:1002-1011 | A registration result goes, as 272 octets, to the client whose id octets 8 to 11 hold, lowest first, listening or not, and to nobody else |
| RelayEffects.PrivateLineReturns | source/server/sequencer.cpp:1305-1313 | A private line goes to its sender, without its first four octets, and to nobody else |
| RelayEffects.OthersAreIgnored | source/server/sequencer.cpp:846-870 | A message of any other type is relayed to nobody |
| RelayEffects.LeavingIsTold | source/server/sequencer.cpp:1018-1021 | Who takes its leave goes from the list to the end of the kill queue, the others close up in order, and everybody is sent one LEAVE |
| RelayEffects.DroppingIsTold | source/server/sequencer.cpp:386-390 | So does a client that some thread reports |
| RelayEffects.StrangersChangeNothing | source/server/sequencer.cpp:849-852 | Messages and reports of somebody who is not connected change nothing |
| RelayTalk.CommandMeans | source/server/sequencer.cpp:1027-1028 | A chat line is a command if and only if its first octet is an exclamation mark, whatever the sanitiser does |
| RelayTalk.TextIsRead | source/server/sequencer.cpp:1023 | The line is the octets before the first zero, if they are well-formed, and otherwise those sanitised |
| RelayTalk.LineIsHeard | source/server/sequencer.cpp:1022-1036 | In every reachable state: a line that is no command is sent, as it came, to everybody who listens, the sender included, unless the filter is on and has the sender gagged after the line; the sender gets one line of the server first while gagged and when the gag has just ended |
| RelayTalk.CommandIsAnswered | source/server/sequencer.cpp:1040-1304 | A command that is answered reaches nobody but through the lines of the answer, one for each that is for the client |
| RelayTalk.KickFails | source/server/sequencer.cpp:1225-1244 | A kick by who is neither administrator nor moderator, or of nobody, removes nobody, and only the sender hears of it |
| RelayTalk.KickSucceeds | source/server/sequencer.cpp:660-690 | A kick by one of them removes exactly the client named: a line for everybody who listens, then a LEAVE for everybody |
| RelayTalk.MotdIsTold | source/server/sequencer.cpp:555-568 | The message of the day reaches its client, if that listens, line by line, and nobody else |
| RelayMembers.RefusedAtTheDoor | source/server/sequencer.cpp:281-299 | In every reachable state: who is banned is not admitted, nor is anybody while the clients without the bot flag are as many as the limit; nothing changes |
| RelayMembers.JoiningIsTold | source/server/sequencer.cpp:301-378 | In every reachable state: everybody else who can be welcomed becomes the last client, with the next id, the least colour nobody has, the name of the rule and nothing else changed in its record; it does not listen, has no streams and both threads run; everybody, itself included, is sent one JOIN without token and guid |
| RelayMembers.WelcomeFailureIsTold | source/server/sequencer.cpp:356-361 | Who cannot be welcomed waits to be killed at once, its id is used up, and everybody is sent one LEAVE |
| RelayMembers.ListeningStarts | source/server/receiver.cpp:77 | Exactly the client whose thread has started listens from then on |
| RelayMembers.DeletedInOrder | source/server/sequencer.cpp:464-488 | In every run in which the killer thread is not told to stop, clients are deleted in the order in which they left |
| RelayMembers.FullMeans | source/server/sequencer.cpp:289 | The server is full if and only if the clients without the bot flag, counted one by one, are as many as the limit |
| RelayLogs.SecretsAreKept | source/server/sequencer.cpp:370-378 | In every reachable state no user record that anybody was ever sent shows a token or a guid |
| RelayRuns.NextKeepsInv | source/server/sequencer.cpp:846-1385 | Every step of the server (join, listen, motd, message, disconnect, killer sections) keeps replication, registry and life-cycle invariants together |
| RelayRuns.CreateKeepsInv | source/server/sequencer.cpp:273-384 | So does a join, with all four outcomes: banned, full, failed welcome, joined |
| RelayRuns.WelcomeFailedResult | source/server/sequencer.cpp:356-361 | A client whose welcome fails is gone again; the others keep everything and only hear that a stranger left |
| RelayRuns.DisconnectRemovesOne | source/server/sequencer.cpp:490-547 | Exactly the reported client leaves, the others keep their order and hear of it, and reporting it again changes nothing |
| RelayRuns.DisconnectKeepsInv | source/server/sequencer.cpp:490-547 | A disconnect keeps the invariant |
| RelayRuns.FreeUidIsFresh | source/server/sequencer.cpp:343-348 | The next user id is in use nowhere |
| RelayRuns.RegisterKeepsInv | source/server/sequencer.cpp:883-1001 | A registration, accepted or answered with an auto-kick, keeps the invariant |
| RelayRuns.UnregisterKeepsInv | source/server/sequencer.cpp:1012-1017 | An unregistration keeps the invariant |
| RelayRuns.DataKeepsInv | source/server/sequencer.cpp:872-882 | Stream data, with late introduction of its sender, keeps the invariant |
| RelayRuns.ChatKeepsInv | source/server/sequencer.cpp:1022-1304 | A chat line, published, withheld by the filter or a command, keeps the invariant, by which the filter's state is that of a filter asked about everything its player has said |
| RelayRuns.ResultKeepsInv | source/server/sequencer.cpp:1002-1011 | A message passed on to a single client, a registration result or a private line, keeps the invariant |
| RelayRuns.ReceiveKeepsInv | source/server/sequencer.cpp:846-1385 | Every message from a client keeps the invariant |
| RelayRuns.KillerTakeKeepsInv | source/server/sequencer.cpp:464-477 | Taking a client off the kill queue loses nobody |
| RelayRuns.KillerDestroyKeepsInv | source/server/sequencer.cpp:479-488 | Deleting a client loses nobody and leaves no thread running |
| RelayMembership.IntroductionSeen | source/server/sequencer.cpp:571-603 | The messages of a late introduction show the newcomer exactly the connected users and their streams, each as it is |
| RelayMembership.IntroduceKeepsSound | source/server/sequencer.cpp:571-603 | After an introduction the newcomer's view is exact and nobody else's is disturbed |
| RelayMembership.LeaveKeepsSound | source/server/sequencer.cpp:519-527 | After a leave every view is right again |
| RelayMembership.JoinKeepsSound | source/server/sequencer.cpp:370-378 | After a join every view, the new client's included, is right |
| RelayMembership.StrangerLeavesSound | source/server/sequencer.cpp:356-361 | A LEAVE for somebody who was never announced harms no view |
| RelayInvariant.TellKeepsSound | source/server/sequencer.cpp:1359-1372 | Publishing a message that changes no table keeps every view; data needs a registered stream |
| RelayInvariant.RegisterKeepsSound | source/server/sequencer.cpp:961-966 | Storing a stream and telling every other listener keeps all views |
| RelayInvariant.UnregisterKeepsSound | source/server/sequencer.cpp:1012-1017 | Dropping a stream and telling every listener keeps all views |
| RelayInvariant.QualityStepKeepsSound | source/server/sequencer.cpp:854-868 | The connection report keeps the alternation and all views |
| Identity.FreeColourIsLeast | source/server/sequencer.cpp:253-271 | The unbounded colour search ends within one try per user plus one, with the least colour nobody has |
| Identity.FreeColour | source/server/sequencer.cpp:253-271 | The colour found is free and every smaller one is taken |
| Identity.ChosenNameIsFree | source/server/sequencer.cpp:301-320 | A joining user gets an unused name if and only if the wanted one or one of the 97 suffixed ones is unused |
| Identity.ChosenNameSpelled | source/server/sequencer.cpp:301-320 | The name is the one asked for, Anonymous for none; if it is taken, the first of its substitutes 2 to 98 that is not (the first 36 characters, a dash and the number), and the taken one if there is none |
| Identity.DecimalSpelled | source/server/sequencer.cpp:312 | The number is written with one or two decimal digits, without a zero in front |
| Identity.ChosenNameIsNew | source/server/sequencer.cpp:306-320 | With at most 96 users present some candidate is free, whatever the name (pigeonhole) |
| Identity.ChosenNameFits | source/server/sequencer.cpp:309-317 | The composed name fits the 40-character field |
| Identity.CandidatesDiffer | source/server/sequencer.cpp:309-313 | The 97 suffixed candidates are pairwise distinct |
| RelayNames.JoinKeepsNamesExactly | source/server/sequencer.cpp:301-320 | A join keeps nicknames distinct if and only if the wanted name or one of its substitutes is free |
| RelayNames.NamesStayDistinct | source/server/sequencer.cpp:240-320 | Nicknames stay distinct and fit the field in every run in which arriving names fit and nobody joins a crowd of more than 96 |
| RelayNames.BotlessNamesDistinct | source/server/config.cpp:374-378 | On a server without bots, with the configured limit of at most 64 players, nicknames are always distinct |
| RelayNames.GoneStaysGone | source/server/sequencer.cpp:343-348 | A user id that is no longer connected never comes back |
| Sequencing.Sequencer.FindClientById | source/server/sequencer.cpp:1479-1489 | Finds the first client with the id, or none |
| Sequencing.Sequencer.QueueToAudience | source/server/sequencer.cpp:1362-1372 | The broadcast loop queues the message for exactly the clients meant |
| Sequencing.Sequencer.ServerSay | source/server/sequencer.cpp:624-658 | A server notice reaches exactly the listening clients addressed |
| Sequencing.Sequencer.SayLines | source/server/sequencer.cpp:555-568 | The message of the day, line by line |
| Sequencing.Sequencer.CheckNickIsUnique | source/server/sequencer.cpp:240-250 | True if and only if somebody has the name |
| Sequencing.Sequencer.GetFreePlayerColour | source/server/sequencer.cpp:253-271 | The search loop ends with the least free colour |
| Sequencing.Sequencer.ComposeNick | source/server/sequencer.cpp:301-320 | The loop over suffixes yields the name the rule prescribes |
| Sequencing.Sequencer.Admit | source/server/sequencer.cpp:322-354 | The new client is put into the list with the next id, a free colour and both threads running |
| Sequencing.Sequencer.CreateClient | source/server/sequencer.cpp:273-384 | A join on the object's fields is the server machine's join, and reports its outcome |
| Sequencing.Sequencer.QueueClientForDisconnect | source/server/sequencer.cpp:490-547 | A disconnect on the fields is the machine's: one client moves from the list to the kill queue, all are told |
| Sequencing.Sequencer.DisconnectClient | source/server/sequencer.cpp:386-390 | The same, under the lock |
| Sequencing.Sequencer.SendRegisters | source/server/sequencer.cpp:593-600 | The loop over a client's streams sends one REGISTER for each, by ascending id |
| Sequencing.Sequencer.IntroduceNewClientToAllVehicles | source/server/sequencer.cpp:571-603 | The introduction loop queues for every client what the machine's introduction does |
| Sequencing.Sequencer.NotifyAllVehicles | source/server/sequencer.cpp:137-145 | A client is introduced the first time and never again |
| Sequencing.Sequencer.PublishData | source/server/sequencer.cpp:872-882 | Data of registered streams is queued once for every other listener, after the introduction, and nothing otherwise; `RelayEffects.DataIsRelayed` spells the messages out |
| Sequencing.Sequencer.CheckSpawn | source/server/sequencer.cpp:81-117 | The limiter's records and the warning, as part of a registration |
| Sequencing.Sequencer.StoreAndPublish | source/server/sequencer.cpp:961-988 | The stream is stored with its name terminated, the owner is warned near the limit, the other listeners are told |
| Sequencing.Sequencer.RegisterStream | source/server/sequencer.cpp:883-1001 | All four outcomes of a registration on the fields are the machine's, unless a vehicle name is read that no zero ends, exactly |
| Sequencing.Sequencer.PublishUnregister | source/server/sequencer.cpp:1012-1017 | A stream that exists is dropped and everybody, the sender included, is told |
| Sequencing.Sequencer.ForwardResult | source/server/sequencer.cpp:1002-1011 | A result goes to the client whose stream it answers, if it is there |
| Sequencing.Sequencer.PassPrivateChat | source/server/sequencer.cpp:1305-1313 | A private line goes back to its sender; of one with fewer than four octets, exactly, nothing is promised |
| Sequencing.Sequencer.HandleChat | source/server/sequencer.cpp:1022-1304 | The buffer is read up to its first zero and sanitised, commands are carried out, other lines go through the client's own filter: the machine's step, unless no zero ends the line or the sanitiser overruns, exactly |
| Sequencing.Sequencer.SayLine | source/server/sequencer.cpp:1029-1032 | A line that is no command: the filter is asked, the player told about the gag, and the line published or not, as in the machine |
| Sequencing.Sequencer.RunCommand | source/server/sequencer.cpp:1040-1304 | A command: its answers, or a kick by the staff |
| Sequencing.Sequencer.QueueMessage | source/server/sequencer.cpp:846-1385 | Handling a message on the fields is the machine's step, spelled out message by message in `RelayEffects` and `RelayTalk`, with the dropping flag of the sender's own queue; it says exactly when the language promises nothing |
| Sequencing.Sequencer.HandleMessage | source/server/sequencer.cpp:870-1320 | The same for the part that depends on the message type |
| Sequencing.Sequencer.Listen | source/server/receiver.cpp:77 | The client listens from now on |
| Sequencing.Sequencer.StopKillerThread | source/server/sequencer.cpp:220-229 | A killer thread that runs is asked to stop; otherwise nothing happens |
| Sequencing.Sequencer.KillerThreadWaitForClient | source/server/sequencer.cpp:464-477 | The killer's look at its queue is the machine's |
| Sequencing.Sequencer.KillerThreadProcessClient | source/server/sequencer.cpp:479-488 | Both threads of the client are stopped before it is deleted |
| Session.Client.StartThreads | source/server/sequencer.cpp:59-62 | Both threads run |
| Session.Client.Disconnect | source/server/sequencer.cpp:64-79 | Both threads are stopped and joined |
| Session.Client.CheckSpawnRate | source/server/sequencer.cpp:81-117 | Purging, counting, warning and recording on the timestamp list are the limiter's |
| Session.Client.PurgeTimestamps | source/server/sequencer.cpp:91-102 | The erasing loop keeps exactly the timestamps within the interval and counts them |
| Session.Client.ReportQuality | source/server/sequencer.cpp:854-868 | One message per change of the connection's state |
| Session.Client.Moderate | source/server/sequencer.cpp:1029-1032 | The client's filter, if filters are active, decides about a line that is no command |
| Session.Receiver.Start | source/server/receiver.cpp:42-49 | The thread runs |
| Session.Receiver.Stop | source/server/receiver.cpp:51-65 | Only a running thread is stopped and joined |
| Session.Receiver.ThreadReceiveHeader | source/server/receiver.cpp:125-144 | A header is accepted if it arrives and announces no more than the buffer holds |
| Session.Receiver.ThreadReceivePayload | source/server/receiver.cpp:146-158 | The buffer holds the payload with zeros behind it |
| Session.Receiver.ThreadReceiveMessage | source/server/receiver.cpp:106-123 | A message without payload leaves the previous payload in the buffer |
| Session.ReceivedRegistrationFaithful | source/server/receiver.cpp:106-158 | Every registration received with a payload is broadcast as it is stored |
| Session.PayloadViewsAreExact | source/server/receiver.cpp:106-158 | After every run in which each REGISTER is received with a payload, introduced clients' logs replay to exactly the server's roster and stream table |
| Session.ShorterPayloadsEnd | source/server/receiver.cpp:146-158 | In the buffer of a message received with a payload of fewer than 8192 octets every string has an end |
| ReceiverThread.ThreadEventsShape | source/server/receiver.cpp:73-104 | The receiving flag is set before any message is handled, only commands 1000 to 1050 are, each once and in order, and the client is reported at most once, at the end |
| ReceiverThread.ThreadEventsExactly | source/server/receiver.cpp:73-104 | The thread's steps, exactly: it listens, the message of the day goes out, every message is handed on, in order, up to the first one that is broken or has a command outside 1000 to 1050, and then the client is reported |
| ReceiverThread.ThreadMain | source/server/receiver.cpp:73-104 | The thread function over the server object: before each of its own steps the other threads do, one after the other, exactly those of their wanted steps that are possible then, and sections of the sending threads; it makes its own steps in their order, and all steps together are a run of the server. It breaks off exactly at a message of which the language promises nothing |
| ReceiverThread.HandleMessages | source/server/receiver.cpp:82-101 | The message loop alone, with what the others want to do before turn k done before turn k |
| ReceiverThread.HandleMessage | source/server/receiver.cpp:83-100 | One turn of it: a message is handed on with the dropping flag that the client's own queue shows at that moment; a broken one or a command out of range reports the client and ends the loop |
| ServerSteps.NextListens | source/server/receiver.cpp:77 | No step of any thread clears the receiving flag of a client |
| ServerSteps.ListensForever | source/server/receiver.cpp:77-100 | So a message of a client whose thread has started can be handled after every run of steps of other threads, unless the language promises nothing about it |
| ServerSteps.Make | source/server/sequencer.cpp:273-1385 | Every step that the machine can make is made by a method of the server object |
| ServerSteps.CanMake | source/server/sequencer.cpp:273-1385 | Whether a step can be made can be read off the object's fields |
| ServerSteps.OtherActs | source/server/receiver.cpp:73-104 | Another thread makes the step it wants exactly if that is possible, with the dropping flag of its sender's queue at that moment, or one section of a sending thread, which is no step of the server |
| ServerSteps.OthersAct | source/server/receiver.cpp:73-104 | The steps made are exactly those of the wanted ones that are possible when it is their turn, in their order, each with a dropping flag that `OtherActs` reads from its sender's queue then; they lead to the state the object is in afterwards |
| ServerSteps.SendingThreadActs | source/server/broadcaster.cpp:83-121 | A section of a client's sending thread makes one step of its channel and leaves the server's state as it is |
| ServerSteps.ThreadRunLeads | source/server/receiver.cpp:73-104 | The steps of one thread with those of all others before each of them are a run of the server |
| BroadcastQueue.FirmMessagesKeepOrder | source/server/broadcaster.cpp:83-165 | For every run of producers and the thread: the messages that may not be dropped, as queued, equal those sent, then the one in hand, then those drained, then those queued |
| BroadcastQueue.MissingIsInHand | source/server/broadcaster.cpp:83-121 | In every run a message that may not be dropped is missing from what was sent, drained and is still queued if and only if the thread holds it |
| BroadcastQueue.StopLosesExactly | source/server/broadcaster.cpp:83-121 | A stop with a working socket delivers everything if and only if the queue is empty when the thread looks at it next; otherwise exactly the first entry is lost, the others are sent in order, and a message that may not be dropped is lost if and only if that entry is one |
| BroadcastQueue.StoppingIdle | source/server/broadcaster.cpp:83-121 | A stop of an idle thread, whatever the socket does: the first entry is taken and never sent, the next ones are sent up to the first that does not pass, the others stay queued |
| BroadcastQueue.StopLosesMessage | source/server/broadcaster.cpp:83-121 | A message queued right before the stop of an idle thread is accepted and never sent |
| BroadcastQueue.SocketCarries | source/server/broadcaster.cpp:91-133 | In every run the socket has carried exactly what was sent and drained, message by message and in order: equal source, stream and payload, and equal type but that discardable data has become plain data; messages without a type are left out |
| BroadcastQueue.IdleSocketReplays | source/server/broadcaster.cpp:83-133 | What the socket has carried shows a client what was delivered to it |
| BroadcastQueue.CatchesUp | source/server/broadcaster.cpp:83-121 | A waiting thread whose socket works sends all entries of its queue, in order, in as many turns of its loop, and waits again |
| BroadcastQueue.ArrivalMeans | source/server/broadcaster.cpp:136-165 | An arrival on an empty queue becomes its only entry; discardable data overwrites the one entry of the same source and stream, in place, if there is one; anything else goes behind the others |
| BroadcastQueue.AcceptedAreCounted | source/server/broadcaster.cpp:111-165 | Accepted = sent + in hand + drained + queued + overwritten, exactly |
| BroadcastQueue.NewestDataSurvives | source/server/broadcaster.cpp:149-160 | Until a send error or stop the newest data queued for a stream is sent, in hand or queued, and what is sent of a stream keeps its order |
| BroadcastQueue.QueueFactsHold | source/server/broadcaster.cpp:144-160 | At most one discardable entry per stream is queued; the dropping flag is set exactly by four replacements since the last enqueue on an empty queue, cleared exactly by four enqueues on an empty queue since the last replacement |
| BroadcastQueue.SpuriousWakeChangesNothing | source/server/broadcaster.cpp:111-127 | A wake-up without a message sends and changes nothing |
| BroadcastQueue.CaughtUpViews | source/server/broadcaster.cpp:83-165 | With nothing in hand or queued, what was sent shows the client what was queued for it |
| BroadcastQueue.NextKeepsConsistent | source/server/broadcaster.cpp:83-165 | Every step of producers and thread keeps the queue's invariant |
| BroadcastQueue.ArrivalMovesFlag | source/server/broadcaster.cpp:146-156 | Counters and flag follow the history of arrivals |
| BroadcastQueue.QueueKeepsFirm | source/server/broadcaster.cpp:136-165 | An arrival never loses or reorders a message that may not be dropped |
| BroadcastQueue.QueueKeepsNewest | source/server/broadcaster.cpp:149-159 | An arrival never loses the newest data of any stream |
| BroadcastQueue.OtherStepsKeepPath | source/server/broadcaster.cpp:83-121 | The thread only moves messages along |
| BroadcastQueue.Slot | source/server/broadcaster.cpp:150-152 | The first entry that may be overwritten |
| Broadcasting.Broadcaster.Start | source/server/broadcaster.cpp:42-53 | A fresh, running channel |
| Broadcasting.Broadcaster.FindSuperseded | source/server/broadcaster.cpp:150-151 | The search loop finds the first outdated entry |
| Broadcasting.Broadcaster.QueueMessage | source/server/broadcaster.cpp:136-165 | One arrival on the object's fields is one arrival of the channel |
| Broadcasting.Broadcaster.ThreadWaitForMessage | source/server/broadcaster.cpp:111-121 | One wake-up of the channel; the state returned decides between sending and draining |
| Broadcasting.Broadcaster.ThreadTransmitMessage | source/server/broadcaster.cpp:124-133 | Nothing is sent for an empty entry; every other one goes out with its source, stream and payload, discardable data as plain data |
| Broadcasting.Broadcaster.SendInHand | source/server/broadcaster.cpp:99-104 | One send of the channel, with what went to the socket recorded; a failed one sends nothing and ends the loop |
| Broadcasting.Broadcaster.Drain | source/server/broadcaster.cpp:91-98 | What is left is sent in order until the socket fails, and recorded as sent; the count is the number of entries the socket takes |
| Broadcasting.Broadcaster.RequestStop | source/server/broadcaster.cpp:57-71 | Only a running thread is asked to stop |
| Broadcasting.Broadcaster.RunToExit | source/server/broadcaster.cpp:83-108 | Once asked and woken, the thread exits after boundedly many sections, in the state the stop rule prescribes: what was sent, what is lost, what stays queued |
| Broadcasting.Broadcaster.Stop | source/server/broadcaster.cpp:56-80 | The thread is stopped and joined if it was running, and its channel is then exactly as the stop rule says; what happens meanwhile is a run of the channel in which nothing is queued |
| SpawnRate.PurgingLosesNothing | source/server/sequencer.cpp:91-102 | With non-decreasing clock readings the purged timestamps count like everything ever recorded |
| SpawnRate.CheckCounts | source/server/sequencer.cpp:81-117 | With a clock that does not run backwards, in terms of everything recorded: a spawn is allowed if and only if at most the maximum rate of spawns were recorded within the interval, and warned about if and only if more than seven tenths of it were; without limits all are allowed |
| SpawnRate.WindowBound | source/server/sequencer.cpp:81-117 | However a client times its registrations, no closed window of the interval's length holds more than max rate + 1 allowed ones |
| SpawnRate.BoundIsReached | source/server/sequencer.cpp:104-116 | The bound is reached for every rate and interval: one vehicle more than the notice to the player announces may be spawned at once |
| SpawnRate.AnnouncedLimitExactly | source/server/sequencer.cpp:104-116 | The announced limit holds in every window if and only if no check finds as many timestamps as the limit in the window it closes |
| SpamFilter.ExpiryCountsDetections | source/server/spamfilter.cpp:79-89 | A gag ends at its start plus one duration per spam line detected in it |
| SpamFilter.OccurrencesAreRepeats | source/server/spamfilter.cpp:62-77 | The lines counted are those that read the same and are not older than the interval, as a cardinality over the history |
| SpamFilter.GagMoves | source/server/spamfilter.cpp:79-101 | The gag after a line, exactly: spam sets its end to one duration after the line, or one duration further; otherwise it ends if its end is before the line, and stays as it is if not |
| SpamFilter.FilterMoves | source/server/spamfilter.cpp:55-101 | The filter's gag moves the same way, with the spam counted in the cache |
| SpamFilter.GagHoldsUntilExpiry | source/server/spamfilter.cpp:79-101 | Whatever the clock does, no line up to and including the expiry is passed on |
| SpamFilter.CacheAnswers | source/server/spamfilter.cpp:62-77 | The purged cache answers every later question like the whole history |
| SpamFilter.FilterAnswers | source/server/spamfilter.cpp:55-101 | While the clock does not run backwards the filter comes to the verdicts that the full history gives, although old lines have been erased |
| SpamFilter.Filter.PurgeAndCount | source/server/spamfilter.cpp:62-74 | The erasing loop keeps exactly the lines not expired and counts the equal ones |
| SpamFilter.Filter.UpdateGag | source/server/spamfilter.cpp:79-99 | The gag's fields follow the rule: set or prolonged for spam, ended by another line after its expiry, kept otherwise; the player is told when the gag ends and while it lasts |
| SpamFilter.Filter.CheckForSpam | source/server/spamfilter.cpp:55-101 | One line: cache and gag become what the rule says, with the equal lines of the cache counted as a cardinality; the line passes if and only if it is not spam and no gag reaches up to it; verdict and notices follow the gag, for every clock reading |
| RelayChat.FilterFollowsRun | source/server/sequencer.cpp:1022-1034 | In every run a connected client's filter has been asked about exactly the lines the client has said in the run, commands excepted |
| RelayChat.LineReaches | source/server/sequencer.cpp:1022-1036 | In every run a line that is no command reaches exactly the listening clients, unless the filter, asked about everything its sender said in the run, finds the sender gagged; then it reaches nobody. With a clock that does not run backwards the verdict is the one counted over everything said |
| RelayChat.LineReachesExactly | source/server/spamfilter.cpp:55-101 | In every run with a clock that does not run backwards: a line that is no command reaches exactly the listening clients if the filter is off, or if at most the configured number of equal lines of its sender lie within the interval and no gag lasts that long |
| RelayChat.GaggedReachNobody | source/server/spamfilter.cpp:79-101 | In every run no line of a gagged player reaches anybody up to and including the expiry of the gag |
| RelayChat.NobodyIsServer | source/server/sequencer.cpp:343-348 | In every reachable state no client has the id of the server's own messages |
| Sha1Words.LowChoose | source/server/sha1.c:112-194 | The rewritten choice and majority functions are those of section 5 of FIPS 180-1, on unmasked words of any width |
| Bits.ChoiceRewritten | source/server/sha1.c:112 | z ^ (x & (y ^ z)) is (x & y) or (not x & z) |
| Bits.MajorityRewritten | source/server/sha1.c:166 | Majority with four operators is majority with five |
| Sha1Words.LowMix | source/server/sha1.c:101-104 | One use of macro P on unmasked words of any width is the standard's TEMP modulo 2^32; `Sha1Standard.RoundConstants` and `Sha1Examples.AbcDigest` check the constants |
| Sha1Standard.RoundConstants | source/server/sha1.c:113-194 | The four round constants are the square roots of 2, 3, 5 and 10 with 30 binary places |
| Sha1Examples.AbcDigest | source/server/sha1.c:410-431 | The digest of abc is that of Appendix A of FIPS 180-1, a9993e36 4706816a ba3e2571 7850c26c 9cd0d89d |
| Sha1Examples.HiThereCode | source/server/sha1.c:398-407 | The HMAC of the first example of RFC 2202 is b617318655057264e28bc0b6fb378c8ef146be00 |
| Sha1Calculation.Compressed | source/server/sha1.c:72-225 | Eighty rounds of calculation on 32-bit vectors give the chaining value the standard's definition gives |
| Sha1Words.RoundMoves | source/server/sha1.c:115-215 | One round with its register names moved on is one round of section 7 |
| Sha1Words.CircularMoves | source/server/sha1.c:94-99 | Overwriting one of sixteen words gives the 80-word sequence: section 8 equals section 7 |
| Sha1Words.LowGet | source/server/sha1.c:39-45 | Reading four octets gives the standard's word |
| Sha1Words.LowPut | source/server/sha1.c:49-55 | Writing a word puts its low 32 bits, high octet first |
| Sha1Hashing.ReadWords | source/server/sha1.c:75-90 | The sixteen words of a block |
| Sha1Hashing.RoundWord | source/server/sha1.c:94-99 | The next word of the schedule, and the sixteen words kept up to date |
| Sha1Hashing.FiveRounds | source/server/sha1.c:115-119 | Five rounds with rotating names are five rounds of the standard |
| Sha1Hashing.EightyRounds | source/server/sha1.c:75-215 | The eighty rounds on unmasked words are the standard's modulo 2^32 |
| Sha1Hashing.Context.Starts | source/server/sha1.c:61-70 | An empty message |
| Sha1Hashing.Context.Process | source/server/sha1.c:72-225 | One block: the registers become the standard's next chaining value modulo 2^32 |
| Sha1Hashing.ChainedPrefix | source/server/sha1.c:230-265 | What follows does not change the digest of the blocks before it |
| Sha1Hashing.Context.Update | source/server/sha1.c:230-265 | Whatever the cut, the context holds the digest so far of everything fed in, the carry between the two length words included |
| Sha1Hashing.Context.AddLength | source/server/sha1.c:240-244 | The masked length word and its carry count exactly |
| Sha1Hashing.LengthFieldPut | source/server/sha1.c:283-288 | The two words put behind the padding are the message length in bits |
| Sha1Standard.LengthFieldIs | source/server/sha1.c:283-288 | The length field is the number of bits modulo 2^64, highest octet first |
| Sha1Hashing.PaddingPut | source/server/sha1.c:290-294 | What is fed in last completes the message to the padded one of section 4 |
| Sha1Hashing.Context.Finish | source/server/sha1.c:278-301 | The output is the FIPS 180-1 digest of everything fed in |
| Sha1Hashing.Context.Sha1 | source/server/sha1.c:306-314 | The digest of one input; a length that is not positive means the empty one |
| Sha1Hashing.Context.Sha1File | source/server/sha1.c:319-344 | However the reads cut the file, the digest is that of the whole; 1 when it cannot be opened, 2 when reading failed |
| Sha1Hashing.Context.HmacStarts | source/server/sha1.c:349-371 | The key blocks of section 2 of RFC 2104, for keys of every length |
| Sha1Hashing.Context.SetPad | source/server/sha1.c:359-365 | One pad |
| Sha1Standard.KeysAlike | source/server/sha1.c:354-371 | A key longer than a block gives the same HMAC as its digest, and a shorter one the same as with a zero behind it |
| Sha1Hashing.Context.HmacUpdate | source/server/sha1.c:376-378 | More text |
| Sha1Hashing.Context.HmacFinish | source/server/sha1.c:383-393 | The outer digest over the inner one |
| Sha1Hashing.Context.Hmac | source/server/sha1.c:398-407 | The HMAC of section 2 of RFC 2104, for keys of every length |
| ScriptArrays.ScriptArray.constructor | source/angelscript_add_on/scriptarray/scriptarray.cpp:466-497 | So many default elements |
| ScriptArrays.ScriptArray.Create | source/angelscript_add_on/scriptarray/scriptarray.cpp:64-81 | An array of so many default elements, or the exception that refuses it |
| ScriptArrays.ScriptArray.Reserve | source/angelscript_add_on/scriptarray/scriptarray.cpp:612-644 | The capacity grows, the elements stay |
| ScriptArrays.ScriptArray.ResizeBy | source/angelscript_add_on/scriptarray/scriptarray.cpp:683-752 | On all three branches (reallocate, move down, move up) room is made or elements are taken out at the position; refused changes change nothing; a signed number overflows or octets behind the buffer are written exactly for the sizes and changes stated |
| ScriptArrays.ScriptArray.Resize | source/angelscript_add_on/scriptarray/scriptarray.cpp:646-652 | The array is cut or filled up at its end, with the conversions of both sizes to int |
| ArrayEdits.ResizeIsExact | source/angelscript_add_on/scriptarray/scriptarray.cpp:646-700 | The new size is reached if and only if both sizes are signed numbers or neither is and the array does not shrink; farther away than a signed number can say it empties the array; in all other cases nothing is promised |
| ScriptArrays.ScriptArray.RemoveRange | source/angelscript_add_on/scriptarray/scriptarray.cpp:654-680 | a[..s] + a[s + min(count, n - s)..] while start + count does not wrap around; otherwise elements are put in twice, inside the buffer or behind it, exactly as stated |
| ArrayEdits.RemovalIsExact | source/angelscript_add_on/scriptarray/scriptarray.cpp:669-679 | The range is taken out if and only if start + count does not wrap around in 32 bits; otherwise the array grows |
| ScriptArrays.FitsExactly | source/angelscript_add_on/scriptarray/scriptarray.cpp:755-766 | So many elements are accepted if and only if they and the header of 12 octets make up at most 2^32 octets |
| ScriptArrays.ScriptArray.SetValue | source/angelscript_add_on/scriptarray/scriptarray.cpp:557-590 | One element changes, or the index is out of bounds |
| ScriptArrays.ScriptArray.InsertAt | source/angelscript_add_on/scriptarray/scriptarray.cpp:792-808 | One element is put in; when there is no room it overwrites the one at the position |
| ScriptArrays.ScriptArray.InsertAllAt | source/angelscript_add_on/scriptarray/scriptarray.cpp:810-863 | a[..i] + arr + a[i..], also when the array is inserted into itself; when there is no room, what is overwritten; when 2^31 or more elements are inserted, which are taken out and which overwritten at wrapped positions |
| ScriptArrays.ScriptArray.SetOthers | source/angelscript_add_on/scriptarray/scriptarray.cpp:832-841 | The filling loop for another array, with positions that wrap around in 32 bits, for every size |
| ArrayEdits.OverwrittenStraight | source/angelscript_add_on/scriptarray/scriptarray.cpp:832-841 | While no position wraps around, that is plain overwriting |
| ScriptArrays.ScriptArray.SetOwn | source/angelscript_add_on/scriptarray/scriptarray.cpp:842-862 | The two filling loops for the array itself |
| ScriptArrays.ScriptArray.InsertLast | source/angelscript_add_on/scriptarray/scriptarray.cpp:865-868 | Appending |
| ScriptArrays.ScriptArray.RemoveAt | source/angelscript_add_on/scriptarray/scriptarray.cpp:870-883 | One element is taken out; with 2^31 or more elements nothing is promised |
| ScriptArrays.ScriptArray.RemoveLast | source/angelscript_add_on/scriptarray/scriptarray.cpp:885-888 | The last element is taken out; on an empty array the index wraps and is out of bounds |
| ScriptArrays.ScriptArray.Reverse | source/angelscript_add_on/scriptarray/scriptarray.cpp:1035-1050 | The elements in reverse order, if their offsets are signed numbers |
| ArrayEdits.RoomFilled | source/angelscript_add_on/scriptarray/scriptarray.cpp:810-863 | Making room and filling it is insertion |
| ScriptArrays.ScriptArray.Sort | source/angelscript_add_on/scriptarray/scriptarray.cpp:1397-1454 | The requested range is sorted in the requested direction, in terms of the comparison itself, equals in their old order, the rest left alone, whenever it fits into an array of fewer than 2^31 elements; exactly when it would begin in front of the buffer, or reach elements whose offset is no signed number, nothing is promised |
| ScriptArrays.ScriptArray.InsertionSort | source/angelscript_add_on/scriptarray/scriptarray.cpp:1532-1548 | The in-place loop computes the sorted range |
| ScriptArrays.ScriptArray.Sink | source/angelscript_add_on/scriptarray/scriptarray.cpp:1536-1546 | The inner loop moves one value to its place |
| ArrayEdits.RangeSortedMeaning | source/angelscript_add_on/scriptarray/scriptarray.cpp:1529-1548 | The same elements, the rest in place, in the order asked for in terms of the comparison itself, equals in their old order, for every strict weak order |
| ArrayEdits.RangeIsSorted | source/angelscript_add_on/scriptarray/scriptarray.cpp:1529-1548 | With a strict weak order no element of the range is less than an earlier one, or none greater in a descending sort, in terms of the comparison itself; what compares equal keeps its order |
| ArrayEdits.SortingIsPermutation | source/angelscript_add_on/scriptarray/scriptarray.cpp:1529-1548 | Nothing is lost or invented, whatever the comparison |
| ArrayEdits.SortingOrders | source/angelscript_add_on/scriptarray/scriptarray.cpp:1529-1548 | The result is in order |
| ArrayEdits.SortingIsStable | source/angelscript_add_on/scriptarray/scriptarray.cpp:1529-1548 | Elements that compare equal keep their order |
| ArrayEdits.DirectedIsStrictWeak | source/angelscript_add_on/scriptarray/scriptarray.cpp:1002-1010 | Swapping the operands for a descending sort keeps a strict weak order one |
| ArrayEdits.RequestsAnswered | source/angelscript_add_on/scriptarray/scriptarray.cpp:1433-1454 | For every start, count and size: a range is sorted if and only if it fits; the sort runs in front of the buffer if and only if the start is no signed number and the wrapped end fits; a request is silently ignored exactly when its end wraps around as stated; every other one is refused |
| ArrayEdits.StartBeforeBuffer | source/angelscript_add_on/scriptarray/scriptarray.cpp:1433-1440 | A start of 2^31 for two elements passes the bounds tests of every array of fewer than 2^31 |
| ScriptArrays.ScriptArray.SortWith | source/angelscript_add_on/scriptarray/scriptarray.cpp:1552-1629 | The callback sort only rearranges, however its calls end, leaves the rest alone, and sorts if all calls finish and answer by a strict weak order; nothing is promised exactly when the first selected element that is to be exchanged and has no signed offset is met |
| ScriptArrays.ScriptArray.SelectionSort | source/angelscript_add_on/scriptarray/scriptarray.cpp:1594-1615 | The callback sort of a range, for all answers of the callback, and in order if they can be relied on |
| ScriptArrays.ScriptArray.SelectEach | source/angelscript_add_on/scriptarray/scriptarray.cpp:1594-1615 | Its loop: one element after the other is selected, up to the first that is out of reach |
| ArrayEdits.AllInReach | source/angelscript_add_on/scriptarray/scriptarray.cpp:1594-1615 | If all elements of the range but the first have signed offsets, none without is met |
| ScriptArrays.ScriptArray.Select | source/angelscript_add_on/scriptarray/scriptarray.cpp:1598-1609 | The search for the least element of the rest |
| ScriptArrays.ScriptArray.Swap | source/angelscript_add_on/scriptarray/scriptarray.cpp:1338-1344 | Two elements change places |
| Utf8.SanitizedIsWellFormed | source/common/UnicodeStrings.h:100-138 | The output is a concatenation of complete sequences (section 3 of RFC 3629) if and only if the input forges nothing, in particular without octets F8 to FF; it is the identity on such input, and idempotent |
| Utf8.OutputWellFormed | source/common/UnicodeStrings.h:100-138 | The same from any state of the automaton between sequences |
| Utf8.NoStrayIsSafe | source/common/UnicodeStrings.h:113-116 | Without octets F8 to FF nothing is forged and the five-octet buffer is large enough |
| Utf8.BurstsExactly | source/common/UnicodeStrings.h:103-122 | The automaton comes to hold more octets than the buffer has room for if and only if an octet F8 to FF is followed by five or more continuation octets before any chunk has declared a length |
| Utf8.BurstsAtSomePoint | source/common/UnicodeStrings.h:103-122 | That is, after some beginning of the input its state has more than five octets |
| Utf8.OverrunsOccur | source/common/UnicodeStrings.h:113-122 | F8 80 80 80 80 80 does so, and so does F8 C2 before it |
| Utf8.WellFormedKept | source/common/UnicodeStrings.h:100-138 | Well-formed input is left alone |
| Utf8.ForgedPasses | source/common/UnicodeStrings.h:113-125 | C2 80 F8 80 passes unchanged: a stray octet takes over the length declared before it |
| Utf8.ChunkCleaned | source/common/UnicodeStrings.h:105-131 | A sequence is kept if its declared length is reached, else replaced together with the octet that broke it off |
| Utf8.SanitizedAppend | source/common/UnicodeStrings.h:100-138 | Behind a complete beginning the rest is cleaned as if it stood alone |
| Utf8.BrokenIsReplaced | source/common/UnicodeStrings.h:105-136 | Behind a well-formed beginning, which is kept: a lone continuation octet, or a sequence begun together with the octet that breaks it off, is replaced once and the rest cleaned as if it stood alone; a sequence that the input cuts off is replaced |
| Utf8.EveryBeginning | source/common/UnicodeStrings.h:100-138 | Without octets F8 to FF every input begins with a complete sequence or something broken, or is a sequence cut off, so these rules cover all of it |
| Utf8.LengthsAre | source/common/UnicodeStrings.h:84-92 | The lengths of section 3 of RFC 3629 by the value of the lead octet |
| Utf8.ReplacementIs | source/common/UnicodeStrings.h:82 | The replacement is the one sequence for U+FFFD |
| Utf8.CleanedLength | source/common/UnicodeStrings.h:100-138 | At most three octets come out for each one that goes in |
| Utf8.Kinds | source/common/UnicodeStrings.h:84-92 | The five masks split the octets at 80, C0, E0, F0 and F8 |
| Utf8.Consume | source/common/UnicodeStrings.h:105-131 | One turn of the loop is one step of the automaton, or a write behind the buffer exactly when a continuation octet finds it full |
| Utf8.SanitizeUtf8 | source/common/UnicodeStrings.h:100-138 | The loop with its five-octet buffer computes the automaton's output, for every input, unless it overruns the buffer, and says exactly when |
| StringSplit.FindsFirst | source/angelscript_add_on/scriptstdstring/scriptstdstring_utils.cpp:39 | The first occurrence is found, and none only if there is none |
| StringSplit.SplitThenJoin | source/angelscript_add_on/scriptstdstring/scriptstdstring_utils.cpp:82-100 | Joining the parts restores the string |
| StringSplit.TerminatedThenJoin | source/angelscript_add_on/scriptstdstring/scriptstdstring_utils.cpp:50-52 | The splitter that ends the last part at a zero restores the string, and agrees with the other one, if and only if the string has no zero behind the last delimiter; in particular if it has none at all |
| StringSplit.LoopsEnd | source/angelscript_add_on/scriptstdstring/scriptstdstring_utils.cpp:38-48 | Either loop ends if and only if the delimiter is not empty; that of strict_tokenize also on the empty string |
| StringSplit.JoinedInOrder | source/angelscript_add_on/scriptstdstring/scriptstdstring_utils.cpp:82-100 | A join is all the parts in their order with the delimiter between any two |
| StringSplit.JoinThenSplit | source/angelscript_add_on/scriptstdstring/scriptstdstring_utils.cpp:23-55 | Splitting a join restores the parts if and only if the delimiter cannot be seen too early in any of them |
| StringSplit.JoinThenSplitCharacter | source/angelscript_add_on/scriptstdstring/scriptstdstring_utils.cpp:23-100 | For a delimiter of one character: if and only if no part contains it |
| StringSplit.SplitIsUnique | source/server/utils.cpp:151-163 | The parts of a split are the only separable ones that join to the string |
| StringSplit.SplitString | source/angelscript_add_on/scriptstdstring/scriptstdstring_utils.cpp:23-55 | The loop yields the split, its last part ended at a zero, whenever it ends |
| StringSplit.StrictTokenize | source/server/utils.cpp:151-163 | The loop yields the split whenever it ends |
| StringSplit.JoinStrings | source/angelscript_add_on/scriptstdstring/scriptstdstring_utils.cpp:82-100 | The loop yields the join |
| RoRnet.OfCode | source/protocol/rornet.h:35-73 | The message type determines the command word |
| RoRnet.WireCodes | source/protocol/rornet.h:35-73 | The command words of the protocol and the types they stand for |
| RoRnet.CodeOfType | source/protocol/rornet.h:35-73 | And back: every type the server tells apart is found again from its command word |

## Left out

- RelayTheorems.ViewsAreReplicas: reachable states are those before the 32-bit user ids are used up; `RelayTheorems.NewUidClashes` says exactly what happens when they start again.
- RelayNames.NamesStayDistinct: names are ASCII, so sanitising them changes nothing; multi-byte sequences cut at the length limit are not modelled.
- Session.Client.CheckSpawnRate: the comparison of a `float` quotient with 0.7 is made exactly, on integers.
- Delivery.DeliveredViewsAreReplicas: the claim is about threads that are idle and not stopping; what a stop loses is in `BroadcastQueue.StopLosesExactly`.
- Sequencing.Sequencer.HandleChat: commands are not parsed; what a line that begins with an exclamation mark does is a parameter, some notices or a kick, and the wording of server text is one value. Script callbacks, which may change what is published, are absent.
- Sequencing.Sequencer.Admit: the next user id must not be held by a connected client, which it can be after the 32-bit counter has wrapped around; `RelayTheorems.NewUidClashes` says what happens then.
- Sequencing.Sequencer.CreateClient: the same; and after a failed welcome with such an id the source would kill the older client and drop the newer one from its list.
- Sequencing.Sequencer.QueueClientForDisconnect: the loop that notifies everybody and finds the position is two loops here; the broadcast loops of the source share one method.
- Sequencing.Sequencer.KillerThreadWaitForClient: a client popped when the killer was told to stop is kept in a history list; the source leaks it.
- Broadcasting.Broadcaster.Stop: joining the thread is running its remaining sections; whether a stopping thread is ever woken is not decided by the code, which waits without looking at the state first, and not claimed.
- ReceiverThread.ThreadMain: a message of another client of which the language promises nothing is not among the steps of the others; being asked to stop is the end of the input, and the socket's answers are the input itself.
- Sha1Hashing.EightyRounds: the eighty rounds written out in the source are sixteen turns of five, the sixteen reads of words a loop.
- Sha1Hashing.Context.Finish: from 2^61 octets on the standard defines nothing; the length field then holds the low 64 bits. Overwriting the context with zeros at the end is not modelled.
- ScriptArrays.ScriptArray.ResizeBy: element values are plain, so reference counts, handles and script objects do not appear.
- ScriptArrays.ScriptArray.Create: the object without a buffer that a refused construction leaves behind.
- ScriptArrays.ScriptArray.Sort: element types with an opCmp method, sorted by the C++ library, are left out, as are 64-bit integers, whose comparison looks at four octets only (any strict weak order is covered, that one too).
- ScriptArrays.ScriptArray.SortWith: a callback that changes the array while it is being sorted.
- Utf8.SanitizeUtf8: code points, overlong forms and surrogates are not looked at, as in the source.
- StringSplit.SplitString: growth of the script array is a sequence append.
- Sockets, HTTP, master server, configuration files, logging, traffic statistics, daemonising, listener shutdown: plumbing without a state to reason about.
- Scripts: the script engine is absent, so no callback re-enters the server or changes publishing.
- Bans and reports (their ids can repeat), game commands.
- Send limits of the socket layer: messages longer than the protocol's maximum are refused there.
