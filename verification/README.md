# Module gateway, modelled in Dafny

The gateway sits between the devices of a vehicle and an external server. Devices speak to its internal server
over a socket; what they report is aggregated by module libraries, and the aggregated statuses are relayed by
an external client to one or more external connections. Commands of the server come back the same way. Each
of the four stateful parts is modelled here, once as operations on values and once, in the form the program
has, as classes whose methods are proved to do what those operations say.

* **Stream framing** (`Framing`, `StreamParser`). The stream of a device is split into length-prefixed
  messages. The specification splits the whole byte stream; the parser works on a receive buffer of 1024
  bytes, read by read. A message handler is any function of the messages delivered so far.
* **Connection table** (`ConnectionTable`, `InternalServer`, `ServerRuns`, `ServerReplies`, `ServerSteps`).
  Connections compete for one slot for each identity, that is, module, type and role. Admission is a function of
  the table; the runs interleave connects, statuses, responses, timeouts, errors and disconnect requests, one locked
  step at a time, and the classes are proved to follow them.
* **Statuses and commands of the modules** (`DeviceState`, `AggregatorSpec`, `StatusAggregator`,
  `CommandHistory`, `HandlerSpec`, `TimeoutSpec`, `ModuleHandler`, `CommandForwarding`, `CommandReceiver`). A module
  library is a record of arbitrary functions that may fail. The history of the operations on an aggregator says,
  without queues, what it must hold, and which command each status is answered with.
* **External session** (`SentMessages`, `ErrorAggregator`, `SessionSpec`, `SessionRuns`, `SessionScripts`,
  `ConnectLanguage`, `Introductions`, `Settlements`, `Receptions`, `Attempts`, `ExternalConnection`, `ClientSpec`,
  `ClientMessages`, `ClientSequence`, `ClientRuns`, `Disconnects`, `Deliveries`, `Reconnects`, `ExternalClient`).
  The network is an oracle: whether a channel opens, whether each message gets through, what is received. A ledger
  kept beside every run says where each status went. The receiving loop and the connect sequence are spelled out as
  single operations, and so is everything a run of the client does to each of its connections, so that the theorems
  about runs hold for all of them.

Buffers are byte strings, and an empty one stands for an unallocated one, which is how the program treats a
status without data. Counters and priorities have 32 bits and wrap round.

Several things one might expect of the program do not hold. For each there is the exact condition under which
it does:

* A framed message is read back as it is: below 2^32 bytes (`Framing.FrameIsReadBackExactly`).
* A read of framed messages that the handler accepts is accepted: unless it ends inside a header
  (`Framing.FramingAfterReads`).
* A stale connection leaves its successor alone: unless their priorities are equal (`ServerRuns.StaleEviction`).
* A status follows the connect of its device and comes before the disconnect: if some connection holds the identity
  of the device it names when it is passed on (`ServerRuns.StatusBetweenBrackets`). The server does not compare it
  with the identity of the connection it comes from.
* Everything queued for a device is sent when it goes: if nothing waited, nothing is forced on it before it has gone,
  and no erasure of an earlier disconnect comes before its message is popped (`HandlerSpec.OnlyOldestIsSent`).
* A device is not connected once its status is sent as a disconnect: if it was registered and entered at most once
  (`SessionRuns.ConnectedAfterDisconnect`). A device connected anew after the connection was dropped is entered
  twice. A device is first heard of by its disconnect when its first status was answered with an error, since
  what that status queued is then not sent.
* The server is told of a disconnect: if it belongs to a connection that is up and not the one being started, its
  device is registered, and the message gets through (`Disconnects.TakenDisconnect`, `WaitedDisconnect`,
  `DispatchedDisconnect`).
* A status absorbed during a connect attempt is still told of afterwards: if the attempt fails and the type of its
  device is supported (`Attempts.AbsorbedSurvivesExactlyOnFailure`).

To check everything: `dafny verify dfyconfig.toml`.

## Model

| member | source | states |
|---|---|---|
| Framing.EncodeDecode | source/bringauto/internal_server/InternalServer.cpp:342-349 | The four bytes of a header, decoded least significant byte first and encoded again, are the same bytes. |
| Framing.HeaderDigits | source/bringauto/internal_server/InternalServer.cpp:130-134 | The bytes of a header are the digits of the announced length to the base 256, the lowest first. |
| Framing.FrameStartsWithLength | source/bringauto/internal_server/InternalServer.cpp:342-349 | What is written for a message is its length in four such bytes, and then the message. |
| Framing.SplitAppend | source/bringauto/internal_server/InternalServer.cpp:102-180 | The messages of a byte stream followed by more bytes are the messages of the first part, then those of what was left open followed by the rest. |
| Framing.FrameIsReadBackExactly | source/bringauto/internal_server/InternalServer.cpp:342-349 | A framed message at the front of a stream is read back as it is exactly when it is shorter than 2^32 bytes; the header is truncated otherwise. |
| Framing.ChunkingDoesNotMatter | source/bringauto/internal_server/InternalServer.cpp:102-180 | From any between-reads state and for every message handler: an accepted read followed by another gives the same messages, verdict and residual as one read of both. |
| Framing.ReadAllIsOneRead | source/bringauto/internal_server/InternalServer.cpp:93-180 | Any number of reads, all but the last accepted, come to one read of their concatenation. |
| Framing.FramingAfterReads | source/bringauto/internal_server/InternalServer.cpp:118-180 | Framed messages cut into non-empty reads, with a handler that accepts them: the first k reads are all accepted exactly when none of their cuts falls inside a header, and then the messages complete by that point have been delivered, in order. |
| Framing.FramingRoundTrip | source/bringauto/internal_server/InternalServer.cpp:118-180 | With such a handler, any framed messages shorter than 2^32 bytes, however they are cut into non-empty reads, are delivered as that list with the parser left idle, exactly when no cut falls inside a header. |
| StreamParser.ConnContext.ProcessBufferData | source/bringauto/internal_server/InternalServer.cpp:102-180 | The recursive parser over the receive buffer does what the split of the byte stream says; its size subtraction never underflows, its late guards are dead, offset plus length stays put and the recursion ends. |
| StreamParser.ConnContext.TakeMessage | source/bringauto/internal_server/InternalServer.cpp:150-156 | A complete message is handled once and the partial message is reset. |
| StreamParser.ReadStream | source/bringauto/internal_server/InternalServer.cpp:145-179 | One step of the parser followed by the parse of what remains is the parse of the whole. |
| StreamParser.ReadTornHeader | source/bringauto/internal_server/InternalServer.cpp:118-123 | A read that starts a message with one to three bytes is refused. |
| ConnectionTable.BracketsAlternate | source/bringauto/internal_server/InternalServer.cpp:276-288 | Where connects minus disconnects of an identity stay between none and one, a disconnect lies between any two connects. |
| ConnectionTable.AdmitKeepsInv | source/bringauto/internal_server/InternalServer.cpp:236-266 | Admitting a connect keeps connects minus disconnects of every identity at one when it is active and at none when it is not. |
| ConnectionTable.DropKeepsInv | source/bringauto/internal_server/InternalServer.cpp:393-415 | So does a removal. |
| ConnectionTable.AdmissionIsEarliestMinimum | source/bringauto/internal_server/InternalServer.cpp:236-288 | After any connects from fresh connections the identities that are held are those asked for, each by the earliest connect with the least priority number. |
| ConnectionTable.WinnerHolds | source/bringauto/internal_server/InternalServer.cpp:236-288 | The connect with the least priority number, the earliest of them, holds the identity; there is only one such. |
| ConnectionTable.AdmitReplacesStrictly | source/bringauto/internal_server/InternalServer.cpp:253-263 | For an identity that is held: a connect is admitted exactly when its priority number is strictly less than the holder's, a refused one leaves the table as it is, and a replacement logs the disconnect before the connect. |
| ConnectionTable.VerdictComparesNumbers | source/bringauto/internal_server/InternalServer.cpp:253-263 | After any connects, the answer to another one is that a higher priority is connected exactly when a smaller number was asked for before, that the device is connected exactly when an equal one and no smaller one was, and otherwise it is admitted. |
| ConnectionTable.PrioritiesStrictlyDecrease | source/bringauto/internal_server/InternalServer.cpp:257-263 | Over any connects, the priority numbers of those admitted for one identity strictly fall, and the holder has the last of them. |
| InternalServer.Server.FindIndex | source/bringauto/internal_server/InternalServer.cpp:417-428 | The first connection with the identity, if any. |
| InternalServer.Server.RemoveConnFromMap | source/bringauto/internal_server/InternalServer.cpp:393-415 | The holder of the identity goes, with a disconnect event, when its priority equals that of the removed connection; otherwise only the socket is closed. |
| InternalServer.Server.ConnectNewDevice | source/bringauto/internal_server/InternalServer.cpp:276-288 | The connection gets its identity, enters the list and is announced. |
| InternalServer.Server.ChangeConnection | source/bringauto/internal_server/InternalServer.cpp:320-335 | The holder is removed, then the new connection enters. |
| InternalServer.Server.HandleConnection | source/bringauto/internal_server/InternalServer.cpp:236-266 | A connect is taken exactly when the connection is not ready and its number is smaller than that of any holder; on an open socket one of an equal number is answered with the frame of "already connected", one of a larger number with that of "higher priority", and nothing is written otherwise. |
| InternalServer.Server.HandleStatus | source/bringauto/internal_server/InternalServer.cpp:221-234 | A status is passed on from a ready connection, which then awaits the response. |
| InternalServer.Server.HandleDisconnect | source/bringauto/internal_server/InternalServer.cpp:268-274 | The holder of the identity is removed. |
| InternalServer.Server.ValidateResponse | source/bringauto/internal_server/InternalServer.cpp:372-391 | Only the holder with the same priority gets the response and becomes ready. |
| InternalServer.Server.SendResponse | source/bringauto/internal_server/InternalServer.cpp:337-356 | On an open socket the length of the serialized response, in 32 bits, and then its bytes are written. |
| InternalServer.ClientReadsResponse | source/bringauto/internal_server/InternalServer.cpp:342-349 | A client that has read whole responses so far reads the next one as it is exactly when it is shorter than 2^32 bytes. |
| ServerRuns.RunKeepsInv | source/bringauto/internal_server/InternalServer.cpp:65-100 | The table, the connections and their phases fit together after every interleaving of connects, statuses, errors, timeouts, responses and disconnect requests. |
| ServerRuns.ConnectsAndDisconnectsBracket | source/bringauto/internal_server/InternalServer.cpp:236-288 | In every such run, connects minus disconnects of an identity are one when it is active and none otherwise, and each disconnect follows its connect. |
| ServerRuns.NoConnectWhileConnected | source/bringauto/internal_server/InternalServer.cpp:236-245 | A second connect is announced for an identity only after its disconnect. |
| ServerRuns.MessageStartsIdentifiedAndReady | source/bringauto/internal_server/InternalServer.cpp:182-219 | A connection that starts a new message either has no identity and is not ready, or has one and is ready. |
| ServerRuns.HoldersAreDistinct | source/bringauto/internal_server/InternalServer.cpp:276-282 | Two active identities are held by different connections, and a holder has not been closed. |
| ServerRuns.IdentityIsFinal | source/bringauto/internal_server/InternalServer.cpp:279-279 | The identity of a connection never changes once it is set. |
| ServerReplies.OnlyFittingMessagesAreTaken | source/bringauto/internal_server/InternalServer.cpp:182-266 | In any interleaving, a connection ready for a message takes a connect exactly when it has no identity and nobody holds the identity at as good a priority, and a status exactly when it has one; then it waits. Anything else fails it, and the module handler is told nothing. |
| ServerReplies.AnsweredBeforeNextMessage | source/bringauto/internal_server/InternalServer.cpp:196-219 | Between a message that was taken and the time its connection reads another one there is a response for the device that the connection holds, at its priority. |
| ServerReplies.UnansweredFails | source/bringauto/internal_server/InternalServer.cpp:204-213 | A connection that is not answered in time fails. |
| ServerReplies.FailedStaysDown | source/bringauto/internal_server/InternalServer.cpp:65-100 | A connection that has failed reads nothing more, whatever happens. |
| ServerRuns.StaleEviction | source/bringauto/internal_server/InternalServer.cpp:405-413 | The clean-up after a replaced connection takes the present holder out exactly when their priorities are equal. |
| ServerRuns.StaleEvictionHappens | source/bringauto/internal_server/InternalServer.cpp:393-415 | A run of three connections in which a connection evicts a successor of equal priority. |
| ServerRuns.StatusBetweenBrackets | source/bringauto/internal_server/InternalServer.cpp:221-234 | A status of a ready connection is passed on in any case; it lies between a connect and its disconnect of the device it names exactly when some connection holds that identity. |
| ServerRuns.StatusAfterDisconnect | source/bringauto/internal_server/InternalServer.cpp:221-234 | A run in which a status follows the disconnect of its device. |
| ServerRuns.StatusOfAnother | source/bringauto/internal_server/InternalServer.cpp:221-234 | A run in which a connection that holds its identity passes on a status of another device, which was never connected. |
| ServerSteps.Gateway.Play | source/bringauto/internal_server/InternalServer.cpp:65-100 | The classes of the server, taken through any steps of its threads, are where the interleaving model is, table, identities, readiness and phases; so all that holds of its runs holds of them. |
| ServerSteps.Gateway.ConnectMessage | source/bringauto/internal_server/InternalServer.cpp:182-219 | A connect message changes the vector of connections as the model says; that its sender has no identity, or is ready, follows from the phases. |
| ServerSteps.Gateway.StatusMessage | source/bringauto/internal_server/InternalServer.cpp:192-195 | So does a status message. |
| ServerSteps.Gateway.Cleanup | source/bringauto/internal_server/InternalServer.cpp:88-99 | So does the clean-up after an error or a refusal. |
| ServerSteps.Gateway.Response | source/bringauto/internal_server/InternalServer.cpp:358-391 | So does a response of the module handler. |
| ServerSteps.Gateway.DisconnectRequest | source/bringauto/internal_server/InternalServer.cpp:361-363 | So does a disconnect request. |
| DeviceState.StatusAggregatorDeviceState.ConsumeCommand | source/bringauto/structures/StatusAggregatorDeviceState.cpp:36-47 | The oldest queued command becomes the default one and is given; with none queued a push-only device gets nothing, another one its default command. |
| DeviceState.StatusAggregatorDeviceState.AddExternalCommand | source/bringauto/structures/StatusAggregatorDeviceState.cpp:53-61 | A command is queued, and the oldest is dropped when there are more than three. |
| DeviceState.StatusAggregatorDeviceState.ClearMessages | source/bringauto/modules/StatusAggregator.cpp:17-20 | The loop empties the message queue and leaves the rest as it was. |
| DeviceState.CommandQueueLife | source/bringauto/structures/StatusAggregatorDeviceState.cpp:36-61 | Over every order of accepting and taking: the queue is a suffix, at most three long, of the accepted commands; the given ones are an in-order subsequence without repeats; each command that left was given or dropped, never both; a drop happens when exactly three newer ones are queued. |
| AggregatorSpec.AggregatorFollowsHistory | source/bringauto/modules/StatusAggregator.cpp:29-179 | After any operations, a device's status is the left fold of the accepted statuses (failed steps keep the old value), and the messages popped followed by those queued are the ones the history prescribes, in order. |
| AggregatorSpec.StepFollowsHistory | source/bringauto/modules/StatusAggregator.cpp:88-179 | Each single operation keeps that. |
| StatusAggregator.Aggregator.AddStatusToAggregator | source/bringauto/modules/StatusAggregator.cpp:88-135 | Registers the device with one message, or aggregates and queues a status worth sending; the result is the number of messages waiting or the error. |
| StatusAggregator.Aggregator.AggregateSetStatus | source/bringauto/modules/StatusAggregator.cpp:41-55 | The aggregated status is stored and, when it is worth sending, queued. |
| AggregatorSpec.FailuresLeaveNoTrace | source/bringauto/modules/StatusAggregator.cpp:29-39 | A status whose aggregation fails leaves no trace: the fold over the statuses is the one over those whose aggregation succeeds, and none of these fails in it. |
| StatusAggregator.Aggregator.ForceAggregationOnDevice | source/bringauto/modules/StatusAggregator.cpp:169-184 | The current status of a registered device is queued. |
| StatusAggregator.Aggregator.TimeoutedForceAggregation | source/bringauto/modules/StatusAggregator.cpp:105-111 | A timer tick counts a timeout and forces an aggregation. |
| StatusAggregator.Aggregator.GetAggregatedStatus | source/bringauto/modules/StatusAggregator.cpp:137-153 | The oldest message is taken; the two errors are told apart. |
| StatusAggregator.Aggregator.ClearDevice | source/bringauto/modules/StatusAggregator.cpp:12-27 | The messages of a registered device go. |
| StatusAggregator.Aggregator.RemoveDevice | source/bringauto/modules/StatusAggregator.cpp:74-86 | The messages go at once and an erasure is posted. |
| StatusAggregator.Aggregator.ErasePosted | source/bringauto/modules/StatusAggregator.cpp:81-84 | A posted erasure removes its device, whatever that is by then. |
| StatusAggregator.Aggregator.GetUniqueDevices | source/bringauto/modules/StatusAggregator.cpp:155-167 | The loop lists each registered device once. |
| StatusAggregator.Aggregator.UpdateCommand | source/bringauto/modules/StatusAggregator.cpp:201-224 | A command that is not empty and valid, for a registered device of a supported type, becomes the newest of its queue; the errors of the others are told apart, and they change nothing. |
| StatusAggregator.Aggregator.GetCommand | source/bringauto/modules/StatusAggregator.cpp:226-252 | The command is what the module generates from the status that was sent, the status the aggregator has, and the oldest queued command or else the default one; it becomes the default. A failed generation has still consumed its command, and nothing is given to a push-only device without a queued one. |
| StatusAggregator.Aggregator.GetCommandForForwarding | source/bringauto/modules/StatusAggregator.cpp:254-262 | The same from the stored status, for a registered device. |
| CommandHistory.CommandsFollowHistory | source/bringauto/modules/StatusAggregator.cpp:201-252 | After any history, the queue of a device is the newest three of the valid commands less those asked for, and its default command the last one generated, or else the last one picked up, at first the module's first one. |
| CommandHistory.ReplyFollowsHistory | source/bringauto/modules/StatusAggregator.cpp:226-252 | After any history, the answer to a status is the module's command for that status, the fold of the accepted statuses, and the oldest command of the queue or else the default one; an empty one when nothing waits for a push-only device; none when the generation fails. |
| CommandHistory.AnswerBecomesDefault | source/bringauto/modules/StatusAggregator.cpp:238-251 | What was generated for an answer is the default command from then on; the command it was generated from, if the generation failed. |
| CommandHistory.ForwardFollowsHistory | source/bringauto/modules/StatusAggregator.cpp:254-262 | What is pushed to a device is generated in the same way, for the fold of the statuses. |
| CommandHistory.HandledStatusIsAnswered | source/bringauto/modules/ModuleHandler.cpp:213-260 | After any history a status is handled exactly when it is valid, its type supported, and its device known or given a first command; its answer is the one for the history with the status, and with what other threads do before, in it. |
| HandlerSpec.InterferenceOnlyAppends | source/bringauto/modules/StatusAggregator.cpp:169-184 | Whatever the other threads do while a status is handled only queues the current status behind what waits. |
| ModuleHandler.Handler.HandleStatus | source/bringauto/modules/ModuleHandler.cpp:202-260 | A status for an unknown module changes nothing; for a known one see the next row. |
| ModuleHandler.Handler.HandleSupportedStatus | source/bringauto/modules/ModuleHandler.cpp:213-260 | A status that is answered sends exactly the messages that waited once it was added, oldest first, never an unfilled buffer, whatever ticks come in between; what stays queued is one status for each tick. |
| ModuleHandler.Handler.Drain | source/bringauto/modules/ModuleHandler.cpp:256-259 | The loop sends as many messages as were counted. |
| ModuleHandler.Handler.SendAggregatedStatus | source/bringauto/modules/ModuleHandler.cpp:129-139 | The oldest message goes to the external client. |
| ModuleHandler.Handler.HandleConnect | source/bringauto/modules/ModuleHandler.cpp:141-167 | Exactly one connect response, with the verdict for module and type. |
| ModuleHandler.Handler.HandleDisconnect | source/bringauto/modules/ModuleHandler.cpp:100-127 | One disconnect status with the oldest message goes out, the others are dropped and the erasure is posted, whatever other threads force or queue between the three steps; an erasure posted before that comes in between leaves nothing, or an empty status, to be sent. |
| HandlerSpec.GoneIsEmpty | source/bringauto/modules/ModuleHandler.cpp:111-124 | Through all that interference nothing waits for the device at the end; unless it is erased meanwhile it is still registered, and its erasure posted last. |
| HandlerSpec.OnlyOldestIsSent | source/bringauto/modules/ModuleHandler.cpp:111-124 | Of the messages that wait when a device goes, and its status behind them, the oldest is sent; the others, and the status once for each aggregation forced meanwhile, are dropped. Everything is sent exactly when nothing waited, nothing is forced before the device has gone, and no erasure comes before its message is popped. |
| HandlerSpec.TickedStatusIsDropped | source/bringauto/modules/ModuleHandler.cpp:111-124 | Nothing waits for a device that goes, but its timer fires before the pop: the status queued then is dropped. |
| HandlerSpec.ErasedDisconnect | source/bringauto/modules/ModuleHandler.cpp:111-124 | A disconnect of a device whose erasure is still outstanding sends nothing, or an empty status, when the erasure comes in between. |
| AggregatorSpec.RegisteredIsSupported | source/bringauto/modules/StatusAggregator.cpp:88-123 | After any operations an aggregator knows devices of supported types only. |
| ModuleHandler.Handler.HandleCommandForward | source/bringauto/modules/ModuleHandler.cpp:176-200 | A forwarded command is generated from the stored status, unless a status has taken it. |
| ModuleHandler.Handler.SendWaiting | source/bringauto/modules/ModuleHandler.cpp:75-88 | The loop pops and sends until nothing waits, with other threads taking turns between the pops. |
| TimeoutSpec.DrainSendsAll | source/bringauto/modules/ModuleHandler.cpp:75-88 | Draining a device sends what waited for it, oldest first, and then its status once for each aggregation forced meanwhile; nothing is left waiting. |
| TimeoutSpec.EachIsSentInFull | source/bringauto/modules/ModuleHandler.cpp:73-94 | Of each registered device exactly what waited is sent, oldest first, and then its status once for each aggregation that other threads have forced on it by the time it is drained. |
| TimeoutSpec.ToldExactlyWhenSilent | source/bringauto/modules/ModuleHandler.cpp:90-93 | A device is told to go, once, exactly when the timeouts counted for it before, and those of its timer until they are looked at, are two or more; otherwise it is not. |
| ModuleHandler.Handler.CheckTimeoutedMessages | source/bringauto/modules/ModuleHandler.cpp:64-98 | After a timeout each registered device is drained, one after the other, and told to go when its timeouts are too many by then; meanwhile other threads force aggregations and timers count timeouts. |
| CommandForwarding.NoStrandedCommand | source/bringauto/modules/ModuleHandler.cpp:176-200 | In every interleaving of receiver, statuses and forwarder, the queue of a push-only device is no longer than its outstanding forward events and unannounced commands; with none left it is empty. |
| CommandForwarding.EachCommandTakenOnce | source/bringauto/modules/StatusAggregator.cpp:201-262 | In every such interleaving, and across erasures and registrations, a device's queue is a suffix of the commands accepted since it was registered; those taken by either thread are an in-order subsequence without repeats, and any other that left was dropped behind three newer ones. |
| CommandForwarding.QueueFollowsLife | source/bringauto/modules/StatusAggregator.cpp:201-262 | The queue of a device in a run is the one its own accepts and takes lead to. |
| CommandForwarding.StepKeepsInv | source/bringauto/external_client/ExternalClient.cpp:70-79 | Each step of the three threads keeps that. |
| CommandReceiver.CommandReceiver.HandleCommand | source/bringauto/external_client/ExternalClient.cpp:50-80 | A command its aggregator accepts is announced to the forwarder exactly when the device wants it at once; an empty one goes no further. |
| ErrorAggregator.Aggregator.AddStatus | source/bringauto/external_client/ErrorAggregator.cpp:21-44 | Registers the device, keeps the status as the last one and folds it into the error, unless the fold fails. |
| ErrorAggregator.Aggregator.GetLastStatus | source/bringauto/external_client/ErrorAggregator.cpp:46-53 | The last status of a registered device. |
| ErrorAggregator.Aggregator.GetError | source/bringauto/external_client/ErrorAggregator.cpp:55-67 | The error of a registered device, when there is one. |
| ErrorAggregator.Aggregator.Clear | source/bringauto/external_client/ErrorAggregator.cpp:69-75 | The loop blanks every device and unregisters none. |
| ErrorAggregator.ErrorsAreFolds | source/bringauto/external_client/ErrorAggregator.cpp:21-75 | After any additions and clears: a device is registered exactly when a status of it was ever added and its type is supported; its error is the left fold since the last clear, its last status the latest of them. |
| SentMessages.AcknowledgementTakesOne | source/bringauto/external_client/connection/messages/SentMessagesHandler.cpp:24-38 | An acknowledgement takes out the oldest status with its counter and leaves the others in order; without one it changes nothing. |
| SentMessages.DisconnectTakesOneEntry | source/bringauto/external_client/connection/messages/SentMessagesHandler.cpp:57-64 | Deleting a device from the list of connected ones leaves it listed exactly when it had been entered more than once, and leaves the other devices as they were. |
| SentMessages.SentMessagesHandler.AddNotAckedStatus | source/bringauto/external_client/connection/messages/SentMessagesHandler.cpp:17-22 | A status joins the pending ones at the end. |
| SentMessages.SentMessagesHandler.AcknowledgeStatus | source/bringauto/external_client/connection/messages/SentMessagesHandler.cpp:24-38 | The search loop removes the first match; the result is an error without a match, and for the last status of a gateway without devices. |
| SentMessages.SentMessagesHandler.DeleteConnectedDevice | source/bringauto/external_client/connection/messages/SentMessagesHandler.cpp:57-64 | The first entry of the device goes. |
| SentMessages.SentMessagesHandler.IsDeviceConnected | source/bringauto/external_client/connection/messages/SentMessagesHandler.cpp:66-70 | Whether the device has an entry. |
| SessionRuns.NoSentStatusVanishes | source/bringauto/external_client/connection/ExternalConnection.cpp:39-97 | Over every run short of shutdown each status handed to the channel is acknowledged, pending or fed to an error aggregator, none twice; what was fed and what is pending are in send order; every pending status belongs to a module of the connection. |
| SessionRuns.ErrorsTellWhatWasFed | source/bringauto/external_client/connection/ExternalConnection.cpp:384-430 | What an error aggregator tells about a device is the fold of the statuses fed for it since the last wipe, over every run. |
| SessionRuns.ExplainedFlush | source/bringauto/external_client/connection/ExternalConnection.cpp:384-404 | A flush feeds every pending status, in send order. |
| SessionRuns.AcknowledgedExactlyOnce | source/bringauto/external_client/connection/messages/SentMessagesHandler.cpp:24-38 | While fewer than 2^32 statuses were sent since the counters were reset, a pending counter lies between 1 and the last one, an acknowledgement removes the one status that has it, and its repetition is refused and changes nothing. |
| SessionRuns.NumberedStep | source/bringauto/external_client/connection/ExternalConnection.cpp:88-97 | Each operation keeps the pending counters strictly increasing, up to the message counter. |
| SessionRuns.CommandsAreInOrder | source/bringauto/external_client/connection/ExternalConnection.cpp:299-339 | Between resets, after a counter other than 0 and 2^32-1 the next accepted one is its successor; each accepted command of a known module has one response with its counter, positive exactly for those pushed to the command queue. |
| SessionRuns.RegistrationLasts | source/bringauto/external_client/connection/ExternalConnection.cpp:56-67 | A device registered at some point of a run is registered ever after. |
| SessionRuns.ConnectedAfterDisconnect | source/bringauto/external_client/connection/ExternalConnection.cpp:56-82 | A device whose status is sent as a disconnect is connected afterwards exactly when it was not registered, or had been entered more than once. |
| SessionRuns.ReconnectedDeviceStays | source/bringauto/external_client/connection/ExternalConnection.cpp:69-82 | A run in which a device is connected, the connection dropped and the device connected again ends with two entries, so that the device survives its disconnect. |
| SessionRuns.UnknownDeviceConnects | source/bringauto/external_client/connection/ExternalConnection.cpp:58-72 | A disconnect that is the first status sent of a device has the device connected. |
| SessionRuns.RunKeeps | source/bringauto/external_client/connection/ExternalConnection.cpp:39-430 | The ledger invariants hold after every run. |
| SessionScripts.InitializePlays | source/bringauto/external_client/connection/ExternalConnection.cpp:106-148 | The connect sequence, with all that is absorbed at its pauses, is a run of single operations that are spelled out; it takes in exactly what was scheduled, in order, and forgets errors only when it succeeds. |
| SessionScripts.ReceiveLeads | source/bringauto/external_client/connection/ExternalConnection.cpp:341-378 | The receiving loop is a run of single operations, which bring no statuses. |
| SessionScripts.RegisteredPlay | source/bringauto/external_client/connection/ExternalConnection.cpp:411-430 | No run of operations unregisters a device. |
| SessionScripts.RejectionEndsTheLoop | source/bringauto/external_client/connection/ExternalConnection.cpp:357-375 | The receiving loop takes in nothing after it has asked for the connection to be dropped; a command out of order leaves no trace. |
| Receptions.LoopEndsOn | source/bringauto/external_client/connection/ExternalConnection.cpp:341-378 | The receiving loop ends exactly on the first message that the announced disconnect of the server comes with, or that is refused; it asks for a restart exactly when that is neither an announced disconnect nor the response to a status. During a connect sequence it reads nothing. |
| Receptions.LoopTakesIn | source/bringauto/external_client/connection/ExternalConnection.cpp:299-378 | Each message it reads is taken in: a command of the session in order is answered in it, positively exactly when the device is connected, and as not supported or not connected otherwise, and passed on when the answer is positive; a response takes the first status with its counter off the pending ones. |
| ConnectLanguage.SendsAll | source/bringauto/external_client/connection/ExternalConnection.cpp:183-209 | With every device registered the second step sends all statuses and never fails for an unregistered device; the command counter is kept unless a send fails. |
| Introductions.ConnectSequenceTells | source/bringauto/external_client/connection/ExternalConnection.cpp:106-252 | After any run, an attempt hands over the device list in one new session, and once that is answered the last status of each device in turn: of that device, in the state connecting, with the latest status the ledger has for it since the last wipe and the fold of all these as the error, as they are when the device is looked up; after that only answers to commands. |
| Introductions.InitializeAttempts | source/bringauto/external_client/connection/ExternalConnection.cpp:106-113 | Every attempt asks the channel to open once. |
| Settlements.AnsweredStatusesAreSettled | source/bringauto/external_client/connection/ExternalConnection.cpp:211-232 | Once a connect sequence has succeeded, no status that was answered in its course is pending any more, while fewer than 2^32 statuses were sent since the counters were reset. |
| ConnectLanguage.StatusLanguage | source/bringauto/external_client/connection/ExternalConnection.cpp:211-232 | The responses are accepted exactly when there are as many good ones of this session as devices. |
| ConnectLanguage.CommandLanguage | source/bringauto/external_client/connection/ExternalConnection.cpp:235-252 | The commands are accepted exactly when they are of this session, for known modules and in order. |
| ConnectLanguage.ConnectSequenceLanguage | source/bringauto/external_client/connection/ExternalConnection.cpp:106-252 | With every device registered, from not initialized or not connected: the sequence succeeds exactly when the channel opens, the connect message gets through and the received trace is a matching connect response, then n positive status responses, then n acceptable commands, all of this session; it ends connected then, and not connected otherwise. |
| Attempts.AbsorbedSurvivesExactlyOnFailure | source/bringauto/external_client/connection/ExternalConnection.cpp:106-148 | After any run, a connect sequence for registered devices absorbs statuses at its pauses: the error aggregator of each tells of it afterwards exactly when the trace is not in the language and its type is supported; on failure all told before is still told, and the error is the fold over everything. |
| Attempts.AbsorbedSurvivesAttempt | source/bringauto/external_client/connection/ExternalConnection.cpp:106-148 | The same for any connect list: what is absorbed is still told of exactly when the attempt fails and the type is supported. |
| Attempts.QuietRunTells | source/bringauto/external_client/connection/ExternalConnection.cpp:384-430 | Operations that forget no errors only add to what an error aggregator tells, and every status they absorb is told of. |
| Attempts.AbsorbedStatusIsLost | source/bringauto/external_client/connection/ExternalConnection.cpp:140-145 | A status of a supported type, absorbed while a connection without devices is started, is lost when the channel opens and the connect is answered, and its error aggregator tells of it when the channel does not open. |
| ExternalConnection.ExternalConnection.constructor | source/bringauto/external_client/connection/ExternalConnection.cpp:15-37 | A connection starts with an empty error aggregator for each of its modules. |
| ExternalConnection.ExternalConnection.SendStatus | source/bringauto/external_client/connection/ExternalConnection.cpp:39-104 | The whole effect of sending a status: registration, the reported state, the connected list, the counter, the pending list and, when the send fails, the reset. |
| ExternalConnection.ExternalConnection.Register | source/bringauto/external_client/connection/ExternalConnection.cpp:56-67 | An unknown device is registered by its status. |
| ExternalConnection.ExternalConnection.Announce | source/bringauto/external_client/connection/ExternalConnection.cpp:69-86 | The first running status of a device connects it. |
| ExternalConnection.ExternalConnection.GetNextStatusCounter | source/bringauto/external_client/connection/ExternalConnection.cpp:269-271 | The 32-bit counter goes round. |
| ExternalConnection.ExternalConnection.DeinitializeConnection | source/bringauto/external_client/connection/ExternalConnection.cpp:278-297 | Counters and state are reset, and what is pending goes to the error aggregators. |
| ExternalConnection.ExternalConnection.FillErrorAggregatorWithNotAckedStatuses | source/bringauto/external_client/connection/ExternalConnection.cpp:384-409 | The loop feeds the pending statuses in order and forgets them. |
| ExternalConnection.ExternalConnection.FillErrorAggregator | source/bringauto/external_client/connection/ExternalConnection.cpp:411-430 | The pending statuses go first, then the new one. |
| ExternalConnection.ExternalConnection.HandleCommand | source/bringauto/external_client/connection/ExternalConnection.cpp:299-339 | Session, order, module and response of a command. |
| ExternalConnection.ExternalConnection.ConnectMessageHandle | source/bringauto/external_client/connection/ExternalConnection.cpp:150-180 | The first step: a new session id, the connect message and the check of its response. |
| ExternalConnection.ExternalConnection.SendLastStatus | source/bringauto/external_client/connection/ExternalConnection.cpp:184-208 | The last status of a registered device goes out as the status and its error as the error, as they were before what is absorbed in between; the second lookup cannot fail. |
| ExternalConnection.ExternalConnection.StatusMessageHandle | source/bringauto/external_client/connection/ExternalConnection.cpp:182-233 | The second step, with both loops and what is absorbed in their course. |
| ExternalConnection.ExternalConnection.ReceiveStatusResponse | source/bringauto/external_client/connection/ExternalConnection.cpp:213-230 | One status response of the second step. |
| ExternalConnection.ExternalConnection.CommandMessageHandle | source/bringauto/external_client/connection/ExternalConnection.cpp:235-252 | The third step. |
| ExternalConnection.ExternalConnection.ClearErrorAggregators | source/bringauto/external_client/connection/ExternalConnection.cpp:140-145 | The loop over the map clears every error aggregator. |
| ExternalConnection.ExternalConnection.InitializeConnection | source/bringauto/external_client/connection/ExternalConnection.cpp:106-148 | The three steps and the states they leave, with the other thread taking its turn after the channel is tried, while a message is awaited, before each lookup, before each status goes out, and at the end. |
| ExternalConnection.ExternalConnection.ReceivingHandlerLoop | source/bringauto/external_client/connection/ExternalConnection.cpp:341-378 | The loop, round by round; when it ends it asks for a restart exactly when its last message came without an announced disconnect and was not the response to a status. |
| ExternalConnection.ExternalConnection.ForceAggregationOnAllDevices | source/bringauto/external_client/connection/ExternalConnection.cpp:432-443 | The devices without a last status, in order. |
| ClientSpec.Leading | source/bringauto/external_client/ExternalClient.cpp:227-232 | How far the queue goes before its first disconnect. |
| ClientMessages.EachGetsItsOwn | source/bringauto/external_client/ExternalClient.cpp:227-242 | Every connection gets exactly the messages that are for it, in order; each message has one destination. |
| ClientMessages.DrainTakesLeading | source/bringauto/external_client/ExternalClient.cpp:223-242 | The initial drain takes exactly the longest prefix without a disconnect, and each connection gets its own of it. |
| ClientMessages.BesideTakesFront | source/bringauto/external_client/ExternalClient.cpp:197-221 | All turns of the drain beside the connect attempt take messages off the front in order, none of them a disconnect; the other connections get their own of them, and the one being started is left to take in its own. |
| ClientMessages.MeanwhileIsOwn | source/bringauto/external_client/ExternalClient.cpp:215-219 | What the connection takes in at its pauses are its own of the messages taken beside the attempt. |
| ClientMessages.WaitConserves | source/bringauto/external_client/ExternalClient.cpp:248-274 | While the forced devices are waited for no message is lost or doubled, and each forced device takes in one message. |
| ClientMessages.WaitDelivers | source/bringauto/external_client/ExternalClient.cpp:248-274 | Each connection has got its own of the messages taken during the wait, in order: absorbed by the one being started, delivered to the others. |
| Disconnects.TakenDisconnect | source/bringauto/external_client/ExternalClient.cpp:162-195 | A disconnect taken while a connection is started ends in the error aggregator exactly when it belongs to that connection or to one that is not up, or its message does not get through; the server is told of it exactly when it belongs to another connection that is up, the device is registered and the message gets through. |
| Disconnects.WaitedDisconnect | source/bringauto/external_client/ExternalClient.cpp:248-274 | The same for the wait: a disconnect at the front is put back, or absorbed or told under those conditions. |
| Disconnects.DispatchedDisconnect | source/bringauto/external_client/ExternalClient.cpp:162-195 | The same outside of a connect sequence: absorbed exactly when its connection is not up or its message does not get through, told exactly when it is up, the device registered and the message gets through. |
| Disconnects.DeliveredDisconnect | source/bringauto/external_client/connection/ExternalConnection.cpp:39-104 | The same for the connection itself: a disconnect that fails to be sent is fed behind all that was pending, and one of an unregistered device is sent as a connect. |
| Disconnects.DisconnectsAreAbsorbed | source/bringauto/external_client/ExternalClient.cpp:248-274 | Two disconnects that end in error aggregators: of the device that is waited for, and of a device of another connection that is not up. |
| Disconnects.UnsentDisconnectIsAbsorbed | source/bringauto/external_client/connection/ExternalConnection.cpp:94-103 | A disconnect of a registered device on a connection that is up, whose message does not get through: the connection is given up and the disconnect ends in the error aggregator. |
| Deliveries.RoutedMessage | source/bringauto/external_client/ExternalClient.cpp:162-195 | A message on its way to a connection that is up is handed over as the next status of its session, without an error: of an unknown device as a connect, else a disconnect as one, else as running exactly when the device has been entered and as a connect otherwise; it is pending then, or the connection given up. One for a connection that is not up is absorbed and nothing is sent. |
| Deliveries.ServedMessage | source/bringauto/external_client/ExternalClient.cpp:149-195 | The same for the front of the queue in any run of the client; a message for a connection that has not been started makes an attempt to start it, one that nobody owns changes nothing. |
| Deliveries.RunningStatusIsTold | source/bringauto/external_client/ExternalClient.cpp:183-190 | A status of a known device on a connection that is up is reported as running exactly when the device was entered, and as connecting otherwise; the device is entered afterwards. |
| ClientSequence.WaitForCovers | source/bringauto/external_client/ExternalClient.cpp:244-274 | Each device of the connect list is registered or still waited for. |
| ClientSequence.UnregisteredExactly | source/bringauto/external_client/connection/ExternalConnection.cpp:432-443 | Aggregation is forced on exactly the devices of the list that are not registered. |
| ClientSequence.PrepareRegisters | source/bringauto/external_client/ExternalClient.cpp:244-275 | When the wait ends by itself, every device of the connect list is registered by the time the connection is initialized. |
| ClientSequence.StartedExactlyOnTheLanguage | source/bringauto/external_client/ExternalClient.cpp:223-308 | Such a connect sequence succeeds exactly on the traces of the language; otherwise a timer will start it again. |
| ClientRuns.EveryConnectionKeepsItsLedger | source/bringauto/external_client/ExternalClient.cpp:135-308 | In every run of the client each connection goes through operations that are spelled out; they bring it exactly its own of the messages taken, in order, and their ledger accounts for every status handed to its channel, its error aggregators and its commands. |
| ClientRuns.NoMessageVanishes | source/bringauto/external_client/ExternalClient.cpp:135-308 | In every run of the client what has arrived is what waits in the queue and what was taken; each message taken went to a connection that has its module, unless none owns it. |
| ClientRuns.MessagesAreTakenInOrder | source/bringauto/external_client/ExternalClient.cpp:149-158 | From any point of a run on, while no connection is started, the messages are taken in the order in which they came. |
| ClientRuns.LaunchedOnTheLanguage | source/bringauto/external_client/ExternalClient.cpp:223-308 | Whenever a run starts a connect sequence for devices that the aggregators know, after any histories of these, the connection is not initialized and has its modules; so, if the wait is not cut short, all devices of the list are registered at the attempt, and it succeeds exactly on the traces of the language. |
| Reconnects.FailedConnectionIsDue | source/bringauto/external_client/ExternalClient.cpp:135-160 | In every run whose waits are not cut short, a connection that could not be started is never forgotten: a timer will ask for it to be started again, or that has been asked for; and between the steps of the loop no connection is half started. |
| Reconnects.SequenceDecides | source/bringauto/external_client/ExternalClient.cpp:293-307 | A connect sequence leaves its connection up, or fails and sets a timer for it, unless the wait was cut short; it starts no other connection and answers no request. |
| Reconnects.RequestsAreAnsweredInOrder | source/bringauto/external_client/ExternalClient.cpp:135-148 | In every run the requests of timers, receiving loops and unanswered statuses are answered in the order they were made, each once, and no others are. |
| Reconnects.EventAsks | source/bringauto/external_client/connection/ExternalConnection.cpp:341-378 | What each event asks for: a loop that ends, a restart unless the disconnect was announced or an acknowledgement refused; a timer and an unanswered status, a restart. |
| Reconnects.RequestIsAnswered | source/bringauto/external_client/ExternalClient.cpp:137-148 | The oldest request has its connection given up, with what is pending fed to the error aggregators; an attempt to start it is made exactly when that was asked, and otherwise nothing else changes. |
| Reconnects.AnnouncedDisconnectIsFinal | source/bringauto/external_client/connection/ExternalConnection.cpp:349-353 | In any run of the client, a disconnect that the server announces is answered by dropping the connection and making no attempt to start it. |
| ClientRuns.SequenceBrings | source/bringauto/external_client/ExternalClient.cpp:223-308 | A connect sequence takes every connection through operations that bring it exactly its own messages. |
| ClientRuns.SequenceConserves | source/bringauto/external_client/ExternalClient.cpp:223-308 | A connect sequence loses and doubles no message. |
| ExternalClient.MapModules | source/bringauto/external_client/ExternalClient.cpp:129-131 | A module belongs to the first connection that has it. |
| ExternalClient.ExternalClient.constructor | source/bringauto/external_client/ExternalClient.cpp:99-133 | The client starts with its connections, an empty queue and the module map. |
| ExternalClient.ExternalClient.SendStatus | source/bringauto/external_client/ExternalClient.cpp:162-195 | Routing of one message, handed over in the state it calls for when its connection is up; outside a connect sequence it may start one, inside never, so the mutual recursion ends. |
| ExternalClient.ExternalClient.StartExternalConnectSequence | source/bringauto/external_client/ExternalClient.cpp:223-308 | The whole connect sequence; it is never entered from within another one. |
| ExternalClient.ExternalClient.DrainQueue | source/bringauto/external_client/ExternalClient.cpp:227-242 | The loop of the initial drain. |
| ExternalClient.ExternalClient.WaitForForcedDevices | source/bringauto/external_client/ExternalClient.cpp:248-274 | The loop of the wait, until every forced device has reported or the gateway is shut down. |
| ExternalClient.ExternalClient.DrainQueueDuringConnect | source/bringauto/external_client/ExternalClient.cpp:197-221 | The loop of the drain beside the connect attempt, turn by turn, and what it brings the connection at its pauses. |
| ExternalClient.ExternalClient.HandleReconnect | source/bringauto/external_client/ExternalClient.cpp:137-148 | A connection is dropped and started again, or left alone. |
| ExternalClient.ExternalClient.HandleAggregatedMessages | source/bringauto/external_client/ExternalClient.cpp:135-160 | The loop of the client: in each round other threads have their turns, the oldest request to drop a connection is answered, and the front of the queue is sent. |
| ExternalClient.ExternalClient.Happen | source/bringauto/external_client/connection/ExternalConnection.cpp:341-378 | What other threads do meanwhile: messages arrive, and a receiving loop that ends, a timer that fires and a status that is not answered in time ask for their connection to be dropped. |
| ExternalClient.ExternalClient.AnswerRequest | source/bringauto/external_client/ExternalClient.cpp:137-148 | The oldest request is taken and its connection dropped, and started again when that was asked. |
| ClientRuns.RoundIsRun | source/bringauto/external_client/ExternalClient.cpp:135-160 | A round of that loop is a run of the operations of the client. |
| ExternalClient.FindDevice | source/bringauto/external_client/ExternalClient.cpp:258-267 | The first entry of a device in a list, and the list without it. |

## Left out

- Sockets, the I/O threads, MQTT, QUIC and TLS channels, the Aeron executor and the loading of libraries: the network is an oracle, and the module functions are arbitrary.
- Protobuf encoding: messages are datatypes, and serialization is an arbitrary function to bytes. A message that does not parse is one that the message handler of the framing refuses.
- The byte order of the machine: the length in a header is copied as it lies in memory, which is taken to be little endian.
- Real time: a timer is a step that may happen, a wait with a timeout an outcome that may occur.
- Data races inside one operation. Sending a status is one operation although only its parts are locked, and so is the drain's check of the connection's state with what it then takes: a status that slips in between that check and the clearing of the errors is not modelled.
- Messages that reach the queue while the initial drain runs count as arriving after it.
- The receiving loop is given a number of rounds, and the wait for forced devices and the client's loop their arrivals; the end of either stands for the flag or the shutdown that ends it in the program. That the wait ends by itself depends on the devices and is not claimed. What the client sends while the receiving loop runs comes between its calls.
- Shutdown: the complete disconnect and the destruction of aggregators drop what they hold by design.
- The command queue shared by all connections: each connection records what it pushes on its own.
- `handleStatus` of the internal server does not take the lock of the connection table; its step is atomic here all the same.
- Writing a response that fails halfway is not modelled.
- A response of the module handler that names neither a device command nor a connect response.
- Return codes of module functions other than success and failure: their interface documents only these.
- Aggregators for modules that a connection names but no library serves, and the entry that the second connect step would create for a module without one: the connect list has only modules of the connection.
- The generation of session ids: an id is arbitrary, and may even repeat.
- `clear_all_devices`, the atomic queue as a subject of its own, settings, logging, `main` and the JSON output: they would add easy members only.
- ModuleHandler.Handler.HandleStatus: no erasure of the device comes between its steps; the lookup of an erased device throws in the program.
- ModuleHandler.Handler.CheckTimeoutedMessages: no erasure comes between its steps, nor a new device; an erased device has nothing more to send.
- TimeoutSpec.EachIsSentInFull: the same, for what other threads do meanwhile.
- ExternalClient.ExternalClient.Happen: a status that is not answered in time asks for the connection to be dropped even when another one of the same connection has done so already; the program asks once until these are flushed, so that the model has more runs.
