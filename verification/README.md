# Verification model of the Ommo client SDK

A Dafny model of the client side of the SDK, with proofs. It covers the double-buffered packet stores, the completion queue
with its call objects, the reconciliation of requests with connected devices, the channel monitor, request tags, and the
ownership of packet memory. Payloads are opaque values; gRPC, the network and threads are represented by the events they
deliver.

`dafny verify dfyconfig.toml` checks everything.

| file | what it models |
|---|---|
| SdkTypes.dfy, SdkUtils.dfy | fixed-width integers, packets and responses; the map key of a device and exactly when two devices share one |
| PacketLog.dfy | the reference: an unbounded log of accepted messages and the answers a query should give on it |
| DeviceDataStorage.dfy, BaseStationDataStorage.dfy | the two stores as classes over arrays, refined to that log |
| StoragePolling.dfy | a client that polls with its last index + 1, over every interleaving of messages and polls |
| StorageConcurrency.dfy | one pushing thread and any number of querying threads, split at every point where they can meet |
| ClientCallData.dfy, CompletionQueue.dfy | the one-way stream machine and the queue thread |
| WirelessStream.dfy | the wireless management stream, whose reads and writes are out at the same time |
| Demultiplexing.dfy | how messages are sorted into the storages of one request |
| RequestTracking.dfy | the state kept by ClientManager and its DataManagers as values; which call objects can still call back |
| RequestHistory.dfy | the same state told from the events alone: connected devices, open requests, what they are served with |
| ServiceHistory.dfy | the storages and streams of every request after any run, told from the events |
| Reconciliation.dfy | storages and streams follow the connected devices |
| StreamRemoval.dfy | the deletion of a call with the non-advancing loop, over whole runs |
| RequestInterleaving.dfy | a device event and a new request for device data that run at the same time |
| FrameInterleaving.dfy | the same for a request for data frames |
| CloseInterleaving.dfy | a device event and the closing of a request that run at the same time |
| TagInterleaving.dfy | requests of different kinds that take a tag at the same time |
| Uninterrupted.dfy | the interleaved models, left alone, do what one step of RequestTracking does |
| DataManager.dfy, ClientManager.dfy | the objects themselves; every public step is proved equal to the step on values |
| ChannelMonitor.dfy | the polling loop that keeps the device event stream open |
| ClientContext.dfy | request tags and the shared base-station storage |
| PacketMemory.dfy | deep copies and deletions of the arrays behind packets |

## What was found

Where the code does not do what it is for, the model keeps the code and the theorem says exactly when it does.

- **Stale gap.** Between the switch of the buffers and the reset of the write count a reader sees the old buffer counted
  as the newer one. `OnlyTheGapShowsWrongSlots` shows that no other state has the defect. Of the queries that run wholly
  inside the gap exactly those that ask for something are answered wrongly (`GapSpoilsEveryAnswer`), and any thread can
  run any such query there (`GapQueryRuns`). `StaleGapReturnsOldPacket` gives a run, and `ConcurrentSnapshot` shows every
  query that samples the write count outside the gap exact.
- **Base station, newest packet.** With an empty write buffer the code reads a slot of the write buffer instead of the
  read buffer. The answer is right exactly if the write buffer holds something, or nothing has been switched yet, or the
  one packet ever accepted equals the default value that the slot holds. The write buffer is empty after a switch
  whenever the number of packets is a positive multiple of the buffer size (`EmptyAfterSwitch`); `AfterOneBuffer` runs
  into it.
- **Base station, since index.** A guard of the device store is missing. The answer is right unless the write buffer is
  empty after a switch and the start index is at or past the end; then the call returns success with no packets, asks
  for an array of negative length, overflows an int32_t, or asks for a huge array and reads outside the buffer, depending
  on the index.
- **RemoveStream can hang the queue thread.** Its loop looks at the first entry of the stream map for ever unless that
  one matches. `WrittenStep` says when the deletion of a call comes back in a reachable state: a call that the server
  ended, if it is the frame stream or its entry is first; a cancelled call of an open request, only if that request
  records no device stream. `UnplugHangs`: unplugging one of two devices of a request is enough. Up to there the code
  does what find and erase does (`RunAsWrittenTracked`).
- **CloseBaseStationDataRequest** has the same loop. It returns exactly if the list is empty or starts with the storage,
  and a `ClientContext` never gets the list into another state.
- **Polling.** "At most one buffer of messages between polls" is enough to miss nothing but not needed;
  `PollMissesExactly` has the exact bound, and `OneMoreCanMiss` shows that one message more can be too much.
- **Wireless deletion.** A failure while a write is out deletes the object with one operation outstanding, whose
  completion then reaches a deleted object. Over any run an operation is left, or has reached a deleted object, if and
  only if there was such a failure (`DanglingIffFailureWhileWriting`). A request sent before the connection
  completes also makes the handler run once on an empty event (`EmptyCallbackIsReachable`).
- **Duplicate device call.** When a device event meets the scan of a new request, both can open a call for the device, and
  one of them is not recorded. It happens if and only if both threads are about to open one at the same time
  (`UnrecordedIffThreadsMeet`). Closing a request cancels exactly what it has recorded (`CloseCancelsRecorded`). The maps
  themselves end up right (`NoLostDevice`).
- **Overtaken frame stream.** A device event that meets a new request for data frames can leave it with a recorded stream
  that lacks the device and with an active stream that nothing records. The recorded one is right if and only if the
  queue thread recorded last or the request's scan found the same devices (`FrameIffNotOvertaken`); a stray one exists
  if and only if the threads' records collided (`StrayIffCollision`); without a collision both are in order.
- **Call that survives closing.** Closing cancels what a request has recorded, forgets it, and only then unlists the
  request. A device event in between can open and record one more call. A closed request keeps an active call if and only
  if the queue thread recorded it after the cancelling and has not stopped it since (`ClosedKeepsCall`). Such a run exists
  for every open request and every device it asks for (`SurvivingCallIsReachable`); without a visit in between nothing is
  left (`UndisturbedCloseLeavesNothing`).
- **Repeated tags.** Data requests and base-station requests take their tags from one plain counter under different locks.
  All tags differ if and only if no request read the counter while one of the other kind was about to write it, and at
  most 2^32 were made (`TagsDistinctIff`). Two data requests can then share a tag too (`SameKindRepeats`).
- **Keys.** Storages and streams follow the connected devices in all calm runs over a set of devices if and only if no two
  of the devices share a key (`InStepIffKeysApart`); the same holds for serving every added device
  (`AllServedIffKeysApart`). Ports below 256 are such a set. From 256 on every device shares its key with one on a small
  port. No storage ever takes another device's packets.
- **Base-station reuse.** After the last base-station tag is closed the shared storage is never fed again, although later
  requests get a tag for it.
- **Monitor restart.** A monitor that is stopped and started while the channel stays ready opens no event stream.

## Model

| member | source | states |
|---|---|---|
| SdkUtils.HashIsShiftOr | src/sdk_utils.cpp:17-39 | bit by bit the key is the uuid shifted left by eight or-ed with the port, for all inputs |
| SdkUtils.HashCollides | src/sdk_utils.cpp:17-39 | two devices share a key if and only if their ports agree in the low byte and their uuids agree once the rest of the port is or-ed in |
| SdkUtils.HashInjective | src/sdk_utils.cpp:29-33 | for ports below 256 equal keys mean equal devices |
| SdkUtils.LargePortCollides | src/sdk_utils.cpp:29-33 | every device has a counterpart on a small port with the same key, which is the device itself if and only if its port is below 256 |
| PacketLog.WriteCountIsRemainder | src/device_data_storage.cpp:71-91 | the number of packets in the write buffer is the number accepted modulo the buffer size |
| PacketLog.CountsAfterPush | src/device_data_storage.cpp:71-91 | how the two counts change with one more packet |
| PacketLog.RetainedBounds | src/device_data_storage.cpp:71-91 | at least the last buffer size of packets is retained, and always fewer than twice as many |
| PacketLog.LatestGives | src/device_data_storage.cpp:137-209 | the reference answer for k packets is exactly: the last k in order with success if so many are held, all that are held with partial data if k is more, no data if k is 0 or nothing is held |
| PacketLog.SinceGives | src/device_data_storage.cpp:211-286 | the reference answer from index s on is exactly: every packet from s with success if they are held, all that are held with partial data if not, no data past the newest |
| PacketLog.NegativeCount | src/data_manager.cpp:209-221 | a negative count, converted to unsigned, asks for everything that is retained |
| PacketLog.NegativeIndex | src/data_manager.cpp:223-235 | a negative start index finds nothing exactly until the store has given out that many indices |
| DeviceDataStorages.DeviceDataStorage.constructor | src/device_data_storage.cpp:27-49 | a new store has an empty log, its two buffers are new, and the invariant holds |
| DeviceDataStorages.DeviceDataStorage.SwitchBufferPointer | src/device_data_storage.cpp:288-299 | the buffers are exchanged together with their counts |
| DeviceDataStorages.DeviceDataStorage.PushData | src/device_data_storage.cpp:63-105 | appends to the log exactly the packets of its own device, changes nothing otherwise, keeps distinct buffers, write count = total mod size, read count 0 or full, buffers = end of the log; the overflow branch is unreachable |
| DeviceDataStorages.DeviceDataStorage.GetLatestData | src/device_data_storage.cpp:107-135 | the answer is the reference answer for one packet |
| DeviceDataStorages.DeviceDataStorage.GetLatestDataCount | src/device_data_storage.cpp:137-209 | with W packets held: the last k entries of the log in order, count k and success for 0 < k <= W; all W with partial data for k > W > 0; no data otherwise |
| DeviceDataStorages.DeviceDataStorage.CopyReadThenWrite | src/device_data_storage.cpp:171-203 | the two copy loops fill the response array exactly with the end of the log |
| DeviceDataStorages.DeviceDataStorage.GetDataSinceIndex | src/device_data_storage.cpp:211-286 | in every reachable state, for every start index: every held packet from it on with success, all held ones with partial data if it is older, no data if it is newer; all array sizes and unsigned subtractions in range |
| BaseStationDataStorages.BaseStationDataStorage.constructor | src/basestation_data_storage.cpp:16-36 | a new store has an empty log and default slots |
| BaseStationDataStorages.BaseStationDataStorage.PushData | src/basestation_data_storage.cpp:44-77 | appends every packet to the log and keeps the same invariant as the device store |
| BaseStationDataStorages.BaseStationDataStorage.GetLatestData | src/basestation_data_storage.cpp:79-107 | the reference answer if and only if the write buffer holds a packet, nothing was switched yet, or one accepted packet equals the default slot; otherwise the slot left over in the write buffer |
| BaseStationDataStorages.BaseStationDataStorage.GetLatestDataCount | src/basestation_data_storage.cpp:109-181 | always the same answer as the device store |
| BaseStationDataStorages.BaseStationDataStorage.GetDataSinceIndex | src/basestation_data_storage.cpp:183-254 | the reference answer if and only if not (write buffer empty after a switch and start index at or past the end); the four exceptional outcomes by index |
| BaseStationDataStorages.PastTheEndBySize | src/basestation_data_storage.cpp:183-254 | which of the four outcomes it is, from the position and the array size computed as a signed 32-bit difference: negative size, size beyond an int32_t, negative position, nothing to copy |
| BaseStationDataStorages.BaseStationDataStorage.EmptyAfterSwitch | src/basestation_data_storage.cpp:44-77 | the guard of both exceptions holds if and only if the number of accepted packets is a positive multiple of the buffer size |
| BaseStationDataStorages.AfterOneBuffer | src/basestation_data_storage.cpp:79-107 | for every buffer size and every full buffer of packets: the query for the newest gives the default packet, wrong unless that was sent, and the query from the end on gives success with nothing |
| StoragePolling.PollOutcome | src/device_data_storage.cpp:211-286 | what one poll adds to what the client has received and missed |
| StoragePolling.RunAccounted | src/device_data_storage.cpp:211-286 | over every interleaving of messages and polls the received packets are genuine, strictly increasing, and together with the missed indices account for every index passed, none twice |
| StoragePolling.PollingByEvents | src/device_data_storage.cpp:211-286 | the log numbers the messages that have arrived, and the client asks next for the first one after its last poll |
| StoragePolling.NothingMissedMeansPrefix | src/device_data_storage.cpp:211-286 | nothing missed if and only if the received packets are the log up to the next index |
| StoragePolling.PollMissesExactly | src/device_data_storage.cpp:211-286 | a poll misses exactly the indices from next to the first retained, and some if and only if more messages came than both buffers hold |
| StoragePolling.PacedRunMissesNothing | src/device_data_storage.cpp:63-105 | at most one buffer of messages between polls loses nothing in any run |
| StoragePolling.OneMoreCanMiss | src/device_data_storage.cpp:63-105 | for every buffer size one message more between two polls can lose one |
| StorageConcurrency.WriterStepKeepsInv | src/device_data_storage.cpp:71-91 | each step of a push keeps counts, buffer contents and what readers inside a query see |
| StorageConcurrency.ReaderStepKeepsInv | src/device_data_storage.cpp:107-145 | each step of a query keeps them too |
| StorageConcurrency.RunKeepsInv | src/device_data_storage.cpp:63-105 | so does every interleaving of one writer and any number of readers |
| StorageConcurrency.ConcurrentSnapshot | src/device_data_storage.cpp:111-209 | a query that samples outside the gap returns exactly the reference answer on the log at its sampling point, whatever is pushed meanwhile, for a window at least as large as the sequential one; below a buffer size of 2^30 the two counts add up inside an int32_t |
| StorageConcurrency.AnsweredAsSampled | src/device_data_storage.cpp:111-286 | on every run a finished query has copied exactly the packets it asked for, from the log as it stood in the state in which it looked at the write count, unless that was in the gap |
| StorageConcurrency.LogByActions | src/device_data_storage.cpp:71-91 | the log numbers the messages whose pushing has begun, in order, without the one still on its way |
| StorageConcurrency.OnlyTheGapShowsWrongSlots | src/device_data_storage.cpp:83-89 | in every reachable state the counted slots show the end of the log if and only if the state is not between switch and reset with a full old read buffer |
| StorageConcurrency.GapSpoilsEveryAnswer | src/device_data_storage.cpp:83-89 | a query that runs wholly in the gap is answered as the log says, for whatever part of the log, if and only if there is nothing to answer |
| StorageConcurrency.QueryRunsIn | src/device_data_storage.cpp:107-286 | in every state any thread can run any query to its end, and gets the answer that the slots of that state give |
| StorageConcurrency.GapQueryRuns | src/device_data_storage.cpp:83-89 | every run that ends in the gap goes on to a finished query whose answer is right if and only if there is nothing to answer |
| StorageConcurrency.StaleGapReturnsOldPacket | src/device_data_storage.cpp:83-89 | a run in which the query for the newest packet returns an older one |
| StorageConcurrency.NeverStuck | src/device_data_storage.cpp:63-145 | in every reachable state a query can be started and go on, and a push waits exactly at its switch, while a query holds the lock |
| ClientCallData.ProceededOk | src/rpcOpenTrackingDeviceDataStreamClientCallData.cpp:41-66 | a delivery keeps the handled messages equal to the reads before the cancellation |
| ClientCallData.CancelledOk | src/rpcClientCallData.cpp:39-43 | a cancellation freezes the handled messages at the reads so far |
| ClientCallData.OneWayCallData.Stop | src/rpcClientCallData.cpp:33-37 | puts the object into its final state |
| ClientCallData.OneWayCallData.CancelCall | src/rpcClientCallData.cpp:39-43 | the listener is off for good |
| ClientCallData.OneWayCallData.Proceed | src/rpcOpenTrackingDeviceDataStreamClientCallData.cpp:41-73 | new state and whether the object is kept are those of the state machine |
| ClientCallData.OneWayCallData.Deliver | src/client_manager.cpp:263-273 | an unsuccessful completion stops the object before it proceeds |
| CompletionQueue.RunKeepsInv | src/client_manager.cpp:245-282 | over any number of streams and any completion order each live call has exactly one outstanding tag, no tag reaches a deleted call, none is deleted twice, and each handler saw a prefix of the reads in order, cut only by a cancellation |
| CompletionQueue.HandlersHear | src/rpcOpenTrackingDeviceDataStreamClientCallData.cpp:41-66 | told from the actions alone: after every run the handler of each call, alive or ended, has been given exactly the messages completed at its address since it was opened and before it was first cancelled, in order, without the completion of the connect |
| CompletionQueue.DeletedOnlyAfterFailure | src/client_manager.cpp:265-279 | a live call disappears if and only if its own operation completes unsuccessfully |
| CompletionQueue.NoCallbackOnConnect | src/rpcOpenTrackingDeviceDataStreamClientCallData.cpp:44-54 | the completion of the connect never reaches the handler |
| CompletionQueue.CompletionReachesLiveCall | src/client_manager.cpp:263-273 | a completion always finds its object alive |
| CompletionQueue.Processor.OpenCall | src/client_manager.cpp:46-64 | opening does what the step on values says |
| CompletionQueue.Processor.CancelCall | src/rpcClientCallData.cpp:39-43 | cancelling does what the step on values says |
| CompletionQueue.Processor.ProcessNext | src/client_manager.cpp:263-280 | one turn of the queue loop is one delivery step |
| CompletionQueue.Processor.CompletionQueueProcessor | src/client_manager.cpp:245-282 | the loop over any deliverable completions is the run of the state machine and keeps its invariant |
| WirelessStream.StepKeepsInv | src/rpc_wireless_management_stream_client_call_data.cpp:35-112 | one step keeps: a live object has one READ tag out, a write out if and only if it is PROCESSING, never two |
| WirelessStream.RunKeepsInv | src/rpc_wireless_management_stream_client_call_data.cpp:35-112 | so does every run |
| WirelessStream.DeletionLeaves | src/client_manager.cpp:265-279 | deletion only after a failed completion, with nothing outstanding if and only if the failure came in CONNECTING or WAITING |
| WirelessStream.DanglingIffFailureWhileWriting | src/rpc_wireless_management_stream_client_call_data.cpp:83-111 | over every run a tag has reached the deleted object, or is out and can, if and only if a failure arrived while a write was out |
| WirelessStream.FailureWhileWritingFaults | src/rpc_wireless_management_stream_client_call_data.cpp:83-111 | the tag that such a failure leaves behind does reach it |
| WirelessStream.FaultIsReachable | src/rpc_wireless_management_stream_client_call_data.cpp:35-112 | a concrete run to it |
| WirelessStream.RunHeard | src/rpc_wireless_management_stream_client_call_data.cpp:54-112 | the handler hears exactly the messages read before the listener was switched off or the object deleted, in order, after one empty event if and only if a request was sent before the connection completed while it listened |
| WirelessStream.HandlerHears | src/rpc_wireless_management_stream_client_call_data.cpp:54-112 | told from the actions alone: the handler has been given exactly the messages read after the connection and before anything failed or was cancelled, after one empty event if a request came before the connection |
| WirelessStream.AcceptsWhenIdle | src/rpc_wireless_management_stream_client_call_data.cpp:35-52 | told from the actions alone: a request is accepted if and only if nothing has failed and no accepted request is still being written |
| WirelessStream.EmptyCallbackIsReachable | src/rpc_wireless_management_stream_client_call_data.cpp:83-104 | a run with that empty event |
| WirelessStream.RpcWirelessManagementStreamClientCallData.SendWirelessManagementRequest | src/rpc_wireless_management_stream_client_call_data.cpp:35-52 | accepted exactly when no write is out and the object is not finished, and then one write is out |
| WirelessStream.RpcWirelessManagementStreamClientCallData.Proceed | src/rpc_wireless_management_stream_client_call_data.cpp:54-112 | new state, operations issued and whether the object is kept are those of the state machine |
| Demultiplexing.DeviceDataSorted | src/data_manager.cpp:121-129 | a device message goes to the end of its own device's log and nowhere else |
| Demultiplexing.FrameSorted | src/data_manager.cpp:141-153 | so do the packets of a frame, in order |
| Demultiplexing.RunSorted | src/data_manager.cpp:71-153 | after any sequence of messages, frames, added and removed storages each log is the in-order subsequence since its creation of the messages of its device, key collisions included |
| Demultiplexing.LogsByEvents | src/data_manager.cpp:71-153 | told from the events alone: there is a storage under a key if and only if one was added and not removed since, and its log numbers the messages of its device that have come since |
| Demultiplexing.NoForeignPacket | src/device_data_storage.cpp:65-68 | no storage ever holds another device's packet |
| Demultiplexing.AllServedIffKeysApart | src/data_manager.cpp:71-93 | for every set of devices: after all runs over them exactly the added and not removed devices have a storage, if and only if no two share a key |
| Demultiplexing.SmallPortsServed | src/data_manager.cpp:71-93 | so it is for ports below 256 |
| RequestTracking.LegalEnvironmentExists | src/client_manager.cpp:343-347 | there is an allocator and an iteration order as the results over runs assume them |
| RequestTracking.UpdateAllOwns | src/client_manager.cpp:311-322 | the walk of a device event keeps every request's records equal to its active calls and touches no other calls |
| RequestTracking.DeviceEventTracked | src/client_manager.cpp:284-326 | a device event keeps the tracking invariant |
| RequestTracking.RequestTracked | src/client_manager.cpp:561-589 | so does a new request |
| RequestTracking.CloseTracked | src/client_manager.cpp:627-664 | so does closing one, which leaves none of its calls active |
| RequestTracking.CompletionTracked | src/rpcClientCallData.cpp:25-31 | so does the deletion of a call, which clears its association |
| RequestTracking.RunTracked | src/client_manager.cpp:245-468 | after every run, whatever addresses are handed out: every recorded pointer is live, every active call is recorded by the listed request it belongs to, at most one per device |
| RequestTracking.NoCallbackIntoClosedRequest | src/client_manager.cpp:627-664 | an active listener belongs to a listed request that has recorded it, and no other call delivers the same thing |
| RequestTracking.CloseCancelsRecorded | src/client_manager.cpp:627-664 | closing takes the request off the list and switches off exactly the recorded calls: any other call keeps its listener |
| RequestHistory.ConnectedByEvents | src/client_manager.cpp:284-309 | over every run, channel losses included: a device is connected if and only if, since the last loss, the last event under its key was a connect of it |
| RequestHistory.RequestsByEvents | src/client_manager.cpp:561-664 | over every run: exactly the requests made and not closed are listed, each with the device list and kind it was made with |
| RequestHistory.ServedAsAsked | src/client_manager.cpp:335-468 | after every run without channel loss and server-ended streams, over devices with different keys: an open request has a storage and an active stream for a device if and only if that is connected by the events and the request named it or named none; an active frame stream has exactly those devices |
| RequestHistory.NothingUntilAnEvent | src/client_manager.cpp:211-216 | a lost channel changes no request and no call; until a device event comes nothing is connected and requests made since have neither storages nor device streams |
| RequestHistory.FailedCallIsGone | src/client_manager.cpp:273-279 | in every reachable state a failed completion removes that call and its record, and nothing else; find and erase, as in RequestTracking |
| RequestHistory.TwoOfThreeServed | src/data_manager.cpp:34-53 | a request for two of three connected devices, of either kind, serves these two and not the third |
| ServiceHistory.StoragesByEvents | src/client_manager.cpp:284-468 | over every run, with lost channels, server-ended streams and shared keys: a request has a storage under a key exactly if one came with the request, or with an event of a device asked for while the key was free, and no device asked for has disconnected under the key since; and it is that device's |
| ServiceHistory.StreamsByEvents | src/client_manager.cpp:335-401 | the same for the streams of a request for device data, which also go when the server ends them |
| ServiceHistory.FramesByEvents | src/client_manager.cpp:403-468 | over every run a request for data frames has a stream exactly if the server has not ended the last one opened, and that was opened with exactly the devices connected and asked for at the time |
| StreamRemoval.ForgetReturns | src/data_manager.cpp:325-348 | RemoveStream as written comes back if and only if the recorded frame is that call, or there are no device streams, or its entry is first, and then leaves what find and erase leaves |
| StreamRemoval.WrittenStep | src/data_manager.cpp:325-353 | in every tracked state a step of the code as written comes back if and only if it deletes no call of an open request, or the call is a server-ended frame stream or first entry, or a cancelled call whose request records no device stream; and then it is the step of the tracking model |
| StreamRemoval.RunAsWrittenTracked | src/client_manager.cpp:245-282 | every state that the code as written reaches is one of the tracking model and tracked |
| StreamRemoval.UnplugHangs | src/client_manager.cpp:363-372 | for every two devices with different keys: one request, both connected, one unplugged, and the completion of its cancelled call never returns |
| Reconciliation.InStepIffKeysApart | src/client_manager.cpp:335-468 | for every set of devices: all runs over them without channel loss and server-ended streams keep every request in step, if and only if no two share a key. In step: storages and streams of a device request sit at requested and connected devices; the one active stream of a frame request was opened with exactly those |
| Reconciliation.RunInStep | src/client_manager.cpp:335-468 | one direction, run by run |
| Reconciliation.OwnDevicesApart | src/client_manager.cpp:335-468 | a run whose own devices have different keys stays in step, whatever their ports |
| Reconciliation.SmallPortsInStep | src/client_manager.cpp:335-468 | so do all runs over ports below 256 |
| Reconciliation.SharedKeyBreaksStep | src/client_manager.cpp:284-309 | for every two devices with one key, a run after which this fails |
| RequestInterleaving.RunKeepsInv | src/client_manager.cpp:284-401 | every interleaving of one event thread with requesting threads keeps the per-device invariant |
| RequestInterleaving.NoLostDevice | src/client_manager.cpp:284-401 | in every quiescent state each request, as it was made, has storages and streams exactly at the devices that it asks for and that are connected by their last event |
| RequestInterleaving.OnlyTheEventDeviceMayDiffer | src/client_manager.cpp:311-348 | before that, a request whose scan is done can differ only at the device of the event in progress |
| RequestInterleaving.UnrecordedIffThreadsMeet | src/client_manager.cpp:335-401 | once all is quiet a request has an unrecorded call if and only if somewhere on the run the event walk and its own scan were both about to open a stream for one device |
| RequestInterleaving.NoOverlapNoDuplicate | src/client_manager.cpp:335-401 | none if no walk for a connecting device stands at the request while it scans |
| RequestInterleaving.DuplicateCallIsReachable | src/client_manager.cpp:335-348 | a run that ends quiescent with such a call |
| RequestInterleaving.NeverStuck | src/client_manager.cpp:284-401 | in every reachable state each thread has a next step, except that an event waits to be taken while a scan runs, and a scan to begin while another runs |
| FrameInterleaving.RunKeepsInv | src/client_manager.cpp:403-468 | every interleaving of one event thread with the requesting thread keeps what is known of storages, recorded stream and streams in hand |
| FrameInterleaving.FrameIffNotOvertaken | src/client_manager.cpp:403-468 | in every quiescent state the storages are exactly those of the devices that the request asks for and that are connected by their last event, and the recorded stream was opened with exactly these if and only if the queue thread recorded last or the request's scan found the same devices |
| FrameInterleaving.StrayIffCollision | src/client_manager.cpp:462-467 | there is an active stream that nothing records if and only if the requesting thread recorded over a stream of the queue thread or while that was replacing one |
| FrameInterleaving.NoCollisionNoStaleStream | src/client_manager.cpp:403-468 | without such a collision the recorded stream has the right devices |
| FrameInterleaving.OvertakenIsReachable | src/client_manager.cpp:418-442 | a run that ends with both defects |
| CloseInterleaving.ClosedKeepsCall | src/client_manager.cpp:627-664 | for every interleaving of one closing thread with the queue thread: the closed request keeps an active call if and only if the queue thread recorded it after the closing thread had cancelled the recorded ones, and has not cancelled or deleted it itself |
| CloseInterleaving.UndisturbedCloseLeavesNothing | src/client_manager.cpp:639-662 | closing leaves no active call if no event visits the request between the cancelling and the unlisting |
| CloseInterleaving.SurvivingCallIsReachable | src/client_manager.cpp:639-662 | for every open request, of either kind, and every device it asks for, a run after which it is unlisted and has an active call |
| TagInterleaving.TagsDistinctIff | src/client_context.cpp:245-334 | for every interleaving of one data and one base-station request at a time: all tags differ if and only if no increment of one kind began inside one of the other, and at most 2^32 tags were taken |
| TagInterleaving.SameKindRepeats | src/client_context.cpp:248-250 | a run in which two data requests get tag 2 |
| Uninterrupted.WalkIsUpdateDevice | src/client_manager.cpp:350-401 | the walk of RequestInterleaving, not interrupted at a request, does what UpdateDeviceDataStream does in one step, and leaves no unrecorded call |
| Uninterrupted.WalkIsUpdateFrame | src/client_manager.cpp:445-468 | the walk of FrameInterleaving, not interrupted, does what UpdateDataFrameStream does in one step: old stream cancelled, new one opened with the wanted devices |
| Uninterrupted.CloseIsCloseRequest | src/client_manager.cpp:627-664 | the close of CloseInterleaving, not interrupted, does to the request's calls what CloseRequest does in one step |
| DataManagers.DataManager.IsDeviceDataRequested | src/data_manager.cpp:34-53 | an empty list asks for every device, any other for those in it |
| DataManagers.DataManager.AddDeviceStorage | src/data_manager.cpp:71-82 | a new empty storage of the device, of the given size, unless the key is taken; storages stay separate, and all of the default size if they were |
| DataManagers.DataManager.RemoveDeviceStorage | src/data_manager.cpp:84-93 | the storage of the key goes, the others keep their logs |
| DataManagers.DataManager.UpdateDeviceData | src/data_manager.cpp:121-129 | the logs of the real storage objects change as the step on values says |
| DataManagers.DataManager.UpdateDataFrame | src/data_manager.cpp:141-153 | the same for a whole frame |
| DataManagers.DataManager.GetLatestData | src/data_manager.cpp:195-207 | no data without a storage, else the reference answer on its log |
| DataManagers.DataManager.GetLatestDataCount | src/data_manager.cpp:209-221 | the same for a count, converted to unsigned; every packet is of the storage's device; with default sizes at least the last min(T, 500) packets are held |
| DataManagers.DataManager.GetDataSinceIndex | src/data_manager.cpp:223-235 | the same for a start index |
| DataManagers.DataManager.AddDataStream | src/data_manager.cpp:237-248 | recorded exactly if the key was free |
| DataManagers.DataManager.RemoveDataStream | src/data_manager.cpp:250-261 | the record of the key goes |
| DataManagers.DataManager.CancelDataStream | src/data_manager.cpp:274-285 | only the recorded call is cancelled |
| DataManagers.DataManager.CancelAllDataStreams | src/data_manager.cpp:287-294 | exactly the recorded calls are cancelled, in whatever order |
| DataManagers.DataManager.CancelDataFrameStream | src/data_manager.cpp:302-311 | only the recorded frame call is cancelled |
| DataManagers.DataManager.RemoveStream | src/data_manager.cpp:325-348 | find and erase: the pointer is taken out wherever it was recorded |
| DataManagers.DataManager.RemoveStreamAsWritten | src/data_manager.cpp:325-348 | the first turns of the loop as written, for any iteration order: done exactly if it has returned by then, and what it leaves |
| DataManagers.LoopAsWrittenReturns | src/data_manager.cpp:336-343 | the loop as written returns if and only if the map is empty or its first entry matches, and then leaves what find and erase leaves |
| ClientManagers.ClientManager.constructor | src/client_manager.cpp:35-39 | nothing connected, no request, no call |
| ClientManagers.StepSound | src/client_manager.cpp:245-468 | every step keeps listener tracking, stream kinds and the keys of connected devices |
| ClientManagers.ClientManager.UpdateDeviceDataStream | src/client_manager.cpp:350-401 | storages, records and calls change as the step on values says |
| ClientManagers.ClientManager.OpenDeviceDataStream | src/client_manager.cpp:335-348 | the scan of the connected devices, in whatever order, is the fold of that step |
| ClientManagers.ClientManager.CollectDevices | src/client_manager.cpp:420-438 | the scan finds exactly the requested connected devices and gives each a storage |
| ClientManagers.ClientManager.OpenDataFrame | src/client_manager.cpp:403-443 | one recorded stream opened with exactly those devices |
| ClientManagers.ClientManager.UpdateDataFrameStream | src/client_manager.cpp:445-468 | the old stream is cancelled and replaced; a disconnected device loses its storage |
| ClientManagers.EventWalk | src/client_manager.cpp:311-322 | in every sound state the walk on values exists turn by turn, finds every call that it might cancel, and ends in the state after the event |
| ClientManagers.ClientManager.UpdateRequests | src/client_manager.cpp:311-322 | the loop over the real list does every turn of that walk, with requests not reached yet untouched, and keeps their storages consistent |
| ClientManagers.ClientManager.DeviceEventProcessor | src/client_manager.cpp:284-326 | the event is the step on values, keeps the invariant, keeps the storages of every request consistent and of size 500, and no request gets another storage object in place of one it had; only a disconnect takes one away, that of its device |
| ClientManagers.ClientManager.RequestDeviceData | src/client_manager.cpp:561-574 | a new listed request with its streams, as the step on values; invariant kept |
| ClientManagers.ClientManager.RequestDataFrame | src/client_manager.cpp:576-589 | the same for frames |
| ClientManagers.ClientManager.CloseRequest | src/client_manager.cpp:627-664 | all recorded calls cancelled and forgotten, the request off the list, others untouched; closing again changes nothing |
| ClientManagers.ClientManager.DeleteCallData | src/client_manager.cpp:273-279 | the deleted call is forgotten by its request and by no other |
| ClientManagers.ClientManager.ClearConnected | src/client_manager.cpp:211-216 | a lost channel empties the connected devices and nothing else |
| ChannelMonitors.ChannelMonitor.Run | src/client_manager.cpp:146-243 | the loop over any polled states, and the stop after it, are the fold of one poll |
| ChannelMonitors.EveryPoll | src/client_manager.cpp:158-227 | after any number of polls: a stream is open if and only if the last state was READY, all others are cancelled, one was opened per stretch of READY and with it one for each base-station storage and wireless manager without a stream, devices were cleared once per cancellation, the callback saw the states without consecutive repeats |
| ChannelMonitors.LackingHolders | src/client_manager.cpp:170-201 | the reopening loops find exactly the holders without a stream |
| ChannelMonitors.NoConsecutiveRepeats | src/client_manager.cpp:158-227 | what "without consecutive repeats" means |
| ChannelMonitors.NothingLeftOpen | src/client_manager.cpp:235-242 | after the stop every opened stream has been cancelled |
| ChannelMonitors.Restarted | src/client_manager.cpp:158-227 | after a restart a stream is open if and only if the last state is READY and the channel was or has been in another state |
| ChannelMonitors.RestartInReadyOpensNothing | src/client_manager.cpp:470-478 | restarted while the channel stays READY the monitor opens nothing |
| ClientContexts.SameTag | src/client_context.cpp:249-250 | two requests get the same tag if and only if a multiple of 2^32 requests lies between them |
| ClientContexts.RunTagged | src/client_context_impl.h:86 | the n-th request of any kind gets tag n mod 2^32, counted from one |
| ClientContexts.ZeroIsLast | src/client_context_impl.h:86 | tag 0 comes only at the wrap |
| ClientContexts.TagsAreDistinct | src/client_context.cpp:245-350 | up to 2^32 requests, made one at a time, never share a tag |
| ClientContexts.ClosedDataTag | src/client_context.cpp:263-317 | a closed data tag finds no request in any later run before the wrap |
| ClientContexts.ClosedStationTag | src/client_context.cpp:336-386 | nor does a closed base-station tag |
| ClientContexts.KindsOfTagsApart | src/client_context.cpp:245-334 | no tag is of both kinds |
| ClientContexts.OpenTags | src/client_context.cpp:245-350 | told from the calls alone: a tag is open for base-station data if and only if such a request was given it and no later call closed it; a tag stands for a request if and only if that was the last one it was given for and no later call closed it |
| ClientContexts.RunOneStation | src/client_context.cpp:319-350 | at most one base-station storage is ever created, and streams only while it is listed |
| ClientContexts.CloseLoopReturns | src/client_manager.cpp:613-623 | the loop returns if and only if the list is empty or starts with the storage |
| ClientContexts.ContextCloseReturns | src/client_context.cpp:336-350 | in every run of a context it does |
| ClientContexts.OrphanedIff | src/client_context.cpp:346-349 | the shared storage is unlisted if and only if some close, after the first base-station request, left no base-station tag open |
| ClientContexts.OrphanedForGood | src/client_context.cpp:326-329 | and then stays unlisted and without a stream in every later run |
| ClientContexts.StreamingIff | src/client_manager.cpp:170-201 | the shared storage has a stream if and only if it is listed and was given one, by the first request or when the channel became ready, that has not ended since |
| ClientContexts.ReuseAfterClose | src/client_context.cpp:326-349 | request, close of tag 1, request: tag 2 is open for a storage that is never fed |
| ClientContexts.BaseStationList.RequestBaseStationData | src/client_manager.cpp:594-606 | a new listed storage with a stream |
| ClientContexts.BaseStationList.CloseBaseStationDataRequest | src/client_manager.cpp:608-625 | the first turns of the loop as written: done exactly if the loop returns by then, having taken the storage out and stopped its stream |
| ClientContexts.ClientContext.RequestDeviceData | src/client_context.cpp:245-252 | next tag, bound to the new request; tags and requests stay in one-to-one correspondence |
| ClientContexts.ClientContext.RequestDataFrame | src/client_context.cpp:254-261 | the same for frames |
| ClientContexts.ClientContext.CloseRequest | src/client_context.cpp:263-272 | closes the request of an open tag and forgets the tag; nothing for other tags |
| ClientContexts.ClientContext.GetLatestData | src/client_context.cpp:286-295 | no data without an open tag, else the request's answer |
| ClientContexts.ClientContext.RequestBaseStationData | src/client_context.cpp:319-334 | the storage is created on the first request only |
| ClientContexts.ClientContext.BaseStationFor | src/client_context.cpp:352-362 | the shared storage for an open tag, none otherwise |
| ClientContexts.ClientContext.CloseBaseStationDataRequest | src/client_context.cpp:336-350 | as the step on values; the loop returns in its first turn |
| PacketMemory.CopyPacketHolds | src/sdk_types.cpp:57-105 | a copy owns fresh arrays with equal contents, frees its temporary structs, and touches nothing else |
| PacketMemory.DestroyMembersHolds | src/sdk_types.cpp:218-240 | exactly the packet's arrays are freed, each live before |
| PacketMemory.DestroyedHolds | src/sdk_types.cpp:388-398 | a response frees exactly what it owns |
| PacketMemory.PushSound | src/device_data_storage.cpp:71-81 | a push frees the slot's old arrays and owns the new ones; every live block keeps exactly one owner |
| PacketMemory.PushView | src/device_data_storage.cpp:71-81 | it changes what is read from that slot only, in particular no response |
| PacketMemory.QuerySound | src/device_data_storage.cpp:137-209 | a query adds exactly the blocks of its response |
| PacketMemory.QueryView | src/device_data_storage.cpp:137-209 | which reads as the slots did |
| PacketMemory.DestroyStorageSound | src/device_data_storage.cpp:51-61 | the destructor frees both buffers and all slots, and leaves the responses |
| PacketMemory.RunSound | src/device_data_storage.cpp:51-105 | over every run each live block has exactly one owner among slots and responses, nothing is freed twice, and clients read what they would if packets were values |
| PacketMemory.ReadsByEvents | src/device_data_storage.cpp:51-105 | told from the events alone: each slot reads as the last message pushed into it, each remaining response as the last messages pushed into its slots when it was made |
| PacketMemory.NothingLeaks | src/device_data_storage.cpp:51-61 | once the store and all responses are destroyed nothing is live |
| PacketMemory.Allocator.CopyArray | src/sdk_types.cpp:78-82 | the copy loop fills a new array with the source's elements |
| PacketMemory.Allocator.CopyTrackingDeviceData | src/sdk_types.cpp:68-107 | a new struct and four new arrays with the source's contents |
| PacketMemory.Allocator.CopyDevicePacket | src/sdk_types.cpp:57-64 | the deep copy, moved into its destination |
| PacketMemory.Allocator.DestroyTrackingDeviceDataMembers | src/sdk_types.cpp:218-235 | the four arrays are deleted |
| PacketMemory.Allocator.DestroyDataResponse | src/sdk_types.cpp:388-398 | every packet's arrays, the packet array and the response are deleted |
| PacketMemory.StoreMemory.constructor | src/device_data_storage.cpp:27-49 | two packet arrays with null slots, owned once |
| PacketMemory.StoreMemory.PushData | src/device_data_storage.cpp:71-81 | does what the step on values says and keeps ownership |
| PacketMemory.StoreMemory.Answer | src/device_data_storage.cpp:137-209 | the same for a query |
| PacketMemory.StoreMemory.DestroyDataResponse | src/sdk_types.cpp:388-398 | the same for the destruction of a response |
| PacketMemory.StoreMemory.Destroy | src/device_data_storage.cpp:51-61 | the same for the destructor |

## Left out

- gRPC channels, stubs, blocking calls, threads, sleeping and the protobuf conversions: operations and completions are
  events; the allocator and the order in which hash maps are walked are parameters of the environment.
- The other five one-way streams: they have the same shape as the tracking-device stream.
- Loggers, data logging, the outer forwarding layer of ClientContext, the wireless request builders and the list of
  wireless managers, hardware states, tracking groups, `SystemTimeToString`: thin wrappers or plain copying.
- User callbacks of DataManager and ClientManager other than the channel-state callback: they only observe.
- `Shutdown` as a whole: it depends on the queue being drained and threads being joined.
- `GetDeviceStorageList`: it lists the storage map that `State` already shows.
- DeviceDataStorages.DeviceDataStorage.PushData: requires fewer than 2^32 accepted packets and a buffer size between 1
  and 2^30, since include/device_data_storage.h:58-59 says that wrap-around is not handled and the counts are 32-bit.
- BaseStationDataStorages.BaseStationDataStorage.PushData: the same two bounds.
- StorageConcurrency.ConcurrentSnapshot: counts are unbounded; at a buffer size of exactly 2^30 a reader that samples
  between count and switch adds them up to 2^31, which overflows an int32_t. The switch under the exclusive lock is
  one step, and a reader that meets a slot being rewritten may decide anything; memory ordering of the atomics is
  taken as sequentially consistent.
- RequestTracking.RunTracked: `RemoveStream` is find and erase here; StreamRemoval.dfy has the loop as written.
  `device_event_stream_ptr_` is not covered, since nothing clears it when the server ends that stream.
- RequestTracking.CompletionTracked: find and erase, as in RunTracked.
- RequestHistory.FailedCallIsGone: the same.
- ClientManagers.ClientManager.DeleteCallData: the same.
- DataManagers.DataManager.RemoveStream: the same; `RemoveStreamAsWritten` is beside it.
- RequestTracking.NoCallbackIntoClosedRequest: each call and each event is one step; CloseInterleaving.dfy says exactly
  what an event inside a closing call changes.
- CloseInterleaving.ClosedKeepsCall: the request has been made before it is closed, one thread closes it, and the
  deletion of a call is one step that finds and erases its record. What becomes of the DataManager after the close is
  its owner's matter.
- StorageConcurrency.GapSpoilsEveryAnswer: a query that samples the write count in the gap and goes on after the reset
  is not characterised.
- ClientContexts.TagsAreDistinct: calls are one step each; TagInterleaving.dfy has the increments that overlap. The
  other results on tags are for calls one at a time.
- TagInterleaving.TagsDistinctIff: an increment is a read and a write; what else a data race may do is not modelled.
- RequestInterleaving.NoLostDevice: no closes, server-ended streams or channel loss, and devices are compared by
  identity, not key.
- FrameInterleaving.FrameIffNotOvertaken: the same; a scan of the connected devices is one step, since it holds their
  lock.
- Reconciliation.InStepIffKeysApart: atomic steps, no channel loss, and no server-ended streams while a request is
  open.
- ClientManagers.ClientManager.UpdateDeviceDataStream: the request passed in is not null, and its stream type is the
  caller's to check.
- ClientContexts.RunOneStation: storages are identities; what they hold is BaseStationDataStorage.dfy. The stream
  pointer inside the storage is present exactly while its stream delivers.
- ChannelMonitors.ChannelMonitor.Run: which storages and wireless managers are listed, and which of them have a
  stream, is given anew for every poll.
- BaseStationDataStorages.BaseStationDataStorage.GetDataSinceIndex: whether a huge array that it asks for is granted.
- PacketMemory.RunSound: a push may go to any slot and a query may copy any slots; which ones is
  DeviceDataStorage.dfy. Array counts are the lengths of the arrays. Responses are destroyed once, as their owner
  must.
