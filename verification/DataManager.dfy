/** One open request (src/data_manager.cpp): its device filter, its storages by key, and the call data it has
    recorded. */
module DataManagers {
  import opened SdkTypes
  import opened SdkUtils
  import opened PacketLog
  import opened RequestTracking
  import D = Demultiplexing
  import opened DeviceDataStorages

  const DEFAULT_BUFFER_SIZE: uint32 := 500

  /** The call data that exist, by address. Where the allocator puts a new one is up to the environment. */
  class CallTable {
    const env: Environment
    var calls: map<Address, CallInfo>
    var tick: nat

    ghost function Heap(): CallHeap
      reads this
    {
      CallHeap(calls, tick)
    }

    constructor (env: Environment)
      ensures this.env == env && Heap() == CallHeap(map[], 0)
    {
      this.env := env;
      calls, tick := map[], 0;
    }

    /** new call data with a handler and an association. */
    method Open(manager: nat, kind: CallKind) returns (at: Address)
      modifies this
      ensures at == NewAddress(env, old(Heap()))
      ensures Heap() == Opened(env, old(Heap()), manager, kind)
    {
      at := env.alloc(tick, calls.Keys);
      calls := calls[at := CallInfo(true, manager, kind)];
      tick := tick + 1;
    }

    method CancelCall(at: Address)
      requires at in calls
      modifies this`calls
      ensures Heap() == Cancelled(old(Heap()), at)
    {
      calls := calls[at := calls[at].(listenerActive := false)];
    }

    /** delete. */
    method Delete(at: Address)
      modifies this`calls
      ensures Heap() == old(Heap()).(calls := old(calls) - {at})
    {
      calls := calls - {at};
    }
  }

  /** The devices and the logs behind a storage map. */
  ghost function DevicesOf(storages: map<Key, DeviceDataStorage>): map<Key, DeviceId> {
    map k | k in storages :: storages[k].device
  }

  ghost function StoragesOf(storages: map<Key, DeviceDataStorage>): map<Key, D.Storage>
    reads storages.Values
  {
    map k | k in storages :: D.Storage(storages[k].device, storages[k].log)
  }

  /** Every storage is still the same object, with what it has received, except under the given keys. */
  ghost predicate KeepsStorages(before: map<Key, DeviceDataStorage>, after: map<Key, DeviceDataStorage>, gone: set<Key>)
  {
    forall k :: k in before && k !in gone ==> k in after && after[k] == before[k]
  }

  lemma KeepsOn(a: map<Key, DeviceDataStorage>, b: map<Key, DeviceDataStorage>, c: map<Key, DeviceDataStorage>)
    requires KeepsStorages(a, b, {}) && KeepsStorages(b, c, {})
    ensures KeepsStorages(a, c, {})
  {}

  /** The key whose storage a device event may take away. */
  function Gone(device: DeviceId, isConnected: bool): set<Key> {
    if isConnected then {} else {Hash(device)}
  }

  lemma AfterInsert(storages: map<Key, DeviceDataStorage>, k: Key, storage: DeviceDataStorage)
    ensures DevicesOf(storages[k := storage]) == DevicesOf(storages)[k := storage.device]
  {}

  lemma AfterRemove(storages: map<Key, DeviceDataStorage>, k: Key)
    ensures DevicesOf(storages - {k}) == DevicesOf(storages) - {k}
    ensures StoragesOf(storages - {k}) == StoragesOf(storages) - {k}
  {}

  lemma NothingToRemove(storages: map<Key, DeviceDataStorage>, k: Key)
    requires k !in storages
    ensures DevicesOf(storages) - {k} == DevicesOf(storages)
    ensures StoragesOf(storages) - {k} == StoragesOf(storages)
  {}

  lemma OneTookIt(before: map<Key, D.Storage>, storages: map<Key, DeviceDataStorage>, hash: Key,
                  packet: TrackingDeviceData)
    requires before.Keys == storages.Keys && hash in storages
    requires D.Storage(storages[hash].device, storages[hash].log) == D.Pushed(before[hash], packet)
    requires forall k :: k in storages && k != hash ==> before[k] == D.Storage(storages[k].device, storages[k].log)
    ensures StoragesOf(storages) == before[hash := D.Pushed(before[hash], packet)]
  {}

  lemma NothingCancelled(heap: CallHeap)
    ensures CancelledAll(heap, {}) == heap
  {
    assert CancelledAll(heap, {}).calls == heap.calls;
  }

  lemma CancelOneMore(heap: CallHeap, done: set<Address>, at: Address)
    requires at in heap.calls
    ensures Cancelled(CancelledAll(heap, done), at) == CancelledAll(heap, done + {at})
  {
    assert Cancelled(CancelledAll(heap, done), at).calls == CancelledAll(heap, done + {at}).calls;
  }

  /** No call data is recorded under two keys. */
  ghost predicate EachOnce(streams: map<Key, Address>) {
    forall j, k :: j in streams && k in streams && streams[j] == streams[k] ==> j == k
  }

  ghost predicate RoomIn(storages: map<Key, D.Storage>, n: nat) {
    forall k :: k in storages ==> |storages[k].log| + n < UINT32_MODULUS
  }

  lemma DeliveredGrowsByOne(storages: map<Key, D.Storage>, packet: TrackingDeviceData)
    ensures forall n: nat :: RoomIn(storages, n + 1) ==> RoomIn(D.Delivered(storages, packet), n)
  {}

  class DataManager {
    const id: nat
    const request: DataRequest
    const streamType: DataStreamType

    var deviceDataMap: map<Key, DeviceDataStorage>
    var deviceDataStreams: map<Key, Address>
    var dataframeStream: Option<Address>

    /** Which storage each packet array belongs to. */
    ghost var owner: map<array<DevicePacket>, Key>

    /** The storage under key k is consistent and has its two arrays to itself. */
    static ghost predicate Owned(storage: DeviceDataStorage, k: Key, owner: map<array<DevicePacket>, Key>)
      reads storage, storage.readBuffer, storage.writeBuffer
    {
      && storage.readBuffer in owner && owner[storage.readBuffer] == k
      && storage.writeBuffer in owner && owner[storage.writeBuffer] == k
      && storage.Valid()
    }

    ghost predicate Valid()
      reads this`deviceDataMap, this`owner, deviceDataMap.Values, owner.Keys
    {
      forall k :: k in deviceDataMap ==>
        && deviceDataMap[k].readBuffer in owner && deviceDataMap[k].writeBuffer in owner
        && Owned(deviceDataMap[k], k, owner)
    }

    /** The request is consistent and its storages have the size that they are opened with by default. */
    ghost predicate Regular()
      reads this`deviceDataMap, this`owner, deviceDataMap.Values, owner.Keys
    {
      Valid() && forall k :: k in deviceDataMap ==> deviceDataMap[k].bufferSize == DEFAULT_BUFFER_SIZE
    }

    ghost function State(): Manager
      reads this
    {
      Manager(id, request, streamType, DevicesOf(deviceDataMap), deviceDataStreams, dataframeStream)
    }

    ghost function Storages(): map<Key, D.Storage>
      reads this`deviceDataMap, deviceDataMap.Values
    {
      StoragesOf(deviceDataMap)
    }

    /** No storage has given out so many indices that n more would wrap. */
    ghost predicate Room(n: nat)
      reads this`deviceDataMap, deviceDataMap.Values
    {
      RoomIn(Storages(), n)
    }

    constructor (id: nat, request: DataRequest, streamType: DataStreamType)
      ensures Valid() && State() == Created(id, request, streamType)
      ensures deviceDataMap == map[] && owner == map[]
    {
      this.id, this.request, this.streamType := id, request, streamType;
      deviceDataMap, deviceDataStreams, dataframeStream := map[], map[], None;
      owner := map[];
    }

    method IsDeviceDataRequested(device: DeviceId) returns (requested: bool)
      ensures requested == Requested(request, device)
    {
      if |request| == 0 {
        return true;
      }
      for i := 0 to |request|
        invariant device !in request[..i]
      {
        if device == request[i] {
          return true;
        }
      }
      return false;
    }

    // --- storages ---

    predicate IsStorageAvailable(key: Key)
      reads this`deviceDataMap
    {
      key in deviceDataMap
    }

    method AddDeviceStorage(device: DeviceId, bufferSize: uint32 := DEFAULT_BUFFER_SIZE)
      requires 0 < bufferSize <= MAX_BUFFER_SIZE
      modifies this`deviceDataMap, this`owner
      ensures old(Valid()) ==> Valid()
      ensures old(Regular()) && bufferSize == DEFAULT_BUFFER_SIZE ==> Regular()
      ensures State() == AddStorage(old(State()), device)
      ensures Hash(device) in old(deviceDataMap) ==> deviceDataMap == old(deviceDataMap)
      ensures Hash(device) !in old(deviceDataMap) ==>
        && Hash(device) in deviceDataMap
        && deviceDataMap == old(deviceDataMap)[Hash(device) := deviceDataMap[Hash(device)]]
        && fresh(deviceDataMap[Hash(device)])
        && deviceDataMap[Hash(device)].device == device && deviceDataMap[Hash(device)].log == []
        && deviceDataMap[Hash(device)].bufferSize == bufferSize
    {
      var hash := Hash(device);
      if hash !in deviceDataMap {
        var storage := new DeviceDataStorage(device, bufferSize);
        AfterInsert(deviceDataMap, hash, storage);
        Insert(hash, storage);
      }
    }

    method Insert(hash: Key, storage: DeviceDataStorage)
      requires hash !in deviceDataMap && storage.Valid()
      requires storage.readBuffer !in owner && storage.writeBuffer !in owner
      modifies this`deviceDataMap, this`owner
      ensures old(Valid()) ==> Valid()
      ensures deviceDataMap == old(deviceDataMap)[hash := storage]
    {
      owner := owner[storage.readBuffer := hash][storage.writeBuffer := hash];
      deviceDataMap := deviceDataMap[hash := storage];
    }

    method Erase(key: Key)
      modifies this`deviceDataMap
      ensures old(Valid()) ==> Valid()
      ensures deviceDataMap == old(deviceDataMap) - {key}
    {
      deviceDataMap := deviceDataMap - {key};
    }

    method RemoveDeviceStorage(key: Key)
      modifies this`deviceDataMap
      ensures old(Valid()) ==> Valid()
      ensures old(Regular()) ==> Regular()
      ensures State() == old(State()).(storages := old(State()).storages - {key})
      ensures Storages() == old(Storages()) - {key}
      ensures KeepsStorages(old(deviceDataMap), deviceDataMap, {key})
    {
      if key in deviceDataMap {
        AfterRemove(deviceDataMap, key);
        Erase(key);
      } else {
        NothingToRemove(deviceDataMap, key);
      }
    }

    /** Hands a message to the storage under one key; every other storage stays as it is. */
    method PushInto(hash: Key, packet: TrackingDeviceData)
      requires Valid() && hash in deviceDataMap && |deviceDataMap[hash].log| + 1 < UINT32_MODULUS
      modifies deviceDataMap[hash], deviceDataMap[hash].readBuffer, deviceDataMap[hash].writeBuffer
      ensures Valid()
      ensures D.Storage(deviceDataMap[hash].device, deviceDataMap[hash].log) ==
              D.Pushed(D.Storage(deviceDataMap[hash].device, old(deviceDataMap[hash].log)), packet)
      ensures forall k :: k in deviceDataMap && k != hash ==> deviceDataMap[k].log == old(deviceDataMap[k].log)
    {
      var storage := deviceDataMap[hash];
      var _ := storage.PushData(packet);
      forall k | k in deviceDataMap && k != hash
        ensures Owned(deviceDataMap[k], k, owner) && deviceDataMap[k].log == old(deviceDataMap[k].log)
      {
        assert old(Owned(deviceDataMap[k], k, owner));
      }
    }

    method UpdateDeviceData(packet: TrackingDeviceData)
      requires Valid() && Room(1)
      modifies deviceDataMap.Values, owner.Keys
      ensures Valid() && (old(Regular()) ==> Regular())
      ensures Storages() == D.Delivered(old(Storages()), packet)
    {
      var hash := Hash(packet.device);
      if hash in deviceDataMap {
        ghost var before := Storages();
        assert forall k :: k in deviceDataMap ==> before[k].log == deviceDataMap[k].log;
        PushInto(hash, packet);
        OneTookIt(before, deviceDataMap, hash, packet);
      }
    }

    /** The packets of a frame, one after the other. */
    method UpdateDataFrame(packets: seq<TrackingDeviceData>)
      requires Valid() && Room(|packets|)
      modifies deviceDataMap.Values, owner.Keys
      ensures Valid() && (old(Regular()) ==> Regular())
      ensures Storages() == D.DeliveredAll(old(Storages()), packets)
    {
      for i := 0 to |packets|
        invariant Valid() && Room(|packets| - i)
        invariant Storages() == D.DeliveredAll(old(Storages()), packets[..i])
      {
        DeliveredGrowsByOne(Storages(), packets[i]);
        UpdateDeviceData(packets[i]);
        assert packets[..i + 1][..i] == packets[..i];
      }
      assert packets[..|packets|] == packets;
    }

    // --- queries ---

    method GetLatestData(device: DeviceId) returns (result: DataResponse<TrackingDeviceData>)
      requires Valid()
      ensures Hash(device) !in deviceDataMap ==> result == NoPackets()
      ensures Hash(device) in deviceDataMap ==> var storage := deviceDataMap[Hash(device)];
                result == Latest(storage.log, Retained(|storage.log|, storage.bufferSize), 1)
    {
      result := NoPackets();
      var hash := Hash(device);
      if hash in deviceDataMap {
        assert Owned(deviceDataMap[hash], hash, owner);
        result := deviceDataMap[hash].GetLatestData();
      }
    }

    method GetLatestDataCount(device: DeviceId, count: int32) returns (result: DataResponse<TrackingDeviceData>)
      requires Valid()
      ensures Hash(device) !in deviceDataMap ==> result == NoPackets()
      ensures Hash(device) in deviceDataMap ==> var storage := deviceDataMap[Hash(device)];
                && result == Latest(storage.log, Retained(|storage.log|, storage.bufferSize), ToUint32(count))
                && forall i :: 0 <= i < |result.packets| ==> result.packets[i].data.device == storage.device
      ensures Hash(device) in deviceDataMap ==> var storage := deviceDataMap[Hash(device)];
                0 < count <= |storage.log| && count <= storage.bufferSize ==>
                  Gives(result, Success, storage.log, |storage.log| - count, count)
      ensures Regular() && Hash(device) in deviceDataMap ==> var storage := deviceDataMap[Hash(device)];
                0 < count <= |storage.log| && count <= 500 ==>
                  Gives(result, Success, storage.log, |storage.log| - count, count)
    {
      result := NoPackets();
      var hash := Hash(device);
      if hash in deviceDataMap {
        assert Owned(deviceDataMap[hash], hash, owner);
        var storage := deviceDataMap[hash];
        result := storage.GetLatestDataCount(ToUint32(count));
        RetainedBounds(|storage.log|, storage.bufferSize);
      }
    }

    method GetDataSinceIndex(device: DeviceId, startIdx: int32) returns (result: DataResponse<TrackingDeviceData>)
      requires Valid()
      ensures Hash(device) !in deviceDataMap ==> result == NoPackets()
      ensures Hash(device) in deviceDataMap ==> var storage := deviceDataMap[Hash(device)];
                && result == Since(storage.log, Retained(|storage.log|, storage.bufferSize), ToUint32(startIdx))
                && forall i :: 0 <= i < |result.packets| ==> result.packets[i].data.device == storage.device
    {
      result := NoPackets();
      var hash := Hash(device);
      if hash in deviceDataMap {
        assert Owned(deviceDataMap[hash], hash, owner);
        result := deviceDataMap[hash].GetDataSinceIndex(ToUint32(startIdx));
      }
    }

    // --- recorded call data ---

    method AddDataStream(device: DeviceId, callData: Address) returns (added: bool)
      modifies this`deviceDataStreams
      ensures added == (Hash(device) !in old(deviceDataStreams))
      ensures deviceDataStreams ==
              if added then old(deviceDataStreams)[Hash(device) := callData] else old(deviceDataStreams)
    {
      var hash := Hash(device);
      if hash !in deviceDataStreams {
        deviceDataStreams := deviceDataStreams[hash := callData];
        return true;
      }
      return false;
    }

    method RemoveDataStream(device: DeviceId) returns (removed: bool)
      modifies this`deviceDataStreams
      ensures removed == (Hash(device) in old(deviceDataStreams))
      ensures deviceDataStreams == old(deviceDataStreams) - {Hash(device)}
    {
      var hash := Hash(device);
      if hash in deviceDataStreams {
        deviceDataStreams := deviceDataStreams - {hash};
        return true;
      }
      assert deviceDataStreams - {hash} == deviceDataStreams;
      return false;
    }

    predicate DataStreamExists(device: DeviceId)
      reads this`deviceDataStreams
    {
      Hash(device) in deviceDataStreams
    }

    method CancelDataStream(device: DeviceId, table: CallTable) returns (cancelled: bool)
      requires Hash(device) in deviceDataStreams ==> deviceDataStreams[Hash(device)] in table.calls
      modifies table`calls
      ensures cancelled == (Hash(device) in deviceDataStreams)
      ensures table.Heap() ==
              if cancelled then Cancelled(old(table.Heap()), deviceDataStreams[Hash(device)]) else old(table.Heap())
    {
      var hash := Hash(device);
      if hash in deviceDataStreams {
        table.CancelCall(deviceDataStreams[hash]);
        return true;
      }
      return false;
    }

    /** Walks the stream map in any order. */
    method CancelAllDataStreams(table: CallTable)
      requires forall k :: k in deviceDataStreams ==> deviceDataStreams[k] in table.calls
      modifies table`calls
      ensures table.Heap() == CancelledAll(old(table.Heap()), deviceDataStreams.Values)
    {
      var keys := deviceDataStreams.Keys;
      ghost var done: set<Address> := {};
      NothingCancelled(table.Heap());
      while keys != {}
        invariant keys <= deviceDataStreams.Keys
        invariant done == set k | k in deviceDataStreams && k !in keys :: deviceDataStreams[k]
        invariant table.calls.Keys == old(table.calls.Keys)
        invariant table.Heap() == CancelledAll(old(table.Heap()), done)
        decreases |keys|
      {
        var k :| k in keys;
        CancelOneMore(old(table.Heap()), done, deviceDataStreams[k]);
        table.CancelCall(deviceDataStreams[k]);
        keys := keys - {k};
        done := done + {deviceDataStreams[k]};
      }
      assert done == deviceDataStreams.Values;
    }

    method ClearDataStreams()
      modifies this`deviceDataStreams
      ensures deviceDataStreams == map[]
    {
      deviceDataStreams := map[];
    }

    method CancelDataFrameStream(table: CallTable) returns (cancelled: bool)
      requires dataframeStream.Some? ==> dataframeStream.value in table.calls
      modifies table`calls
      ensures cancelled == dataframeStream.Some?
      ensures table.Heap() ==
              if cancelled then Cancelled(old(table.Heap()), dataframeStream.value) else old(table.Heap())
    {
      if dataframeStream.Some? {
        table.CancelCall(dataframeStream.value);
        return true;
      }
      return false;
    }

    method RemoveDataFrameStream()
      modifies this`dataframeStream
      ensures dataframeStream == None
    {
      dataframeStream := None;
    }

    method SetDataFrameStream(callData: Address)
      modifies this`dataframeStream
      ensures dataframeStream == Some(callData)
    {
      dataframeStream := Some(callData);
    }

    /** Takes a recorded pointer out, wherever it is. */
    method RemoveStream(callData: Address) returns (removed: bool)
      requires EachOnce(deviceDataStreams)
      modifies this`deviceDataStreams, this`dataframeStream
      ensures State() == ForgetStream(old(State()), callData)
      ensures removed <==> callData in Recorded(old(State()))
    {
      if dataframeStream == Some(callData) {
        dataframeStream := None;
        return true;
      }
      removed := EraseStream(callData);
    }

    /** The first `turns` turns of RemoveStream as it is written, for a map that is walked in the given order. The
        iterator stays where it is unless its entry matches. done says whether the call has come back by then. */
    method RemoveStreamAsWritten(callData: Address, order: seq<Key>, turns: nat) returns (done: bool)
      requires forall k :: k in order <==> k in deviceDataStreams
      modifies this`deviceDataStreams, this`dataframeStream
      ensures old(dataframeStream) == Some(callData) ==> done && State() == old(State()).(frame := None)
      ensures old(dataframeStream) != Some(callData) ==>
                && dataframeStream == old(dataframeStream)
                && done == LoopAsWritten(order, old(deviceDataStreams), callData, turns).Some?
                && deviceDataStreams == if done then LoopAsWritten(order, old(deviceDataStreams), callData, turns).value
                                        else old(deviceDataStreams)
    {
      if dataframeStream == Some(callData) {
        dataframeStream := None;
        return true;
      }
      var it, turn := 0, 0;
      while it < |order| && turn < turns
        invariant it == 0 && turn <= turns
        invariant deviceDataStreams == old(deviceDataStreams) && dataframeStream == old(dataframeStream)
        invariant LoopAsWritten(order, deviceDataStreams, callData, turns) ==
                  LoopAsWritten(order, deviceDataStreams, callData, turns - turn)
      {
        if deviceDataStreams[order[it]] == callData {
          deviceDataStreams := deviceDataStreams - {order[it]};
          return true;
        }
        turn := turn + 1;
      }
      done := it == |order|;
    }

    /** The search through the stream map, with an iterator that moves past entries that do not match. */
    method EraseStream(callData: Address) returns (erased: bool)
      requires EachOnce(deviceDataStreams)
      modifies this`deviceDataStreams
      ensures deviceDataStreams ==
              map k | k in old(deviceDataStreams) && old(deviceDataStreams)[k] != callData :: old(deviceDataStreams)[k]
      ensures erased <==> callData in old(deviceDataStreams).Values
    {
      var keys := deviceDataStreams.Keys;
      while keys != {}
        invariant keys <= deviceDataStreams.Keys
        invariant forall k :: k in deviceDataStreams && k !in keys ==> deviceDataStreams[k] != callData
        decreases |keys|
      {
        var k :| k in keys;
        if deviceDataStreams[k] == callData {
          deviceDataStreams := deviceDataStreams - {k};
          return true;
        }
        keys := keys - {k};
      }
      return false;
    }
  }

  // ---------------------------------------------------------------------------------------------
  // The loop of RemoveStream as it is written
  // ---------------------------------------------------------------------------------------------

  /** The loop's iterator never advances: an iteration looks at the first entry in iteration order, and either erases it
      and returns, or comes back to it. What is left after `rounds` iterations, or None while the loop is still
      running. */
  function LoopAsWritten(order: seq<Key>, streams: map<Key, Address>, callData: Address,
                         rounds: nat): Option<map<Key, Address>>
    requires forall k :: k in order ==> k in streams
  {
    if order == [] then Some(streams)
    else if rounds == 0 then None
    else if streams[order[0]] == callData then Some(streams - {order[0]})
    else LoopAsWritten(order, streams, callData, rounds - 1)
  }

  /** It returns exactly when the map is empty or its first entry matches, and then leaves what find-and-erase
      leaves. */
  lemma LoopAsWrittenReturns(order: seq<Key>, streams: map<Key, Address>, callData: Address)
    requires forall k :: k in order <==> k in streams
    requires EachOnce(streams)
    ensures (exists rounds :: LoopAsWritten(order, streams, callData, rounds).Some?) <==>
            order == [] || streams[order[0]] == callData
    ensures forall rounds :: LoopAsWritten(order, streams, callData, rounds).Some? ==>
              LoopAsWritten(order, streams, callData, rounds).value ==
              map k | k in streams && streams[k] != callData :: streams[k]
  {
    if order == [] || streams[order[0]] == callData {
      assert LoopAsWritten(order, streams, callData, 1).Some?;
    }
    forall rounds
      ensures LoopAsWritten(order, streams, callData, rounds).Some? ==> order == [] || streams[order[0]] == callData
      ensures LoopAsWritten(order, streams, callData, rounds).Some? ==>
                LoopAsWritten(order, streams, callData, rounds).value ==
                map k | k in streams && streams[k] != callData :: streams[k]
    {
      LoopAfter(order, streams, callData, rounds);
    }
  }

  lemma {:induction false} LoopAfter(order: seq<Key>, streams: map<Key, Address>, callData: Address, rounds: nat)
    requires forall k :: k in order <==> k in streams
    requires EachOnce(streams)
    ensures LoopAsWritten(order, streams, callData, rounds).Some? ==> order == [] || streams[order[0]] == callData
    ensures LoopAsWritten(order, streams, callData, rounds).Some? ==>
              LoopAsWritten(order, streams, callData, rounds).value ==
              map k | k in streams && streams[k] != callData :: streams[k]
    decreases rounds
  {
    if order == [] {
      assert forall k :: k !in streams;
    } else if streams[order[0]] == callData {
      assert (streams - {order[0]}) == map k | k in streams && streams[k] != callData :: streams[k];
    } else if rounds > 0 {
      LoopAfter(order, streams, callData, rounds - 1);
    }
  }
}
