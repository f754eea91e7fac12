/** The client's side of the service (src/client_manager.cpp): connected devices, the list of open requests, and the
    calls opened for them. Every public step does to the whole state what RequestTracking.Step says. */
module ClientManagers {
  import opened SdkTypes
  import opened SdkUtils
  import opened RequestTracking
  import opened DataManagers
  import opened DeviceDataStorages

  /** The states of the requests, in list order. */
  ghost function States(list: seq<DataManager>): (states: seq<Manager>)
    reads list
    ensures |states| == |list|
    ensures forall i :: 0 <= i < |list| ==> states[i] == list[i].State()
  {
    if list == [] then [] else States(list[..|list| - 1]) + [list[|list| - 1].State()]
  }

  /** The storage maps of the requests, in list order. */
  ghost function Maps(list: seq<DataManager>): (maps: seq<map<Key, DeviceDataStorage>>)
    reads list
    ensures |maps| == |list|
    ensures forall i :: 0 <= i < |list| ==> maps[i] == list[i].deviceDataMap
  {
    if list == [] then [] else Maps(list[..|list| - 1]) + [list[|list| - 1].deviceDataMap]
  }

  /** The requested devices among those under the given keys. */
  function WantedAmong(request: DataRequest, connected: map<Key, DeviceId>, keys: set<Key>): map<Key, DeviceId> {
    map k | k in connected && k in keys && Requested(request, connected[k]) :: connected[k]
  }

  function WithStorages(m: Manager, storages: map<Key, DeviceId>): Manager {
    m.(storages := storages + m.storages)
  }

  /** What the scan has done after the devices under `seen`. */
  ghost predicate Collected(before: Manager, connected: map<Key, DeviceId>, seen: set<Key>, m: Manager,
                            devices: set<DeviceId>)
  {
    && devices == WantedAmong(before.request, connected, seen).Values
    && m == WithStorages(before, WantedAmong(before.request, connected, seen))
  }

  lemma NothingSeen(m: Manager, connected: map<Key, DeviceId>)
    ensures WantedAmong(m.request, connected, {}) == map[]
    ensures WithStorages(m, WantedAmong(m.request, connected, {})) == m
  {
    assert (map[] + m.storages) == m.storages;
  }

  lemma OneKeyLess(all: set<Key>, keys: set<Key>, k: Key)
    requires k in keys && keys <= all
    ensures all - (keys - {k}) == all - keys + {k}
  {}

  lemma AllSeen(request: DataRequest, connected: map<Key, DeviceId>, seen: set<Key>)
    requires seen == connected.Keys
    ensures WantedAmong(request, connected, seen) == Wanted(request, connected)
  {}

  lemma OneMoreValue(values: map<Key, DeviceId>, k: Key, device: DeviceId)
    requires k !in values
    ensures values[k := device].Values == values.Values + {device}
  {
    var after := values[k := device];
    assert after[k] in after.Values;
    assert forall j :: j in values ==> after[j] == values[j] && after[j] in after.Values;
  }

  lemma OneMoreStorage(m: Manager, wanted: map<Key, DeviceId>, device: DeviceId)
    requires Hash(device) !in wanted
    ensures WithStorages(m, wanted[Hash(device) := device]) == AddStorage(WithStorages(m, wanted), device)
  {
    assert WithStorages(m, wanted[Hash(device) := device]).storages ==
           AddStorage(WithStorages(m, wanted), device).storages;
  }

  lemma OneMoreSeen(m: Manager, connected: map<Key, DeviceId>, seen: set<Key>, k: Key)
    requires WellKeyed(connected) && k in connected && k !in seen
    ensures var before := WantedAmong(m.request, connected, seen);
            var after := WantedAmong(m.request, connected, seen + {k});
            if Requested(m.request, connected[k]) then
              && after.Values == before.Values + {connected[k]}
              && WithStorages(m, after) == AddStorage(WithStorages(m, before), connected[k])
            else after == before
  {
    var before := WantedAmong(m.request, connected, seen);
    if Requested(m.request, connected[k]) {
      assert WantedAmong(m.request, connected, seen + {k}) == before[k := connected[k]];
      OneMoreValue(before, k, connected[k]);
      OneMoreStorage(m, before, connected[k]);
    }
  }

  /** A request for device data records device streams only, a request for frames the frame stream only. */
  ghost predicate KindsMatch(managers: seq<Manager>) {
    forall m :: m in managers ==> KindMatches(m)
  }

  predicate KindMatches(m: Manager) {
    match m.streamType
    case DeviceDataStream => m.frame.None?
    case DataFrameStream => m.streams == map[]
  }

  lemma {:induction false} UpdateAllKeepsKinds(env: Environment, managers: seq<Manager>, heap: CallHeap,
                                               connected: map<Key, DeviceId>, device: DeviceId, isConnected: bool)
    requires KindsMatch(managers)
    ensures KindsMatch(UpdateAll(env, managers, heap, connected, device, isConnected).0)
    decreases |managers|
  {
    if managers != [] {
      assert managers[|managers| - 1] in managers;
      UpdateAllKeepsKinds(env, managers[..|managers| - 1], heap, connected, device, isConnected);
    }
  }

  /** What closing the request at position i does, in a sound state. */
  lemma CloseStep(env: Environment, w: World, i: nat)
    requires Sound(w) && i < |w.managers|
    ensures Step(env, w, CloseRequest(w.managers[i].id)) ==
            w.(managers := RemoveAt(w.managers, i), heap := CancelledAll(w.heap, Recorded(w.managers[i])))
    ensures KindMatches(w.managers[i]) && Recorded(w.managers[i]) <= w.heap.calls.Keys
  {
    assert w.managers[i] in w.managers;
    assert Owns(w.managers[i], w.heap);
  }

  lemma WithoutOne(list: seq<DataManager>, i: nat)
    requires DistinctObjects(list) && i < |list|
    ensures DistinctObjects(list[..i] + list[i + 1..])
    ensures forall x :: x in list[..i] + list[i + 1..] <==> x in list && x != list[i]
  {
    var rest := list[..i] + list[i + 1..];
    assert forall j :: 0 <= j < |rest| ==> rest[j] == list[if j < i then j else j + 1];
  }

  /** The list of states without the request that stood at position i. */
  lemma RemovedStates(states: seq<Manager>, list: seq<DataManager>, i: nat)
    requires |states| == |list| && i < |list|
    requires forall j :: 0 <= j < |list| && j != i ==> list[j].State() == states[j]
    ensures States(list[..i] + list[i + 1..]) == RemoveAt(states, i)
  {}

  /** The world without the call, which the request at position i has forgotten. */
  function AfterDeletion(w: World, at: Address, i: nat): World {
    w.(heap := w.heap.(calls := w.heap.calls - {at}), managers := Forgotten(w.managers, i, at))
  }

  /** i is the position of the request, or the length of the list. */
  ghost predicate IsPosition(managers: seq<Manager>, id: nat, i: nat) {
    && i <= |managers| && (i < |managers| ==> managers[i].id == id)
    && forall j :: 0 <= j < i ==> managers[j].id != id
  }

  lemma DeletionStep(env: Environment, w: World, at: Address, i: nat)
    requires Sound(w) && at in w.heap.calls && IsPosition(w.managers, w.heap.calls[at].manager, i)
    ensures Step(env, w, Completion(at, false)) == AfterDeletion(w, at, i)
    ensures i < |w.managers| ==> EachOnce(w.managers[i].streams)
  {
    assert i == IndexOf(w.managers, w.heap.calls[at].manager);
  }

  ghost predicate DistinctObjects(list: seq<DataManager>) {
    forall i, j :: 0 <= i < j < |list| ==> list[i] != list[j]
  }

  ghost predicate Sound(w: World) {
    Tracked(w) && KindsMatch(w.managers) && WellKeyed(w.connected)
  }

  lemma {:induction false} OpenDevicesKeepsKind(env: Environment, m: Manager, heap: CallHeap,
                                                connected: map<Key, DeviceId>, order: seq<Key>)
    requires KindMatches(m) && m.streamType == DeviceDataStream
    ensures KindMatches(OpenDevices(env, m, heap, connected, order).0)
    ensures OpenDevices(env, m, heap, connected, order).0.streamType == DeviceDataStream
    decreases |order|
  {
    if order != [] {
      var (m1, heap1) :=
        if order[0] in connected then UpdateDevice(env, m, heap, connected[order[0]], true) else (m, heap);
      OpenDevicesKeepsKind(env, m1, heap1, connected, order[1..]);
    }
  }

  lemma StepKeepsKinds(env: Environment, w: World, e: Event)
    requires KindsMatch(w.managers)
    ensures KindsMatch(Step(env, w, e).managers)
  {
    match e
    case DeviceEvent(device, isConnected) =>
      UpdateAllKeepsKinds(env, w.managers, w.heap, ConnectedAfter(w.connected, device, isConnected), device,
                          isConnected);
    case RequestData(request, streamType) =>
      if streamType == DeviceDataStream {
        OpenDevicesKeepsKind(env, Created(w.nextManager, request, streamType), w.heap, w.connected,
                             env.order(w.heap.tick, w.connected.Keys));
      }
    case CloseRequest(id) =>
    case Completion(at, ok) =>
      if !ok && at in w.heap.calls {
        var i := IndexOf(w.managers, w.heap.calls[at].manager);
        if i < |w.managers| {
          assert w.managers[i] in w.managers;
        }
      }
    case ChannelLost =>
  }

  lemma RequestStep(env: Environment, w: World, request: DataRequest, streamType: DataStreamType)
    ensures var (m, heap) := OpenRequest(env, Created(w.nextManager, request, streamType), w.heap, w.connected);
            Step(env, w, RequestData(request, streamType)) ==
            World(w.connected, w.managers + [m], heap, w.nextManager + 1)
  {}

  lemma StepSound(env: Environment, w: World, e: Event)
    requires Legal(env) && Sound(w)
    ensures Sound(Step(env, w, e))
  {
    StepTracked(env, w, e);
    StepKeepsKinds(env, w, e);
  }

  /** What the update of a request needs: the calls that it might cancel exist. */
  predicate Live(m: Manager, heap: CallHeap, device: DeviceId) {
    && (Hash(device) in m.streams ==> m.streams[Hash(device)] in heap.calls)
    && (m.frame.Some? ==> m.frame.value in heap.calls)
  }

  /** One walk over the requests, turn by turn: the heap before and after each turn, and what it made of the request.
      Every turn finds the calls that it might cancel. */
  ghost predicate IsWalk(env: Environment, before: seq<Manager>, heaps: seq<CallHeap>, after: seq<Manager>,
                         connected: map<Key, DeviceId>, device: DeviceId, isConnected: bool)
  {
    && |after| == |before| && |heaps| == |before| + 1
    && forall i {:trigger after[i]} :: 0 <= i < |before| ==>
         IsTurn(env, before[i], heaps[i], after[i], heaps[i + 1], connected, device, isConnected)
  }

  ghost predicate IsTurn(env: Environment, m: Manager, heap: CallHeap, updated: Manager, heapAfter: CallHeap,
                         connected: map<Key, DeviceId>, device: DeviceId, isConnected: bool)
  {
    && Live(m, heap, device)
    && (updated, heapAfter) == UpdateManager(env, m, heap, connected, device, isConnected)
  }

  lemma {:induction false} WalkOf(env: Environment, before: seq<Manager>, heap: CallHeap,
                                  connected: map<Key, DeviceId>, device: DeviceId, isConnected: bool)
    returns (heaps: seq<CallHeap>, after: seq<Manager>)
    requires Legal(env) && Distinct(before) && AllOwn(before, heap)
    ensures IsWalk(env, before, heaps, after, connected, device, isConnected) && heaps[0] == heap
    ensures (after, heaps[|before|]) == UpdateAll(env, before, heap, connected, device, isConnected)
    decreases |before|
  {
    if before == [] {
      heaps, after := [heap], [];
    } else {
      var front, last := before[..|before| - 1], before[|before| - 1];
      heaps, after := WalkOf(env, front, heap, connected, device, isConnected);
      LastIsLive(env, before, heap, connected, device, isConnected);
      var (m, heap2) := UpdateManager(env, last, heaps[|front|], connected, device, isConnected);
      OneMoreTurn(env, front, heaps, after, last, m, heap2, connected, device, isConnected);
      assert front + [last] == before;
      heaps, after := heaps + [heap2], after + [m];
    }
  }

  lemma LastIsLive(env: Environment, managers: seq<Manager>, heap: CallHeap, connected: map<Key, DeviceId>,
                   device: DeviceId, isConnected: bool)
    requires Legal(env) && Distinct(managers) && AllOwn(managers, heap) && managers != []
    ensures var front := managers[..|managers| - 1];
            Live(managers[|managers| - 1], UpdateAll(env, front, heap, connected, device, isConnected).1, device)
  {
    var front, last := managers[..|managers| - 1], managers[|managers| - 1];
    UpdateAllOwns(env, front, heap, connected, device, isConnected);
    OutsiderStillOwns(last, heap, UpdateAll(env, front, heap, connected, device, isConnected).1, front);
  }

  lemma OneMoreTurn(env: Environment, before: seq<Manager>, heaps: seq<CallHeap>, after: seq<Manager>, next: Manager,
                    m: Manager, heap: CallHeap, connected: map<Key, DeviceId>, device: DeviceId, isConnected: bool)
    requires IsWalk(env, before, heaps, after, connected, device, isConnected)
    requires IsTurn(env, next, heaps[|before|], m, heap, connected, device, isConnected)
    ensures IsWalk(env, before + [next], heaps + [heap], after + [m], connected, device, isConnected)
  {
    var all, heaps2, done := before + [next], heaps + [heap], after + [m];
    forall i {:trigger done[i]} | 0 <= i < |all|
      ensures IsTurn(env, all[i], heaps2[i], done[i], heaps2[i + 1], connected, device, isConnected)
    {
      if i < |before| {
        assert done[i] == after[i];
      }
    }
  }

  /** The walk of a device event, and what the event leaves behind. */
  lemma EventWalk(env: Environment, w: World, device: DeviceId, isConnected: bool)
    returns (heaps: seq<CallHeap>, after: seq<Manager>)
    requires Legal(env) && Sound(w)
    ensures var connected := ConnectedAfter(w.connected, device, isConnected);
            && IsWalk(env, w.managers, heaps, after, connected, device, isConnected)
            && Step(env, w, DeviceEvent(device, isConnected)) ==
                 World(connected, after, heaps[|w.managers|], w.nextManager)
    ensures heaps[0] == w.heap && WellKeyed(w.connected)
  {
    heaps, after :=
      WalkOf(env, w.managers, w.heap, ConnectedAfter(w.connected, device, isConnected), device, isConnected);
  }

  class ClientManager {
    const env: Environment
    const table: CallTable
    var connectedDevices: map<Key, DeviceId>
    var dataManagerList: seq<DataManager>
    /** Names the requests; stands for the identity of a DataManager object. */
    var nextManager: nat

    ghost function World(): World
      reads this, table, dataManagerList
    {
      RequestTracking.World(connectedDevices, States(dataManagerList), table.Heap(), nextManager)
    }

    ghost predicate Valid()
      reads this, table, dataManagerList
    {
      && table.env == env && Legal(env)
      && DistinctObjects(dataManagerList)
      && Sound(World())
    }

    constructor (env: Environment)
      requires Legal(env)
      ensures Valid() && World() == Start()
    {
      this.env := env;
      table := new CallTable(env);
      connectedDevices, dataManagerList, nextManager := map[], [], 0;
    }

    /** Both halves of UpdateDeviceDataStream for a device that the request asks for. */
    method DropDevice(m: DataManager, device: DeviceId)
      requires table.env == env && Requested(m.request, device)
      requires Hash(device) in m.deviceDataStreams ==> m.deviceDataStreams[Hash(device)] in table.calls
      modifies m`deviceDataMap, m`deviceDataStreams, table
      ensures old(m.Regular()) ==> m.Regular()
      ensures KeepsStorages(old(m.deviceDataMap), m.deviceDataMap, {Hash(device)})
      ensures (m.State(), table.Heap()) == UpdateDevice(env, old(m.State()), old(table.Heap()), device, false)
    {
      DropStream(m, device);
      DropStorage(m, device, false);
    }

    method DropStream(m: DataManager, device: DeviceId)
      requires Hash(device) in m.deviceDataStreams ==> m.deviceDataStreams[Hash(device)] in table.calls
      modifies m`deviceDataStreams, table
      ensures m.State() == old(m.State()).(streams := old(m.deviceDataStreams) - {Hash(device)})
      ensures table.Heap() ==
              if Hash(device) in old(m.deviceDataStreams)
              then Cancelled(old(table.Heap()), old(m.deviceDataStreams)[Hash(device)]) else old(table.Heap())
    {
      var _ := m.CancelDataStream(device, table);
      var _ := m.RemoveDataStream(device);
    }

    method AddDevice(m: DataManager, device: DeviceId)
      requires table.env == env && Requested(m.request, device)
      modifies m`deviceDataMap, m`owner, m`deviceDataStreams, table
      ensures old(m.Regular()) ==> m.Regular()
      ensures KeepsStorages(old(m.deviceDataMap), m.deviceDataMap, {})
      ensures (m.State(), table.Heap()) == UpdateDevice(env, old(m.State()), old(table.Heap()), device, true)
    {
      EnsureStorage(m, device);
      EnsureStream(m, device);
    }

    method EnsureStorage(m: DataManager, device: DeviceId)
      modifies m`deviceDataMap, m`owner
      ensures old(m.Regular()) ==> m.Regular()
      ensures KeepsStorages(old(m.deviceDataMap), m.deviceDataMap, {})
      ensures m.State() == AddStorage(old(m.State()), device)
    {
      if !m.IsStorageAvailable(Hash(device)) {
        m.AddDeviceStorage(device);
      }
    }

    method EnsureStream(m: DataManager, device: DeviceId)
      requires table.env == env
      modifies m`deviceDataStreams, table
      ensures (m.deviceDataStreams, table.Heap()) ==
              if Hash(device) in old(m.deviceDataStreams) then (old(m.deviceDataStreams), old(table.Heap()))
              else (old(m.deviceDataStreams)[Hash(device) := NewAddress(env, old(table.Heap()))],
                    Opened(env, old(table.Heap()), m.id, DeviceCall(device)))
    {
      if !m.DataStreamExists(device) {
        var callData := table.Open(m.id, DeviceCall(device));
        var _ := m.AddDataStream(device, callData);
      }
    }

    method UpdateDeviceDataStream(m: DataManager, device: DeviceId, isConnected: bool)
      requires table.env == env
      requires !isConnected && Hash(device) in m.deviceDataStreams ==> m.deviceDataStreams[Hash(device)] in table.calls
      modifies m`deviceDataMap, m`owner, m`deviceDataStreams, table
      ensures old(m.Regular()) ==> m.Regular()
      ensures KeepsStorages(old(m.deviceDataMap), m.deviceDataMap, Gone(device, isConnected))
      ensures (m.State(), table.Heap()) == UpdateDevice(env, old(m.State()), old(table.Heap()), device, isConnected)
    {
      var requested := m.IsDeviceDataRequested(device);
      if !requested {
        return;
      }
      if !isConnected {
        DropDevice(m, device);
      } else {
        AddDevice(m, device);
      }
    }

    method OpenDeviceDataStream(m: DataManager)
      requires table.env == env && Legal(env) && m.streamType == DeviceDataStream
      modifies m`deviceDataMap, m`owner, m`deviceDataStreams, table
      ensures old(m.Regular()) ==> m.Regular()
      ensures KeepsStorages(old(m.deviceDataMap), m.deviceDataMap, {})
      ensures (m.State(), table.Heap()) ==
              OpenDevices(env, old(m.State()), old(table.Heap()), connectedDevices,
                          env.order(old(table.tick), connectedDevices.Keys))
    {
      var order := env.order(table.tick, connectedDevices.Keys);
      ghost var result := OpenDevices(env, m.State(), table.Heap(), connectedDevices, order);
      var i := 0;
      while i < |order|
        invariant 0 <= i <= |order|
        invariant old(m.Regular()) ==> m.Regular()
        invariant KeepsStorages(old(m.deviceDataMap), m.deviceDataMap, {})
        invariant OpenDevices(env, m.State(), table.Heap(), connectedDevices, order[i..]) == result
      {
        assert order[i] in order;
        assert order[i..][0] == order[i] && order[i..][1..] == order[i + 1..];
        UpdateDeviceDataStream(m, connectedDevices[order[i]], true);
        i := i + 1;
      }
    }

    /** The scan of OpenDataFrame: makes a storage for every requested connected device, and lists those devices. */
    method CollectDevices(m: DataManager) returns (devices: set<DeviceId>)
      requires WellKeyed(connectedDevices)
      modifies m`deviceDataMap, m`owner
      ensures old(m.Regular()) ==> m.Regular()
      ensures KeepsStorages(old(m.deviceDataMap), m.deviceDataMap, {})
      ensures devices == Wanted(m.request, connectedDevices).Values
      ensures m.State() == WithStorages(old(m.State()), Wanted(m.request, connectedDevices))
    {
      var keys := connectedDevices.Keys;
      ghost var before, storages, valid := m.State(), m.deviceDataMap, m.Regular();
      devices := {};
      NothingSeen(before, connectedDevices);
      while keys != {}
        invariant keys <= connectedDevices.Keys
        invariant valid ==> m.Regular()
        invariant KeepsStorages(storages, m.deviceDataMap, {})
        invariant Collected(before, connectedDevices, connectedDevices.Keys - keys, m.State(), devices)
        decreases |keys|
      {
        var k :| k in keys;
        ghost var sofar := m.deviceDataMap;
        devices := CollectDevice(m, k, before, connectedDevices.Keys - keys, devices);
        KeepsOn(storages, sofar, m.deviceDataMap);
        OneKeyLess(connectedDevices.Keys, keys, k);
        keys := keys - {k};
      }
      AllSeen(before.request, connectedDevices, connectedDevices.Keys - keys);
    }

    /** One turn of that scan. */
    method CollectDevice(m: DataManager, k: Key, ghost before: Manager, ghost seen: set<Key>, found: set<DeviceId>)
      returns (devices: set<DeviceId>)
      requires WellKeyed(connectedDevices) && k in connectedDevices && k !in seen && m.request == before.request
      requires Collected(before, connectedDevices, seen, m.State(), found)
      modifies m`deviceDataMap, m`owner
      ensures old(m.Regular()) ==> m.Regular()
      ensures KeepsStorages(old(m.deviceDataMap), m.deviceDataMap, {})
      ensures Collected(before, connectedDevices, seen + {k}, m.State(), devices)
    {
      OneMoreSeen(before, connectedDevices, seen, k);
      devices := found;
      var requested := m.IsDeviceDataRequested(connectedDevices[k]);
      if requested {
        devices := devices + {connectedDevices[k]};
        EnsureStorage(m, connectedDevices[k]);
      }
    }

    method OpenDataFrame(m: DataManager)
      requires table.env == env && WellKeyed(connectedDevices)
      modifies m`deviceDataMap, m`owner, m`dataframeStream, table
      ensures old(m.Regular()) ==> m.Regular()
      ensures KeepsStorages(old(m.deviceDataMap), m.deviceDataMap, {})
      ensures (m.State(), table.Heap()) == OpenFrame(env, old(m.State()), old(table.Heap()), connectedDevices)
    {
      var devices := CollectDevices(m);
      OpenAndRecord(m, devices);
    }

    method OpenAndRecord(m: DataManager, devices: set<DeviceId>)
      requires table.env == env
      modifies m`dataframeStream, table
      ensures m.State() == old(m.State()).(frame := Some(NewAddress(env, old(table.Heap()))))
      ensures table.Heap() == Opened(env, old(table.Heap()), m.id, FrameCall(devices))
    {
      var callData := table.Open(m.id, FrameCall(devices));
      m.SetDataFrameStream(callData);
    }

    method StopFrame(m: DataManager)
      requires m.dataframeStream.Some? ==> m.dataframeStream.value in table.calls
      modifies m`dataframeStream, table
      ensures m.State() == old(m.State()).(frame := None)
      ensures table.Heap() ==
              if old(m.dataframeStream).Some? then Cancelled(old(table.Heap()), old(m.dataframeStream).value)
              else old(table.Heap())
    {
      var _ := m.CancelDataFrameStream(table);
      m.RemoveDataFrameStream();
    }

    method UpdateDataFrameStream(m: DataManager, device: DeviceId, isConnected: bool)
      requires table.env == env && WellKeyed(connectedDevices)
      requires m.dataframeStream.Some? ==> m.dataframeStream.value in table.calls
      modifies m`deviceDataMap, m`owner, m`dataframeStream, table
      ensures old(m.Regular()) ==> m.Regular()
      ensures KeepsStorages(old(m.deviceDataMap), m.deviceDataMap, Gone(device, isConnected))
      ensures (m.State(), table.Heap()) ==
              UpdateFrame(env, old(m.State()), old(table.Heap()), connectedDevices, device, isConnected)
    {
      var requested := m.IsDeviceDataRequested(device);
      if !requested {
        return;
      }
      DropStorage(m, device, isConnected);
      ReplaceFrame(m);
    }

    /** A disconnected device loses its storage. */
    method DropStorage(m: DataManager, device: DeviceId, isConnected: bool)
      modifies m`deviceDataMap
      ensures old(m.Regular()) ==> m.Regular()
      ensures KeepsStorages(old(m.deviceDataMap), m.deviceDataMap, Gone(device, isConnected))
      ensures m.State() ==
              if isConnected then old(m.State())
              else old(m.State()).(storages := old(m.State()).storages - {Hash(device)})
    {
      if !isConnected {
        m.RemoveDeviceStorage(Hash(device));
      }
    }

    method ReplaceFrame(m: DataManager)
      requires table.env == env && WellKeyed(connectedDevices)
      requires m.dataframeStream.Some? ==> m.dataframeStream.value in table.calls
      modifies m`deviceDataMap, m`owner, m`dataframeStream, table
      ensures old(m.Regular()) ==> m.Regular()
      ensures KeepsStorages(old(m.deviceDataMap), m.deviceDataMap, {})
      ensures (m.State(), table.Heap()) ==
              OpenFrame(env, old(m.State()).(frame := None),
                        if old(m.State()).frame.Some? then Cancelled(old(table.Heap()), old(m.State()).frame.value)
                        else old(table.Heap()),
                        connectedDevices)
    {
      StopFrame(m);
      OpenDataFrame(m);
    }

    method UpdateStream(m: DataManager, device: DeviceId, isConnected: bool)
      requires table.env == env && WellKeyed(connectedDevices)
      requires Live(m.State(), table.Heap(), device)
      modifies m`deviceDataMap, m`owner, m`deviceDataStreams, m`dataframeStream, table
      ensures old(m.Regular()) ==> m.Regular()
      ensures KeepsStorages(old(m.deviceDataMap), m.deviceDataMap, Gone(device, isConnected))
      ensures (m.State(), table.Heap()) ==
              UpdateManager(env, old(m.State()), old(table.Heap()), connectedDevices, device, isConnected)
    {
      match m.streamType
      case DeviceDataStream => UpdateDeviceDataStream(m, device, isConnected);
      case DataFrameStream => UpdateDataFrameStream(m, device, isConnected);
    }

    // --- the steps ---

    method UpdateConnected(device: DeviceId, isConnected: bool, ghost consistent: set<DataManager>)
      requires WellKeyed(connectedDevices)
      requires forall m :: m in consistent ==> m.Regular()
      modifies this`connectedDevices
      ensures World() == old(World()).(connected := ConnectedAfter(old(connectedDevices), device, isConnected))
      ensures WellKeyed(connectedDevices)
      ensures forall m :: m in consistent ==> m.Regular()
    {
      SetConnected(device, isConnected);
    }

    method SetConnected(device: DeviceId, isConnected: bool)
      modifies this`connectedDevices
      ensures connectedDevices == ConnectedAfter(old(connectedDevices), device, isConnected)
    {
      var hash := Hash(device);
      if hash in connectedDevices {
        if isConnected {
          connectedDevices := connectedDevices[hash := device];
        } else {
          connectedDevices := connectedDevices - {hash};
        }
      } else if isConnected {
        connectedDevices := connectedDevices[hash := device];
      }
    }

    /** The first i requests of the list have been updated, the others are as before. */
    ghost predicate Walked(before: seq<Manager>, heap: CallHeap, after: seq<Manager>, i: nat)
      requires |dataManagerList| == |before| == |after|
      reads this, table, dataManagerList
    {
      && table.Heap() == heap
      && (forall j :: 0 <= j < |dataManagerList| ==>
            dataManagerList[j].State() == if j < i then after[j] else before[j])
    }

    /** The first i requests of the list keep their storages, but for the given keys, and the others are untouched. */
    ghost predicate StoragesKept(maps: seq<map<Key, DeviceDataStorage>>, gone: set<Key>, i: nat)
      requires |dataManagerList| == |maps|
      reads this, dataManagerList
    {
      forall j :: 0 <= j < |dataManagerList| ==>
        if j < i then KeepsStorages(maps[j], dataManagerList[j].deviceDataMap, gone)
        else dataManagerList[j].deviceDataMap == maps[j]
    }

    /** The walk of DeviceEventProcessor over the list of requests. */
    method UpdateRequests(ghost before: seq<Manager>, ghost heaps: seq<CallHeap>, ghost after: seq<Manager>,
                          ghost maps: seq<map<Key, DeviceDataStorage>>, device: DeviceId, isConnected: bool,
                          ghost consistent: set<DataManager>)
      requires table.env == env && WellKeyed(connectedDevices) && DistinctObjects(dataManagerList)
      requires IsWalk(env, before, heaps, after, connectedDevices, device, isConnected)
      requires |before| == |dataManagerList| && Walked(before, heaps[0], after, 0)
      requires |maps| == |dataManagerList| && StoragesKept(maps, Gone(device, isConnected), 0)
      requires forall m :: m in consistent ==> m.Regular()
      modifies table, dataManagerList
      ensures Walked(before, heaps[|before|], after, |before|)
      ensures StoragesKept(maps, Gone(device, isConnected), |maps|)
      ensures forall m :: m in consistent ==> m.Regular()
    {
      for i := 0 to |dataManagerList|
        invariant Walked(before, heaps[i], after, i)
        invariant StoragesKept(maps, Gone(device, isConnected), i)
        invariant forall m :: m in consistent ==> m.Regular()
      {
        UpdateNextKeeping(before, heaps, after, maps, i, device, isConnected, consistent);
      }
    }

    /** One turn of that walk. */
    method UpdateNext(ghost before: seq<Manager>, ghost heap: CallHeap, ghost after: seq<Manager>,
                      ghost heapAfter: CallHeap, i: nat, device: DeviceId, isConnected: bool)
      requires table.env == env && WellKeyed(connectedDevices) && DistinctObjects(dataManagerList)
      requires i < |dataManagerList| == |before| == |after|
      requires IsTurn(env, before[i], heap, after[i], heapAfter, connectedDevices, device, isConnected)
      requires Walked(before, heap, after, i)
      modifies dataManagerList[i], table
      ensures old(dataManagerList[i].Regular()) ==> dataManagerList[i].Regular()
      ensures KeepsStorages(old(dataManagerList[i].deviceDataMap), dataManagerList[i].deviceDataMap,
                            Gone(device, isConnected))
      ensures Walked(before, heapAfter, after, i + 1)
    {
      UpdateStream(dataManagerList[i], device, isConnected);
    }

    /** The same turn, with the requests whose storages it keeps consistent. */
    method UpdateNextKeeping(ghost before: seq<Manager>, ghost heaps: seq<CallHeap>, ghost after: seq<Manager>,
                             ghost maps: seq<map<Key, DeviceDataStorage>>, i: nat, device: DeviceId, isConnected: bool,
                             ghost consistent: set<DataManager>)
      requires table.env == env && WellKeyed(connectedDevices) && DistinctObjects(dataManagerList)
      requires IsWalk(env, before, heaps, after, connectedDevices, device, isConnected)
      requires i < |dataManagerList| == |before| && Walked(before, heaps[i], after, i)
      requires |maps| == |dataManagerList| && StoragesKept(maps, Gone(device, isConnected), i)
      requires forall m :: m in consistent ==> m.Regular()
      modifies dataManagerList[i], table
      ensures Walked(before, heaps[i + 1], after, i + 1)
      ensures StoragesKept(maps, Gone(device, isConnected), i + 1)
      ensures forall m :: m in consistent ==> m.Regular()
    {
      assert IsTurn(env, before[i], heaps[i], after[i], heaps[i + 1], connectedDevices, device, isConnected);
      UpdateNext(before, heaps[i], after, heaps[i + 1], i, device, isConnected);
    }

    /** The requests in `consistent` have consistent storages, and keep them. Every request keeps the very storages that
        it had, except one for a device that disconnects. */
    method DeviceEventProcessor(device: DeviceId, isConnected: bool, ghost consistent: set<DataManager>)
      requires Valid()
      requires forall m :: m in consistent ==> m.Regular()
      modifies this`connectedDevices, table, dataManagerList
      ensures Valid() && World() == Step(env, old(World()), DeviceEvent(device, isConnected))
      ensures StoragesKept(old(Maps(dataManagerList)), Gone(device, isConnected), |dataManagerList|)
      ensures forall m :: m in consistent ==> m.Regular()
    {
      StepSound(env, World(), DeviceEvent(device, isConnected));
      FollowEvent(device, isConnected, consistent);
    }

    method FollowEvent(device: DeviceId, isConnected: bool, ghost consistent: set<DataManager>)
      requires table.env == env && Legal(env) && DistinctObjects(dataManagerList) && Sound(World())
      requires forall m :: m in consistent ==> m.Regular()
      modifies this`connectedDevices, table, dataManagerList
      ensures World() == Step(env, old(World()), DeviceEvent(device, isConnected))
      ensures StoragesKept(old(Maps(dataManagerList)), Gone(device, isConnected), |dataManagerList|)
      ensures forall m :: m in consistent ==> m.Regular()
    {
      ghost var w := World();
      ghost var heaps, after := EventWalk(env, w, device, isConnected);
      HandleEvent(w.managers, heaps, after, device, isConnected, consistent);
    }

    method HandleEvent(ghost before: seq<Manager>, ghost heaps: seq<CallHeap>, ghost after: seq<Manager>,
                       device: DeviceId, isConnected: bool, ghost consistent: set<DataManager>)
      requires table.env == env && WellKeyed(connectedDevices) && DistinctObjects(dataManagerList)
      requires IsWalk(env, before, heaps, after, ConnectedAfter(connectedDevices, device, isConnected), device,
                      isConnected)
      requires before == States(dataManagerList) && heaps[0] == table.Heap()
      requires forall m :: m in consistent ==> m.Regular()
      modifies this`connectedDevices, table, dataManagerList
      ensures StoragesKept(old(Maps(dataManagerList)), Gone(device, isConnected), |dataManagerList|)
      ensures World() == RequestTracking.World(ConnectedAfter(old(connectedDevices), device, isConnected), after,
                                               heaps[|before|], nextManager)
      ensures forall m :: m in consistent ==> m.Regular()
    {
      ghost var maps := Maps(dataManagerList);
      UpdateConnected(device, isConnected, consistent);
      UpdateRequests(before, heaps, after, maps, device, isConnected, consistent);
    }

    method RequestDeviceData(request: DataRequest) returns (m: DataManager)
      requires Valid()
      modifies this`dataManagerList, this`nextManager, table
      ensures Valid() && World() == Step(env, old(World()), RequestData(request, DeviceDataStream))
      ensures fresh(m) && m.Regular() && m.id == old(nextManager) && dataManagerList == old(dataManagerList) + [m]
    {
      StepSound(env, World(), RequestData(request, DeviceDataStream));
      m := AddDeviceRequest(request);
    }

    method AddDeviceRequest(request: DataRequest) returns (m: DataManager)
      requires table.env == env && Legal(env)
      modifies this`dataManagerList, this`nextManager, table
      ensures World() == Step(env, old(World()), RequestData(request, DeviceDataStream))
      ensures fresh(m) && m.Regular() && m.id == old(nextManager) && dataManagerList == old(dataManagerList) + [m]
    {
      RequestStep(env, World(), request, DeviceDataStream);
      m := AddRequest(request, DeviceDataStream);
      OpenDevicesOfLast(m, old(dataManagerList));
    }

    method RequestDataFrame(request: DataRequest) returns (m: DataManager)
      requires Valid()
      modifies this`dataManagerList, this`nextManager, table
      ensures Valid() && World() == Step(env, old(World()), RequestData(request, DataFrameStream))
      ensures fresh(m) && m.Regular() && m.id == old(nextManager) && dataManagerList == old(dataManagerList) + [m]
    {
      StepSound(env, World(), RequestData(request, DataFrameStream));
      m := AddFrameRequest(request);
    }

    method AddFrameRequest(request: DataRequest) returns (m: DataManager)
      requires table.env == env && WellKeyed(connectedDevices)
      modifies this`dataManagerList, this`nextManager, table
      ensures World() == Step(env, old(World()), RequestData(request, DataFrameStream))
      ensures fresh(m) && m.Regular() && m.id == old(nextManager) && dataManagerList == old(dataManagerList) + [m]
    {
      RequestStep(env, World(), request, DataFrameStream);
      m := AddRequest(request, DataFrameStream);
      OpenFrameOfLast(m, old(dataManagerList));
    }

    /** The new request goes to the end of the list before its streams are opened. */
    method AddRequest(request: DataRequest, streamType: DataStreamType) returns (m: DataManager)
      modifies this`dataManagerList, this`nextManager
      ensures fresh(m) && m.Regular() && m.State() == Created(old(nextManager), request, streamType)
      ensures dataManagerList == old(dataManagerList) + [m] && nextManager == old(nextManager) + 1
      ensures m !in old(dataManagerList) && States(old(dataManagerList)) == old(States(dataManagerList))
    {
      m := new DataManager(nextManager, request, streamType);
      dataManagerList, nextManager := dataManagerList + [m], nextManager + 1;
    }

    /** Opens the streams of the request at the end of the list. */
    method OpenDevicesOfLast(m: DataManager, ghost front: seq<DataManager>)
      requires table.env == env && Legal(env) && m.streamType == DeviceDataStream
      requires dataManagerList == front + [m] && m !in front
      modifies m`deviceDataMap, m`owner, m`deviceDataStreams, table
      ensures old(m.Regular()) ==> m.Regular()
      ensures (m.State(), table.Heap()) == OpenRequest(env, old(m.State()), old(table.Heap()), connectedDevices)
      ensures States(dataManagerList) == old(States(front)) + [m.State()]
    {
      assert dataManagerList[..|front|] == front;
      OpenDeviceDataStream(m);
    }

    method OpenFrameOfLast(m: DataManager, ghost front: seq<DataManager>)
      requires table.env == env && WellKeyed(connectedDevices) && m.streamType == DataFrameStream
      requires dataManagerList == front + [m] && m !in front
      modifies m`deviceDataMap, m`owner, m`dataframeStream, table
      ensures old(m.Regular()) ==> m.Regular()
      ensures (m.State(), table.Heap()) == OpenRequest(env, old(m.State()), old(table.Heap()), connectedDevices)
      ensures States(dataManagerList) == old(States(front)) + [m.State()]
    {
      assert dataManagerList[..|front|] == front;
      OpenDataFrame(m);
    }

    /** Cancels and forgets everything the request has recorded. */
    method StopStreams(m: DataManager)
      requires KindMatches(m.State()) && Recorded(m.State()) <= table.calls.Keys
      modifies m`deviceDataStreams, m`dataframeStream, table
      ensures table.Heap() == CancelledAll(old(table.Heap()), Recorded(old(m.State())))
      ensures m.State() == old(m.State()).(streams := map[], frame := None)
    {
      ghost var recorded := Recorded(m.State());
      if m.streamType == DeviceDataStream {
        assert recorded == m.deviceDataStreams.Values;
        m.CancelAllDataStreams(table);
        m.ClearDataStreams();
      } else {
        NothingCancelled(table.Heap());
        if m.dataframeStream.Some? {
          assert recorded == {m.dataframeStream.value};
          CancelOneMore(table.Heap(), {}, m.dataframeStream.value);
        }
        StopFrame(m);
      }
    }

    method RemoveFromList(m: DataManager)
      requires DistinctObjects(dataManagerList)
      modifies this`dataManagerList
      ensures DistinctObjects(dataManagerList)
      ensures forall x :: x in dataManagerList <==> x in old(dataManagerList) && x != m
      ensures m !in old(dataManagerList) ==> dataManagerList == old(dataManagerList)
      ensures forall i :: 0 <= i < |old(dataManagerList)| && old(dataManagerList)[i] == m ==>
                dataManagerList == old(dataManagerList)[..i] + old(dataManagerList)[i + 1..]
    {
      for i := 0 to |dataManagerList|
        invariant dataManagerList == old(dataManagerList)
        invariant m !in dataManagerList[..i]
      {
        if dataManagerList[i] == m {
          WithoutOne(dataManagerList, i);
          dataManagerList := dataManagerList[..i] + dataManagerList[i + 1..];
          return;
        }
      }
    }

    /** Closes the request at position i. */
    method CloseAt(m: DataManager, ghost i: nat)
      requires DistinctObjects(dataManagerList) && i < |dataManagerList| && dataManagerList[i] == m
      requires KindMatches(m.State()) && Recorded(m.State()) <= table.calls.Keys
      modifies this`dataManagerList, table, m`deviceDataStreams, m`dataframeStream
      ensures DistinctObjects(dataManagerList)
      ensures forall x :: x in dataManagerList <==> x in old(dataManagerList) && x != m
      ensures States(dataManagerList) == RemoveAt(old(States(dataManagerList)), i)
      ensures table.Heap() == CancelledAll(old(table.Heap()), Recorded(old(m.State())))
      ensures m.deviceDataStreams == map[] && m.dataframeStream == None
    {
      ghost var states := States(dataManagerList);
      StopStreams(m);
      Unlist(m, i, states);
    }

    /** Takes the request at position i off the list; the others are in the given states. */
    method Unlist(m: DataManager, ghost i: nat, ghost states: seq<Manager>)
      requires DistinctObjects(dataManagerList) && i < |dataManagerList| == |states| && dataManagerList[i] == m
      requires forall j :: 0 <= j < |dataManagerList| && j != i ==> dataManagerList[j].State() == states[j]
      modifies this`dataManagerList
      ensures DistinctObjects(dataManagerList)
      ensures forall x :: x in dataManagerList <==> x in old(dataManagerList) && x != m
      ensures States(dataManagerList) == RemoveAt(states, i)
    {
      RemovedStates(states, dataManagerList, i);
      RemoveFromList(m);
    }

    method CloseRequest(m: DataManager)
      requires Valid()
      requires m in dataManagerList || (m.deviceDataStreams == map[] && m.dataframeStream == None)
      modifies this`dataManagerList, table, m`deviceDataStreams, m`dataframeStream
      ensures Valid()
      ensures World() ==
              if m in old(dataManagerList) then Step(env, old(World()), RequestTracking.CloseRequest(m.id))
              else old(World())
      ensures forall x :: x in dataManagerList <==> x in old(dataManagerList) && x != m
      ensures m.deviceDataStreams == map[] && m.dataframeStream == None
    {
      if m in dataManagerList {
        ghost var i :| 0 <= i < |dataManagerList| && dataManagerList[i] == m;
        StepSound(env, World(), RequestTracking.CloseRequest(m.id));
        CloseStep(env, World(), i);
        ghost var w := World();
        CloseAt(m, i);
        assert World() == w.(managers := RemoveAt(w.managers, i),
                             heap := CancelledAll(w.heap, Recorded(w.managers[i])));
      } else {
        CloseAgain(m);
      }
    }

    /** Closing a request that is closed already changes nothing. */
    method CloseAgain(m: DataManager)
      requires m !in dataManagerList && m.deviceDataStreams == map[] && m.dataframeStream == None &&
               DistinctObjects(dataManagerList)
      modifies this`dataManagerList, table, m`deviceDataStreams, m`dataframeStream
      ensures World() == old(World()) && dataManagerList == old(dataManagerList)
      ensures m.deviceDataStreams == map[] && m.dataframeStream == None
    {
      NothingCancelled(table.Heap());
      StopStreams(m);
      RemoveFromList(m);
    }

    method ClearConnected()
      requires Valid()
      modifies this`connectedDevices
      ensures Valid() && World() == Step(env, old(World()), ChannelLost)
    {
      StepSound(env, World(), ChannelLost);
      connectedDevices := map[];
    }

    method FindRequest(id: nat) returns (i: nat)
      ensures IsPosition(States(dataManagerList), id, i)
    {
      i := 0;
      while i < |dataManagerList| && dataManagerList[i].id != id
        invariant i <= |dataManagerList|
        invariant forall j :: 0 <= j < i ==> dataManagerList[j].id != id
      {
        i := i + 1;
      }
    }

    /** A completion of a failed operation deletes the call data, whose destructor clears its association. */
    method DeleteCallData(at: Address, ghost consistent: set<DataManager>)
      requires Valid() && at in table.calls
      requires forall m :: m in consistent ==> m.Regular()
      modifies table`calls, dataManagerList`deviceDataStreams, dataManagerList`dataframeStream
      ensures Valid() && World() == Step(env, old(World()), Completion(at, false))
      ensures forall m :: m in consistent ==> m.Regular()
    {
      DeleteTracked(at);
    }

    method DeleteTracked(at: Address)
      requires Valid() && at in table.calls
      modifies table`calls, dataManagerList`deviceDataStreams, dataManagerList`dataframeStream
      ensures Valid() && World() == Step(env, old(World()), Completion(at, false))
    {
      StepSound(env, World(), Completion(at, false));
      var i := FindRequest(table.calls[at].manager);
      DeletionStep(env, World(), at, i);
      Delete(at, i);
    }

    method Delete(at: Address, i: nat)
      requires DistinctObjects(dataManagerList)
      requires i < |dataManagerList| ==> EachOnce(dataManagerList[i].deviceDataStreams)
      modifies table`calls, dataManagerList`deviceDataStreams, dataManagerList`dataframeStream
      ensures World() == AfterDeletion(old(World()), at, i)
    {
      table.Delete(at);
      ForgetAt(i, at);
    }

    /** The request at position i, if there is one, forgets the call. */
    method ForgetAt(i: nat, at: Address)
      requires DistinctObjects(dataManagerList)
      requires i < |dataManagerList| ==> EachOnce(dataManagerList[i].deviceDataStreams)
      modifies dataManagerList`deviceDataStreams, dataManagerList`dataframeStream
      ensures States(dataManagerList) == Forgotten(old(States(dataManagerList)), i, at)
    {
      if i < |dataManagerList| {
        ClearAssociation(dataManagerList[i], i, at);
      }
    }

    method ClearAssociation(m: DataManager, i: nat, at: Address)
      requires i < |dataManagerList| && dataManagerList[i] == m
      requires DistinctObjects(dataManagerList) && EachOnce(m.deviceDataStreams)
      modifies m`deviceDataStreams, m`dataframeStream
      ensures States(dataManagerList) == old(States(dataManagerList))[i := ForgetStream(old(m.State()), at)]
    {
      var _ := m.RemoveStream(at);
    }
  }
}
