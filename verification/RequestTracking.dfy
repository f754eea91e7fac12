/** The state that ClientManager keeps in step (src/client_manager.cpp, src/data_manager.cpp), as values: connected
    devices, the open requests with their storages and recorded streams, and the call data that exist. Each public call,
    device event and queue completion is one step. */
module RequestTracking {
  import opened SdkTypes
  import opened SdkUtils

  type Address = nat

  datatype CallKind = DeviceCall(device: DeviceId) | FrameCall(devices: set<DeviceId>)

  /** A call data and the request it is associated with. */
  datatype CallInfo = CallInfo(listenerActive: bool, manager: nat, kind: CallKind)

  /** The live call data by address. tick counts allocations, so that an address may be used again after a deletion. */
  datatype CallHeap = CallHeap(calls: map<Address, CallInfo>, tick: nat)

  /** A DataManager: its storages by key, with the device of each, and the call data it has recorded. */
  datatype Manager = Manager(id: nat, request: DataRequest, streamType: DataStreamType,
                             storages: map<Key, DeviceId>, streams: map<Key, Address>, frame: Option<Address>)

  datatype World = World(connected: map<Key, DeviceId>, managers: seq<Manager>, heap: CallHeap, nextManager: nat)

  /** What the code does not control: which free address an allocation gets, and in which order a hash map is walked. */
  datatype Environment = Environment(alloc: (nat, set<Address>) -> Address, order: (nat, set<Key>) -> seq<Key>)

  ghost predicate Legal(env: Environment) {
    && (forall n: nat, used: set<Address> {:trigger env.alloc(n, used)} :: env.alloc(n, used) !in used)
    && (forall n: nat, keys: set<Key>, k: Key {:trigger k in env.order(n, keys)} :: k in env.order(n, keys) <==>
        k in keys)
  }

  ghost function Above(used: set<Address>): (bound: Address)
    ensures forall a :: a in used ==> a < bound
    decreases |used|
  {
    if used == {} then 0
    else
      var a :| a in used;
      var bound := Above(used - {a});
      assert forall b :: b in used ==> b == a || b in used - {a};
      if a < bound then bound else a + 1
  }

  ghost function Listing(keys: set<Key>): (order: seq<Key>)
    ensures forall k :: k in order <==> k in keys
    decreases |keys|
  {
    if keys == {} then []
    else
      var k :| k in keys;
      [k] + Listing(keys - {k})
  }

  /** There is such an environment: hand out an address above all used ones, and list the keys one by one. */
  lemma LegalEnvironmentExists()
    ensures exists env: Environment :: Legal(env)
  {
    var env := Environment((_, used: set<Address>) => Above(used), (_, keys: set<Key>) => Listing(keys));
    assert Legal(env);
  }

  datatype Event =
    | DeviceEvent(device: DeviceId, isConnected: bool)
    | RequestData(request: DataRequest, streamType: DataStreamType)
    | CloseRequest(manager: nat)
    | Completion(at: Address, ok: bool)
    | ChannelLost

  // ---------------------------------------------------------------------------------------------
  // DataManager
  // ---------------------------------------------------------------------------------------------

  function Created(id: nat, request: DataRequest, streamType: DataStreamType): Manager {
    Manager(id, request, streamType, map[], map[], None)
  }

  function AddStorage(m: Manager, device: DeviceId): Manager {
    if Hash(device) in m.storages then m else m.(storages := m.storages[Hash(device) := device])
  }

  /** Takes the recorded pointer out, wherever it is. */
  function ForgetStream(m: Manager, at: Address): Manager {
    if m.frame == Some(at) then m.(frame := None)
    else m.(streams := map k | k in m.streams && m.streams[k] != at :: m.streams[k])
  }

  // ---------------------------------------------------------------------------------------------
  // Call data
  // ---------------------------------------------------------------------------------------------

  function Opened(env: Environment, heap: CallHeap, manager: nat, kind: CallKind): CallHeap {
    CallHeap(heap.calls[env.alloc(heap.tick, heap.calls.Keys) := CallInfo(true, manager, kind)], heap.tick + 1)
  }

  function NewAddress(env: Environment, heap: CallHeap): Address {
    env.alloc(heap.tick, heap.calls.Keys)
  }

  function Cancelled(heap: CallHeap, at: Address): CallHeap {
    if at in heap.calls then heap.(calls := heap.calls[at := heap.calls[at].(listenerActive := false)]) else heap
  }

  function CancelledAll(heap: CallHeap, targets: set<Address>): CallHeap {
    heap.(calls := map a | a in heap.calls ::
      if a in targets then heap.calls[a].(listenerActive := false) else heap.calls[a])
  }

  // ---------------------------------------------------------------------------------------------
  // ClientManager
  // ---------------------------------------------------------------------------------------------

  /** UpdateDeviceDataStream. */
  function UpdateDevice(env: Environment, m: Manager, heap: CallHeap, device: DeviceId,
                        isConnected: bool): (Manager, CallHeap)
  {
    var key := Hash(device);
    if !Requested(m.request, device) then (m, heap)
    else if !isConnected then
      (m.(streams := m.streams - {key}, storages := m.storages - {key}),
       if key in m.streams then Cancelled(heap, m.streams[key]) else heap)
    else
      var m1 := AddStorage(m, device);
      if key in m1.streams then (m1, heap)
      else (m1.(streams := m1.streams[key := NewAddress(env, heap)]), Opened(env, heap, m.id, DeviceCall(device)))
  }

  /** OpenDeviceDataStream walks the connected devices in the given order. */
  function OpenDevices(env: Environment, m: Manager, heap: CallHeap, connected: map<Key, DeviceId>,
                       order: seq<Key>): (Manager, CallHeap)
    decreases |order|
  {
    if order == [] then (m, heap)
    else
      var (m1, heap1) :=
        if order[0] in connected then UpdateDevice(env, m, heap, connected[order[0]], true) else (m, heap);
      OpenDevices(env, m1, heap1, connected, order[1..])
  }

  /** The requested devices among the connected ones. */
  function Wanted(request: DataRequest, connected: map<Key, DeviceId>): map<Key, DeviceId> {
    map k | k in connected && Requested(request, connected[k]) :: connected[k]
  }

  /** OpenDataFrame. */
  function OpenFrame(env: Environment, m: Manager, heap: CallHeap, connected: map<Key, DeviceId>): (Manager, CallHeap) {
    var wanted := Wanted(m.request, connected);
    (m.(storages := wanted + m.storages, frame := Some(NewAddress(env, heap))),
     Opened(env, heap, m.id, FrameCall(wanted.Values)))
  }

  /** UpdateDataFrameStream. */
  function UpdateFrame(env: Environment, m: Manager, heap: CallHeap, connected: map<Key, DeviceId>,
                       device: DeviceId, isConnected: bool): (Manager, CallHeap)
  {
    if !Requested(m.request, device) then (m, heap)
    else
      var m1 := if isConnected then m else m.(storages := m.storages - {Hash(device)});
      var heap1 := if m1.frame.Some? then Cancelled(heap, m1.frame.value) else heap;
      OpenFrame(env, m1.(frame := None), heap1, connected)
  }

  function UpdateManager(env: Environment, m: Manager, heap: CallHeap, connected: map<Key, DeviceId>,
                         device: DeviceId, isConnected: bool): (Manager, CallHeap)
  {
    match m.streamType
    case DeviceDataStream => UpdateDevice(env, m, heap, device, isConnected)
    case DataFrameStream => UpdateFrame(env, m, heap, connected, device, isConnected)
  }

  /** The walk over the list of requests. */
  function UpdateAll(env: Environment, managers: seq<Manager>, heap: CallHeap, connected: map<Key, DeviceId>,
                     device: DeviceId, isConnected: bool): (result: (seq<Manager>, CallHeap))
    ensures |result.0| == |managers|
    decreases |managers|
  {
    if managers == [] then ([], heap)
    else
      var last := |managers| - 1;
      var (done, heap1) := UpdateAll(env, managers[..last], heap, connected, device, isConnected);
      var (m, heap2) := UpdateManager(env, managers[last], heap1, connected, device, isConnected);
      (done + [m], heap2)
  }

  function ConnectedAfter(connected: map<Key, DeviceId>, device: DeviceId, isConnected: bool): map<Key, DeviceId> {
    if isConnected then connected[Hash(device) := device] else connected - {Hash(device)}
  }

  /** Connected devices are stored under their own key. */
  ghost predicate WellKeyed(connected: map<Key, DeviceId>) {
    forall k :: k in connected ==> k == Hash(connected[k])
  }

  function OpenRequest(env: Environment, m: Manager, heap: CallHeap,
                       connected: map<Key, DeviceId>): (Manager, CallHeap)
  {
    match m.streamType
    case DeviceDataStream => OpenDevices(env, m, heap, connected, env.order(heap.tick, connected.Keys))
    case DataFrameStream => OpenFrame(env, m, heap, connected)
  }

  function Recorded(m: Manager): set<Address> {
    m.streams.Values + (if m.frame.Some? then {m.frame.value} else {})
  }

  /** The position of a request in the list, or its length. */
  function IndexOf(managers: seq<Manager>, id: nat): (i: nat)
    ensures i <= |managers|
    ensures i < |managers| ==> managers[i].id == id
    ensures forall j :: 0 <= j < i ==> managers[j].id != id
    decreases |managers|
  {
    if managers == [] || managers[0].id == id then 0 else 1 + IndexOf(managers[1..], id)
  }

  /** The request at position i, if there is one, forgets a deleted call. */
  function Forgotten(managers: seq<Manager>, i: nat, at: Address): seq<Manager> {
    if i < |managers| then managers[i := ForgetStream(managers[i], at)] else managers
  }

  function Step(env: Environment, w: World, e: Event): World {
    match e
    case DeviceEvent(device, isConnected) =>
      var connected := ConnectedAfter(w.connected, device, isConnected);
      var (managers, heap) := UpdateAll(env, w.managers, w.heap, connected, device, isConnected);
      w.(connected := connected, managers := managers, heap := heap)
    case RequestData(request, streamType) =>
      var (m, heap) := OpenRequest(env, Created(w.nextManager, request, streamType), w.heap, w.connected);
      w.(managers := w.managers + [m], heap := heap, nextManager := w.nextManager + 1)
    case CloseRequest(id) =>
      var i := IndexOf(w.managers, id);
      if i == |w.managers| then w
      else w.(managers := RemoveAt(w.managers, i), heap := CancelledAll(w.heap, Recorded(w.managers[i])))
    case Completion(at, ok) =>
      if ok || at !in w.heap.calls then w
      else
        var i := IndexOf(w.managers, w.heap.calls[at].manager);
        w.(heap := w.heap.(calls := w.heap.calls - {at}), managers := Forgotten(w.managers, i, at))
    case ChannelLost => w.(connected := map[])
  }

  function Start(): World {
    World(map[], [], CallHeap(map[], 0), 0)
  }

  function Run(env: Environment, w: World, events: seq<Event>): World
    decreases |events|
  {
    if events == [] then w else Run(env, Step(env, w, events[0]), events[1..])
  }

  lemma RunFirst(env: Environment, w: World, e: Event, rest: seq<Event>)
    ensures Run(env, w, [e] + rest) == Run(env, Step(env, w, e), rest)
  {
    assert ([e] + rest)[1..] == rest;
  }

  // ---------------------------------------------------------------------------------------------
  // Listener tracking
  // ---------------------------------------------------------------------------------------------

  /** m has recorded the call at address a in the place for its kind. */
  ghost predicate Records(m: Manager, a: Address, kind: CallKind) {
    match kind
    case DeviceCall(device) => Hash(device) in m.streams && m.streams[Hash(device)] == a
    case FrameCall(_) => m.frame == Some(a)
  }

  /** Every recorded pointer is a live call of this request with an active listener, and every live call of this request
      with an active listener is recorded. */
  ghost predicate Owns(m: Manager, heap: CallHeap) {
    && (forall k :: k in m.streams ==>
          && m.streams[k] in heap.calls
          && var call := heap.calls[m.streams[k]];
             call.listenerActive && call.manager == m.id && call.kind.DeviceCall? && Hash(call.kind.device) == k)
    && (m.frame.Some? ==>
          && m.frame.value in heap.calls
          && var call := heap.calls[m.frame.value];
             call.listenerActive && call.manager == m.id && call.kind.FrameCall?)
    && (forall a :: a in heap.calls && heap.calls[a].manager == m.id && heap.calls[a].listenerActive ==>
          Records(m, a, heap.calls[a].kind))
  }

  ghost predicate Listed(managers: seq<Manager>, id: nat) {
    exists i :: 0 <= i < |managers| && managers[i].id == id
  }

  ghost predicate Tracked(w: World) {
    && (forall i :: 0 <= i < |w.managers| ==> w.managers[i].id < w.nextManager)
    && (forall i, j :: 0 <= i < j < |w.managers| ==> w.managers[i].id != w.managers[j].id)
    && (forall a :: a in w.heap.calls ==> w.heap.calls[a].manager < w.nextManager)
    && (forall i :: 0 <= i < |w.managers| ==> Owns(w.managers[i], w.heap))
    && (forall a :: a in w.heap.calls && w.heap.calls[a].listenerActive ==> Listed(w.managers, w.heap.calls[a].manager))
  }

  /** The calls of other requests are the same in both heaps. */
  ghost predicate OthersKept(before: CallHeap, after: CallHeap, id: nat) {
    && (forall a :: a in before.calls && before.calls[a].manager != id ==>
        a in after.calls && after.calls[a] == before.calls[a])
    && (forall a :: a in after.calls && after.calls[a].manager != id ==>
        a in before.calls && after.calls[a] == before.calls[a])
  }

  lemma OthersStillOwn(m: Manager, before: CallHeap, after: CallHeap, id: nat)
    requires Owns(m, before) && OthersKept(before, after, id) && m.id != id
    ensures Owns(m, after)
  {}

  lemma DropDeviceOwns(env: Environment, m: Manager, heap: CallHeap, device: DeviceId)
    requires Legal(env) && Owns(m, heap)
    ensures var (m', heap') := UpdateDevice(env, m, heap, device, false);
            Owns(m', heap') && OthersKept(heap, heap', m.id)
  {}

  /** A call at a free address that the request records for a device without a stream. */
  lemma NewStreamOwns(m: Manager, heap: CallHeap, at: Address, device: DeviceId, tick: nat)
    requires Owns(m, heap) && at !in heap.calls && Hash(device) !in m.streams
    ensures var heap' := CallHeap(heap.calls[at := CallInfo(true, m.id, DeviceCall(device))], tick);
            Owns(m.(streams := m.streams[Hash(device) := at]), heap') && OthersKept(heap, heap', m.id)
  {}

  lemma AddStorageOwns(m: Manager, heap: CallHeap, device: DeviceId)
    requires Owns(m, heap)
    ensures Owns(AddStorage(m, device), heap) && AddStorage(m, device).streams == m.streams
  {}

  lemma AddDeviceOwns(env: Environment, m: Manager, heap: CallHeap, device: DeviceId)
    requires Legal(env) && Owns(m, heap)
    ensures var (m', heap') := UpdateDevice(env, m, heap, device, true);
            Owns(m', heap') && OthersKept(heap, heap', m.id)
  {
    AddStorageOwns(m, heap, device);
    if Hash(device) !in m.streams {
      NewStreamOwns(AddStorage(m, device), heap, NewAddress(env, heap), device, heap.tick + 1);
    }
  }

  lemma UpdateDeviceOwns(env: Environment, m: Manager, heap: CallHeap, device: DeviceId, isConnected: bool)
    requires Legal(env) && Owns(m, heap)
    ensures var (m', heap') := UpdateDevice(env, m, heap, device, isConnected);
            m'.id == m.id && m'.request == m.request && m'.streamType == m.streamType &&
            Owns(m', heap') && OthersKept(heap, heap', m.id)
  {
    if isConnected {
      AddDeviceOwns(env, m, heap, device);
    } else {
      DropDeviceOwns(env, m, heap, device);
    }
  }

  lemma {:induction false} OpenDevicesOwns(env: Environment, m: Manager, heap: CallHeap, connected: map<Key, DeviceId>,
                                           order: seq<Key>)
    requires Legal(env) && Owns(m, heap)
    ensures var (m', heap') := OpenDevices(env, m, heap, connected, order);
            m'.id == m.id && m'.request == m.request && m'.streamType == m.streamType &&
            Owns(m', heap') && OthersKept(heap, heap', m.id)
    decreases |order|
  {
    if order != [] {
      var (m1, heap1) :=
        if order[0] in connected then UpdateDevice(env, m, heap, connected[order[0]], true) else (m, heap);
      if order[0] in connected {
        UpdateDeviceOwns(env, m, heap, connected[order[0]], true);
      }
      OpenDevicesOwns(env, m1, heap1, connected, order[1..]);
    }
  }

  lemma OpenFrameOwns(env: Environment, m: Manager, heap: CallHeap, connected: map<Key, DeviceId>)
    requires Legal(env) && Owns(m, heap) && m.frame.None?
    ensures var (m', heap') := OpenFrame(env, m, heap, connected);
            m'.id == m.id && m'.request == m.request && m'.streamType == m.streamType &&
            Owns(m', heap') && OthersKept(heap, heap', m.id)
  {}

  lemma DropFrameOwns(m: Manager, heap: CallHeap, storages: map<Key, DeviceId>)
    requires Owns(m, heap)
    ensures var heap' := if m.frame.Some? then Cancelled(heap, m.frame.value) else heap;
            Owns(m.(storages := storages, frame := None), heap') && OthersKept(heap, heap', m.id)
  {}

  lemma OthersKeptTwice(heap: CallHeap, heap1: CallHeap, heap2: CallHeap, id: nat)
    requires OthersKept(heap, heap1, id) && OthersKept(heap1, heap2, id)
    ensures OthersKept(heap, heap2, id)
  {}

  lemma UpdateFrameOwns(env: Environment, m: Manager, heap: CallHeap, connected: map<Key, DeviceId>, device: DeviceId,
                        isConnected: bool)
    requires Legal(env) && Owns(m, heap)
    ensures var (m', heap') := UpdateFrame(env, m, heap, connected, device, isConnected);
            m'.id == m.id && m'.request == m.request && m'.streamType == m.streamType &&
            Owns(m', heap') && OthersKept(heap, heap', m.id)
  {
    if Requested(m.request, device) {
      var m1 := if isConnected then m else m.(storages := m.storages - {Hash(device)});
      var heap1 := if m1.frame.Some? then Cancelled(heap, m1.frame.value) else heap;
      DropFrameOwns(m, heap, m1.storages);
      OpenFrameOwns(env, m1.(frame := None), heap1, connected);
      OthersKeptTwice(heap, heap1, OpenFrame(env, m1.(frame := None), heap1, connected).1, m.id);
    }
  }

  lemma UpdateManagerOwns(env: Environment, m: Manager, heap: CallHeap, connected: map<Key, DeviceId>,
                          device: DeviceId, isConnected: bool)
    requires Legal(env) && Owns(m, heap)
    ensures var (m', heap') := UpdateManager(env, m, heap, connected, device, isConnected);
            m'.id == m.id && m'.request == m.request && m'.streamType == m.streamType &&
            Owns(m', heap') && OthersKept(heap, heap', m.id)
  {
    match m.streamType
    case DeviceDataStream => UpdateDeviceOwns(env, m, heap, device, isConnected);
    case DataFrameStream => UpdateFrameOwns(env, m, heap, connected, device, isConnected);
  }

  ghost predicate Distinct(managers: seq<Manager>) {
    forall i, j :: 0 <= i < j < |managers| ==> managers[i].id != managers[j].id
  }

  ghost predicate AllOwn(managers: seq<Manager>, heap: CallHeap) {
    forall i :: 0 <= i < |managers| ==> Owns(managers[i], heap)
  }

  /** The same requests, in the same order. */
  ghost predicate SameRequests(a: seq<Manager>, b: seq<Manager>) {
    && |a| == |b|
    && forall i :: 0 <= i < |a| ==>
         a[i].id == b[i].id && a[i].request == b[i].request && a[i].streamType == b[i].streamType
  }

  /** Calls of requests outside the list are the same in both heaps. */
  ghost predicate OutsideKept(before: CallHeap, after: CallHeap, managers: seq<Manager>) {
    && (forall a :: a in before.calls && !Listed(managers, before.calls[a].manager) ==>
          a in after.calls && after.calls[a] == before.calls[a])
    && (forall a :: a in after.calls && !Listed(managers, after.calls[a].manager) ==>
          a in before.calls && after.calls[a] == before.calls[a])
  }

  lemma OutsiderStillOwns(m: Manager, before: CallHeap, after: CallHeap, managers: seq<Manager>)
    requires Owns(m, before) && OutsideKept(before, after, managers) && !Listed(managers, m.id)
    ensures Owns(m, after)
  {}

  lemma OutsideKeptExtends(heap: CallHeap, heap1: CallHeap, heap2: CallHeap, front: seq<Manager>, m: Manager)
    requires OutsideKept(heap, heap1, front) && OthersKept(heap1, heap2, m.id)
    ensures OutsideKept(heap, heap2, front + [m])
  {
    ListedAppend(front, m);
  }

  /** One more request in the walk. */
  lemma UpdateLastOwns(env: Environment, front: seq<Manager>, last: Manager, heap: CallHeap, done: seq<Manager>,
                       heap1: CallHeap, connected: map<Key, DeviceId>, device: DeviceId, isConnected: bool)
    requires Legal(env) && Distinct(front + [last]) && Owns(last, heap)
    requires SameRequests(front, done) && AllOwn(done, heap1) && OutsideKept(heap, heap1, front)
    ensures var (m, heap2) := UpdateManager(env, last, heap1, connected, device, isConnected);
            && SameRequests(front + [last], done + [m]) && AllOwn(done + [m], heap2)
            && OutsideKept(heap, heap2, front + [last])
  {
    NotListed(front, last);
    OutsiderStillOwns(last, heap, heap1, front);
    UpdateManagerOwns(env, last, heap1, connected, device, isConnected);
    var (m, heap2) := UpdateManager(env, last, heap1, connected, device, isConnected);
    StillDistinct(front, last, done, m);
    AppendOwns(done, heap1, m, heap2);
    OutsideKeptExtends(heap, heap1, heap2, front, last);
  }

  lemma NotListed(front: seq<Manager>, last: Manager)
    requires Distinct(front + [last])
    ensures !Listed(front, last.id)
  {
    var all := front + [last];
    forall i | 0 <= i < |front|
      ensures front[i].id != last.id
    {
      assert all[i].id != all[|front|].id;
    }
  }

  lemma StillDistinct(front: seq<Manager>, last: Manager, done: seq<Manager>, m: Manager)
    requires Distinct(front + [last]) && SameRequests(front, done) && m.id == last.id
    ensures Distinct(done + [m])
  {
    assert forall i :: 0 <= i < |done| + 1 ==> (done + [m])[i].id == (front + [last])[i].id;
  }

  lemma {:induction false} UpdateAllOwns(env: Environment, managers: seq<Manager>, heap: CallHeap,
                                         connected: map<Key, DeviceId>, device: DeviceId, isConnected: bool)
    requires Legal(env) && Distinct(managers) && AllOwn(managers, heap)
    ensures var (after, heap') := UpdateAll(env, managers, heap, connected, device, isConnected);
            SameRequests(managers, after) && AllOwn(after, heap') && OutsideKept(heap, heap', managers)
    decreases |managers|
  {
    if managers != [] {
      var front, last := managers[..|managers| - 1], managers[|managers| - 1];
      assert managers == front + [last];
      UpdateAllOwns(env, front, heap, connected, device, isConnected);
      var (done, heap1) := UpdateAll(env, front, heap, connected, device, isConnected);
      UpdateLastOwns(env, front, last, heap, done, heap1, connected, device, isConnected);
    }
  }

  lemma AppendOwns(done: seq<Manager>, heap1: CallHeap, m: Manager, heap2: CallHeap)
    requires AllOwn(done, heap1) && Owns(m, heap2) && OthersKept(heap1, heap2, m.id) && Distinct(done + [m])
    ensures AllOwn(done + [m], heap2)
  {
    forall i | 0 <= i < |done|
      ensures Owns(done[i], heap2)
    {
      assert (done + [m])[i].id != (done + [m])[|done|].id;
      OthersStillOwn(done[i], heap1, heap2, m.id);
    }
  }

  lemma ListedAppend(front: seq<Manager>, m: Manager)
    ensures forall id :: Listed(front + [m], id) <==> Listed(front, id) || id == m.id
  {
    assert (front + [m])[|front|] == m;
    forall id | Listed(front, id)
      ensures Listed(front + [m], id)
    {
      var i :| 0 <= i < |front| && front[i].id == id;
      assert (front + [m])[i].id == id;
    }
  }

  lemma DeviceEventTracked(env: Environment, w: World, device: DeviceId, isConnected: bool)
    requires Legal(env) && Tracked(w)
    ensures Tracked(Step(env, w, DeviceEvent(device, isConnected)))
  {
    var connected := ConnectedAfter(w.connected, device, isConnected);
    UpdateAllOwns(env, w.managers, w.heap, connected, device, isConnected);
    var w' := Step(env, w, DeviceEvent(device, isConnected));
    SameRequestsListed(w.managers, w'.managers);
    forall a | a in w'.heap.calls
      ensures w'.heap.calls[a].manager < w'.nextManager
      ensures w'.heap.calls[a].listenerActive ==> Listed(w'.managers, w'.heap.calls[a].manager)
    {
      if Listed(w.managers, w'.heap.calls[a].manager) {
        var i :| 0 <= i < |w.managers| && w.managers[i].id == w'.heap.calls[a].manager;
      }
    }
  }

  lemma SameRequestsListed(a: seq<Manager>, b: seq<Manager>)
    requires SameRequests(a, b)
    ensures forall id :: Listed(a, id) <==> Listed(b, id)
  {
    forall id | Listed(a, id)
      ensures Listed(b, id)
    {
      var i :| 0 <= i < |a| && a[i].id == id;
      assert b[i].id == id;
    }
    forall id | Listed(b, id)
      ensures Listed(a, id)
    {
      var i :| 0 <= i < |b| && b[i].id == id;
      assert a[i].id == id;
    }
  }

  lemma OpenRequestOwns(env: Environment, m: Manager, heap: CallHeap, connected: map<Key, DeviceId>)
    requires Legal(env) && Owns(m, heap) && m.frame.None?
    ensures var (m', heap') := OpenRequest(env, m, heap, connected);
            m'.id == m.id && m'.request == m.request && m'.streamType == m.streamType &&
            Owns(m', heap') && OthersKept(heap, heap', m.id)
  {
    match m.streamType
    case DeviceDataStream => OpenDevicesOwns(env, m, heap, connected, env.order(heap.tick, connected.Keys));
    case DataFrameStream => OpenFrameOwns(env, m, heap, connected);
  }

  /** One more request at the end of the list. */
  lemma AppendTracked(w: World, m: Manager, heap: CallHeap)
    requires Tracked(w) && m.id == w.nextManager && Owns(m, heap) && OthersKept(w.heap, heap, m.id)
    ensures Tracked(World(w.connected, w.managers + [m], heap, w.nextManager + 1))
  {
    forall i | 0 <= i < |w.managers|
      ensures Owns(w.managers[i], heap)
    {
      OthersStillOwn(w.managers[i], w.heap, heap, m.id);
    }
    ListedAppend(w.managers, m);
  }

  lemma RequestTracked(env: Environment, w: World, request: DataRequest, streamType: DataStreamType)
    requires Legal(env) && Tracked(w)
    ensures Tracked(Step(env, w, RequestData(request, streamType)))
  {
    var m := Created(w.nextManager, request, streamType);
    assert Owns(m, w.heap);
    OpenRequestOwns(env, m, w.heap, w.connected);
    AppendTracked(w, OpenRequest(env, m, w.heap, w.connected).0, OpenRequest(env, m, w.heap, w.connected).1);
  }

  function RemoveAt(managers: seq<Manager>, i: nat): seq<Manager>
    requires i < |managers|
  {
    managers[..i] + managers[i + 1..]
  }

  lemma ListedRemoved(managers: seq<Manager>, i: nat, id: nat)
    requires i < |managers| && Listed(managers, id) && managers[i].id != id
    ensures Listed(RemoveAt(managers, i), id)
  {
    var j :| 0 <= j < |managers| && managers[j].id == id;
    assert RemoveAt(managers, i)[if j < i then j else j - 1] == managers[j];
  }

  lemma CancelledAllInactive(m: Manager, heap: CallHeap)
    requires Owns(m, heap)
    ensures var after := CancelledAll(heap, Recorded(m));
            && OthersKept(heap, after, m.id) && after.calls.Keys == heap.calls.Keys
            && (forall a :: a in after.calls ==> after.calls[a].manager == heap.calls[a].manager)
            && (forall a :: a in after.calls && after.calls[a].listenerActive ==>
                  heap.calls[a].listenerActive && heap.calls[a].manager != m.id)
  {
    assert forall a :: a in heap.calls && heap.calls[a].manager == m.id && heap.calls[a].listenerActive ==>
             a in Recorded(m);
  }

  lemma RemovedStillOwn(managers: seq<Manager>, i: nat, before: CallHeap, after: CallHeap)
    requires i < |managers| && Distinct(managers) && AllOwn(managers, before) &&
             OthersKept(before, after, managers[i].id)
    ensures Distinct(RemoveAt(managers, i)) && AllOwn(RemoveAt(managers, i), after)
  {
    var rest := RemoveAt(managers, i);
    forall j | 0 <= j < |rest|
      ensures Owns(rest[j], after)
    {
      assert rest[j] == managers[if j < i then j else j + 1];
      OthersStillOwn(rest[j], before, after, managers[i].id);
    }
  }

  lemma CloseTracked(env: Environment, w: World, id: nat)
    requires Tracked(w)
    ensures Tracked(Step(env, w, CloseRequest(id)))
  {
    var i := IndexOf(w.managers, id);
    if i < |w.managers| {
      var w' := Step(env, w, CloseRequest(id));
      CancelledAllInactive(w.managers[i], w.heap);
      RemovedStillOwn(w.managers, i, w.heap, w'.heap);
      forall a | a in w'.heap.calls && w'.heap.calls[a].listenerActive
        ensures Listed(w'.managers, w'.heap.calls[a].manager)
      {
        ListedRemoved(w.managers, i, w.heap.calls[a].manager);
      }
    }
  }

  /** Closing a request cancels exactly what it has recorded. A call of its own that is not recorded, if there were one,
      would keep its listener although the request is gone from the list. */
  lemma CloseCancelsRecorded(env: Environment, w: World, id: nat, a: Address)
    requires a in w.heap.calls && Listed(w.managers, id) && Distinct(w.managers)
    ensures var w' := Step(env, w, CloseRequest(id));
            && !Listed(w'.managers, id) && a in w'.heap.calls
            && IndexOf(w.managers, id) < |w.managers|
            && (w'.heap.calls[a].listenerActive <==>
                  w.heap.calls[a].listenerActive && a !in Recorded(w.managers[IndexOf(w.managers, id)]))
  {
    var i := IndexOf(w.managers, id);
    var rest := RemoveAt(w.managers, i);
    forall j | 0 <= j < |rest|
      ensures rest[j].id != id
    {
      assert rest[j] == w.managers[if j < i then j else j + 1];
    }
  }

  /** Forgetting a deleted call leaves exactly the other records. */
  lemma ForgetOwns(m: Manager, heap: CallHeap, at: Address)
    requires Owns(m, heap) && at in heap.calls && heap.calls[at].manager == m.id
    ensures Owns(ForgetStream(m, at), heap.(calls := heap.calls - {at}))
  {}

  /** Deleting a call takes nothing from the other requests. */
  lemma DeletedStillOwns(m: Manager, heap: CallHeap, at: Address)
    requires Owns(m, heap) && at in heap.calls && heap.calls[at].manager != m.id
    ensures Owns(m, heap.(calls := heap.calls - {at}))
  {}

  lemma DeletionOwns(managers: seq<Manager>, heap: CallHeap, at: Address, i: nat)
    requires Distinct(managers) && AllOwn(managers, heap) && at in heap.calls
    requires i == IndexOf(managers, heap.calls[at].manager)
    ensures AllOwn(Forgotten(managers, i, at), heap.(calls := heap.calls - {at}))
    ensures SameRequests(managers, Forgotten(managers, i, at))
  {
    forall j | 0 <= j < |managers|
      ensures Owns(Forgotten(managers, i, at)[j], heap.(calls := heap.calls - {at}))
    {
      if j == i {
        ForgetOwns(managers[i], heap, at);
      } else {
        assert i < |managers| ==> managers[i].id != managers[j].id;
        DeletedStillOwns(managers[j], heap, at);
      }
    }
  }

  lemma CompletionTracked(env: Environment, w: World, at: Address, ok: bool)
    requires Tracked(w)
    ensures Tracked(Step(env, w, Completion(at, ok)))
  {
    if !ok && at in w.heap.calls {
      var w' := Step(env, w, Completion(at, ok));
      DeletionOwns(w.managers, w.heap, at, IndexOf(w.managers, w.heap.calls[at].manager));
      SameRequestsListed(w.managers, w'.managers);
    }
  }

  lemma StepTracked(env: Environment, w: World, e: Event)
    requires Legal(env) && Tracked(w)
    ensures Tracked(Step(env, w, e))
  {
    match e
    case DeviceEvent(device, isConnected) => DeviceEventTracked(env, w, device, isConnected);
    case RequestData(request, streamType) => RequestTracked(env, w, request, streamType);
    case CloseRequest(id) => CloseTracked(env, w, id);
    case Completion(at, ok) => CompletionTracked(env, w, at, ok);
    case ChannelLost =>
  }

  /** After every run of requests, closes, device events, completions and channel losses, whatever addresses are handed
      out, recorded pointers and active listeners match one to one, and active listeners belong to open requests. */
  lemma {:induction false} RunTracked(env: Environment, w: World, events: seq<Event>)
    requires Legal(env) && Tracked(w)
    ensures Tracked(Run(env, w, events))
    decreases |events|
  {
    if events != [] {
      StepTracked(env, w, events[0]);
      RunTracked(env, Step(env, w, events[0]), events[1..]);
    }
  }

  /** A message reaches a request only through a call data with an active listener. In any reachable state such a call
      belongs to a listed request, which has recorded it, and no other call serves the same device of that request. */
  lemma NoCallbackIntoClosedRequest(env: Environment, events: seq<Event>, a: Address)
    requires Legal(env)
    requires a in Run(env, Start(), events).heap.calls && Run(env, Start(), events).heap.calls[a].listenerActive
    ensures var w := Run(env, Start(), events);
            exists i :: 0 <= i < |w.managers| && w.managers[i].id == w.heap.calls[a].manager &&
                        Records(w.managers[i], a, w.heap.calls[a].kind)
    ensures var w := Run(env, Start(), events);
            forall b :: b in w.heap.calls && b != a && w.heap.calls[b].listenerActive &&
              w.heap.calls[b].manager == w.heap.calls[a].manager
              ==> !SameTarget(w.heap.calls[a].kind, w.heap.calls[b].kind)
  {
    RunTracked(env, Start(), events);
    var w := Run(env, Start(), events);
    var i :| 0 <= i < |w.managers| && w.managers[i].id == w.heap.calls[a].manager;
    assert Owns(w.managers[i], w.heap);
  }

  /** Calls that would deliver the same thing: data of one device, or the frames of the request. */
  predicate SameTarget(a: CallKind, b: CallKind) {
    (a.DeviceCall? && b.DeviceCall? && a.device == b.device) || (a.FrameCall? && b.FrameCall?)
  }
}
