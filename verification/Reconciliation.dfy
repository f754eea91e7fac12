/** Requests and devices stay in step: over runs of atomic steps, without channel loss and without streams ended by the
    server, every open request has exactly the storages and streams that its device list and the connected devices call
    for. */
module Reconciliation {
  import opened SdkTypes
  import opened SdkUtils
  import opened RequestTracking

  /** The connected devices are among the given ones, each under its key. */
  ghost predicate KeyedWithin(connected: map<Key, DeviceId>, devices: iset<DeviceId>) {
    WellKeyed(connected) && forall k :: k in connected ==> connected[k] in devices
  }

  /** No other device is connected under this device's key. */
  ghost predicate Alone(connected: map<Key, DeviceId>, device: DeviceId) {
    Hash(device) in connected ==> connected[Hash(device)] == device
  }

  /** A device request has one storage and one stream for each wanted device. A frame request has one storage for each,
      and its one stream was opened with exactly the wanted devices. */
  ghost predicate InStep(m: Manager, connected: map<Key, DeviceId>, heap: CallHeap) {
    && m.storages == Wanted(m.request, connected)
    && match m.streamType
       case DeviceDataStream => m.streams.Keys == Wanted(m.request, connected).Keys
       case DataFrameStream =>
         && m.frame.Some? && m.frame.value in heap.calls
         && heap.calls[m.frame.value] == CallInfo(true, m.id, FrameCall(Wanted(m.request, connected).Values))
  }

  ghost predicate AllInStep(managers: seq<Manager>, connected: map<Key, DeviceId>, heap: CallHeap) {
    forall i :: 0 <= i < |managers| ==> InStep(managers[i], connected, heap)
  }

  ghost predicate Inv(w: World, devices: iset<DeviceId>) {
    Tracked(w) && KeyedWithin(w.connected, devices) && AllInStep(w.managers, w.connected, w.heap)
  }

  /** No channel loss, no stream ended by the server, and device events for the given devices only. */
  ghost predicate Calm(w: World, e: Event, devices: iset<DeviceId>) {
    match e
    case DeviceEvent(device, _) => device in devices
    case Completion(at, ok) => ok || (at in w.heap.calls ==> !w.heap.calls[at].listenerActive)
    case ChannelLost => false
    case _ => true
  }

  ghost predicate AllCalm(env: Environment, w: World, events: seq<Event>, devices: iset<DeviceId>)
    decreases |events|
  {
    events == [] || (Calm(w, events[0], devices) && AllCalm(env, Step(env, w, events[0]), events[1..], devices))
  }

  lemma WantedAfter(request: DataRequest, connected: map<Key, DeviceId>, device: DeviceId, isConnected: bool)
    requires WellKeyed(connected) && Alone(connected, device)
    ensures var after := Wanted(request, ConnectedAfter(connected, device, isConnected));
            after == if !Requested(request, device) then Wanted(request, connected)
                     else if isConnected then Wanted(request, connected)[Hash(device) := device]
                     else Wanted(request, connected) - {Hash(device)}
  {
  }

  lemma UpdateInStep(env: Environment, m: Manager, heap: CallHeap, connected: map<Key, DeviceId>, device: DeviceId,
                     isConnected: bool)
    requires Legal(env) && WellKeyed(connected) && Alone(connected, device) && Owns(m, heap) &&
             InStep(m, connected, heap)
    ensures var after := ConnectedAfter(connected, device, isConnected);
            var (m', heap') := UpdateManager(env, m, heap, after, device, isConnected);
            InStep(m', after, heap')
  {
    WantedAfter(m.request, connected, device, isConnected);
    var wanted := Wanted(m.request, connected);
    if m.streamType.DataFrameStream? && Requested(m.request, device) {
      FrameStorages(m.request, connected, device, isConnected);
    }
  }

  /** Merging the wanted devices into what a frame request keeps gives exactly the wanted devices. */
  lemma FrameStorages(request: DataRequest, connected: map<Key, DeviceId>, device: DeviceId, isConnected: bool)
    requires WellKeyed(connected) && Alone(connected, device) && Requested(request, device)
    ensures var before := Wanted(request, connected);
            var after := Wanted(request, ConnectedAfter(connected, device, isConnected));
            after + (if isConnected then before else before - {Hash(device)}) == after
  {
    WantedAfter(request, connected, device, isConnected);
    var before := Wanted(request, connected);
  }

  lemma StillInStep(m: Manager, connected: map<Key, DeviceId>, before: CallHeap, after: CallHeap, id: nat)
    requires InStep(m, connected, before) && OthersKept(before, after, id) && m.id != id
    ensures InStep(m, connected, after)
  {}

  lemma OutsiderStillInStep(m: Manager, connected: map<Key, DeviceId>, before: CallHeap, after: CallHeap,
                            managers: seq<Manager>)
    requires InStep(m, connected, before) && OutsideKept(before, after, managers) && !Listed(managers, m.id)
    ensures InStep(m, connected, after)
  {}

  lemma AppendInStep(done: seq<Manager>, connected: map<Key, DeviceId>, heap1: CallHeap, m: Manager, heap2: CallHeap)
    requires AllInStep(done, connected, heap1) && InStep(m, connected, heap2) && OthersKept(heap1, heap2, m.id)
    requires AllOwn(done, heap1) && forall i :: 0 <= i < |done| ==> done[i].id != m.id
    ensures AllInStep(done + [m], connected, heap2)
  {
    forall i | 0 <= i < |done|
      ensures InStep(done[i], connected, heap2)
    {
      StillInStep(done[i], connected, heap1, heap2, m.id);
    }
  }

  lemma {:induction false} UpdateAllInStep(env: Environment, managers: seq<Manager>, heap: CallHeap,
                                           connected: map<Key, DeviceId>, device: DeviceId, isConnected: bool)
    requires Legal(env) && WellKeyed(connected) && Alone(connected, device)
    requires Distinct(managers) && AllOwn(managers, heap) && AllInStep(managers, connected, heap)
    ensures var after := ConnectedAfter(connected, device, isConnected);
            var (managers', heap') := UpdateAll(env, managers, heap, after, device, isConnected);
            AllInStep(managers', after, heap')
    decreases |managers|
  {
    if managers != [] {
      var after := ConnectedAfter(connected, device, isConnected);
      var last := |managers| - 1;
      var front := managers[..last];
      var (done, heap1) := UpdateAll(env, front, heap, after, device, isConnected);
      UpdateAllOwns(env, front, heap, after, device, isConnected);
      UpdateAllInStep(env, front, heap, connected, device, isConnected);
      OutsiderStillOwns(managers[last], heap, heap1, front);
      OutsiderStillInStep(managers[last], connected, heap, heap1, front);
      UpdateInStep(env, managers[last], heap1, connected, device, isConnected);
      UpdateManagerOwns(env, managers[last], heap1, after, device, isConnected);
      var (m, heap2) := UpdateManager(env, managers[last], heap1, after, device, isConnected);
      assert forall i :: 0 <= i < last ==> done[i].id == managers[i].id;
      AppendInStep(done, after, heap1, m, heap2);
    }
  }

  /** Opening a device request: after the walk exactly the visited wanted devices have a storage and a stream. */
  lemma {:induction false} OpenDevicesFills(env: Environment, m: Manager, heap: CallHeap, connected: map<Key, DeviceId>,
                                            order: seq<Key>, visited: set<Key>)
    requires Legal(env) && WellKeyed(connected)
    requires m.storages == (map k | k in visited && k in Wanted(m.request, connected) :: connected[k])
    requires m.streams.Keys == m.storages.Keys
    ensures var (m', _) := OpenDevices(env, m, heap, connected, order);
            var all := visited + set k | k in order;
            && m'.storages == (map k | k in all && k in Wanted(m.request, connected) :: connected[k])
            && m'.streams.Keys == m'.storages.Keys
            && m'.streamType == m.streamType && m'.request == m.request
    decreases |order|
  {
    if order == [] {
      assert visited + (set k | k in order) == visited;
    } else {
      var key := order[0];
      var (m1, heap1) := if key in connected then UpdateDevice(env, m, heap, connected[key], true) else (m, heap);
      assert m1.storages == (map k | k in visited + {key} && k in Wanted(m.request, connected) :: connected[k]);
      OpenDevicesFills(env, m1, heap1, connected, order[1..], visited + {key});
      assert visited + (set k | k in order) == (visited + {key}) + (set k | k in order[1..]);
    }
  }

  lemma RequestInStep(env: Environment, w: World, request: DataRequest, streamType: DataStreamType,
                      devices: iset<DeviceId>)
    requires Legal(env) && Inv(w, devices)
    ensures Inv(Step(env, w, RequestData(request, streamType)), devices)
  {
    RequestTracked(env, w, request, streamType);
    var m := Created(w.nextManager, request, streamType);
    var w' := Step(env, w, RequestData(request, streamType));
    match streamType {
      case DeviceDataStream =>
        var order := env.order(w.heap.tick, w.connected.Keys);
        OpenDevicesFills(env, m, w.heap, w.connected, order, {});
        OpenDevicesOwns(env, m, w.heap, w.connected, order);
        var (m', heap') := OpenDevices(env, m, w.heap, w.connected, order);
        assert m'.storages == Wanted(request, w.connected);
      case DataFrameStream =>
        OpenFrameOwns(env, m, w.heap, w.connected);
        assert Wanted(request, w.connected) + map[] == Wanted(request, w.connected);
    }
    forall i | 0 <= i < |w.managers|
      ensures InStep(w.managers[i], w.connected, w'.heap)
    {
      StillInStep(w.managers[i], w.connected, w.heap, w'.heap, m.id);
    }
  }

  lemma RemovedInStep(managers: seq<Manager>, i: nat, connected: map<Key, DeviceId>, before: CallHeap, after: CallHeap)
    requires i < |managers| && Distinct(managers) && AllInStep(managers, connected, before)
    requires OthersKept(before, after, managers[i].id)
    ensures AllInStep(RemoveAt(managers, i), connected, after)
  {
    forall j | 0 <= j < |managers| - 1
      ensures InStep(RemoveAt(managers, i)[j], connected, after)
    {
      StillInStep(managers[if j < i then j else j + 1], connected, before, after, managers[i].id);
    }
  }

  lemma CloseInStep(env: Environment, w: World, id: nat, devices: iset<DeviceId>)
    requires Inv(w, devices)
    ensures Inv(Step(env, w, CloseRequest(id)), devices)
  {
    CloseTracked(env, w, id);
    var i := IndexOf(w.managers, id);
    if i < |w.managers| {
      var w' := Step(env, w, CloseRequest(id));
      CancelledAllInactive(w.managers[i], w.heap);
      RemovedInStep(w.managers, i, w.connected, w.heap, w'.heap);
    }
  }

  /** The completion of a cancelled call touches no record. */
  lemma CompletionInStep(env: Environment, w: World, at: Address, ok: bool, devices: iset<DeviceId>)
    requires Inv(w, devices) && Calm(w, Completion(at, ok), devices)
    ensures Inv(Step(env, w, Completion(at, ok)), devices)
  {
    CompletionTracked(env, w, at, ok);
    if !ok && at in w.heap.calls {
      var w' := Step(env, w, Completion(at, ok));
      var i := IndexOf(w.managers, w.heap.calls[at].manager);
      if i < |w.managers| {
        var m := w.managers[i];
        assert Owns(m, w.heap);
        assert ForgetStream(m, at).streams == m.streams;
      }
      forall j | 0 <= j < |w'.managers|
        ensures InStep(w'.managers[j], w'.connected, w'.heap)
      {
        assert InStep(w.managers[j], w.connected, w.heap) && Owns(w.managers[j], w.heap);
        assert w'.managers[j] == w.managers[j];
      }
    }
  }

  lemma StepInStep(env: Environment, w: World, e: Event, devices: iset<DeviceId>)
    requires Legal(env) && KeysApart(devices) && Inv(w, devices) && Calm(w, e, devices)
    ensures Inv(Step(env, w, e), devices)
  {
    match e
    case DeviceEvent(device, isConnected) =>
      DeviceEventTracked(env, w, device, isConnected);
      UpdateAllInStep(env, w.managers, w.heap, w.connected, device, isConnected);
    case RequestData(request, streamType) => RequestInStep(env, w, request, streamType, devices);
    case CloseRequest(id) => CloseInStep(env, w, id, devices);
    case Completion(at, ok) => CompletionInStep(env, w, at, ok, devices);
  }

  lemma {:induction false} RunInStepFrom(env: Environment, w: World, events: seq<Event>, devices: iset<DeviceId>)
    requires Legal(env) && KeysApart(devices) && Inv(w, devices) && AllCalm(env, w, events, devices)
    ensures Inv(Run(env, w, events), devices)
    decreases |events|
  {
    if events != [] {
      StepInStep(env, w, events[0], devices);
      RunInStepFrom(env, Step(env, w, events[0]), events[1..], devices);
    }
  }

  /** Storages and streams of a device request sit exactly at the requested and connected devices. The one active stream
      of a frame request was opened with exactly those devices, every earlier one having lost its listener. */
  ghost predicate Follows(m: Manager, w: World) {
    var wanted := Wanted(m.request, w.connected);
    && m.storages == wanted
    && (m.streamType.DeviceDataStream? ==> m.streams.Keys == wanted.Keys)
    && (m.streamType.DataFrameStream? ==>
          && m.frame.Some? && m.frame.value in w.heap.calls
          && w.heap.calls[m.frame.value].kind == FrameCall(wanted.Values)
          && (forall a :: (a in w.heap.calls && w.heap.calls[a].manager == m.id && w.heap.calls[a].listenerActive &&
                           w.heap.calls[a].kind.FrameCall?) ==> a == m.frame.value))
  }

  /** After every calm run over these devices every request is in step. */
  ghost predicate AlwaysFollows(env: Environment, devices: iset<DeviceId>) {
    forall events: seq<Event>, i: nat ::
      AllCalm(env, Start(), events, devices) && i < |Run(env, Start(), events).managers| ==>
      Follows(Run(env, Start(), events).managers[i], Run(env, Start(), events))
  }

  lemma RunInStep(env: Environment, events: seq<Event>, i: nat, devices: iset<DeviceId>)
    requires Legal(env) && KeysApart(devices) && AllCalm(env, Start(), events, devices)
    requires i < |Run(env, Start(), events).managers|
    ensures Follows(Run(env, Start(), events).managers[i], Run(env, Start(), events))
  {
    RunInStepFrom(env, Start(), events, devices);
    var w := Run(env, Start(), events);
    assert InStep(w.managers[i], w.connected, w.heap) && Owns(w.managers[i], w.heap);
  }

  /** Main result: for every set of devices, all calm runs over them keep every request in step if and only if no two of
      the devices share a key. */
  lemma InStepIffKeysApart(env: Environment, devices: iset<DeviceId>)
    requires Legal(env)
    ensures AlwaysFollows(env, devices) <==> KeysApart(devices)
  {
    if KeysApart(devices) {
      forall events: seq<Event>, i: nat |
        AllCalm(env, Start(), events, devices) && i < |Run(env, Start(), events).managers|
        ensures Follows(Run(env, Start(), events).managers[i], Run(env, Start(), events))
      {
        RunInStep(env, events, i, devices);
      }
    } else {
      var a, b :| a in devices && b in devices && Hash(a) == Hash(b) && a != b;
      var events := SharedKeyRun(a, b);
      SharedKeyBreaksStep(env, a, b);
      SharedKeyRunIsCalm(env, a, b, devices);
      assert Hash(a) in Run(env, Start(), events).managers[0].storages;
    }
  }

  /** The devices that connect or disconnect during a run. */
  ghost function DevicesIn(events: seq<Event>): iset<DeviceId> {
    iset device | DeviceEvent(device, true) in events || DeviceEvent(device, false) in events
  }

  /** So a calm run whose own devices have different keys stays in step, whatever their ports. */
  lemma OwnDevicesApart(env: Environment, events: seq<Event>, i: nat)
    requires Legal(env) && KeysApart(DevicesIn(events)) && AllCalm(env, Start(), events, DevicesIn(events))
    requires i < |Run(env, Start(), events).managers|
    ensures Follows(Run(env, Start(), events).managers[i], Run(env, Start(), events))
  {
    RunInStep(env, events, i, DevicesIn(events));
  }

  /** Ports below 256 are such a set. */
  lemma SmallPortsInStep(env: Environment)
    requires Legal(env)
    ensures AlwaysFollows(env, iset device | SmallPort(device))
  {
    SmallPortsApart();
    InStepIffKeysApart(env, iset device | SmallPort(device));
  }

  lemma RunThree(env: Environment, a: Event, b: Event, c: Event)
    ensures Run(env, Start(), [a, b, c]) == Step(env, Step(env, Step(env, Start(), a), b), c)
  {
    RunFirst(env, Start(), a, [b, c]);
    RunFirst(env, Step(env, Start(), a), b, [c]);
    RunFirst(env, Step(env, Step(env, Start(), a), b), c, []);
    assert [a] + [b, c] == [a, b, c] && [b] + [c] == [b, c] && [c] + [] == [c];
  }

  lemma UpdateOne(env: Environment, m: Manager, heap: CallHeap, connected: map<Key, DeviceId>, device: DeviceId,
                  isConnected: bool)
    ensures UpdateAll(env, [], heap, connected, device, isConnected) == ([], heap)
    ensures var (m', heap') := UpdateManager(env, m, heap, connected, device, isConnected);
            UpdateAll(env, [m], heap, connected, device, isConnected) == ([m'], heap')
  {
    var managers := [m];
    assert managers[..0] == [];
    assert UpdateAll(env, managers[..0], heap, connected, device, isConnected) == ([], heap);
    var (m', heap') := UpdateManager(env, managers[0], heap, connected, device, isConnected);
    assert UpdateAll(env, managers, heap, connected, device, isConnected) == ([] + [m'], heap');
    assert [] + [m'] == [m'];
  }

  /** A frame request for one connected device. */
  lemma RequestOne(env: Environment, w: World, device: DeviceId)
    requires w.managers == [] && w.connected == map[Hash(device) := device]
    ensures var w' := Step(env, w, RequestData([device], DataFrameStream));
            |w'.managers| == 1 && w'.connected == w.connected && w'.managers[0].streamType == DataFrameStream &&
            w'.managers[0].request == [device] && w'.managers[0].storages == map[Hash(device) := device]
  {
    assert Wanted([device], w.connected) + map[] == map[Hash(device) := device];
  }

  function SharedKeyRun(a: DeviceId, b: DeviceId): seq<Event> {
    [DeviceEvent(a, true), RequestData([a], DataFrameStream), DeviceEvent(b, true)]
  }

  lemma SharedKeyRunIsCalm(env: Environment, a: DeviceId, b: DeviceId, devices: iset<DeviceId>)
    requires a in devices && b in devices
    ensures AllCalm(env, Start(), SharedKeyRun(a, b), devices)
  {
    var events := SharedKeyRun(a, b);
    var w1 := Step(env, Start(), events[0]);
    var w2 := Step(env, w1, events[1]);
    assert events[1..][1..] == [events[2]] && [events[2]][1..] == [];
    assert AllCalm(env, w2, events[1..][1..], devices);
    assert AllCalm(env, w1, events[1..], devices);
  }

  /** Whenever two devices share a key, connecting the second one leaves a request for the first with a storage for a
      device that no longer counts as connected. */
  lemma SharedKeyBreaksStep(env: Environment, a: DeviceId, b: DeviceId)
    requires Legal(env) && a != b && Hash(a) == Hash(b)
    ensures var w := Run(env, Start(), SharedKeyRun(a, b));
            |w.managers| == 1 && w.managers[0].request == [a] && Wanted([a], w.connected) == map[] &&
              w.managers[0].storages == map[Hash(a) := a]
  {
    var events := SharedKeyRun(a, b);
    RunThree(env, events[0], events[1], events[2]);
    var w1 := Step(env, Start(), events[0]);
    assert UpdateAll(env, [], CallHeap(map[], 0), map[Hash(a) := a], a, true) == ([], CallHeap(map[], 0));
    assert w1.connected == map[Hash(a) := a] && w1.managers == [];
    RequestOne(env, w1, a);
    var w2 := Step(env, w1, events[1]);
    var m := w2.managers[0];
    assert w2.managers == [m];
    var connected := ConnectedAfter(w2.connected, b, true);
    UpdateOne(env, m, w2.heap, connected, b, true);
    assert !Requested([a], b);
    assert Wanted([a], connected) == map[];
  }
}
