/** Which storages and streams the requests of a ClientManager have, told from the events (src/client_manager.cpp): over
    every run, with lost channels, streams that the server ends, and devices that share a key. */
module ServiceHistory {
  import opened SdkTypes
  import opened SdkUtils
  import opened RequestTracking
  import opened RequestHistory
  import Reconciliation

  predicate Asks(events: seq<Event>, id: nat, device: DeviceId) {
    AskedFor(events, id).Some? && Requested(AskedFor(events, id).value.0, device)
  }

  /** The device connected under the key, if the request asks for it. */
  function WantedUnder(events: seq<Event>, id: nat, key: Key): Option<DeviceId> {
    var connected := ConnectedNow(events, key);
    if connected.Some? && Asks(events, id, connected.value) then connected else None
  }

  /** Whose storage a request has under a key. It comes with the request, or with an event of a device asked for, if a
      connected device asked for is found there while the key is free; an event looks under its own key only, but for a
      request for frames under all keys. It goes only when a device asked for disconnects under that key. */
  function Stored(events: seq<Event>, id: nat, key: Key): Option<DeviceId> {
    if events == [] then None
    else
      var front, last := events[..|events| - 1], events[|events| - 1];
      match last
      case RequestData(_, _) => if Made(front) == id then WantedUnder(events, id, key) else Stored(front, id, key)
      case DeviceEvent(device, isConnected) =>
        if !Asks(front, id, device) then Stored(front, id, key)
        else if Hash(device) == key && !isConnected then None
        else if Stored(front, id, key).Some? then Stored(front, id, key)
        else if Hash(device) == key || AskedFor(front, id).value.1.DataFrameStream? then WantedUnder(events, id, key)
        else None
      case _ => Stored(front, id, key)
  }

  function Find(devices: map<Key, DeviceId>, key: Key): Option<DeviceId> {
    if key in devices then Some(devices[key]) else None
  }

  // ---------------------------------------------------------------------------------------------
  // One event
  // ---------------------------------------------------------------------------------------------

  /** The storages of a request after a device event. */
  function StoragesAfter(m: Manager, connected: map<Key, DeviceId>, device: DeviceId,
                         isConnected: bool): map<Key, DeviceId>
  {
    var kept := if isConnected then m.storages else m.storages - {Hash(device)};
    if !Requested(m.request, device) then m.storages
    else if m.streamType.DataFrameStream? then Wanted(m.request, connected) + kept
    else if isConnected && Hash(device) !in m.storages then m.storages[Hash(device) := device]
    else kept
  }

  /** A device event leaves streams for device data under these keys. */
  function StreamsAfter(m: Manager, device: DeviceId, isConnected: bool): set<Key> {
    if !Requested(m.request, device) then m.streams.Keys
    else if isConnected then m.streams.Keys + {Hash(device)}
    else m.streams.Keys - {Hash(device)}
  }

  ghost predicate Updated(m: Manager, m': Manager, connected: map<Key, DeviceId>, device: DeviceId, isConnected: bool) {
    && m'.id == m.id && m'.streamType == m.streamType
    && m'.storages == StoragesAfter(m, connected, device, isConnected)
    && (m.streamType.DeviceDataStream? ==> m'.streams.Keys == StreamsAfter(m, device, isConnected))
  }

  lemma UpdateUpdates(env: Environment, m: Manager, heap: CallHeap, connected: map<Key, DeviceId>, device: DeviceId,
                      isConnected: bool)
    ensures Updated(m, UpdateManager(env, m, heap, connected, device, isConnected).0, connected, device, isConnected)
  {}

  lemma {:induction false} UpdateAllUpdates(env: Environment, managers: seq<Manager>, heap: CallHeap,
                                            connected: map<Key, DeviceId>, device: DeviceId, isConnected: bool)
    ensures var after := UpdateAll(env, managers, heap, connected, device, isConnected).0;
            forall i :: 0 <= i < |managers| ==> Updated(managers[i], after[i], connected, device, isConnected)
    decreases |managers|
  {
    if managers != [] {
      var front, last := managers[..|managers| - 1], managers[|managers| - 1];
      UpdateAllUpdates(env, front, heap, connected, device, isConnected);
      var (done, heap1) := UpdateAll(env, front, heap, connected, device, isConnected);
      UpdateUpdates(env, last, heap1, connected, device, isConnected);
      var m := UpdateManager(env, last, heap1, connected, device, isConnected).0;
      AppendUpdated(managers, done, m, connected, device, isConnected);
    }
  }

  lemma AppendUpdated(managers: seq<Manager>, done: seq<Manager>, m: Manager, connected: map<Key, DeviceId>,
                      device: DeviceId, isConnected: bool)
    requires |managers| == |done| + 1 && Updated(managers[|done|], m, connected, device, isConnected)
    requires forall i :: 0 <= i < |done| ==> Updated(managers[..|done|][i], done[i], connected, device, isConnected)
    ensures forall i :: 0 <= i < |managers| ==> Updated(managers[i], (done + [m])[i], connected, device, isConnected)
  {
    forall i | 0 <= i < |done|
      ensures Updated(managers[i], done[i], connected, device, isConnected)
    {
      assert managers[..|done|][i] == managers[i];
    }
  }

  lemma NewRequestStores(env: Environment, w: World, request: DataRequest, streamType: DataStreamType)
    requires Legal(env) && WellKeyed(w.connected)
    ensures var m := OpenRequest(env, Created(w.nextManager, request, streamType), w.heap, w.connected).0;
            m.storages == Wanted(request, w.connected)
  {
    var m := Created(w.nextManager, request, streamType);
    match streamType {
      case DeviceDataStream =>
        Reconciliation.OpenDevicesFills(env, m, w.heap, w.connected, env.order(w.heap.tick, w.connected.Keys), {});
      case DataFrameStream =>
    }
  }

  /** What is known of a run up to now, and of the devices connected after the next event. */
  ghost predicate Known(w: World, front: seq<Event>, w': World, events: seq<Event>, key: Key) {
    && Tracked(w) && AsAsked(w, front) && WellKeyed(w.connected)
    && Find(w.connected, key) == ConnectedNow(front, key) && Find(w'.connected, key) == ConnectedNow(events, key)
  }

  ghost predicate AllStored(w: World, events: seq<Event>, key: Key) {
    forall i :: 0 <= i < |w.managers| ==> Find(w.managers[i].storages, key) == Stored(events, w.managers[i].id, key)
  }

  lemma ManagerStores(m: Manager, front: seq<Event>, device: DeviceId, isConnected: bool,
                      connected: map<Key, DeviceId>, key: Key)
    requires AskedFor(front, m.id) == Some((m.request, m.streamType)) && WellKeyed(connected)
    requires Find(connected, key) == ConnectedNow(front + [DeviceEvent(device, isConnected)], key)
    requires Find(m.storages, key) == Stored(front, m.id, key)
    ensures Find(StoragesAfter(m, connected, device, isConnected), key) ==
            Stored(front + [DeviceEvent(device, isConnected)], m.id, key)
  {
    var events := front + [DeviceEvent(device, isConnected)];
    assert events[..|front|] == front;
    assert AskedFor(events, m.id) == AskedFor(front, m.id);
  }

  lemma EventStores(env: Environment, w: World, front: seq<Event>, device: DeviceId, isConnected: bool, key: Key)
    requires var e := DeviceEvent(device, isConnected); Known(w, front, Step(env, w, e), front + [e], key)
    requires AllStored(w, front, key)
    ensures AllStored(Step(env, w, DeviceEvent(device, isConnected)), front + [DeviceEvent(device, isConnected)], key)
  {
    var connected := ConnectedAfter(w.connected, device, isConnected);
    UpdateAllUpdates(env, w.managers, w.heap, connected, device, isConnected);
    forall i | 0 <= i < |w.managers|
      ensures Find(StoragesAfter(w.managers[i], connected, device, isConnected), key) ==
              Stored(front + [DeviceEvent(device, isConnected)], w.managers[i].id, key)
    {
      ManagerStores(w.managers[i], front, device, isConnected, connected, key);
    }
  }

  lemma RequestStores(env: Environment, w: World, front: seq<Event>, request: DataRequest, streamType: DataStreamType,
                      key: Key)
    requires Legal(env)
    requires var e := RequestData(request, streamType); Known(w, front, Step(env, w, e), front + [e], key)
    requires AllStored(w, front, key)
    ensures AllStored(Step(env, w, RequestData(request, streamType)), front + [RequestData(request, streamType)], key)
  {
    assert (front + [RequestData(request, streamType)])[..|front|] == front;
    var m, heap := OpenedAsAsked(env, w, request, streamType);
    NewRequestStores(env, w, request, streamType);
  }

  lemma CloseStores(env: Environment, w: World, front: seq<Event>, id: nat, key: Key)
    requires AllStored(w, front, key)
    ensures AllStored(Step(env, w, CloseRequest(id)), front + [CloseRequest(id)], key)
  {
    assert (front + [CloseRequest(id)])[..|front|] == front;
    var w', i := Step(env, w, CloseRequest(id)), IndexOf(w.managers, id);
    if i < |w.managers| {
      assert forall j :: 0 <= j < |w'.managers| ==> w'.managers[j] == w.managers[if j < i then j else j + 1];
    }
  }

  lemma StepStores(env: Environment, w: World, front: seq<Event>, e: Event, key: Key)
    requires Legal(env) && Known(w, front, Step(env, w, e), front + [e], key)
    requires AllStored(w, front, key)
    ensures AllStored(Step(env, w, e), front + [e], key)
  {
    match e
    case DeviceEvent(device, isConnected) => EventStores(env, w, front, device, isConnected, key);
    case RequestData(request, streamType) => RequestStores(env, w, front, request, streamType, key);
    case CloseRequest(id) => CloseStores(env, w, front, id, key);
    case _ => assert (front + [e])[..|front|] == front;
  }

  // ---------------------------------------------------------------------------------------------
  // Every run
  // ---------------------------------------------------------------------------------------------

  lemma {:induction false} ConnectedUnderItsKey(events: seq<Event>, key: Key)
    ensures ConnectedNow(events, key).Some? ==> Hash(ConnectedNow(events, key).value) == key
    decreases |events|
  {
    if events != [] {
      ConnectedUnderItsKey(events[..|events| - 1], key);
    }
  }

  lemma RunWellKeyed(env: Environment, events: seq<Event>)
    ensures WellKeyed(Run(env, Start(), events).connected)
  {
    forall key | key in Run(env, Start(), events).connected
      ensures key == Hash(Run(env, Start(), events).connected[key])
    {
      ConnectedByEvents(env, events, key);
      ConnectedUnderItsKey(events, key);
    }
  }

  lemma KnownAfter(env: Environment, front: seq<Event>, e: Event, key: Key)
    requires Legal(env)
    ensures var w := Run(env, Start(), front); Known(w, front, Step(env, w, e), front + [e], key)
  {
    assert (front + [e])[..|front|] == front;
    RunLast(env, Start(), front + [e]);
    RunTracked(env, Start(), front);
    RequestsByEvents(env, front);
    RunWellKeyed(env, front);
    ConnectedByEvents(env, front, key);
    ConnectedByEvents(env, front + [e], key);
  }

  /** Main result on storages: after every run each listed request has exactly the storages that the events call for. */
  lemma {:induction false} StoragesByEvents(env: Environment, events: seq<Event>, key: Key)
    requires Legal(env)
    ensures AllStored(Run(env, Start(), events), events, key)
    decreases |events|
  {
    if events != [] {
      var front, last := events[..|events| - 1], events[|events| - 1];
      assert front + [last] == events;
      StoragesByEvents(env, front, key);
      RunLast(env, Start(), events);
      KnownAfter(env, front, last, key);
      StepStores(env, Run(env, Start(), front), front, last, key);
    }
  }

  // ---------------------------------------------------------------------------------------------
  // Streams for device data
  // ---------------------------------------------------------------------------------------------

  /** The call at this address still calls back for the request. */
  ghost predicate Calls(heap: CallHeap, at: Address, id: nat) {
    at in heap.calls && heap.calls[at].listenerActive && heap.calls[at].manager == id
  }

  /** The call is the request's stream for the device under the key. */
  ghost predicate Delivers(heap: CallHeap, at: Address, id: nat, key: Key) {
    Calls(heap, at, id) && heap.calls[at].kind.DeviceCall? && Hash(heap.calls[at].kind.device) == key
  }

  /** Whether a request for device data has a stream under a key: one is opened with the request, or with a connect of a
      device asked for; it goes with a disconnect of such a device, or when the server ends it. */
  ghost predicate Streamed(env: Environment, events: seq<Event>, id: nat, key: Key)
    decreases |events|
  {
    events != [] &&
    var front, last := events[..|events| - 1], events[|events| - 1];
    match last
    case RequestData(_, _) =>
      if Made(front) == id then WantedUnder(events, id, key).Some? else Streamed(env, front, id, key)
    case DeviceEvent(device, isConnected) =>
      if Hash(device) == key && Asks(front, id, device) then isConnected else Streamed(env, front, id, key)
    case Completion(at, ok) =>
      Streamed(env, front, id, key) && (ok || !Delivers(Run(env, Start(), front).heap, at, id, key))
    case _ => Streamed(env, front, id, key)
  }

  lemma DeliversIsRecorded(m: Manager, heap: CallHeap, at: Address, key: Key)
    requires Owns(m, heap)
    ensures Delivers(heap, at, m.id, key) <==> key in m.streams && m.streams[key] == at
  {}

  ghost predicate AllStreamed(env: Environment, w: World, events: seq<Event>, key: Key) {
    forall i :: 0 <= i < |w.managers| && w.managers[i].streamType.DeviceDataStream? ==>
      (key in w.managers[i].streams <==> Streamed(env, events, w.managers[i].id, key))
  }

  lemma EventStreams(env: Environment, w: World, front: seq<Event>, device: DeviceId, isConnected: bool, key: Key)
    requires AsAsked(w, front) && AllStreamed(env, w, front, key)
    ensures AllStreamed(env, Step(env, w, DeviceEvent(device, isConnected)),
                        front + [DeviceEvent(device, isConnected)], key)
  {
    assert (front + [DeviceEvent(device, isConnected)])[..|front|] == front;
    UpdateAllUpdates(env, w.managers, w.heap, ConnectedAfter(w.connected, device, isConnected), device, isConnected);
  }

  lemma NewRequestStreams(env: Environment, w: World, request: DataRequest)
    requires Legal(env) && WellKeyed(w.connected)
    ensures var m := OpenRequest(env, Created(w.nextManager, request, DeviceDataStream), w.heap, w.connected).0;
            m.streams.Keys == Wanted(request, w.connected).Keys
  {
    var m := Created(w.nextManager, request, DeviceDataStream);
    var order := env.order(w.heap.tick, w.connected.Keys);
    Reconciliation.OpenDevicesFills(env, m, w.heap, w.connected, order, {});
    NewRequestStores(env, w, request, DeviceDataStream);
  }

  lemma RequestStreams(env: Environment, w: World, front: seq<Event>, request: DataRequest, streamType: DataStreamType,
                       key: Key)
    requires Legal(env)
    requires var e := RequestData(request, streamType); Known(w, front, Step(env, w, e), front + [e], key)
    requires AllStreamed(env, w, front, key)
    ensures AllStreamed(env, Step(env, w, RequestData(request, streamType)),
                        front + [RequestData(request, streamType)], key)
  {
    assert (front + [RequestData(request, streamType)])[..|front|] == front;
    var m, heap := OpenedAsAsked(env, w, request, streamType);
    NewRequestStreams(env, w, request);
  }

  lemma CloseStreams(env: Environment, w: World, front: seq<Event>, id: nat, key: Key)
    requires AllStreamed(env, w, front, key)
    ensures AllStreamed(env, Step(env, w, CloseRequest(id)), front + [CloseRequest(id)], key)
  {
    assert (front + [CloseRequest(id)])[..|front|] == front;
    var w', i := Step(env, w, CloseRequest(id)), IndexOf(w.managers, id);
    if i < |w.managers| {
      assert forall j :: 0 <= j < |w'.managers| ==> w'.managers[j] == w.managers[if j < i then j else j + 1];
    }
  }

  lemma CompletionStreams(env: Environment, front: seq<Event>, at: Address, ok: bool, key: Key)
    requires var w := Run(env, Start(), front); Tracked(w) && AllStreamed(env, w, front, key)
    ensures AllStreamed(env, Step(env, Run(env, Start(), front), Completion(at, ok)), front + [Completion(at, ok)], key)
  {
    var w := Run(env, Start(), front);
    assert (front + [Completion(at, ok)])[..|front|] == front;
    if !ok {
      FailedStep(env, w, at);
      var w' := Step(env, w, Completion(at, ok));
      forall i | 0 <= i < |w.managers|
        ensures w'.managers[i].streamType == w.managers[i].streamType
        ensures key in w'.managers[i].streams <==>
                key in w.managers[i].streams && !Delivers(w.heap, at, w.managers[i].id, key)
      {
        assert ForgetsOnly(w.managers[i], w'.managers[i], at);
        DeliversIsRecorded(w.managers[i], w.heap, at, key);
      }
    }
  }

  lemma StepStreams(env: Environment, front: seq<Event>, e: Event, key: Key)
    requires Legal(env)
    requires var w := Run(env, Start(), front);
             Known(w, front, Step(env, w, e), front + [e], key) && AllStreamed(env, w, front, key)
    ensures AllStreamed(env, Step(env, Run(env, Start(), front), e), front + [e], key)
  {
    var w := Run(env, Start(), front);
    match e
    case DeviceEvent(device, isConnected) => EventStreams(env, w, front, device, isConnected, key);
    case RequestData(request, streamType) => RequestStreams(env, w, front, request, streamType, key);
    case CloseRequest(id) => CloseStreams(env, w, front, id, key);
    case Completion(at, ok) => CompletionStreams(env, front, at, ok, key);
    case ChannelLost => assert (front + [e])[..|front|] == front;
  }

  /** Main result on streams for device data: after every run they are exactly those that the events call for. */
  lemma {:induction false} StreamsByEvents(env: Environment, events: seq<Event>, key: Key)
    requires Legal(env)
    ensures AllStreamed(env, Run(env, Start(), events), events, key)
    decreases |events|
  {
    if events != [] {
      var front, last := events[..|events| - 1], events[|events| - 1];
      assert front + [last] == events;
      StreamsByEvents(env, front, key);
      RunLast(env, Start(), events);
      KnownAfter(env, front, last, key);
      StepStreams(env, front, last, key);
    }
  }

  // ---------------------------------------------------------------------------------------------
  // The stream for data frames
  // ---------------------------------------------------------------------------------------------

  /** The call is a stream for data frames of the request. */
  ghost predicate DeliversFrames(heap: CallHeap, at: Address, id: nat) {
    Calls(heap, at, id) && heap.calls[at].kind.FrameCall?
  }

  /** The events up to the opening of the stream that a request for data frames has: it is opened with the request, and
      again with every event of a device asked for; it goes when the server ends it. */
  ghost function OpenedAfter(env: Environment, events: seq<Event>, id: nat): Option<seq<Event>>
    decreases |events|
  {
    if events == [] then None
    else
      var front, last := events[..|events| - 1], events[|events| - 1];
      match last
      case RequestData(_, _) => if Made(front) == id then Some(events) else OpenedAfter(env, front, id)
      case DeviceEvent(device, _) => if Asks(front, id, device) then Some(events) else OpenedAfter(env, front, id)
      case Completion(at, ok) =>
        if !ok && DeliversFrames(Run(env, Start(), front).heap, at, id) then None else OpenedAfter(env, front, id)
      case _ => OpenedAfter(env, front, id)
  }

  /** The devices that the recorded stream for data frames was opened with. */
  function Shown(m: Manager, heap: CallHeap): Option<set<DeviceId>> {
    if m.frame.Some? && m.frame.value in heap.calls && heap.calls[m.frame.value].kind.FrameCall? then
      Some(heap.calls[m.frame.value].kind.devices)
    else None
  }

  /** A request for data frames has a stream exactly if the events call for one, and that has the device exactly if it
      was connected and asked for when the stream was opened. */
  ghost predicate ShowsAsCalled(env: Environment, m: Manager, heap: CallHeap, events: seq<Event>, device: DeviceId) {
    var shown, since := Shown(m, heap), OpenedAfter(env, events, m.id);
    && (shown.Some? <==> since.Some?)
    && (shown.Some? ==>
          (device in shown.value <==> WantedUnder(since.value, m.id, Hash(device)) == Some(device)))
  }

  ghost predicate AllShow(env: Environment, w: World, events: seq<Event>, device: DeviceId) {
    forall i :: 0 <= i < |w.managers| && w.managers[i].streamType.DataFrameStream? ==>
      ShowsAsCalled(env, w.managers[i], w.heap, events, device)
  }

  lemma WantedIsConnected(events: seq<Event>, id: nat, request: DataRequest, connected: map<Key, DeviceId>,
                          device: DeviceId)
    requires WellKeyed(connected) && Find(connected, Hash(device)) == ConnectedNow(events, Hash(device))
    requires AskedFor(events, id).Some? && AskedFor(events, id).value.0 == request
    ensures device in Wanted(request, connected).Values <==>
            WantedUnder(events, id, Hash(device)) == Some(device)
  {
    var wanted := Wanted(request, connected);
    if device in wanted.Values {
      var k :| k in wanted && wanted[k] == device;
    }
    if WantedUnder(events, id, Hash(device)) == Some(device) {
      assert Hash(device) in wanted && wanted[Hash(device)] == device;
    }
  }

  lemma OthersStillShow(m: Manager, before: CallHeap, after: CallHeap, id: nat)
    requires Owns(m, before) && OthersKept(before, after, id) && m.id != id
    ensures Shown(m, after) == Shown(m, before)
  {}

  lemma OutsiderStillShows(m: Manager, before: CallHeap, after: CallHeap, managers: seq<Manager>)
    requires Owns(m, before) && OutsideKept(before, after, managers) && !Listed(managers, m.id)
    ensures Shown(m, after) == Shown(m, before)
  {}

  /** What a request for data frames shows after a device event. */
  function ShownAfter(m: Manager, heap: CallHeap, connected: map<Key, DeviceId>,
                      device: DeviceId): Option<set<DeviceId>>
  {
    if Requested(m.request, device) then Some(Wanted(m.request, connected).Values) else Shown(m, heap)
  }

  ghost predicate ShownIs(managers: seq<Manager>, heap: CallHeap, after: seq<Manager>, heap': CallHeap,
                          connected: map<Key, DeviceId>, device: DeviceId)
  {
    && |after| == |managers|
    && forall i :: 0 <= i < |managers| && managers[i].streamType.DataFrameStream? ==>
         Shown(after[i], heap') == ShownAfter(managers[i], heap, connected, device)
  }

  lemma UpdateLastShows(env: Environment, front: seq<Manager>, last: Manager, heap: CallHeap, done: seq<Manager>,
                        heap1: CallHeap, connected: map<Key, DeviceId>, device: DeviceId, isConnected: bool)
    requires Legal(env) && Distinct(front + [last]) && Owns(last, heap)
    requires SameRequests(front, done) && AllOwn(done, heap1) && OutsideKept(heap, heap1, front)
    requires ShownIs(front, heap, done, heap1, connected, device)
    ensures var (m, heap2) := UpdateManager(env, last, heap1, connected, device, isConnected);
            ShownIs(front + [last], heap, done + [m], heap2, connected, device)
  {
    NotListed(front, last);
    OutsiderStillOwns(last, heap, heap1, front);
    OutsiderStillShows(last, heap, heap1, front);
    UpdateManagerOwns(env, last, heap1, connected, device, isConnected);
    var (m, heap2) := UpdateManager(env, last, heap1, connected, device, isConnected);
    forall i | 0 <= i < |front|
      ensures Shown(done[i], heap2) == Shown(done[i], heap1)
    {
      assert Listed(front, front[i].id);
      OthersStillShow(done[i], heap1, heap2, last.id);
    }
  }

  lemma {:induction false} UpdateAllShows(env: Environment, managers: seq<Manager>, heap: CallHeap,
                                          connected: map<Key, DeviceId>, device: DeviceId, isConnected: bool)
    requires Legal(env) && Distinct(managers) && AllOwn(managers, heap)
    ensures var (after, heap') := UpdateAll(env, managers, heap, connected, device, isConnected);
            ShownIs(managers, heap, after, heap', connected, device)
    decreases |managers|
  {
    if managers != [] {
      var front, last := managers[..|managers| - 1], managers[|managers| - 1];
      assert managers == front + [last];
      UpdateAllShows(env, front, heap, connected, device, isConnected);
      UpdateAllOwns(env, front, heap, connected, device, isConnected);
      var (done, heap1) := UpdateAll(env, front, heap, connected, device, isConnected);
      UpdateLastShows(env, front, last, heap, done, heap1, connected, device, isConnected);
    }
  }

  lemma ManagerShows(env: Environment, m: Manager, heap: CallHeap, m': Manager, heap': CallHeap, front: seq<Event>,
                     device: DeviceId, isConnected: bool, connected: map<Key, DeviceId>, other: DeviceId)
    requires AskedFor(front, m.id) == Some((m.request, m.streamType)) && WellKeyed(connected) && m'.id == m.id
    requires Find(connected, Hash(other)) == ConnectedNow(front + [DeviceEvent(device, isConnected)], Hash(other))
    requires ShowsAsCalled(env, m, heap, front, other) && Shown(m', heap') == ShownAfter(m, heap, connected, device)
    ensures ShowsAsCalled(env, m', heap', front + [DeviceEvent(device, isConnected)], other)
  {
    var events := front + [DeviceEvent(device, isConnected)];
    assert events[..|front|] == front;
    assert AskedFor(events, m.id) == AskedFor(front, m.id);
    WantedIsConnected(events, m.id, m.request, connected, other);
  }

  lemma EventShows(env: Environment, w: World, front: seq<Event>, device: DeviceId, isConnected: bool, other: DeviceId)
    requires Legal(env)
    requires var e := DeviceEvent(device, isConnected); Known(w, front, Step(env, w, e), front + [e], Hash(other))
    requires AllShow(env, w, front, other)
    ensures AllShow(env, Step(env, w, DeviceEvent(device, isConnected)), front + [DeviceEvent(device, isConnected)],
                    other)
  {
    var connected := ConnectedAfter(w.connected, device, isConnected);
    var w' := Step(env, w, DeviceEvent(device, isConnected));
    UpdateAllShows(env, w.managers, w.heap, connected, device, isConnected);
    UpdateAllOwns(env, w.managers, w.heap, connected, device, isConnected);
    forall i | 0 <= i < |w.managers| && w'.managers[i].streamType.DataFrameStream?
      ensures ShowsAsCalled(env, w'.managers[i], w'.heap, front + [DeviceEvent(device, isConnected)], other)
    {
      ManagerShows(env, w.managers[i], w.heap, w'.managers[i], w'.heap, front, device, isConnected, connected, other);
    }
  }

  lemma RequestShows(env: Environment, w: World, front: seq<Event>, request: DataRequest, streamType: DataStreamType,
                     device: DeviceId)
    requires Legal(env)
    requires var e := RequestData(request, streamType);
             Known(w, front, Step(env, w, e), front + [e], Hash(device))
    requires AllShow(env, w, front, device)
    ensures AllShow(env, Step(env, w, RequestData(request, streamType)), front + [RequestData(request, streamType)],
                    device)
  {
    var events := front + [RequestData(request, streamType)];
    assert events[..|front|] == front;
    var created := Created(w.nextManager, request, streamType);
    assert Owns(created, w.heap);
    OpenRequestOwns(env, created, w.heap, w.connected);
    WantedIsConnected(events, w.nextManager, request, w.connected, device);
    var w' := Step(env, w, RequestData(request, streamType));
    forall i | 0 <= i < |w.managers| && w.managers[i].streamType.DataFrameStream?
      ensures ShowsAsCalled(env, w.managers[i], w'.heap, events, device)
    {
      assert ShowsAsCalled(env, w.managers[i], w.heap, front, device);
      OthersStillShow(w.managers[i], w.heap, w'.heap, w.nextManager);
    }
  }

  /** A close changes neither the other requests nor their calls. */
  lemma CloseKeeps(env: Environment, w: World, id: nat, j: nat) returns (m: Manager)
    requires Tracked(w) && j < |Step(env, w, CloseRequest(id)).managers|
    ensures m in w.managers && Step(env, w, CloseRequest(id)).managers[j] == m
    ensures Shown(m, Step(env, w, CloseRequest(id)).heap) == Shown(m, w.heap)
  {
    var w', i := Step(env, w, CloseRequest(id)), IndexOf(w.managers, id);
    if i < |w.managers| {
      m := w.managers[if j < i then j else j + 1];
      CancelledAllInactive(w.managers[i], w.heap);
      OthersStillShow(m, w.heap, w'.heap, id);
    } else {
      m := w.managers[j];
    }
  }

  lemma CloseShows(env: Environment, w: World, front: seq<Event>, id: nat, device: DeviceId)
    requires Tracked(w) && AllShow(env, w, front, device)
    ensures AllShow(env, Step(env, w, CloseRequest(id)), front + [CloseRequest(id)], device)
  {
    assert (front + [CloseRequest(id)])[..|front|] == front;
    var w' := Step(env, w, CloseRequest(id));
    forall j | 0 <= j < |w'.managers| && w'.managers[j].streamType.DataFrameStream?
      ensures ShowsAsCalled(env, w'.managers[j], w'.heap, front + [CloseRequest(id)], device)
    {
      var m := CloseKeeps(env, w, id, j);
      assert ShowsAsCalled(env, m, w.heap, front, device);
    }
  }

  lemma FailureShows(m: Manager, heap: CallHeap, m': Manager, heap': CallHeap, at: Address)
    requires Owns(m, heap) && heap'.calls == heap.calls - {at} && ForgetsOnly(m, m', at)
    ensures Shown(m', heap') == if DeliversFrames(heap, at, m.id) then None else Shown(m, heap)
  {}

  lemma CompletionShows(env: Environment, front: seq<Event>, at: Address, ok: bool, device: DeviceId)
    requires var w := Run(env, Start(), front); Tracked(w) && AllShow(env, w, front, device)
    ensures AllShow(env, Step(env, Run(env, Start(), front), Completion(at, ok)), front + [Completion(at, ok)], device)
  {
    var w := Run(env, Start(), front);
    assert (front + [Completion(at, ok)])[..|front|] == front;
    if !ok {
      FailedStep(env, w, at);
      var w' := Step(env, w, Completion(at, ok));
      forall i | 0 <= i < |w.managers| && w'.managers[i].streamType.DataFrameStream?
        ensures ShowsAsCalled(env, w'.managers[i], w'.heap, front + [Completion(at, ok)], device)
      {
        assert ForgetsOnly(w.managers[i], w'.managers[i], at);
        assert ShowsAsCalled(env, w.managers[i], w.heap, front, device);
        FailureShows(w.managers[i], w.heap, w'.managers[i], w'.heap, at);
      }
    }
  }

  lemma StepShows(env: Environment, front: seq<Event>, e: Event, device: DeviceId)
    requires Legal(env)
    requires var w := Run(env, Start(), front);
             Known(w, front, Step(env, w, e), front + [e], Hash(device)) && AllShow(env, w, front, device)
    ensures AllShow(env, Step(env, Run(env, Start(), front), e), front + [e], device)
  {
    var w := Run(env, Start(), front);
    match e
    case DeviceEvent(other, isConnected) => EventShows(env, w, front, other, isConnected, device);
    case RequestData(request, streamType) => RequestShows(env, w, front, request, streamType, device);
    case CloseRequest(id) => CloseShows(env, w, front, id, device);
    case Completion(at, ok) => CompletionShows(env, front, at, ok, device);
    case ChannelLost => assert (front + [e])[..|front|] == front;
  }

  /** Main result on streams for data frames: after every run each such request has the stream that the events call for,
      with exactly the devices that were connected and asked for when it was opened. */
  lemma {:induction false} FramesByEvents(env: Environment, events: seq<Event>, device: DeviceId)
    requires Legal(env)
    ensures AllShow(env, Run(env, Start(), events), events, device)
    decreases |events|
  {
    if events != [] {
      var front, last := events[..|events| - 1], events[|events| - 1];
      assert front + [last] == events;
      FramesByEvents(env, front, device);
      RunLast(env, Start(), events);
      KnownAfter(env, front, last, Hash(device));
      StepShows(env, front, last, device);
    }
  }
}
