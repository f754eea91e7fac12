/** The state of ClientManager told from the events alone (src/client_manager.cpp): which devices are connected, which
    requests are open and what they asked for, and what they are served with. Nothing here looks at the steps. */
module RequestHistory {
  import opened SdkTypes
  import opened SdkUtils
  import opened RequestTracking
  import Reconciliation

  /** The device connected under a key: since the channel was last lost, the last event under that key was a connect of
      it. */
  function ConnectedNow(events: seq<Event>, key: Key): Option<DeviceId> {
    if events == [] then None
    else
      var front, last := events[..|events| - 1], events[|events| - 1];
      match last
      case DeviceEvent(device, isConnected) =>
        if Hash(device) == key then (if isConnected then Some(device) else None) else ConnectedNow(front, key)
      case ChannelLost => None
      case _ => ConnectedNow(front, key)
  }

  /** How many requests have been made; they are numbered in that order. */
  function Made(events: seq<Event>): nat {
    if events == [] then 0
    else Made(events[..|events| - 1]) + if events[|events| - 1].RequestData? then 1 else 0
  }

  /** What the request with that number asked for. */
  function AskedFor(events: seq<Event>, id: nat): Option<(DataRequest, DataStreamType)> {
    if events == [] then None
    else
      var front, last := events[..|events| - 1], events[|events| - 1];
      if last.RequestData? && Made(front) == id then Some((last.request, last.streamType)) else AskedFor(front, id)
  }

  /** The request has been made and not been closed since. */
  predicate IsOpen(events: seq<Event>, id: nat) {
    events != [] &&
    var front, last := events[..|events| - 1], events[|events| - 1];
    (last.RequestData? && Made(front) == id) || (IsOpen(front, id) && last != CloseRequest(id))
  }

  lemma {:induction false} RunLast(env: Environment, w: World, events: seq<Event>)
    requires events != []
    ensures Run(env, w, events) == Step(env, Run(env, w, events[..|events| - 1]), events[|events| - 1])
    decreases |events|
  {
    if |events| > 1 {
      RunLast(env, Step(env, w, events[0]), events[1..]);
      assert events[1..][..|events| - 2] == events[..|events| - 1][1..];
    }
  }

  /** Main result on connections, over every run, channel losses included. */
  lemma {:induction false} ConnectedByEvents(env: Environment, events: seq<Event>, key: Key)
    ensures var connected := Run(env, Start(), events).connected;
            match ConnectedNow(events, key)
            case None => key !in connected
            case Some(device) => key in connected && connected[key] == device
    decreases |events|
  {
    if events != [] {
      ConnectedByEvents(env, events[..|events| - 1], key);
      RunLast(env, Start(), events);
    }
  }

  /** Each listed request is open and is what it asked to be. */
  ghost predicate AsAsked(w: World, events: seq<Event>) {
    && w.nextManager == Made(events)
    && (forall id :: Listed(w.managers, id) <==> IsOpen(events, id))
    && forall i :: 0 <= i < |w.managers| ==>
         AskedFor(events, w.managers[i].id) == Some((w.managers[i].request, w.managers[i].streamType))
  }

  lemma SameRequestsAsAsked(w: World, w': World, front: seq<Event>, last: Event)
    requires AsAsked(w, front) && SameRequests(w.managers, w'.managers) && w'.nextManager == w.nextManager
    requires !last.RequestData? && !last.CloseRequest?
    ensures AsAsked(w', front + [last])
  {
    assert (front + [last])[..|front|] == front;
    SameRequestsListed(w.managers, w'.managers);
  }

  lemma RequestAsAsked(env: Environment, w: World, front: seq<Event>, request: DataRequest, streamType: DataStreamType)
    requires Legal(env) && Tracked(w) && AsAsked(w, front)
    ensures AsAsked(Step(env, w, RequestData(request, streamType)), front + [RequestData(request, streamType)])
  {
    var events := front + [RequestData(request, streamType)];
    assert events[..|front|] == front;
    var m, heap := OpenedAsAsked(env, w, request, streamType);
    ListedAppend(w.managers, m);
  }

  lemma OpenedAsAsked(env: Environment, w: World, request: DataRequest, streamType: DataStreamType)
    returns (m: Manager, heap: CallHeap)
    requires Legal(env) && Tracked(w)
    ensures Step(env, w, RequestData(request, streamType)) ==
            World(w.connected, w.managers + [m], heap, w.nextManager + 1)
    ensures m.id == w.nextManager && m.request == request && m.streamType == streamType
  {
    var created := Created(w.nextManager, request, streamType);
    assert Owns(created, w.heap);
    OpenRequestOwns(env, created, w.heap, w.connected);
    m, heap := OpenRequest(env, created, w.heap, w.connected).0, OpenRequest(env, created, w.heap, w.connected).1;
  }

  lemma CloseAsAsked(env: Environment, w: World, front: seq<Event>, id: nat)
    requires Tracked(w) && AsAsked(w, front)
    ensures AsAsked(Step(env, w, CloseRequest(id)), front + [CloseRequest(id)])
  {
    assert (front + [CloseRequest(id)])[..|front|] == front;
    var w' := Step(env, w, CloseRequest(id));
    var i := IndexOf(w.managers, id);
    if i < |w.managers| {
      RemovedListed(w.managers, i);
      assert forall j :: 0 <= j < |w'.managers| ==> w'.managers[j] == w.managers[if j < i then j else j + 1];
    }
  }

  lemma RemovedListed(managers: seq<Manager>, i: nat)
    requires i < |managers| && Distinct(managers)
    ensures forall id :: Listed(RemoveAt(managers, i), id) <==> Listed(managers, id) && id != managers[i].id
  {
    var rest := RemoveAt(managers, i);
    forall id
      ensures Listed(rest, id) <==> Listed(managers, id) && id != managers[i].id
    {
      if Listed(rest, id) {
        var j :| 0 <= j < |rest| && rest[j].id == id;
        assert rest[j] == managers[if j < i then j else j + 1];
      }
      if Listed(managers, id) && id != managers[i].id {
        ListedRemoved(managers, i, id);
      }
    }
  }

  lemma OtherEventsKeepRequests(env: Environment, w: World, e: Event)
    requires Legal(env) && Tracked(w) && !e.RequestData? && !e.CloseRequest?
    ensures SameRequests(w.managers, Step(env, w, e).managers) && Step(env, w, e).nextManager == w.nextManager
  {
    if e.DeviceEvent? {
      UpdateAllOwns(env, w.managers, w.heap, ConnectedAfter(w.connected, e.device, e.isConnected), e.device,
                    e.isConnected);
    }
  }

  lemma StepAsAsked(env: Environment, w: World, front: seq<Event>, e: Event)
    requires Legal(env) && Tracked(w) && AsAsked(w, front)
    ensures AsAsked(Step(env, w, e), front + [e])
  {
    if e.RequestData? {
      RequestAsAsked(env, w, front, e.request, e.streamType);
    } else if e.CloseRequest? {
      CloseAsAsked(env, w, front, e.manager);
    } else {
      OtherEventsKeepRequests(env, w, e);
      SameRequestsAsAsked(w, Step(env, w, e), front, e);
    }
  }

  /** Main result on requests, over every run: exactly the requests made and not closed are listed, each with the device
      list and the kind that it was made with. */
  lemma {:induction false} RequestsByEvents(env: Environment, events: seq<Event>)
    requires Legal(env)
    ensures AsAsked(Run(env, Start(), events), events)
    decreases |events|
  {
    if events != [] {
      var front, last := events[..|events| - 1], events[|events| - 1];
      RequestsByEvents(env, front);
      RunTracked(env, Start(), front);
      RunLast(env, Start(), events);
      assert front + [last] == events;
      StepAsAsked(env, Run(env, Start(), front), front, last);
    }
  }

  // ---------------------------------------------------------------------------------------------
  // What a request is served with
  // ---------------------------------------------------------------------------------------------

  /** The device is connected, and the request asks for it: by name, or by an empty list. */
  predicate Due(events: seq<Event>, request: DataRequest, device: DeviceId) {
    && ConnectedNow(events, Hash(device)) == Some(device)
    && (request == [] || exists i :: 0 <= i < |request| && request[i] == device)
  }

  /** The request has a storage for a device exactly if that is due, and so it is with a stream, or with the devices of
      its active frame stream. */
  ghost predicate Serves(m: Manager, heap: CallHeap, device: DeviceId, due: bool) {
    && (Hash(device) in m.storages <==> due)
    && match m.streamType
       case DeviceDataStream =>
         && (Hash(device) in m.streams <==> due)
         && (due ==> m.streams[Hash(device)] in heap.calls && heap.calls[m.streams[Hash(device)]].listenerActive)
       case DataFrameStream =>
         && m.frame.Some? && m.frame.value in heap.calls && heap.calls[m.frame.value].listenerActive
         && heap.calls[m.frame.value].kind.FrameCall?
         && (device in heap.calls[m.frame.value].kind.devices <==> due)
  }

  /** Main result on what requests get, told from the events alone: after every calm run over devices with different
      keys, each open request serves exactly the devices that are connected and that it asked for. */
  lemma ServedAsAsked(env: Environment, events: seq<Event>, devices: iset<DeviceId>, i: nat, device: DeviceId)
    requires Legal(env) && KeysApart(devices) && Reconciliation.AllCalm(env, Start(), events, devices)
    requires i < |Run(env, Start(), events).managers| && device in devices
    ensures var w := Run(env, Start(), events);
            && IsOpen(events, w.managers[i].id) && AskedFor(events, w.managers[i].id).Some?
            && var (request, streamType) := AskedFor(events, w.managers[i].id).value;
               && w.managers[i].streamType == streamType
               && Serves(w.managers[i], w.heap, device, Due(events, request, device))
  {
    var w := Run(env, Start(), events);
    RequestsByEvents(env, events);
    assert Listed(w.managers, w.managers[i].id);
    Reconciliation.RunInStepFrom(env, Start(), events, devices);
    ConnectedByEvents(env, events, Hash(device));
    assert Reconciliation.InStep(w.managers[i], w.connected, w.heap) && Owns(w.managers[i], w.heap);
    WantedIsDue(w, events, w.managers[i].request, device, devices);
  }

  lemma WantedIsDue(w: World, events: seq<Event>, request: DataRequest, device: DeviceId, devices: iset<DeviceId>)
    requires KeysApart(devices) && Reconciliation.KeyedWithin(w.connected, devices) && device in devices
    requires match ConnectedNow(events, Hash(device))
             case None => Hash(device) !in w.connected
             case Some(d) => Hash(device) in w.connected && w.connected[Hash(device)] == d
    ensures Hash(device) in Wanted(request, w.connected) <==> Due(events, request, device)
    ensures device in Wanted(request, w.connected).Values <==> Due(events, request, device)
  {
    var wanted := Wanted(request, w.connected);
    if Hash(device) in wanted {
      assert wanted[Hash(device)] == device;
    }
    if device in wanted.Values {
      var k :| k in wanted && wanted[k] == device;
    }
  }

  // ---------------------------------------------------------------------------------------------
  // A lost channel
  // ---------------------------------------------------------------------------------------------

  lemma {:induction false} RunConcat(env: Environment, w: World, a: seq<Event>, b: seq<Event>)
    ensures Run(env, w, a + b) == Run(env, Run(env, w, a), b)
    decreases |a|
  {
    if a == [] {
      assert a + b == b;
    } else {
      assert (a + b)[1..] == a[1..] + b;
      RunConcat(env, Step(env, w, a[0]), a[1..], b);
    }
  }

  /** Nothing is connected, and requests from number n on have neither storages nor device streams. */
  ghost predicate NothingSince(w: World, n: nat) {
    && w.connected == map[] && n <= w.nextManager
    && forall i :: 0 <= i < |w.managers| && w.managers[i].id >= n ==>
         w.managers[i].storages == map[] && w.managers[i].streams == map[]
  }

  lemma EmptyOrHolds(order: seq<Key>)
    ensures order == [] || exists k :: k in order
  {
    if order != [] {
      assert order[0] in order;
    }
  }

  lemma RequestFindsNothing(env: Environment, m: Manager, heap: CallHeap)
    requires Legal(env)
    ensures var (m', heap') := OpenRequest(env, m, heap, map[]);
            && m'.id == m.id && m'.storages == m.storages && m'.streams == m.streams
            && (m.streamType.DataFrameStream? ==>
                  m'.frame.Some? && m'.frame.value in heap'.calls && heap'.calls[m'.frame.value].kind == FrameCall({}))
  {
    var none: map<Key, DeviceId> := map[];
    match m.streamType {
      case DeviceDataStream =>
        var order := env.order(heap.tick, none.Keys);
        EmptyOrHolds(order);
      case DataFrameStream =>
        assert Wanted(m.request, none) == map[] && none + m.storages == m.storages;
    }
  }

  lemma CloseFindsNothing(env: Environment, w: World, id: nat, n: nat)
    requires NothingSince(w, n)
    ensures NothingSince(Step(env, w, CloseRequest(id)), n)
  {
    var w', i := Step(env, w, CloseRequest(id)), IndexOf(w.managers, id);
    if i < |w.managers| {
      assert forall j :: 0 <= j < |w'.managers| ==> w'.managers[j] == w.managers[if j < i then j else j + 1];
    }
  }

  lemma CompletionFindsNothing(env: Environment, w: World, at: Address, ok: bool, n: nat)
    requires NothingSince(w, n)
    ensures NothingSince(Step(env, w, Completion(at, ok)), n)
  {
    if !ok && at in w.heap.calls {
      var i := IndexOf(w.managers, w.heap.calls[at].manager);
      assert i < |w.managers| ==> w.managers[i] in w.managers;
    }
  }

  lemma StepFindsNothing(env: Environment, w: World, e: Event, n: nat)
    requires Legal(env) && NothingSince(w, n) && !e.DeviceEvent?
    ensures NothingSince(Step(env, w, e), n)
  {
    match e
    case RequestData(request, streamType) =>
      RequestFindsNothing(env, Created(w.nextManager, request, streamType), w.heap);
    case CloseRequest(id) => CloseFindsNothing(env, w, id, n);
    case Completion(at, ok) => CompletionFindsNothing(env, w, at, ok, n);
    case ChannelLost =>
  }

  lemma {:induction false} RunFindsNothing(env: Environment, w: World, events: seq<Event>, n: nat)
    requires Legal(env) && NothingSince(w, n)
    requires forall i :: 0 <= i < |events| ==> !events[i].DeviceEvent?
    ensures NothingSince(Run(env, w, events), n)
    decreases |events|
  {
    if events != [] {
      StepFindsNothing(env, w, events[0], n);
      RunFindsNothing(env, Step(env, w, events[0]), events[1..], n);
    }
  }

  /** Losing the channel changes no request and no call. Until a device event comes nothing is connected after it, and
      every request made since has neither storages nor streams. */
  lemma NothingUntilAnEvent(env: Environment, before: seq<Event>, after: seq<Event>)
    requires Legal(env) && forall i :: 0 <= i < |after| ==> !after[i].DeviceEvent?
    ensures var lost := Run(env, Start(), before + [ChannelLost]);
            lost.managers == Run(env, Start(), before).managers && lost.heap == Run(env, Start(), before).heap
    ensures NothingSince(Run(env, Start(), before + [ChannelLost] + after), Made(before))
  {
    var lost := before + [ChannelLost];
    assert lost[..|before|] == before;
    RunLast(env, Start(), lost);
    RunConcat(env, Start(), lost, after);
    RequestsByEvents(env, before);
    RunTracked(env, Start(), before);
    RunFindsNothing(env, Run(env, Start(), lost), after, Made(before));
  }

  // ---------------------------------------------------------------------------------------------
  // A call that has failed
  // ---------------------------------------------------------------------------------------------

  ghost predicate ForgetsOnly(m: Manager, m': Manager, at: Address) {
    && m'.id == m.id && m'.request == m.request && m'.streamType == m.streamType && m'.storages == m.storages
    && m'.frame == (if m.frame == Some(at) then None else m.frame)
    && (forall k :: k in m'.streams <==> k in m.streams && m.streams[k] != at)
    && (forall k :: k in m'.streams ==> m'.streams[k] == m.streams[k])
  }

  lemma OwnerForgets(m: Manager, heap: CallHeap, at: Address)
    requires Owns(m, heap)
    ensures at in heap.calls && heap.calls[at].manager == m.id ==> ForgetsOnly(m, ForgetStream(m, at), at)
    ensures !(at in heap.calls && heap.calls[at].manager == m.id) ==> ForgetsOnly(m, m, at)
  {}

  lemma AllForget(managers: seq<Manager>, heap: CallHeap, at: Address, i: nat)
    requires AllOwn(managers, heap) && Distinct(managers) && at in heap.calls
    requires i == IndexOf(managers, heap.calls[at].manager)
    ensures |Forgotten(managers, i, at)| == |managers|
    ensures forall j :: 0 <= j < |managers| ==> ForgetsOnly(managers[j], Forgotten(managers, i, at)[j], at)
  {
    forall j | 0 <= j < |managers|
      ensures ForgetsOnly(managers[j], Forgotten(managers, i, at)[j], at)
    {
      assert i < |managers| && i != j ==> managers[i].id != managers[j].id;
      OwnerForgets(managers[j], heap, at);
    }
  }

  lemma FailedStep(env: Environment, w: World, at: Address)
    requires Tracked(w)
    ensures var w' := Step(env, w, Completion(at, false));
            && w'.heap.calls == w.heap.calls - {at} && w'.connected == w.connected && |w'.managers| == |w.managers|
            && forall i :: 0 <= i < |w.managers| ==> ForgetsOnly(w.managers[i], w'.managers[i], at)
  {
    if at in w.heap.calls {
      AllForget(w.managers, w.heap, at, IndexOf(w.managers, w.heap.calls[at].manager));
    } else {
      assert w.heap.calls - {at} == w.heap.calls;
      forall i | 0 <= i < |w.managers|
        ensures ForgetsOnly(w.managers[i], w.managers[i], at)
      {
        OwnerForgets(w.managers[i], w.heap, at);
      }
    }
  }

  /** After a failed completion the call is gone and no request has it recorded; every other call, every other record
      and all storages are as before. */
  lemma FailedCallIsGone(env: Environment, events: seq<Event>, at: Address)
    requires Legal(env)
    ensures var w, w' := Run(env, Start(), events), Run(env, Start(), events + [Completion(at, false)]);
            && w'.heap.calls == w.heap.calls - {at} && w'.connected == w.connected && |w'.managers| == |w.managers|
            && forall i :: 0 <= i < |w.managers| ==> ForgetsOnly(w.managers[i], w'.managers[i], at)
  {
    var all := events + [Completion(at, false)];
    assert all[..|events|] == events;
    RunLast(env, Start(), all);
    RunTracked(env, Start(), events);
    FailedStep(env, Run(env, Start(), events), at);
  }

  // ---------------------------------------------------------------------------------------------
  // A run
  // ---------------------------------------------------------------------------------------------

  function TwoConnectedOf(a: DeviceId, b: DeviceId, c: DeviceId, streamType: DataStreamType): seq<Event> {
    [DeviceEvent(a, true)] + [DeviceEvent(b, true)] + [DeviceEvent(c, true)] + [RequestData([a, b], streamType)]
  }

  lemma {:induction false} EventsAreCalm(env: Environment, w: World, events: seq<Event>, devices: iset<DeviceId>)
    requires forall i :: 0 <= i < |events| ==>
               events[i].RequestData? || (events[i].DeviceEvent? && events[i].device in devices)
    ensures Reconciliation.AllCalm(env, w, events, devices)
    decreases |events|
  {
    if events != [] {
      EventsAreCalm(env, Step(env, w, events[0]), events[1..], devices);
    }
  }

  lemma TwoConnectedFacts(a: DeviceId, b: DeviceId, c: DeviceId, streamType: DataStreamType)
    requires Hash(a) != Hash(b) && Hash(b) != Hash(c) && Hash(a) != Hash(c)
    ensures var events := TwoConnectedOf(a, b, c, streamType);
            && (forall id :: IsOpen(events, id) <==> id == 0) && AskedFor(events, 0) == Some(([a, b], streamType))
            && ConnectedNow(events, Hash(a)) == Some(a) && ConnectedNow(events, Hash(b)) == Some(b)
            && ConnectedNow(events, Hash(c)) == Some(c)
  {
    var none: seq<Event> := [];
    var e1 := [DeviceEvent(a, true)];
    var e2 := e1 + [DeviceEvent(b, true)];
    var e3 := e2 + [DeviceEvent(c, true)];
    assert none + [DeviceEvent(a, true)] == e1;
    HistoryAppend(none, DeviceEvent(a, true));
    HistoryAppend(e1, DeviceEvent(b, true));
    HistoryAppend(e2, DeviceEvent(c, true));
    HistoryAppend(e3, RequestData([a, b], streamType));
  }

  /** One more event in the history. */
  lemma HistoryAppend(front: seq<Event>, e: Event)
    ensures Made(front + [e]) == Made(front) + if e.RequestData? then 1 else 0
    ensures forall key :: ConnectedNow(front + [e], key) ==
              if e.DeviceEvent? && Hash(e.device) == key then (if e.isConnected then Some(e.device) else None)
              else if e.ChannelLost? then None else ConnectedNow(front, key)
    ensures forall id :: IsOpen(front + [e], id) <==>
              (e.RequestData? && Made(front) == id) || (IsOpen(front, id) && e != CloseRequest(id))
    ensures forall id :: AskedFor(front + [e], id) ==
              if e.RequestData? && Made(front) == id then Some((e.request, e.streamType)) else AskedFor(front, id)
  {
    assert (front + [e])[..|front|] == front;
  }

  lemma OneOpenOneListed(w: World, events: seq<Event>)
    requires AsAsked(w, events) && Distinct(w.managers) && forall id :: IsOpen(events, id) <==> id == 0
    ensures |w.managers| == 1 && w.managers[0].id == 0
  {
    assert Listed(w.managers, 0);
    assert |w.managers| >= 2 ==> w.managers[0].id != w.managers[1].id;
    forall i | 0 <= i < |w.managers|
      ensures w.managers[i].id == 0
    {
      assert Listed(w.managers, w.managers[i].id);
    }
  }

  lemma TwoAreDue(events: seq<Event>, a: DeviceId, b: DeviceId, c: DeviceId)
    requires a != c && b != c
    requires ConnectedNow(events, Hash(a)) == Some(a) && ConnectedNow(events, Hash(b)) == Some(b)
    ensures Due(events, [a, b], a) && Due(events, [a, b], b) && !Due(events, [a, b], c)
  {
    assert [a, b][0] == a && [a, b][1] == b;
  }

  /** A request for two of three connected devices, of either kind, serves these two and not the third. */
  lemma TwoOfThreeServed(env: Environment, a: DeviceId, b: DeviceId, c: DeviceId, streamType: DataStreamType)
    requires Legal(env) && Hash(a) != Hash(b) && Hash(b) != Hash(c) && Hash(a) != Hash(c)
    ensures var w := Run(env, Start(), TwoConnectedOf(a, b, c, streamType));
            && |w.managers| == 1 && w.managers[0].streamType == streamType
            && Serves(w.managers[0], w.heap, a, true) && Serves(w.managers[0], w.heap, b, true)
            && Serves(w.managers[0], w.heap, c, false)
  {
    var events := TwoConnectedOf(a, b, c, streamType);
    var devices := iset{a, b, c};
    EventsAreCalm(env, Start(), events, devices);
    RequestsByEvents(env, events);
    RunTracked(env, Start(), events);
    TwoConnectedFacts(a, b, c, streamType);
    OneOpenOneListed(Run(env, Start(), events), events);
    TwoAreDue(events, a, b, c);
    ServedAsAsked(env, events, devices, 0, a);
    ServedAsAsked(env, events, devices, 0, b);
    ServedAsAsked(env, events, devices, 0, c);
  }
}
