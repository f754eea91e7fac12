/** How arriving messages are sorted into the storages of one request (src/data_manager.cpp, UpdateDeviceData and
    UpdateDataFrame), with each storage taken as the device it was created for and the log it has accepted. */
module Demultiplexing {
  import opened SdkTypes
  import opened SdkUtils
  import opened PacketLog

  datatype Storage = Storage(device: DeviceId, log: seq<Packet<TrackingDeviceData>>)

  /** The storage found under the message's key takes it only if the device is its own. */
  function Pushed(storage: Storage, packet: TrackingDeviceData): Storage {
    if packet.device == storage.device then storage.(log := Append(storage.log, packet)) else storage
  }

  function Delivered(storages: map<Key, Storage>, packet: TrackingDeviceData): map<Key, Storage> {
    var key := Hash(packet.device);
    if key in storages then storages[key := Pushed(storages[key], packet)] else storages
  }

  function DeliveredAll(storages: map<Key, Storage>, packets: seq<TrackingDeviceData>): map<Key, Storage> {
    if packets == [] then storages
    else Delivered(DeliveredAll(storages, packets[..|packets| - 1]), packets[|packets| - 1])
  }

  datatype Event =
    | AddStorage(device: DeviceId)
    | RemoveStorage(key: Key)
    | DeviceData(packet: TrackingDeviceData)
    | FrameData(packets: seq<TrackingDeviceData>)

  /** arrived keeps, for each storage, every message of any device that came since it was created. */
  datatype State = State(storages: map<Key, Storage>, arrived: map<Key, seq<TrackingDeviceData>>)

  function Arrived(arrived: map<Key, seq<TrackingDeviceData>>,
                   packets: seq<TrackingDeviceData>): map<Key, seq<TrackingDeviceData>> {
    map k | k in arrived :: arrived[k] + packets
  }

  function Step(s: State, e: Event): State {
    match e
    case AddStorage(device) =>
      if Hash(device) in s.storages then s
      else State(s.storages[Hash(device) := Storage(device, [])], s.arrived[Hash(device) := []])
    case RemoveStorage(key) => State(s.storages - {key}, s.arrived - {key})
    case DeviceData(packet) => State(Delivered(s.storages, packet), Arrived(s.arrived, [packet]))
    case FrameData(packets) => State(DeliveredAll(s.storages, packets), Arrived(s.arrived, packets))
  }

  function Run(s: State, events: seq<Event>): State
    decreases |events|
  {
    if events == [] then s else Run(Step(s, events[0]), events[1..])
  }

  /** The messages of one device, in order. */
  function Only(packets: seq<TrackingDeviceData>, device: DeviceId): seq<TrackingDeviceData> {
    if packets == [] then []
    else
      var last := packets[|packets| - 1];
      Only(packets[..|packets| - 1], device) + (if last.device == device then [last] else [])
  }

  lemma OnlyAppend(packets: seq<TrackingDeviceData>, packet: TrackingDeviceData, device: DeviceId)
    ensures Only(packets + [packet], device) ==
            Only(packets, device) + (if packet.device == device then [packet] else [])
  {
    assert (packets + [packet])[..|packets|] == packets;
  }

  ghost predicate Sorted(s: State) {
    && s.storages.Keys == s.arrived.Keys
    && forall k :: k in s.storages ==>
         && k == Hash(s.storages[k].device)
         && s.storages[k].log == Stamped(Only(s.arrived[k], s.storages[k].device))
  }

  lemma DeviceDataSorted(s: State, packet: TrackingDeviceData)
    requires Sorted(s)
    ensures Sorted(Step(s, DeviceData(packet)))
  {
    var t := Step(s, DeviceData(packet));
    forall k | k in t.storages
      ensures k == Hash(t.storages[k].device)
      ensures t.storages[k].log == Stamped(Only(t.arrived[k], t.storages[k].device))
    {
      var device := s.storages[k].device;
      OnlyAppend(s.arrived[k], packet, device);
      if packet.device == device {
        StampedAppend(Only(s.arrived[k], device), packet);
      } else {
        assert Only(s.arrived[k], device) + [] == Only(s.arrived[k], device);
      }
    }
  }

  lemma ArrivedInTurn(arrived: map<Key, seq<TrackingDeviceData>>, front: seq<TrackingDeviceData>,
                      last: TrackingDeviceData)
    ensures Arrived(Arrived(arrived, front), [last]) == Arrived(arrived, front + [last])
  {
    assert forall k :: k in arrived ==> (arrived[k] + front) + [last] == arrived[k] + (front + [last]);
  }

  /** A frame is its packets one after the other. */
  lemma FrameInTurn(s: State, packets: seq<TrackingDeviceData>)
    requires packets != []
    ensures Step(s, FrameData(packets)) ==
            Step(Step(s, FrameData(packets[..|packets| - 1])), DeviceData(packets[|packets| - 1]))
  {
    ArrivedInTurn(s.arrived, packets[..|packets| - 1], packets[|packets| - 1]);
    assert packets == packets[..|packets| - 1] + [packets[|packets| - 1]];
  }

  lemma EmptyFrame(s: State)
    ensures Step(s, FrameData([])) == s
  {
    assert forall k :: k in s.arrived ==> s.arrived[k] + [] == s.arrived[k];
    assert Arrived(s.arrived, []) == s.arrived;
  }

  lemma {:induction false} FrameSorted(s: State, packets: seq<TrackingDeviceData>)
    requires Sorted(s)
    ensures Sorted(Step(s, FrameData(packets)))
    decreases |packets|
  {
    if packets == [] {
      EmptyFrame(s);
    } else {
      FrameInTurn(s, packets);
      FrameSorted(s, packets[..|packets| - 1]);
      DeviceDataSorted(Step(s, FrameData(packets[..|packets| - 1])), packets[|packets| - 1]);
    }
  }

  /** Main result: over any sequence of frames, device packets, new storages and removals, each storage's log is exactly
      the in-order subsequence, since its creation, of the messages that carry its own device, even where keys
      collide. */
  lemma {:induction false} RunSorted(s: State, events: seq<Event>)
    requires Sorted(s)
    ensures Sorted(Run(s, events))
    decreases |events|
  {
    if events != [] {
      match events[0] {
        case DeviceData(packet) => DeviceDataSorted(s, packet);
        case FrameData(packets) => FrameSorted(s, packets);
        case _ =>
      }
      RunSorted(Step(s, events[0]), events[1..]);
    }
  }

  lemma {:induction false} OnlyHasDevice(packets: seq<TrackingDeviceData>, device: DeviceId)
    ensures forall i :: 0 <= i < |Only(packets, device)| ==> Only(packets, device)[i].device == device
    decreases |packets|
  {
    if packets != [] {
      OnlyHasDevice(packets[..|packets| - 1], device);
    }
  }

  /** The device that the storage under a key was made for, and every message that has come since, told from the events
      alone. */
  function ArrivedAt(events: seq<Event>, key: Key): Option<(DeviceId, seq<TrackingDeviceData>)> {
    if events == [] then None
    else
      var before, last := ArrivedAt(events[..|events| - 1], key), events[|events| - 1];
      match last
      case AddStorage(device) => if Hash(device) == key && before.None? then Some((device, [])) else before
      case RemoveStorage(removed) => if removed == key then None else before
      case DeviceData(packet) => if before.None? then None else Some((before.value.0, before.value.1 + [packet]))
      case FrameData(packets) => if before.None? then None else Some((before.value.0, before.value.1 + packets))
  }

  lemma {:induction false} RunLast(s: State, events: seq<Event>)
    requires events != []
    ensures Run(s, events) == Step(Run(s, events[..|events| - 1]), events[|events| - 1])
    decreases |events|
  {
    if |events| > 1 {
      RunLast(Step(s, events[0]), events[1..]);
      assert events[1..][..|events| - 2] == events[..|events| - 1][1..];
    }
  }

  ghost predicate HasArrived(s: State, key: Key, arrival: Option<(DeviceId, seq<TrackingDeviceData>)>) {
    match arrival
    case None => key !in s.storages
    case Some((device, messages)) =>
      && key in s.storages && key in s.arrived
      && s.storages[key].device == device && s.arrived[key] == messages
  }

  lemma StepArrives(s: State, front: seq<Event>, e: Event, key: Key)
    requires Sorted(s) && HasArrived(s, key, ArrivedAt(front, key))
    ensures HasArrived(Step(s, e), key, ArrivedAt(front + [e], key))
  {
    assert (front + [e])[..|front|] == front;
    match e
    case DeviceData(packet) => DeliveredKeepsDevices(s.storages, packet);
    case FrameData(packets) => DeliveredAllKeepsDevices(s.storages, packets);
    case _ =>
  }

  lemma {:induction false} RunArrives(events: seq<Event>, key: Key)
    ensures HasArrived(Run(State(map[], map[]), events), key, ArrivedAt(events, key))
    decreases |events|
  {
    if events != [] {
      var front, last := events[..|events| - 1], events[|events| - 1];
      RunArrives(front, key);
      RunSorted(State(map[], map[]), front);
      RunLast(State(map[], map[]), events);
      assert front + [last] == events;
      StepArrives(Run(State(map[], map[]), front), front, last, key);
    }
  }

  /** The same result told from the events alone: there is a storage under a key exactly if one was added there and not
      removed since, and its log numbers the messages of its device that have come since then. */
  lemma LogsByEvents(events: seq<Event>, key: Key)
    ensures var storages := Run(State(map[], map[]), events).storages;
            match ArrivedAt(events, key)
            case None => key !in storages
            case Some((device, messages)) =>
              key in storages && storages[key] == Storage(device, Stamped(Only(messages, device)))
  {
    RunArrives(events, key);
    RunSorted(State(map[], map[]), events);
  }

  /** So no storage ever holds another device's packet. */
  lemma NoForeignPacket(events: seq<Event>, k: Key, i: nat)
    requires k in Run(State(map[], map[]), events).storages
    requires i < |Run(State(map[], map[]), events).storages[k].log|
    ensures var storage := Run(State(map[], map[]), events).storages[k]; storage.log[i].data.device == storage.device
  {
    RunSorted(State(map[], map[]), events);
    var s := Run(State(map[], map[]), events);
    OnlyHasDevice(s.arrived[k], s.storages[k].device);
  }

  // ---------------------------------------------------------------------------------------------
  // Which devices are served
  // ---------------------------------------------------------------------------------------------

  /** The devices that have a storage. */
  function Devices(s: State): set<DeviceId> {
    set k | k in s.storages :: s.storages[k].device
  }

  /** The devices that have been added and not removed since. */
  function Added(before: set<DeviceId>, e: Event): set<DeviceId> {
    match e
    case AddStorage(device) => before + {device}
    case RemoveStorage(key) => set device | device in before && Hash(device) != key
    case _ => before
  }

  function AddedAll(before: set<DeviceId>, events: seq<Event>): set<DeviceId>
    decreases |events|
  {
    if events == [] then before else AddedAll(Added(before, events[0]), events[1..])
  }

  ghost predicate AddsOnly(events: seq<Event>, devices: iset<DeviceId>) {
    forall device :: AddStorage(device) in events ==> device in devices
  }

  /** After every run that adds storages for these devices only, exactly the added ones have a storage. */
  ghost predicate AllServed(devices: iset<DeviceId>) {
    forall events :: AddsOnly(events, devices) ==> Devices(Run(State(map[], map[]), events)) == AddedAll({}, events)
  }

  lemma DeliveredKeepsDevices(storages: map<Key, Storage>, packet: TrackingDeviceData)
    ensures Delivered(storages, packet).Keys == storages.Keys
    ensures forall k :: k in storages ==> Delivered(storages, packet)[k].device == storages[k].device
  {}

  lemma {:induction false} DeliveredAllKeepsDevices(storages: map<Key, Storage>, packets: seq<TrackingDeviceData>)
    ensures DeliveredAll(storages, packets).Keys == storages.Keys
    ensures forall k :: k in storages ==> DeliveredAll(storages, packets)[k].device == storages[k].device
    decreases |packets|
  {
    if packets != [] {
      DeliveredAllKeepsDevices(storages, packets[..|packets| - 1]);
      DeliveredKeepsDevices(DeliveredAll(storages, packets[..|packets| - 1]), packets[|packets| - 1]);
    }
  }

  /** Every storage stands under the key of its device, and its device is one of the given ones. */
  ghost predicate HeldWithin(s: State, devices: iset<DeviceId>) {
    forall k :: k in s.storages ==> k == Hash(s.storages[k].device) && s.storages[k].device in devices
  }

  lemma SameDevices(s: State, t: State)
    requires s.storages.Keys == t.storages.Keys
    requires forall k :: k in s.storages ==> t.storages[k].device == s.storages[k].device
    ensures Devices(t) == Devices(s)
  {
    assert forall device :: device in Devices(s) ==> exists k :: k in t.storages && t.storages[k].device == device;
    assert forall device :: device in Devices(t) ==> exists k :: k in s.storages && s.storages[k].device == device;
  }

  lemma AddServes(s: State, device: DeviceId, devices: iset<DeviceId>)
    requires KeysApart(devices) && HeldWithin(s, devices) && device in devices
    ensures Devices(Step(s, AddStorage(device))) == Devices(s) + {device}
  {
    var t := Step(s, AddStorage(device));
    assert Hash(device) in t.storages && t.storages[Hash(device)].device == device;
    forall d | d in Devices(s) + {device}
      ensures d in Devices(t)
    {
      if d != device {
        var k :| k in s.storages && s.storages[k].device == d;
        assert k in t.storages && t.storages[k].device == d;
      }
    }
  }

  lemma RemoveServes(s: State, key: Key, devices: iset<DeviceId>)
    requires HeldWithin(s, devices)
    ensures Devices(Step(s, RemoveStorage(key))) == Added(Devices(s), RemoveStorage(key))
  {
    var t := Step(s, RemoveStorage(key));
    forall d | d in Added(Devices(s), RemoveStorage(key))
      ensures d in Devices(t)
    {
      var k :| k in s.storages && s.storages[k].device == d;
      assert k in t.storages && t.storages[k].device == d;
    }
  }

  lemma StepServes(s: State, e: Event, devices: iset<DeviceId>)
    requires KeysApart(devices) && HeldWithin(s, devices) && (e.AddStorage? ==> e.device in devices)
    ensures HeldWithin(Step(s, e), devices) && Devices(Step(s, e)) == Added(Devices(s), e)
  {
    match e
    case AddStorage(device) => AddServes(s, device, devices);
    case RemoveStorage(key) => RemoveServes(s, key, devices);
    case DeviceData(packet) =>
      DeliveredKeepsDevices(s.storages, packet);
      SameDevices(s, Step(s, e));
    case FrameData(packets) =>
      DeliveredAllKeepsDevices(s.storages, packets);
      SameDevices(s, Step(s, e));
  }

  lemma {:induction false} RunServes(s: State, events: seq<Event>, devices: iset<DeviceId>)
    requires KeysApart(devices) && HeldWithin(s, devices) && AddsOnly(events, devices)
    ensures Devices(Run(s, events)) == AddedAll(Devices(s), events)
    decreases |events|
  {
    if events != [] {
      assert events[0].AddStorage? ==> AddStorage(events[0].device) in events;
      StepServes(s, events[0], devices);
      RunServes(Step(s, events[0]), events[1..], devices);
    }
  }

  /** Of two devices with one key only the first that is added gets a storage. */
  lemma SharedKeyServesOne(a: DeviceId, b: DeviceId)
    requires a != b && Hash(a) == Hash(b)
    ensures var events := [AddStorage(a), AddStorage(b)];
            b !in Devices(Run(State(map[], map[]), events)) && b in AddedAll({}, events)
  {
    var events := [AddStorage(a), AddStorage(b)];
    var s1 := Step(State(map[], map[]), AddStorage(a));
    assert events[1..] == [AddStorage(b)] && events[1..][1..] == [];
    assert Run(s1, events[1..]) == Run(Step(s1, AddStorage(b)), []) == s1;
    assert AddedAll({a}, events[1..]) == AddedAll({a} + {b}, []);
    assert {} + {a} == {a};
  }

  /** Main result: every added device is served, in every run over a set of devices, if and only if no two of them share
      a key. */
  lemma AllServedIffKeysApart(devices: iset<DeviceId>)
    ensures AllServed(devices) <==> KeysApart(devices)
  {
    if KeysApart(devices) {
      forall events | AddsOnly(events, devices)
        ensures Devices(Run(State(map[], map[]), events)) == AddedAll({}, events)
      {
        var start := State(map[], map[]);
        assert Devices(start) == {};
        RunServes(start, events, devices);
      }
    } else {
      var a, b :| a in devices && b in devices && Hash(a) == Hash(b) && a != b;
      SharedKeyServesOne(a, b);
      assert AddsOnly([AddStorage(a), AddStorage(b)], devices);
    }
  }

  /** In particular on small ports. */
  lemma SmallPortsServed()
    ensures AllServed(iset device | SmallPort(device))
  {
    SmallPortsApart();
    AllServedIffKeysApart(iset device | SmallPort(device));
  }
}
