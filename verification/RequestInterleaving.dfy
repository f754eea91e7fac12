/** No device is lost between a request and a device event that run at the same time (src/client_manager.cpp). The
    queue thread handles one event after another: it updates the connected devices under their lock, then walks the
    list of requests under the list lock. A requesting thread adds its request to the list, then scans the connected
    devices under their lock. Neither thread holds both locks, so the walk and a scan can meet at one request, in the
    middle of UpdateDeviceDataStream: adding the storage, looking for a stream, and opening and recording one are
    separate steps. */
module RequestInterleaving {
  import opened SdkTypes

  /** Where a thread is in the connecting branch of UpdateDeviceDataStream, or in the disconnecting one, where AtStorage
      is the removal of the stream and AtCheck the removal of the storage. */
  datatype Place = AtStorage | AtCheck | AtOpen

  /** The requesting thread: in the list but not scanning yet; scanning, with the devices left and the one in hand;
      done. */
  datatype Scan = Registered | Scanning(todo: set<DeviceId>, current: Option<(DeviceId, Place)>) | Done

  /** storages and streams are the devices with an entry in the request's two maps; unrecorded counts calls that were
      opened although the stream map had an entry by then, so that AddDataStream refused them. */
  datatype Manager = Manager(request: DataRequest, storages: set<DeviceId>, streams: set<DeviceId>, unrecorded: nat,
                             scan: Scan)

  datatype EventThread =
    | NoEvent
    | MapUpdated(device: DeviceId, isConnected: bool)
    | Walking(device: DeviceId, isConnected: bool, next: nat, place: Place)

  /** scanner is the request whose thread holds the lock of the connected devices across its scan. */
  datatype State = State(connected: set<DeviceId>, managers: seq<Manager>, scanner: Option<nat>, event: EventThread)

  datatype Action =
    // the queue thread
    | BeginEvent(device: DeviceId, isConnected: bool) | BeginWalk | WalkStep | EndWalk
    // requesting threads
    | NewRequest(request: DataRequest) | StartScan(i: nat)
    | PickDevice(i: nat, device: DeviceId) | ScanStep(i: nat) | EndScan(i: nat)

  function Start(): State {
    State({}, [], None, NoEvent)
  }

  /** One step of the connecting branch, with the place that follows, or None when the device is finished. */
  function ConnectStep(m: Manager, device: DeviceId, place: Place): (Manager, Option<Place>) {
    match place
    case AtStorage => (m.(storages := m.storages + {device}), Some(AtCheck))
    case AtCheck => (m, if device in m.streams then None else Some(AtOpen))
    case AtOpen =>
      (if device in m.streams then m.(unrecorded := m.unrecorded + 1) else m.(streams := m.streams + {device}), None)
  }

  function DisconnectStep(m: Manager, device: DeviceId, place: Place): (Manager, Option<Place>) {
    match place
    case AtStorage => (m.(streams := m.streams - {device}), Some(AtCheck))
    case _ => (m.(storages := m.storages - {device}), None)
  }

  /** One atomic step, or None where the action is not enabled. */
  function Step(s: State, a: Action): Option<State> {
    match a
    case BeginEvent(device, isConnected) =>
      if s.event.NoEvent? && s.scanner.None?
      then Some(s.(connected := if isConnected then s.connected + {device} else s.connected - {device},
                   event := MapUpdated(device, isConnected)))
      else None
    case BeginWalk =>
      if s.event.MapUpdated? then Some(s.(event := Walking(s.event.device, s.event.isConnected, 0, AtStorage)))
      else None
    case WalkStep =>
      if s.event.Walking? && s.event.next < |s.managers| then
        var i, device := s.event.next, s.event.device;
        var m := s.managers[i];
        var onward := s.event.(next := i + 1, place := AtStorage);
        if !Requested(m.request, device) then Some(s.(event := onward))
        else
          var (m', place') := if s.event.isConnected then ConnectStep(m, device, s.event.place)
                              else DisconnectStep(m, device, s.event.place);
          Some(s.(managers := s.managers[i := m'],
                  event := if place'.None? then onward else s.event.(place := place'.value)))
      else None
    case EndWalk =>
      if s.event.Walking? && s.event.next == |s.managers| then Some(s.(event := NoEvent)) else None
    case NewRequest(request) =>
      // The list lock is free unless the walk is on.
      if s.event.Walking? then None
      else Some(s.(managers := s.managers + [Manager(request, {}, {}, 0, Registered)]))
    case StartScan(i) =>
      if i < |s.managers| && s.managers[i].scan.Registered? && s.scanner.None?
      then Some(s.(scanner := Some(i),
                   managers := s.managers[i := s.managers[i].(scan := Scanning(s.connected, None))]))
      else None
    case PickDevice(i, device) =>
      if i < |s.managers| && s.managers[i].scan.Scanning? && s.managers[i].scan.current.None? &&
        device in s.managers[i].scan.todo
      then var m := s.managers[i];
           Some(s.(managers := s.managers[i := m.(scan :=
             if Requested(m.request, device) then m.scan.(current := Some((device, AtStorage)))
             else m.scan.(todo := m.scan.todo - {device}))]))
      else None
    case ScanStep(i) =>
      if i < |s.managers| && s.managers[i].scan.Scanning? && s.managers[i].scan.current.Some? then
        var m := s.managers[i];
        var (device, place) := m.scan.current.value;
        var (m', place') := ConnectStep(m, device, place);
        Some(s.(managers := s.managers[i := m'.(scan :=
          if place'.None? then Scanning(m.scan.todo - {device}, None)
          else m.scan.(current := Some((device, place'.value))))]))
      else None
    case EndScan(i) =>
      if i < |s.managers| && s.managers[i].scan == Scanning({}, None)
      then Some(s.(scanner := None, managers := s.managers[i := s.managers[i].(scan := Done)]))
      else None
  }

  ghost predicate Reaches(from: State, actions: seq<Action>, target: State)
    decreases |actions|
  {
    if actions == [] then from == target else
    Step(from, actions[0]).Some? && Reaches(Step(from, actions[0]).value, actions[1..], target)
  }

  /** The queue thread still has to bring request i in line with this device. */
  predicate EventPending(s: State, i: nat, device: DeviceId) {
    match s.event
    case NoEvent => false
    case MapUpdated(d, _) => d == device
    case Walking(d, _, next, _) => d == device && next <= i
  }

  /** The requesting thread still has to bring its request in line with this device. */
  predicate ScanPending(m: Manager, device: DeviceId) {
    m.scan.Registered? || (m.scan.Scanning? && device in m.scan.todo)
  }

  /** The locks: the scanning thread is the one that holds the lock, and the map does not change under it. */
  ghost predicate Locks(s: State) {
    && (s.scanner.Some? ==> s.scanner.value < |s.managers| && s.managers[s.scanner.value].scan.Scanning?)
    && (forall i :: 0 <= i < |s.managers| && s.managers[i].scan.Scanning? ==>
          && s.scanner == Some(i)
          && s.managers[i].scan.todo <= s.connected
          && (s.managers[i].scan.current.Some? ==>
                s.managers[i].scan.current.value.0 in s.managers[i].scan.todo &&
                Requested(s.managers[i].request, s.managers[i].scan.current.value.0)))
    && (s.event.MapUpdated? || s.event.Walking? ==> (s.event.device in s.connected <==> s.event.isConnected))
    && (s.event.Walking? ==> s.event.next <= |s.managers|)
  }

  /** What each pending thread has already done to the device in its hand. */
  ghost predicate Halfway(s: State, i: nat)
    requires i < |s.managers|
  {
    var m := s.managers[i];
    && (m.scan.Scanning? && m.scan.current.Some? && !m.scan.current.value.1.AtStorage? ==>
        m.scan.current.value.0 in m.storages)
    && (s.event.Walking? && s.event.next == i && !s.event.place.AtStorage? && Requested(m.request, s.event.device) ==>
          if s.event.isConnected then s.event.device in m.storages else s.event.device !in m.streams)
    && (s.event.Walking? && s.event.next == i && s.event.place.AtOpen? ==> s.event.isConnected)
  }

  /** What is known of request i and one device when the queue thread has nothing to do there. */
  ghost predicate Settled(s: State, i: nat, device: DeviceId)
    requires i < |s.managers|
  {
    var m := s.managers[i];
    && (!Requested(m.request, device) ==> device !in m.storages && device !in m.streams)
    && (Requested(m.request, device) && !EventPending(s, i, device) ==>
          && (device in m.storages ==> device in s.connected)
          && (device in m.streams ==> device in s.connected)
          && (!ScanPending(m, device) && device in s.connected ==> device in m.storages && device in m.streams))
  }

  ghost predicate Inv(s: State) {
    && Locks(s)
    && (forall i :: 0 <= i < |s.managers| ==> Halfway(s, i))
    && (forall i, device :: 0 <= i < |s.managers| ==> Settled(s, i, device))
  }

  predicate IsQueueAction(a: Action) {
    a.BeginEvent? || a.BeginWalk? || a.WalkStep? || a.EndWalk?
  }

  lemma QueueKeepsLocks(s: State, a: Action)
    requires Inv(s) && IsQueueAction(a) && Step(s, a).Some?
    ensures Locks(Step(s, a).value)
  {}

  lemma ScanKeepsLocks(s: State, a: Action)
    requires Inv(s) && !IsQueueAction(a) && Step(s, a).Some?
    ensures Locks(Step(s, a).value)
  {}

  lemma StepKeepsHalfway(s: State, a: Action, i: nat)
    requires Inv(s) && Step(s, a).Some? && i < |Step(s, a).value.managers|
    ensures Halfway(Step(s, a).value, i)
  {
    if i < |s.managers| {
      assert Halfway(s, i);
    }
  }

  lemma QueueKeepsSettled(s: State, a: Action, i: nat, device: DeviceId)
    requires Inv(s) && IsQueueAction(a) && Step(s, a).Some? && i < |Step(s, a).value.managers|
    ensures Settled(Step(s, a).value, i, device)
  {
    assert Settled(s, i, device) && Halfway(s, i);
  }

  lemma ScanKeepsSettled(s: State, a: Action, i: nat, device: DeviceId)
    requires Inv(s) && !IsQueueAction(a) && Step(s, a).Some? && i < |Step(s, a).value.managers|
    ensures Settled(Step(s, a).value, i, device)
  {
    if i < |s.managers| {
      assert Settled(s, i, device) && Halfway(s, i);
    }
  }

  lemma StepKeepsInv(s: State, a: Action)
    requires Inv(s) && Step(s, a).Some?
    ensures Inv(Step(s, a).value)
  {
    var t := Step(s, a).value;
    if IsQueueAction(a) {
      QueueKeepsLocks(s, a);
    } else {
      ScanKeepsLocks(s, a);
    }
    forall i | 0 <= i < |t.managers|
      ensures Halfway(t, i)
    {
      StepKeepsHalfway(s, a, i);
    }
    forall i, device | 0 <= i < |t.managers|
      ensures Settled(t, i, device)
    {
      if IsQueueAction(a) {
        QueueKeepsSettled(s, a, i, device);
      } else {
        ScanKeepsSettled(s, a, i, device);
      }
    }
  }

  lemma {:induction false} RunKeepsInv(s: State, actions: seq<Action>, t: State)
    requires Inv(s) && Reaches(s, actions, t)
    ensures Inv(t)
    decreases |actions|
  {
    if actions != [] {
      StepKeepsInv(s, actions[0]);
      RunKeepsInv(Step(s, actions[0]).value, actions[1..], t);
    }
  }

  /** No event in progress and every scan finished. */
  predicate Quiescent(s: State) {
    s.event.NoEvent? && forall i :: 0 <= i < |s.managers| ==> s.managers[i].scan.Done?
  }

  ghost function Wanted(request: DataRequest, connected: set<DeviceId>): set<DeviceId> {
    set device | device in connected && Requested(request, device)
  }

  /** The requests that the actions make, in order. */
  function RequestsOf(actions: seq<Action>): seq<DataRequest> {
    if actions == [] then []
    else (if actions[0].NewRequest? then [actions[0].request] else []) + RequestsOf(actions[1..])
  }

  /** Whether a device is connected after the actions: as the last event for it says, or as before. */
  predicate ConnectedBy(before: bool, actions: seq<Action>, device: DeviceId)
    decreases |actions|
  {
    if actions == [] then before
    else
      var a := actions[0];
      ConnectedBy(if a.BeginEvent? && a.device == device then a.isConnected else before, actions[1..], device)
  }

  lemma {:induction false} RunConnects(s: State, actions: seq<Action>, t: State, device: DeviceId)
    requires Reaches(s, actions, t)
    ensures device in t.connected <==> ConnectedBy(device in s.connected, actions, device)
    decreases |actions|
  {
    if actions != [] {
      RunConnects(Step(s, actions[0]).value, actions[1..], t, device);
    }
  }

  ghost predicate HaveRequests(managers: seq<Manager>, requests: seq<DataRequest>) {
    |managers| == |requests| && forall i :: 0 <= i < |managers| ==> managers[i].request == requests[i]
  }

  lemma StepRequests(s: State, a: Action, requests: seq<DataRequest>)
    requires Step(s, a).Some? && HaveRequests(s.managers, requests)
    ensures HaveRequests(Step(s, a).value.managers, requests + if a.NewRequest? then [a.request] else [])
  {}

  lemma {:induction false} RunRequests(s: State, actions: seq<Action>, t: State, requests: seq<DataRequest>)
    requires Reaches(s, actions, t) && HaveRequests(s.managers, requests)
    ensures HaveRequests(t.managers, requests + RequestsOf(actions))
    decreases |actions|
  {
    if actions == [] {
      assert requests + [] == requests;
    } else {
      var one: seq<DataRequest> := if actions[0].NewRequest? then [actions[0].request] else [];
      StepRequests(s, actions[0], requests);
      RunRequests(Step(s, actions[0]).value, actions[1..], t, requests + one);
      assert requests + one + RequestsOf(actions[1..]) == requests + RequestsOf(actions);
    }
  }

  /** Main result: for every interleaving of events and requests, once both are done each request has storages and
      streams for exactly the requested devices that are connected. */
  lemma NoLostDevice(actions: seq<Action>, t: State, i: nat)
    requires Reaches(Start(), actions, t) && Quiescent(t) && i < |t.managers|
    ensures t.managers[i].storages == t.managers[i].streams == Wanted(t.managers[i].request, t.connected)
    ensures HaveRequests(t.managers, RequestsOf(actions))
    ensures var request := RequestsOf(actions)[i];
            forall device :: device in t.managers[i].streams <==>
              ConnectedBy(false, actions, device) && (request == [] || device in request)
  {
    forall device
      ensures device in t.connected <==> ConnectedBy(false, actions, device)
    {
      RunConnects(Start(), actions, t, device);
    }
    RunRequests(Start(), actions, t, []);
    assert [] + RequestsOf(actions) == RequestsOf(actions);
    RunKeepsInv(Start(), actions, t);
    forall device
      ensures device in t.managers[i].storages <==> device in Wanted(t.managers[i].request, t.connected)
      ensures device in t.managers[i].streams <==> device in Wanted(t.managers[i].request, t.connected)
    {
      assert Settled(t, i, device);
    }
  }

  /** Already a request whose own scan is done misses or keeps nothing, except for the one device of the event in
      progress. */
  lemma OnlyTheEventDeviceMayDiffer(actions: seq<Action>, t: State, i: nat, device: DeviceId)
    requires Reaches(Start(), actions, t) && i < |t.managers| && t.managers[i].scan.Done?
    requires t.event.NoEvent? || t.event.device != device
    ensures device in t.managers[i].storages <==> device in Wanted(t.managers[i].request, t.connected)
    ensures device in t.managers[i].streams <==> device in Wanted(t.managers[i].request, t.connected)
  {
    RunKeepsInv(Start(), actions, t);
    assert Settled(t, i, device);
  }

  /** The queue thread and the requesting thread have both looked for a stream for the same device of request i, have
      both found none, and are both about to open one. */
  predicate BothAboutToOpen(s: State, i: nat) {
    && i < |s.managers|
    && AboutToOpenInWalk(s, i) && AboutToOpenInScan(s, i)
    && s.managers[i].scan.current.value.0 == s.event.device
  }

  predicate AboutToOpenInWalk(s: State, i: nat)
    requires i < |s.managers|
  {
    && s.event.Walking? && s.event.next == i && s.event.isConnected && s.event.place.AtOpen?
    && Requested(s.managers[i].request, s.event.device)
  }

  predicate AboutToOpenInScan(s: State, i: nat)
    requires i < |s.managers|
  {
    s.managers[i].scan.Scanning? && s.managers[i].scan.current.Some? && s.managers[i].scan.current.value.1.AtOpen?
  }

  /** Somewhere on the run, its ends included, the two threads are in that position. */
  ghost predicate Meets(s: State, actions: seq<Action>, i: nat)
    decreases |actions|
  {
    BothAboutToOpen(s, i) ||
    (actions != [] && Step(s, actions[0]).Some? && Meets(Step(s, actions[0]).value, actions[1..], i))
  }

  /** A thread is about to open a stream that has been recorded since it looked. */
  ghost predicate Stale(s: State, i: nat)
    requires i < |s.managers|
  {
    || (AboutToOpenInWalk(s, i) && s.event.device in s.managers[i].streams)
    || (AboutToOpenInScan(s, i) && s.managers[i].scan.current.value.0 in s.managers[i].streams)
  }

  /** Request i and the history of its threads: without a meeting every open is recorded and no look is out of date,
      after one a call has been opened without being recorded or is about to be. */
  ghost predicate Explained(s: State, i: nat, met: bool) {
    if i >= |s.managers| then !met
    else if met then s.managers[i].unrecorded > 0 || BothAboutToOpen(s, i) || Stale(s, i)
    else s.managers[i].unrecorded == 0 && !BothAboutToOpen(s, i) && !Stale(s, i)
  }

  lemma WalkExplained(s: State, i: nat, met: bool)
    requires Inv(s) && Step(s, WalkStep).Some? && Explained(s, i, met)
    ensures Explained(Step(s, WalkStep).value, i, met || BothAboutToOpen(Step(s, WalkStep).value, i))
  {
    if i < |s.managers| {
      assert Halfway(s, i);
    }
  }

  lemma ScanExplained(s: State, j: nat, i: nat, met: bool)
    requires Inv(s) && Step(s, ScanStep(j)).Some? && Explained(s, i, met)
    ensures Explained(Step(s, ScanStep(j)).value, i, met || BothAboutToOpen(Step(s, ScanStep(j)).value, i))
  {
    if i < |s.managers| {
      assert Halfway(s, i);
    }
  }

  /** The other steps open nothing and bring no thread to the point of opening. */
  lemma OtherExplained(s: State, a: Action, i: nat, met: bool)
    requires Inv(s) && Step(s, a).Some? && !a.WalkStep? && !a.ScanStep? && Explained(s, i, met)
    ensures Explained(Step(s, a).value, i, met || BothAboutToOpen(Step(s, a).value, i))
  {
    if i < |s.managers| {
      assert Halfway(s, i);
    }
  }

  lemma StepExplained(s: State, a: Action, i: nat, met: bool)
    requires Inv(s) && Step(s, a).Some? && Explained(s, i, met)
    ensures Explained(Step(s, a).value, i, met || BothAboutToOpen(Step(s, a).value, i))
  {
    if a.WalkStep? {
      WalkExplained(s, i, met);
    } else if a.ScanStep? {
      ScanExplained(s, a.i, i, met);
    } else {
      OtherExplained(s, a, i, met);
    }
  }

  lemma {:induction false} RunExplained(s: State, actions: seq<Action>, t: State, i: nat, met: bool)
    requires Inv(s) && Reaches(s, actions, t) && Explained(s, i, met) && (BothAboutToOpen(s, i) ==> met)
    ensures Explained(t, i, met || Meets(s, actions, i))
    decreases |actions|
  {
    if actions != [] {
      var u := Step(s, actions[0]).value;
      StepExplained(s, actions[0], i, met);
      StepKeepsInv(s, actions[0]);
      RunExplained(u, actions[1..], t, i, met || BothAboutToOpen(u, i));
      assert BothAboutToOpen(u, i) ==> Meets(u, actions[1..], i);
      assert (met || Meets(s, actions, i)) == (met || BothAboutToOpen(u, i) || Meets(u, actions[1..], i));
    }
  }

  /** Main result: once all is quiet, request i has a call that nothing records if and only if somewhere on the run the
      walk of an event and the request's own scan were both about to open a stream for one device. */
  lemma UnrecordedIffThreadsMeet(actions: seq<Action>, t: State, i: nat)
    requires Reaches(Start(), actions, t) && Quiescent(t) && i < |t.managers|
    ensures t.managers[i].unrecorded > 0 <==> Meets(Start(), actions, i)
  {
    RunExplained(Start(), actions, t, i, false);
  }

  /** In particular never if no event for a connecting device walks over the request while it scans. */
  predicate WalkMeetsScanning(s: State, i: nat) {
    && i < |s.managers| && s.managers[i].scan.Scanning?
    && s.event.Walking? && s.event.next == i && s.event.isConnected && Requested(s.managers[i].request, s.event.device)
  }

  ghost predicate EverMeetsScanning(s: State, actions: seq<Action>, i: nat)
    decreases |actions|
  {
    WalkMeetsScanning(s, i) ||
    (actions != [] && Step(s, actions[0]).Some? && EverMeetsScanning(Step(s, actions[0]).value, actions[1..], i))
  }

  lemma {:induction false} MeetsOnlyWhileScanning(s: State, actions: seq<Action>, i: nat)
    requires Meets(s, actions, i)
    ensures EverMeetsScanning(s, actions, i)
    decreases |actions|
  {
    if !BothAboutToOpen(s, i) {
      MeetsOnlyWhileScanning(Step(s, actions[0]).value, actions[1..], i);
    }
  }

  lemma NoOverlapNoDuplicate(actions: seq<Action>, t: State, i: nat)
    requires Reaches(Start(), actions, t) && i < |t.managers| && !EverMeetsScanning(Start(), actions, i)
    ensures t.managers[i].unrecorded == 0
  {
    RunExplained(Start(), actions, t, i, false);
    if Meets(Start(), actions, i) {
      MeetsOnlyWhileScanning(Start(), actions, i);
    }
  }

  lemma ReachesFirst(s: State, a: Action, u: State, actions: seq<Action>, t: State)
    requires Step(s, a) == Some(u) && Reaches(u, actions, t)
    ensures Reaches(s, [a] + actions, t)
  {
    assert ([a] + actions)[1..] == actions;
  }

  /** A request for all devices whose thread has found no stream for the one connected device. */
  function AboutToOpen(device: DeviceId): Manager {
    Manager([], {device}, {}, 0, Scanning({device}, Some((device, AtOpen))))
  }

  function Collided(device: DeviceId): State {
    State({device}, [Manager([], {device}, {device}, 1, Scanning({}, None))], Some(0),
          Walking(device, true, 1, AtStorage))
  }

  /** The same when both threads are done. */
  function Duplicated(device: DeviceId): State {
    State({device}, [Manager([], {device}, {device}, 1, Done)], None, NoEvent)
  }

  lemma CollidedEnds(device: DeviceId)
    ensures Reaches(Collided(device), [EndWalk] + ([EndScan(0)] + []), Duplicated(device))
  {
    var t := Duplicated(device);
    var s1 := Collided(device).(event := NoEvent);
    assert Reaches(t, [], t);
    assert Step(s1, EndScan(0)).value.managers == t.managers;
    ReachesFirst(s1, EndScan(0), t, [], t);
    ReachesFirst(Collided(device), EndWalk, s1, [EndScan(0)] + [], t);
  }

  function WalkAndOpen(): seq<Action> {
    [BeginWalk] + ([WalkStep] + ([WalkStep] + ([WalkStep] + ([ScanStep(0)] + ([EndWalk] + ([EndScan(0)] + []))))))
  }

  /** The walk now finds no stream either, opens one, and then the scan opens a second one. */
  lemma WalkMeetsScan(device: DeviceId)
    ensures Reaches(State({device}, [AboutToOpen(device)], Some(0), MapUpdated(device, true)), WalkAndOpen(),
                    Duplicated(device))
  {
    var all, m := {device}, AboutToOpen(device);
    var s5, t := Collided(device), Duplicated(device);
    var s0 := State(all, [m], Some(0), MapUpdated(device, true));
    var s1 := s0.(event := Walking(device, true, 0, AtStorage));
    var s2 := s0.(event := Walking(device, true, 0, AtCheck));
    var s3 := s0.(event := Walking(device, true, 0, AtOpen));
    var s4 := State(all, [m.(streams := all)], Some(0), s5.event);
    assert {} + all == all && all + all == all && all - all == {};
    CollidedEnds(device);
    var r := [EndWalk] + ([EndScan(0)] + []);
    assert Step(s4, ScanStep(0)).value.managers == s5.managers;
    ReachesFirst(s4, ScanStep(0), s5, r, t);
    assert Step(s3, WalkStep).value.managers == s4.managers;
    ReachesFirst(s3, WalkStep, s4, [ScanStep(0)] + r, t);
    assert Step(s2, WalkStep).value.managers == s3.managers;
    ReachesFirst(s2, WalkStep, s3, [WalkStep] + ([ScanStep(0)] + r), t);
    assert Step(s1, WalkStep).value.managers == s2.managers;
    ReachesFirst(s1, WalkStep, s2, [WalkStep] + ([WalkStep] + ([ScanStep(0)] + r)), t);
    ReachesFirst(s0, BeginWalk, s1, [WalkStep] + ([WalkStep] + ([WalkStep] + ([ScanStep(0)] + r))), t);
  }

  function ScanToOpen(device: DeviceId): seq<Action> {
    [StartScan(0)] + ([PickDevice(0, device)] + ([ScanStep(0)] + ([ScanStep(0)] + WalkAndOpen())))
  }

  /** A request in the list scans while the connect event of that device has not walked yet. */
  lemma ScanReachesOpen(device: DeviceId)
    ensures Reaches(State({device}, [Manager([], {}, {}, 0, Registered)], None, MapUpdated(device, true)),
                    ScanToOpen(device), Duplicated(device))
  {
    var t := Duplicated(device);
    var all, mapped := {device}, MapUpdated(device, true);
    var m := Manager([], {}, {}, 0, Registered);
    var s2 := State(all, [m], None, mapped);
    var s3 := State(all, [m.(scan := Scanning(all, None))], Some(0), mapped);
    var s4 := State(all, [m.(scan := Scanning(all, Some((device, AtStorage))))], Some(0), mapped);
    var s5 := State(all, [Manager([], all, {}, 0, Scanning(all, Some((device, AtCheck))))], Some(0), mapped);
    var s6 := State(all, [AboutToOpen(device)], Some(0), mapped);
    assert {} + all == all;
    WalkMeetsScan(device);
    var r := WalkAndOpen();
    assert Step(s5, ScanStep(0)).value.managers == s6.managers;
    ReachesFirst(s5, ScanStep(0), s6, r, t);
    assert Step(s4, ScanStep(0)).value.managers == s5.managers;
    ReachesFirst(s4, ScanStep(0), s5, [ScanStep(0)] + r, t);
    r := [ScanStep(0)] + ([ScanStep(0)] + r);
    assert Step(s3, PickDevice(0, device)).value.managers == s4.managers;
    ReachesFirst(s3, PickDevice(0, device), s4, r, t);
    assert Step(s2, StartScan(0)).value.managers == s3.managers;
    ReachesFirst(s2, StartScan(0), s3, [PickDevice(0, device)] + r, t);
  }

  /** So two calls for one device of one request can exist at once: a request scans the one connected device while its
      connect event is still on its way. */
  lemma DuplicateCallIsReachable(device: DeviceId)
    ensures Quiescent(Duplicated(device)) && exists actions :: Reaches(Start(), actions, Duplicated(device))
  {
    var t, r := Duplicated(device), ScanToOpen(device);
    var m := Manager([], {}, {}, 0, Registered);
    var s1 := State({}, [m], None, NoEvent);
    var s2 := State({device}, [m], None, MapUpdated(device, true));
    ScanReachesOpen(device);
    assert Step(s1, BeginEvent(device, true)) == Some(s2) by {
      assert {} + {device} == {device};
    }
    ReachesFirst(s1, BeginEvent(device, true), s2, r, t);
    assert Step(Start(), NewRequest([])).value.managers == s1.managers;
    ReachesFirst(Start(), NewRequest([]), s1, [BeginEvent(device, true)] + r, t);
  }

  /** What the queue thread does next, with the next event. */
  function QueueTurn(s: State, device: DeviceId, isConnected: bool): Action {
    match s.event
    case NoEvent => BeginEvent(device, isConnected)
    case MapUpdated(_, _) => BeginWalk
    case Walking(_, _, next, _) => if next < |s.managers| then WalkStep else EndWalk
  }

  /** What the thread of request i does next, with the device that it picks. */
  function RequestTurn(s: State, i: nat, device: DeviceId): Action
    requires i < |s.managers| && !s.managers[i].scan.Done?
  {
    match s.managers[i].scan
    case Registered => StartScan(i)
    case Scanning(todo, current) =>
      if current.Some? then ScanStep(i) else if todo == {} then EndScan(i) else PickDevice(i, device)
  }

  /** No thread is ever stuck: the queue thread waits only for a scan, before it takes the next event; a requesting
      thread waits for the walk before it is listed, and for another scan before its own. */
  lemma NeverStuck(actions: seq<Action>, t: State, i: nat, device: DeviceId, isConnected: bool)
    requires Reaches(Start(), actions, t) && i < |t.managers|
    ensures Step(t, QueueTurn(t, device, isConnected)).Some? <==> !t.event.NoEvent? || t.scanner.None?
    ensures t.managers[i].scan.Registered? ==> (Step(t, RequestTurn(t, i, device)).Some? <==> t.scanner.None?)
    ensures t.managers[i].scan.Scanning? && (t.managers[i].scan.todo != {} ==> device in t.managers[i].scan.todo) ==>
              Step(t, RequestTurn(t, i, device)).Some?
    ensures forall request :: Step(t, NewRequest(request)).Some? <==> !t.event.Walking?
  {
    RunKeepsInv(Start(), actions, t);
  }
}
