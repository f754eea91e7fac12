/** What the interleaved models do to a request when no other thread comes between their steps: exactly what one step of
    RequestTracking does. The walks name devices where RequestTracking has the keys they are stored under, so for them
    this is about devices with different keys. */
module Uninterrupted {
  import opened SdkTypes
  import opened SdkUtils
  import Tracking = RequestTracking
  import Devices = RequestInterleaving
  import Frames = FrameInterleaving
  import Closes = CloseInterleaving

  /** Both models agree on which devices have a storage. */
  ghost predicate SameStorages(storages: set<DeviceId>, m: Tracking.Manager, devices: iset<DeviceId>) {
    forall d :: d in devices ==> (d in storages <==> Hash(d) in m.storages)
  }

  // ---------------------------------------------------------------------------------------------
  // Requests for device data
  // ---------------------------------------------------------------------------------------------

  ghost predicate Shows(a: Devices.Manager, m: Tracking.Manager, devices: iset<DeviceId>) {
    && a.request == m.request && SameStorages(a.storages, m, devices)
    && forall d :: d in devices ==> (d in a.streams <==> Hash(d) in m.streams)
  }

  function WalkSteps(count: nat): seq<Devices.Action> {
    if count == 0 then [] else [Devices.WalkStep] + WalkSteps(count - 1)
  }

  /** The request in which the walk ends up, and how many steps it takes there. */
  function Visited(a: Devices.Manager, device: DeviceId, isConnected: bool): (Devices.Manager, nat) {
    if !Requested(a.request, device) then (a, 1)
    else if !isConnected then (a.(streams := a.streams - {device}, storages := a.storages - {device}), 2)
    else if device in a.streams then (a.(storages := a.storages + {device}), 2)
    else (a.(storages := a.storages + {device}, streams := a.streams + {device}), 3)
  }

  lemma VisitedIsUpdateDevice(env: Tracking.Environment, a: Devices.Manager, m: Tracking.Manager,
                              heap: Tracking.CallHeap, device: DeviceId, isConnected: bool, devices: iset<DeviceId>)
    requires KeysApart(devices) && device in devices && Shows(a, m, devices)
    ensures Shows(Visited(a, device, isConnected).0, Tracking.UpdateDevice(env, m, heap, device, isConnected).0,
                  devices)
  {}

  /** One request further, with no step of another thread in between. */
  function AfterVisit(s: Devices.State): Devices.State
    requires s.event.Walking? && s.event.next < |s.managers|
  {
    var i := s.event.next;
    s.(managers := s.managers[i := Visited(s.managers[i], s.event.device, s.event.isConnected).0],
       event := s.event.(next := i + 1))
  }

  lemma StepFirst(s: Devices.State, u: Devices.State, count: nat, t: Devices.State)
    requires Devices.Step(s, Devices.WalkStep) == Some(u) && Devices.Reaches(u, WalkSteps(count), t)
    ensures Devices.Reaches(s, WalkSteps(count + 1), t)
  {
    Devices.ReachesFirst(s, Devices.WalkStep, u, WalkSteps(count), t);
  }

  lemma WalkConnects(s: Devices.State)
    requires s.event.Walking? && s.event.next < |s.managers| && s.event.place.AtStorage? && s.event.isConnected
    requires Requested(s.managers[s.event.next].request, s.event.device)
    ensures Devices.Reaches(s, WalkSteps(Visited(s.managers[s.event.next], s.event.device, true).1), AfterVisit(s))
  {
    var i, device := s.event.next, s.event.device;
    var a, t := s.managers[i], AfterVisit(s);
    var stored := a.(storages := a.storages + {device});
    var s1 := s.(managers := s.managers[i := stored], event := s.event.(place := Devices.AtCheck));
    assert s1.managers[i := stored] == s1.managers;
    if device in a.streams {
      StepFirst(s1, t, 0, t);
      StepFirst(s, s1, 1, t);
    } else {
      var s2 := s1.(event := s.event.(place := Devices.AtOpen));
      assert s2.managers[i := stored.(streams := stored.streams + {device})] == t.managers;
      StepFirst(s2, t, 0, t);
      StepFirst(s1, s2, 1, t);
      StepFirst(s, s1, 2, t);
    }
  }

  lemma WalkDisconnects(s: Devices.State)
    requires s.event.Walking? && s.event.next < |s.managers| && s.event.place.AtStorage? && !s.event.isConnected
    requires Requested(s.managers[s.event.next].request, s.event.device)
    ensures Devices.Reaches(s, WalkSteps(2), AfterVisit(s))
  {
    var i, device := s.event.next, s.event.device;
    var a, t := s.managers[i], AfterVisit(s);
    var forgot := a.(streams := a.streams - {device});
    var s1 := s.(managers := s.managers[i := forgot], event := s.event.(place := Devices.AtCheck));
    assert s1.managers[i := forgot.(storages := forgot.storages - {device})] == t.managers;
    StepFirst(s1, t, 0, t);
    StepFirst(s, s1, 1, t);
  }

  /** The interleaved walk, not interrupted at this request, is UpdateDeviceDataStream, and opens no call that is not
      recorded. */
  lemma WalkIsUpdateDevice(env: Tracking.Environment, s: Devices.State, m: Tracking.Manager, heap: Tracking.CallHeap,
                           devices: iset<DeviceId>)
    requires KeysApart(devices) && s.event.Walking? && s.event.next < |s.managers| && s.event.place.AtStorage?
    requires s.event.device in devices && Shows(s.managers[s.event.next], m, devices)
    ensures var i, t := s.event.next, AfterVisit(s);
            && Devices.Reaches(s, WalkSteps(Visited(s.managers[i], s.event.device, s.event.isConnected).1), t)
            && Shows(t.managers[i], Tracking.UpdateDevice(env, m, heap, s.event.device, s.event.isConnected).0, devices)
            && t.managers[i].unrecorded == s.managers[i].unrecorded
  {
    var a := s.managers[s.event.next];
    if !Requested(a.request, s.event.device) {
      assert s.managers[s.event.next := a] == s.managers;
      StepFirst(s, AfterVisit(s), 0, AfterVisit(s));
    } else if s.event.isConnected {
      WalkConnects(s);
    } else {
      WalkDisconnects(s);
    }
    VisitedIsUpdateDevice(env, a, m, heap, s.event.device, s.event.isConnected, devices);
  }

  // ---------------------------------------------------------------------------------------------
  // Requests for data frames
  // ---------------------------------------------------------------------------------------------

  ghost predicate ShowsCall(calls: seq<Frames.Call>, k: nat, heap: Tracking.CallHeap, at: Tracking.Address) {
    && k < |calls| && at in heap.calls && heap.calls[at].kind.FrameCall?
    && calls[k] == Frames.Call(heap.calls[at].kind.devices, heap.calls[at].listenerActive)
  }

  ghost predicate ShowsFrame(s: Frames.State, m: Tracking.Manager, heap: Tracking.CallHeap, devices: iset<DeviceId>) {
    && s.request == m.request && SameStorages(s.storages, m, devices)
    && (s.frame.Some? <==> m.frame.Some?)
    && (s.frame.Some? ==> ShowsCall(s.calls, s.frame.value, heap, m.frame.value))
  }

  ghost predicate SameConnected(s: Frames.State, connected: map<Key, DeviceId>, devices: iset<DeviceId>) {
    && s.connected == connected.Values && Tracking.WellKeyed(connected)
    && forall d :: d in s.connected ==> d in devices
  }

  lemma WantedAlike(s: Frames.State, connected: map<Key, DeviceId>, devices: iset<DeviceId>)
    requires KeysApart(devices) && SameConnected(s, connected, devices)
    ensures Frames.Wanted(s) == Tracking.Wanted(s.request, connected).Values
    ensures forall d :: d in devices ==> (d in Frames.Wanted(s) <==> Hash(d) in Tracking.Wanted(s.request, connected))
  {
    var wanted := Tracking.Wanted(s.request, connected);
    forall d | d in Frames.Wanted(s)
      ensures Hash(d) in wanted && wanted[Hash(d)] == d && d in wanted.Values
    {
      var k :| k in connected && connected[k] == d;
    }
  }

  /** The request after the walk: if it asks for the device, its old stream is cancelled and a new one recorded. */
  function AfterFrameVisit(s: Frames.State): Frames.State
    requires s.event.Walking?
  {
    if !Requested(s.request, s.event.device) then s.(event := s.event.(stage := Frames.Past))
    else
      var kept := if s.event.isConnected then s.storages else s.storages - {s.event.device};
      Replaced(s.(storages := kept,
                  calls := if s.frame.Some? then Frames.Cancelled(s.calls, s.frame.value) else s.calls))
  }

  function Replaced(s: Frames.State): Frames.State
    requires s.event.Walking?
  {
    s.(storages := s.storages + Frames.Wanted(s), calls := s.calls + [Frames.Call(Frames.Wanted(s), true)],
       frame := Some(|s.calls|), lastRecord := Frames.QueueThread, event := s.event.(stage := Frames.Past))
  }

  function FrameWalkSteps(count: nat): seq<Frames.Action> {
    if count == 0 then [] else [Frames.WalkStep] + FrameWalkSteps(count - 1)
  }

  lemma FrameStepFirst(s: Frames.State, count: nat, t: Frames.State)
    requires s.event.Walking? && !s.event.stage.Past? && Frames.Reaches(Frames.Walked(s), FrameWalkSteps(count), t)
    ensures Frames.Reaches(s, FrameWalkSteps(count + 1), t)
  {
    Frames.ReachesFirst(s, Frames.WalkStep, Frames.Walked(s), FrameWalkSteps(count), t);
  }

  lemma ScanReachesReplaced(s: Frames.State)
    requires s.event.Walking? && s.event.stage.AtScan?
    ensures Frames.Reaches(s, FrameWalkSteps(3), Replaced(s))
  {
    var s1 := Frames.Walked(s);
    var s2 := Frames.Walked(s1);
    assert Frames.Walked(s2) == Replaced(s);
    FrameStepFirst(s2, 0, Replaced(s));
    FrameStepFirst(s1, 1, Replaced(s));
    FrameStepFirst(s, 2, Replaced(s));
  }

  lemma WalkReachesReplaced(s: Frames.State)
    requires s.event.Walking? && s.event.stage.Before? && !s.requester.Absent? && Requested(s.request, s.event.device)
    ensures Frames.Reaches(s, FrameWalkSteps(7), AfterFrameVisit(s))
  {
    var s1 := Frames.Walked(s);
    var s2 := Frames.Walked(s1);
    var s3 := Frames.Walked(s2);
    var s4 := Frames.Walked(s3);
    var t := AfterFrameVisit(s);
    assert Replaced(s4) == t;
    ScanReachesReplaced(s4);
    FrameStepFirst(s3, 3, t);
    FrameStepFirst(s2, 4, t);
    FrameStepFirst(s1, 5, t);
    FrameStepFirst(s, 6, t);
  }

  lemma StoragesAlike(s: Frames.State, m: Tracking.Manager, connected: map<Key, DeviceId>, device: DeviceId,
                      isConnected: bool, devices: iset<DeviceId>)
    requires KeysApart(devices) && SameConnected(s, connected, devices) && device in devices
    requires s.request == m.request && SameStorages(s.storages, m, devices)
    ensures var kept := if isConnected then m.storages else m.storages - {Hash(device)};
            SameStorages((if isConnected then s.storages else s.storages - {device}) + Frames.Wanted(s),
                         m.(storages := Tracking.Wanted(m.request, connected) + kept), devices)
  {
    WantedAlike(s, connected, devices);
  }

  lemma NewCallAlike(env: Tracking.Environment, s: Frames.State, m: Tracking.Manager, heap: Tracking.CallHeap,
                     connected: map<Key, DeviceId>, devices: iset<DeviceId>)
    requires KeysApart(devices) && SameConnected(s, connected, devices)
    requires s.event.Walking? && s.event.device in devices && ShowsFrame(s, m, heap, devices)
    ensures var (m', heap') := Tracking.UpdateFrame(env, m, heap, connected, s.event.device, s.event.isConnected);
            ShowsFrame(AfterFrameVisit(s), m', heap', devices)
  {
    if Requested(s.request, s.event.device) {
      var (m', heap') := Tracking.UpdateFrame(env, m, heap, connected, s.event.device, s.event.isConnected);
      var t := AfterFrameVisit(s);
      assert SameStorages(t.storages, m', devices) by {
        StoragesAlike(s, m, connected, s.event.device, s.event.isConnected, devices);
      }
      assert ShowsCall(t.calls, t.frame.value, heap', m'.frame.value) by {
        WantedAlike(s, connected, devices);
      }
    }
  }

  lemma OldCallAlike(env: Tracking.Environment, s: Frames.State, m: Tracking.Manager, heap: Tracking.CallHeap,
                     connected: map<Key, DeviceId>, devices: iset<DeviceId>)
    requires Tracking.Legal(env) && s.event.Walking? && ShowsFrame(s, m, heap, devices) && s.frame.Some?
    ensures var (_, heap') := Tracking.UpdateFrame(env, m, heap, connected, s.event.device, s.event.isConnected);
            ShowsCall(AfterFrameVisit(s).calls, s.frame.value, heap', m.frame.value)
  {}

  /** The interleaved walk, not interrupted at this request, is UpdateDataFrameStream: the old stream is cancelled, and
      the recorded one was opened with the devices that are wanted. */
  lemma WalkIsUpdateFrame(env: Tracking.Environment, s: Frames.State, m: Tracking.Manager, heap: Tracking.CallHeap,
                          connected: map<Key, DeviceId>, devices: iset<DeviceId>)
    requires Tracking.Legal(env) && KeysApart(devices) && SameConnected(s, connected, devices)
    requires s.event.Walking? && s.event.stage.Before? && !s.requester.Absent?
    requires s.event.device in devices && ShowsFrame(s, m, heap, devices)
    ensures Frames.Reaches(s, FrameWalkSteps(if Requested(s.request, s.event.device) then 7 else 1), AfterFrameVisit(s))
    ensures var (m', heap') := Tracking.UpdateFrame(env, m, heap, connected, s.event.device, s.event.isConnected);
            && ShowsFrame(AfterFrameVisit(s), m', heap', devices)
            && (s.frame.Some? ==> ShowsCall(AfterFrameVisit(s).calls, s.frame.value, heap', m.frame.value))
  {
    if Requested(s.request, s.event.device) {
      WalkReachesReplaced(s);
    } else {
      FrameStepFirst(s, 0, AfterFrameVisit(s));
    }
    NewCallAlike(env, s, m, heap, connected, devices);
    if s.frame.Some? {
      OldCallAlike(env, s, m, heap, connected, devices);
    }
  }

  // ---------------------------------------------------------------------------------------------
  // Closing
  // ---------------------------------------------------------------------------------------------

  /** The calls of one request, with their listener flags. */
  ghost predicate SameCalls(s: Closes.State, id: nat, heap: Tracking.CallHeap) {
    && (forall a :: a in s.calls <==> a in heap.calls && heap.calls[a].manager == id)
    && (forall a :: a in s.calls ==> s.calls[a] == heap.calls[a].listenerActive)
  }

  /** The interleaved close, not interrupted, does to the calls of the request what CloseRequest does in one step. */
  lemma CloseIsCloseRequest(env: Tracking.Environment, s: Closes.State, w: Tracking.World, i: nat)
    requires s.closing.Listed? && s.queue.Idle? && i < |w.managers| && Tracking.Distinct(w.managers)
    requires s.records.Values == Tracking.Recorded(w.managers[i]) && SameCalls(s, w.managers[i].id, w.heap)
    ensures var t := s.(calls := Closes.Silenced(s.calls, s.records.Values), records := map[],
                        closing := Closes.Unlisted);
            && Closes.Reaches(s, [Closes.CancelAll] + ([Closes.ClearAll] + ([Closes.Unlist] + [])), t)
            && SameCalls(t, w.managers[i].id,
                         Tracking.Step(env, w, Tracking.CloseRequest(w.managers[i].id)).heap)
  {
    var s1 := s.(calls := Closes.Silenced(s.calls, s.records.Values), closing := Closes.StreamsCancelled);
    var s2 := s1.(records := map[], closing := Closes.StreamsCleared);
    var t := s2.(closing := Closes.Unlisted);
    Closes.ReachesFirst(s2, Closes.Unlist, t, [], t);
    Closes.ReachesFirst(s1, Closes.ClearAll, s2, [Closes.Unlist] + [], t);
    Closes.ReachesFirst(s, Closes.CancelAll, s1, [Closes.ClearAll] + ([Closes.Unlist] + []), t);
    assert Tracking.IndexOf(w.managers, w.managers[i].id) == i;
  }
}
