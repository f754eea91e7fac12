/** A request for data frames and device events that run at the same time (src/client_manager.cpp). Both the requesting
    thread and the queue thread go through OpenDataFrame for the same request: they scan the connected devices under
    their lock, give the lock back, open a stream for what they found, and only then record it. Nothing orders the
    two. */
module FrameInterleaving {
  import opened SdkTypes

  /** A frame stream: the devices it was opened with, and whether its listener is on. */
  datatype Call = Call(devices: set<DeviceId>, active: bool)

  /** The requesting thread: before it adds its request to the list, in the list, after its scan, after opening,
      done. */
  datatype Requester = Absent | Registered | Scanned | Opened(call: nat) | Done

  /** The queue thread inside the walk: before this request, its way through UpdateDataFrameStream, and past the
      request. */
  datatype Stage =
    | Before | AtRemove | AtCancel | AtForget | AtScan | AtOpen(found: set<DeviceId>) | AtRecord(call: nat) | Past

  datatype EventThread =
    | NoEvent
    | MapUpdated(device: DeviceId, isConnected: bool)
    | Walking(device: DeviceId, isConnected: bool, stage: Stage)

  /** frame is the recorded stream. seen is what the requesting thread's scan found, lastRecord which thread recorded
      last. */
  datatype Recorder = Nobody | RequestingThread | QueueThread

  datatype State = State(
    request: DataRequest, connected: set<DeviceId>, storages: set<DeviceId>, frame: Option<nat>, calls: seq<Call>,
    requester: Requester, seen: set<DeviceId>, event: EventThread, lastRecord: Recorder)

  datatype Action =
    // the queue thread
    | BeginEvent(device: DeviceId, isConnected: bool) | BeginWalk | WalkStep | EndWalk
    // the requesting thread
    | Register | Scan | Open | Record

  function Start(request: DataRequest): State {
    State(request, {}, {}, None, [], Absent, {}, NoEvent, Nobody)
  }

  function Wanted(s: State): set<DeviceId> {
    set device | device in s.connected && Requested(s.request, device)
  }

  function Cancelled(calls: seq<Call>, at: nat): seq<Call> {
    if at < |calls| then calls[at := calls[at].(active := false)] else calls
  }

  /** The queue thread's next step at this request. */
  function Walked(s: State): State
    requires s.event.Walking?
  {
    var e := s.event;
    match e.stage
    case Before =>
      s.(event := e.(stage := if s.requester.Absent? || !Requested(s.request, e.device) then Past else AtRemove))
    case AtRemove =>
      s.(storages := if e.isConnected then s.storages else s.storages - {e.device}, event := e.(stage := AtCancel))
    case AtCancel =>
      s.(calls := if s.frame.Some? then Cancelled(s.calls, s.frame.value) else s.calls, event := e.(stage := AtForget))
    case AtForget => s.(frame := None, event := e.(stage := AtScan))
    case AtScan => s.(storages := s.storages + Wanted(s), event := e.(stage := AtOpen(Wanted(s))))
    case AtOpen(found) => s.(calls := s.calls + [Call(found, true)], event := e.(stage := AtRecord(|s.calls|)))
    case AtRecord(call) => s.(frame := Some(call), lastRecord := QueueThread, event := e.(stage := Past))
    case Past => s
  }

  /** One atomic step, or None where the action is not enabled. */
  function Step(s: State, a: Action): Option<State> {
    match a
    case BeginEvent(device, isConnected) =>
      if s.event.NoEvent?
      then Some(s.(connected := if isConnected then s.connected + {device} else s.connected - {device},
                   event := MapUpdated(device, isConnected)))
      else None
    case BeginWalk =>
      if s.event.MapUpdated? then Some(s.(event := Walking(s.event.device, s.event.isConnected, Before))) else None
    case WalkStep => if s.event.Walking? && !s.event.stage.Past? then Some(Walked(s)) else None
    case EndWalk => if s.event.Walking? && s.event.stage.Past? then Some(s.(event := NoEvent)) else None
    case Register =>
      // The list lock is free unless the walk is on.
      if s.requester.Absent? && !s.event.Walking? then Some(s.(requester := Registered)) else None
    case Scan =>
      if s.requester.Registered?
      then Some(s.(storages := s.storages + Wanted(s), seen := Wanted(s), requester := Scanned))
      else None
    case Open =>
      if s.requester.Scanned?
      then Some(s.(calls := s.calls + [Call(s.seen, true)], requester := Opened(|s.calls|)))
      else None
    case Record =>
      if s.requester.Opened?
      then Some(s.(frame := Some(s.requester.call), lastRecord := RequestingThread, requester := Done))
      else None
  }

  ghost predicate Reaches(from: State, actions: seq<Action>, target: State)
    decreases |actions|
  {
    if actions == [] then from == target else
    Step(from, actions[0]).Some? && Reaches(Step(from, actions[0]).value, actions[1..], target)
  }

  /** The request is open and no event is in progress. */
  predicate Quiescent(s: State) {
    s.requester.Done? && s.event.NoEvent?
  }

  // ---------------------------------------------------------------------------------------------
  // Storages and the recorded stream
  // ---------------------------------------------------------------------------------------------

  predicate PastScan(s: State) {
    s.requester.Scanned? || s.requester.Opened? || s.requester.Done?
  }

  /** The queue thread still has to take the event's device out of the storages. */
  predicate RemovalPending(s: State, device: DeviceId) {
    match s.event
    case NoEvent => false
    case MapUpdated(d, isConnected) => d == device && !isConnected
    case Walking(d, isConnected, stage) => d == device && !isConnected && (stage.Before? || stage.AtRemove?)
  }

  /** The queue thread still has to scan for the event in progress. */
  predicate ScanPending(s: State) {
    match s.event
    case NoEvent => false
    case MapUpdated(d, _) => Requested(s.request, d)
    case Walking(d, _, stage) =>
      Requested(s.request, d) && !stage.AtOpen? && !stage.AtRecord? && !stage.Past?
  }

  /** The queue thread has yet to record a stream for the event in progress. */
  predicate ReplacementPending(s: State) {
    ScanPending(s) || (s.event.Walking? && (s.event.stage.AtOpen? || s.event.stage.AtRecord?))
  }

  ghost predicate EventOk(s: State) {
    && (s.requester.Absent? ==> s.storages == {} && s.frame.None? && s.calls == [])
    && (!s.event.NoEvent? ==> (s.event.device in s.connected <==> s.event.isConnected))
    && (s.event.Walking? && !s.event.stage.Before? && !s.event.stage.Past? ==>
          !s.requester.Absent? && Requested(s.request, s.event.device))
    && (s.event.Walking? && s.event.stage.AtOpen? ==> s.event.stage.found == Wanted(s))
    && (s.event.Walking? && s.event.stage.AtRecord? ==>
          s.event.stage.call < |s.calls| && s.calls[s.event.stage.call].devices == Wanted(s))
  }

  ghost predicate StoragesOk(s: State) {
    && (forall d :: d in s.storages ==> Requested(s.request, d) && (d in s.connected || RemovalPending(s, d)))
    && (forall d :: PastScan(s) && d in Wanted(s) && !ScanPending(s) ==> d in s.storages)
    && (forall d :: PastScan(s) && d in Wanted(s) && (s.event.NoEvent? || s.event.device != d) ==> d in s.storages)
  }

  /** The queue thread is between forgetting the recorded stream and recording its own. */
  predicate Replacing(s: State) {
    s.event.Walking? && (s.event.stage.AtScan? || s.event.stage.AtOpen? || s.event.stage.AtRecord?)
  }

  ghost predicate FrameOk(s: State) {
    && (s.requester.Absent? || s.requester.Registered? || s.requester.Scanned? || s.requester.Opened? ==>
          !s.lastRecord.RequestingThread?)
    && (s.requester.Opened? ==> s.requester.call < |s.calls| && s.calls[s.requester.call].devices == s.seen)
    && (s.frame.Some? ==> s.frame.value < |s.calls| && !s.lastRecord.Nobody?)
    && (s.requester.Done? && !Replacing(s) ==> s.frame.Some?)
    && (s.frame.Some? && s.lastRecord.RequestingThread? ==> s.calls[s.frame.value].devices == s.seen)
    && (s.frame.Some? && s.lastRecord.QueueThread? && !ReplacementPending(s) ==>
        s.calls[s.frame.value].devices == Wanted(s))
  }

  ghost predicate Inv(s: State) {
    EventOk(s) && StoragesOk(s) && FrameOk(s)
  }

  lemma StepKeepsEvent(s: State, a: Action)
    requires Inv(s) && Step(s, a).Some?
    ensures EventOk(Step(s, a).value)
  {}

  predicate IsWalk(a: Action) {
    a.BeginWalk? || a.WalkStep? || a.EndWalk?
  }

  lemma WalkKeepsStorages(s: State, a: Action)
    requires Inv(s) && Step(s, a).Some? && IsWalk(a)
    ensures StoragesOk(Step(s, a).value)
  {
    assert Wanted(Step(s, a).value) == Wanted(s);
  }

  lemma OtherStepsKeepStorages(s: State, a: Action)
    requires Inv(s) && Step(s, a).Some? && !IsWalk(a)
    ensures StoragesOk(Step(s, a).value)
  {}

  lemma StepKeepsStorages(s: State, a: Action)
    requires Inv(s) && Step(s, a).Some?
    ensures StoragesOk(Step(s, a).value)
  {
    if IsWalk(a) {
      WalkKeepsStorages(s, a);
    } else {
      OtherStepsKeepStorages(s, a);
    }
  }

  lemma StepKeepsFrame(s: State, a: Action)
    requires Inv(s) && Step(s, a).Some?
    ensures FrameOk(Step(s, a).value)
  {
    if a.BeginEvent? && !Requested(s.request, a.device) {
      assert Wanted(Step(s, a).value) == Wanted(s);
    }
  }

  lemma {:induction false} RunKeepsInv(s: State, actions: seq<Action>, t: State)
    requires Inv(s) && Reaches(s, actions, t)
    ensures Inv(t)
    decreases |actions|
  {
    if actions != [] {
      StepKeepsEvent(s, actions[0]);
      StepKeepsStorages(s, actions[0]);
      StepKeepsFrame(s, actions[0]);
      RunKeepsInv(Step(s, actions[0]).value, actions[1..], t);
    }
  }

  /** Whether a device is connected after the actions: as the last event for it says, or as before. */
  predicate ConnectedBy(before: bool, actions: seq<Action>, device: DeviceId)
    decreases |actions|
  {
    if actions == [] then before
    else
      var a := actions[0];
      ConnectedBy(if a.BeginEvent? && a.device == device then a.isConnected else before, actions[1..], device)
  }

  lemma {:induction false} RunConnects(s: State, actions: seq<Action>, t: State, device: DeviceId)
    requires Reaches(s, actions, t)
    ensures t.request == s.request
    ensures device in t.connected <==> ConnectedBy(device in s.connected, actions, device)
    decreases |actions|
  {
    if actions != [] {
      RunConnects(Step(s, actions[0]).value, actions[1..], t, device);
    }
  }

  /** Main result: once all is quiet the storages are exactly those of the requested and connected devices, but the
      recorded stream was opened with exactly these devices if and only if the queue thread recorded last, or the scan
      of the requesting thread found the same devices. */
  lemma FrameIffNotOvertaken(request: DataRequest, actions: seq<Action>, t: State)
    requires Reaches(Start(request), actions, t) && Quiescent(t)
    ensures t.storages == Wanted(t)
    ensures t.frame.Some? && t.frame.value < |t.calls|
    ensures t.calls[t.frame.value].devices == Wanted(t) <==> t.lastRecord.QueueThread? || t.seen == Wanted(t)
    ensures forall device :: device in Wanted(t) <==>
              ConnectedBy(false, actions, device) && (request == [] || device in request)
  {
    forall device
      ensures device in Wanted(t) <==> ConnectedBy(false, actions, device) && (request == [] || device in request)
    {
      RunConnects(Start(request), actions, t, device);
    }
    RunKeepsInv(Start(request), actions, t);
  }

  // ---------------------------------------------------------------------------------------------
  // Streams that nothing records
  // ---------------------------------------------------------------------------------------------

  /** An active stream that is neither recorded nor about to be. */
  ghost predicate Stray(s: State, k: nat) {
    && k < |s.calls| && s.calls[k].active
    && s.frame != Some(k)
    && !(s.requester.Opened? && s.requester.call == k)
    && !(s.event.Walking? && s.event.stage.AtRecord? && s.event.stage.call == k)
  }

  ghost predicate HasStray(s: State) {
    exists k :: Stray(s, k)
  }

  /** The requesting thread records over a stream recorded by the queue thread, or while the queue thread is replacing
      one. */
  predicate Collides(s: State, a: Action) {
    && a.Record? && s.requester.Opened?
    && (s.frame.Some? || Replacing(s) || (s.event.Walking? && s.event.stage.AtForget?))
  }

  ghost predicate EverCollides(s: State, actions: seq<Action>)
    decreases |actions|
  {
    && actions != [] && Step(s, actions[0]).Some?
    && (Collides(s, actions[0]) || EverCollides(Step(s, actions[0]).value, actions[1..]))
  }

  /** The recorded stream is active until the queue thread cancels it. Each stream in hand is active and not recorded,
      and the two are different. */
  ghost predicate InHand(s: State) {
    && (s.frame.Some? ==> s.frame.value < |s.calls|)
    && (s.frame.Some? && !s.event.Walking? ==> s.calls[s.frame.value].active)
    && (s.frame.Some? && s.event.Walking? && !s.event.stage.AtForget? ==> s.calls[s.frame.value].active)
    && (s.requester.Opened? ==>
          s.requester.call < |s.calls| && s.calls[s.requester.call].active && s.frame != Some(s.requester.call))
    && (s.event.Walking? && s.event.stage.AtRecord? ==>
          s.event.stage.call < |s.calls| && s.calls[s.event.stage.call].active && s.frame != Some(s.event.stage.call))
    && (s.requester.Opened? && s.event.Walking? && s.event.stage.AtRecord? ==> s.requester.call != s.event.stage.call)
  }

  /** What the queue thread is about to overwrite or forget is cancelled, unless the threads have collided; it then
      becomes a stray stream. */
  ghost predicate AboutToStray(s: State)
    requires InHand(s)
  {
    && s.frame.Some? && s.event.Walking? && s.calls[s.frame.value].active
    && (s.event.stage.AtForget? || Replacing(s))
  }

  ghost predicate Explained(s: State, collided: bool)
    requires InHand(s)
  {
    && (collided ==> HasStray(s) || AboutToStray(s))
    && (!collided ==> !HasStray(s) && !AboutToStray(s))
  }

  lemma StepKeepsInHand(s: State, a: Action)
    requires InHand(s) && Step(s, a).Some?
    ensures InHand(Step(s, a).value)
  {}

  /** A stray stream stays one: nothing cancels or records it. */
  lemma StrayStays(s: State, a: Action, k: nat)
    requires InHand(s) && Step(s, a).Some? && Stray(s, k)
    ensures Stray(Step(s, a).value, k)
  {}

  lemma CollisionStrays(s: State, a: Action)
    requires InHand(s) && Step(s, a).Some? && Collides(s, a)
    ensures var t := Step(s, a).value; InHand(t) && (HasStray(t) || AboutToStray(t))
  {
    if s.frame.Some? && s.calls[s.frame.value].active {
      assert Stray(Step(s, a).value, s.frame.value);
    }
  }

  lemma AboutToStrayStrays(s: State, a: Action)
    requires InHand(s) && Step(s, a).Some? && AboutToStray(s)
    ensures var t := Step(s, a).value; InHand(t) && (HasStray(t) || AboutToStray(t))
  {
    var t := Step(s, a).value;
    if t.frame != s.frame {
      assert Stray(t, s.frame.value);
    }
  }

  lemma NoStrayWithoutCollision(s: State, a: Action)
    requires InHand(s) && Step(s, a).Some? && !Collides(s, a) && !HasStray(s) && !AboutToStray(s)
    ensures var t := Step(s, a).value; InHand(t) && !HasStray(t) && !AboutToStray(t)
  {
    var t := Step(s, a).value;
    assert !AboutToStray(t);
    forall k: nat
      ensures !Stray(t, k)
    {
      assert !Stray(s, k);
    }
  }

  lemma {:induction false} RunExplained(s: State, actions: seq<Action>, t: State, collided: bool)
    requires InHand(s) && Reaches(s, actions, t) && Explained(s, collided)
    ensures InHand(t) && Explained(t, collided || EverCollides(s, actions))
    decreases |actions|
  {
    if actions != [] {
      var a := actions[0];
      var u := Step(s, a).value;
      StepKeepsInHand(s, a);
      if Collides(s, a) {
        CollisionStrays(s, a);
      } else if HasStray(s) {
        var k :| Stray(s, k);
        StrayStays(s, a, k);
      } else if AboutToStray(s) {
        AboutToStrayStrays(s, a);
      } else {
        NoStrayWithoutCollision(s, a);
      }
      RunExplained(u, actions[1..], t, collided || Collides(s, a));
    }
  }

  /** Main result: once all is quiet there is an active stream that nothing records, and so nothing will ever cancel, if
      and only if the requesting thread recorded over a stream of the queue thread or while that was replacing one. */
  lemma StrayIffCollision(request: DataRequest, actions: seq<Action>, t: State)
    requires Reaches(Start(request), actions, t) && Quiescent(t)
    ensures (exists k: nat :: k < |t.calls| && t.calls[k].active && t.frame != Some(k)) <==>
            EverCollides(Start(request), actions)
  {
    RunExplained(Start(request), actions, t, false);
    assert forall k: nat :: Stray(t, k) <==> k < |t.calls| && t.calls[k].active && t.frame != Some(k);
  }

  /** Between its scan and its record the requesting thread is up to date, or the queue thread still has a stream to
      record, or has recorded one. Having recorded without a collision it is up to date, or the queue thread has one to
      record. */
  ghost predicate UpToDate(s: State, collided: bool) {
    && (s.requester.Scanned? || s.requester.Opened? ==> s.seen == Wanted(s) || ReplacementPending(s) || s.frame.Some?)
    && (s.requester.Done? && s.lastRecord.RequestingThread? && !collided ==>
        s.seen == Wanted(s) || ReplacementPending(s))
  }

  lemma StepUpToDate(s: State, a: Action, collided: bool)
    requires Inv(s) && Step(s, a).Some? && UpToDate(s, collided)
    ensures UpToDate(Step(s, a).value, collided || Collides(s, a))
  {
    if !a.BeginEvent? || !Requested(s.request, a.device) {
      assert Wanted(Step(s, a).value) == Wanted(s);
    }
  }

  lemma {:induction false} RunUpToDate(s: State, actions: seq<Action>, t: State, collided: bool)
    requires Inv(s) && Reaches(s, actions, t) && UpToDate(s, collided)
    ensures UpToDate(t, collided || EverCollides(s, actions))
    decreases |actions|
  {
    if actions != [] {
      StepKeepsEvent(s, actions[0]);
      StepKeepsStorages(s, actions[0]);
      StepKeepsFrame(s, actions[0]);
      StepUpToDate(s, actions[0], collided);
      RunUpToDate(Step(s, actions[0]).value, actions[1..], t, collided || Collides(s, actions[0]));
    }
  }

  /** So a collision is the only way in which the recorded stream can end up with the wrong devices. */
  lemma NoCollisionNoStaleStream(request: DataRequest, actions: seq<Action>, t: State)
    requires Reaches(Start(request), actions, t) && Quiescent(t) && !EverCollides(Start(request), actions)
    ensures t.frame.Some? && t.frame.value < |t.calls| && t.calls[t.frame.value].devices == Wanted(t)
  {
    FrameIffNotOvertaken(request, actions, t);
    RunKeepsInv(Start(request), actions, t);
    RunUpToDate(Start(request), actions, t, false);
  }

  // ---------------------------------------------------------------------------------------------
  // The run
  // ---------------------------------------------------------------------------------------------

  lemma ReachesFirst(s: State, a: Action, u: State, actions: seq<Action>, t: State)
    requires Step(s, a) == Some(u) && Reaches(u, actions, t)
    ensures Reaches(s, [a] + actions, t)
  {
    assert ([a] + actions)[1..] == actions;
  }

  /** A request for all devices, open before any device is connected and with its scan done, when a device connects: the
      queue thread records a stream for the device, and the requesting thread records its own over it. */
  function Overtaken(device: DeviceId): State {
    State([], {device}, {device}, Some(1), [Call({device}, true), Call({}, true)], Done, {}, NoEvent, RequestingThread)
  }

  /** The queue thread has recorded its stream, and the requesting thread still has to open one. */
  function Replaced(device: DeviceId): State {
    State([], {device}, {device}, Some(0), [Call({device}, true)], Scanned, {}, Walking(device, true, Past),
          QueueThread)
  }

  function OverwriteActions(): seq<Action> {
    [EndWalk] + ([Open] + ([Record] + []))
  }

  lemma RequesterOverwrites(device: DeviceId)
    ensures Reaches(Replaced(device), OverwriteActions(), Overtaken(device))
  {
    var t := Overtaken(device);
    var s4 := Replaced(device);
    var s5 := s4.(event := NoEvent);
    var s6 := s5.(calls := s5.calls + [Call({}, true)], requester := Opened(1));
    assert s6.calls == t.calls;
    assert Reaches(t, [], t);
    ReachesFirst(s6, Record, t, [], t);
    ReachesFirst(s5, Open, s6, [Record] + [], t);
    ReachesFirst(s4, EndWalk, s5, [Open] + ([Record] + []), t);
  }

  function ReplaceActions(): seq<Action> {
    [WalkStep] + ([WalkStep] + ([WalkStep] + ([WalkStep] + OverwriteActions())))
  }

  lemma QueueReplaces(device: DeviceId)
    ensures Reaches(State([], {device}, {}, None, [], Scanned, {}, Walking(device, true, AtForget), Nobody),
                    ReplaceActions(), Overtaken(device))
  {
    var t := Overtaken(device);
    var s0 := State([], {device}, {}, None, [], Scanned, {}, Walking(device, true, AtForget), Nobody);
    var s1 := s0.(event := Walking(device, true, AtScan));
    var s2 := s0.(storages := {device}, event := Walking(device, true, AtOpen({device})));
    var s3 := s2.(calls := [Call({device}, true)], event := Walking(device, true, AtRecord(0)));
    assert Wanted(s1) == {device} && s1.storages + {device} == {device};
    assert s2.calls + [Call({device}, true)] == s3.calls;
    RequesterOverwrites(device);
    var r := OverwriteActions();
    ReachesFirst(s3, WalkStep, Replaced(device), r, t);
    ReachesFirst(s2, WalkStep, s3, [WalkStep] + r, t);
    ReachesFirst(s1, WalkStep, s2, [WalkStep] + ([WalkStep] + r), t);
    ReachesFirst(s0, WalkStep, s1, [WalkStep] + ([WalkStep] + ([WalkStep] + r)), t);
  }

  function EventActions(device: DeviceId): seq<Action> {
    [BeginEvent(device, true)] + ([BeginWalk] + ([WalkStep] + ([WalkStep] + ([WalkStep] + ReplaceActions()))))
  }

  lemma EventArrives(device: DeviceId)
    ensures Reaches(Start([]).(requester := Scanned), EventActions(device), Overtaken(device))
  {
    var t := Overtaken(device);
    QueueReplaces(device);
    var r := ReplaceActions();
    var q1 := Start([]).(requester := Scanned);
    var q2 := q1.(connected := {device}, event := MapUpdated(device, true));
    var q3 := q2.(event := Walking(device, true, Before));
    var q4 := q2.(event := Walking(device, true, AtRemove));
    var q5 := q2.(event := Walking(device, true, AtCancel));
    var q6 := q2.(event := Walking(device, true, AtForget));
    assert q1.connected + {device} == {device};
    assert q6 == State([], {device}, {}, None, [], Scanned, {}, Walking(device, true, AtForget), Nobody);
    ReachesFirst(q5, WalkStep, q6, r, t);
    ReachesFirst(q4, WalkStep, q5, [WalkStep] + r, t);
    ReachesFirst(q3, WalkStep, q4, [WalkStep] + ([WalkStep] + r), t);
    r := [WalkStep] + ([WalkStep] + ([WalkStep] + r));
    ReachesFirst(q2, BeginWalk, q3, r, t);
    ReachesFirst(q1, BeginEvent(device, true), q2, [BeginWalk] + r, t);
  }

  /** Both defects in one run: at its end the recorded stream lacks the connected device, and the one that has it is
      stray. */
  lemma OvertakenIsReachable(device: DeviceId)
    ensures exists actions :: Reaches(Start([]), actions, Overtaken(device))
    ensures var t := Overtaken(device);
            Quiescent(t) && t.calls[t.frame.value].devices != Wanted(t) && Stray(t, 0)
  {
    assert device in Wanted(Overtaken(device));
    EventArrives(device);
    var q0 := Start([]).(requester := Registered);
    var q1 := Start([]).(requester := Scanned);
    assert Wanted(q0) == {} && q0.storages + {} == q0.storages;
    assert Step(q0, Scan).value.seen == q1.seen && Step(q0, Scan).value.storages == q1.storages;
    ReachesFirst(q0, Scan, q1, EventActions(device), Overtaken(device));
    ReachesFirst(Start([]), Register, q0, [Scan] + EventActions(device), Overtaken(device));
  }

  /** No thread is ever stuck: an event can always begin or go on, and the requesting thread waits only before it is
      listed, for a walk. */
  lemma NeverStuck(s: State, device: DeviceId, isConnected: bool)
    ensures match s.event
            case NoEvent => Step(s, BeginEvent(device, isConnected)).Some?
            case MapUpdated(_, _) => Step(s, BeginWalk).Some?
            case Walking(_, _, stage) => Step(s, if stage.Past? then EndWalk else WalkStep).Some?
    ensures match s.requester
            case Absent => Step(s, Register).Some? <==> !s.event.Walking?
            case Registered => Step(s, Scan).Some?
            case Scanned => Step(s, Open).Some?
            case Opened(_) => Step(s, Record).Some?
            case Done => true
  {}
}
