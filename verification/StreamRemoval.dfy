/** The deletion of a call data with RemoveStream's loop as it is written (src/data_manager.cpp): when the loop returns,
    and what that means for whole runs. It runs on the queue thread, in the destructor of the call data. */
module StreamRemoval {
  import opened SdkTypes
  import opened SdkUtils
  import opened RequestTracking
  import opened DataManagers
  import Reconciliation

  /** The order in which the loop meets the entries of the stream map. */
  function StreamOrder(env: Environment, w: World, m: Manager): seq<Key> {
    env.order(w.heap.tick, m.streams.Keys)
  }

  ghost predicate LoopReturns(env: Environment, w: World, m: Manager, at: Address)
    requires Legal(env)
  {
    exists rounds :: LoopAsWritten(StreamOrder(env, w, m), m.streams, at, rounds).Some?
  }

  /** RemoveStream as written: what is left of the request's records, or None if the call never comes back. */
  ghost function ForgetAsWritten(env: Environment, w: World, m: Manager, at: Address): Option<Manager>
    requires Legal(env)
  {
    if m.frame == Some(at) then Some(m.(frame := None))
    else if LoopReturns(env, w, m, at) then
      var rounds :| LoopAsWritten(StreamOrder(env, w, m), m.streams, at, rounds).Some?;
      Some(m.(streams := LoopAsWritten(StreamOrder(env, w, m), m.streams, at, rounds).value))
    else None
  }

  /** A step of the code as written; None once the queue thread is stuck. */
  ghost function StepAsWritten(env: Environment, w: World, e: Event): Option<World>
    requires Legal(env)
  {
    if Deletes(w, e) then
      var i := IndexOf(w.managers, w.heap.calls[e.at].manager);
      var left := ForgetAsWritten(env, w, w.managers[i], e.at);
      if left.None? then None
      else Some(w.(heap := w.heap.(calls := w.heap.calls - {e.at}), managers := w.managers[i := left.value]))
    else Some(Step(env, w, e))
  }

  ghost function RunAsWritten(env: Environment, w: World, events: seq<Event>): Option<World>
    requires Legal(env)
    decreases |events|
  {
    if events == [] then Some(w)
    else
      var next := StepAsWritten(env, w, events[0]);
      if next.None? then None else RunAsWritten(env, next.value, events[1..])
  }

  /** A failed completion deletes a call of a request that is still open. */
  predicate Deletes(w: World, e: Event) {
    && e.Completion? && !e.ok && e.at in w.heap.calls
    && IndexOf(w.managers, w.heap.calls[e.at].manager) < |w.managers|
  }

  /** Whether the deletion comes back: for a call that was ended by the server, if it is the frame stream or its entry
      is the first in the map; for a call that was cancelled before, if the request records no device stream at all. */
  predicate ComesBack(env: Environment, w: World, e: Event)
    requires Deletes(w, e)
  {
    var call := w.heap.calls[e.at];
    var m := w.managers[IndexOf(w.managers, call.manager)];
    if call.listenerActive then
      match call.kind
      case FrameCall(_) => true
      case DeviceCall(device) => StreamOrder(env, w, m) != [] && StreamOrder(env, w, m)[0] == Hash(device)
    else m.streams == map[]
  }

  lemma WalksAll(order: seq<Key>, keys: set<Key>)
    requires forall k :: k in order <==> k in keys
    ensures order == [] <==> keys == {}
  {
    if order != [] {
      assert order[0] in order;
    }
  }

  lemma OrderIsMap(env: Environment, w: World, m: Manager)
    requires Legal(env)
    ensures forall k :: k in StreamOrder(env, w, m) <==> k in m.streams
    ensures StreamOrder(env, w, m) == [] <==> m.streams == map[]
  {
    WalksAll(StreamOrder(env, w, m), m.streams.Keys);
  }

  /** The recorded frame stream is that call, or there is no device stream, or its entry is the first. */
  lemma ForgetReturns(env: Environment, w: World, m: Manager, at: Address)
    requires Legal(env) && EachOnce(m.streams)
    ensures ForgetAsWritten(env, w, m, at).Some? <==>
            var order := StreamOrder(env, w, m);
            m.frame == Some(at) || m.streams == map[] ||
              (order != [] && order[0] in m.streams && m.streams[order[0]] == at)
    ensures ForgetAsWritten(env, w, m, at).Some? ==> ForgetAsWritten(env, w, m, at).value == ForgetStream(m, at)
  {
    OrderIsMap(env, w, m);
    var order := StreamOrder(env, w, m);
    LoopAsWrittenReturns(order, m.streams, at);
    if m.frame != Some(at) && LoopReturns(env, w, m, at) {
      var rounds :| LoopAsWritten(order, m.streams, at, rounds).Some? &&
                    ForgetAsWritten(env, w, m, at) ==
                      Some(m.(streams := LoopAsWritten(order, m.streams, at, rounds).value));
      assert LoopAsWritten(order, m.streams, at, rounds).value == ForgetStream(m, at).streams;
    }
  }

  /** Main result: in every reachable state, a step of the code as written comes back exactly under that condition, and
      then does what find and erase does. */
  lemma WrittenStep(env: Environment, w: World, e: Event)
    requires Legal(env) && Tracked(w)
    ensures StepAsWritten(env, w, e).Some? <==> (Deletes(w, e) ==> ComesBack(env, w, e))
    ensures StepAsWritten(env, w, e).Some? ==> StepAsWritten(env, w, e).value == Step(env, w, e)
  {
    if Deletes(w, e) {
      var m := w.managers[IndexOf(w.managers, w.heap.calls[e.at].manager)];
      assert Owns(m, w.heap);
      OrderIsMap(env, w, m);
      ForgetReturns(env, w, m, e.at);
    }
  }

  /** So every state that the code reaches is one of RequestTracking's, with everything that is proved of those. */
  lemma {:induction false} RunAsWrittenTracked(env: Environment, w: World, events: seq<Event>)
    requires Legal(env) && Tracked(w)
    ensures RunAsWritten(env, w, events).Some? ==>
              RunAsWritten(env, w, events).value == Run(env, w, events) && Tracked(RunAsWritten(env, w, events).value)
    decreases |events|
  {
    if events != [] {
      WrittenStep(env, w, events[0]);
      StepTracked(env, w, events[0]);
      RunAsWrittenTracked(env, Step(env, w, events[0]), events[1..]);
    }
  }

  // ---------------------------------------------------------------------------------------------
  // A run that gets stuck
  // ---------------------------------------------------------------------------------------------

  /** One request for every device; two devices come, and the first is unplugged. */
  function UnplugRun(a: DeviceId, b: DeviceId): seq<Event> {
    [RequestData([], DeviceDataStream)] +
      ([DeviceEvent(a, true)] + ([DeviceEvent(b, true)] + ([DeviceEvent(a, false)] + [])))
  }

  lemma OneRequest(env: Environment)
    requires Legal(env)
    ensures Step(env, Start(), RequestData([], DeviceDataStream)) ==
            World(map[], [Created(0, [], DeviceDataStream)], CallHeap(map[], 0), 1)
  {
    WalksAll(env.order(0, Start().connected.Keys), Start().connected.Keys);
  }

  lemma EventOnOne(env: Environment, w: World, device: DeviceId, isConnected: bool)
    requires |w.managers| == 1 && w.managers[0].streamType == DeviceDataStream
    ensures var w' := Step(env, w, DeviceEvent(device, isConnected));
            var (m', heap') := UpdateDevice(env, w.managers[0], w.heap, device, isConnected);
            w'.managers == [m'] && w'.heap == heap' && w'.nextManager == w.nextManager
  {
    assert w.managers == [w.managers[0]];
    Reconciliation.UpdateOne(env, w.managers[0], w.heap, ConnectedAfter(w.connected, device, isConnected), device,
                             isConnected);
  }

  /** After it the request still records the second device's stream, and the first one's call is waiting to be
      deleted. */
  lemma AfterUnplug(env: Environment, a: DeviceId, b: DeviceId)
    requires Legal(env) && Hash(a) != Hash(b)
    ensures var w := Run(env, Start(), UnplugRun(a, b));
            var at := NewAddress(env, Start().heap);
            && |w.managers| == 1 && w.managers[0].streams.Keys == {Hash(b)}
            && at in w.heap.calls && w.heap.calls[at] == CallInfo(false, w.managers[0].id, DeviceCall(a))
  {
    OneRequest(env);
    var w1 := Step(env, Start(), RequestData([], DeviceDataStream));
    EventOnOne(env, w1, a, true);
    var w2 := Step(env, w1, DeviceEvent(a, true));
    EventOnOne(env, w2, b, true);
    var w3 := Step(env, w2, DeviceEvent(b, true));
    EventOnOne(env, w3, a, false);
    RunFirst(env, Start(), RequestData([], DeviceDataStream),
             [DeviceEvent(a, true)] + ([DeviceEvent(b, true)] + ([DeviceEvent(a, false)] + [])));
    RunFirst(env, w1, DeviceEvent(a, true), [DeviceEvent(b, true)] + ([DeviceEvent(a, false)] + []));
    RunFirst(env, w2, DeviceEvent(b, true), [DeviceEvent(a, false)] + []);
    RunFirst(env, w3, DeviceEvent(a, false), []);
  }

  /** Unplugging one of two devices of a request hangs the queue thread as soon as the cancelled call completes,
      whatever the order of the map and wherever the calls were allocated. */
  lemma UnplugHangs(env: Environment, a: DeviceId, b: DeviceId)
    requires Legal(env) && Hash(a) != Hash(b)
    ensures var w := Run(env, Start(), UnplugRun(a, b));
            StepAsWritten(env, w, Completion(NewAddress(env, Start().heap), false)) == None
  {
    AfterUnplug(env, a, b);
    RunTracked(env, Start(), UnplugRun(a, b));
    var w := Run(env, Start(), UnplugRun(a, b));
    assert Hash(b) in w.managers[0].streams;
    WrittenStep(env, w, Completion(NewAddress(env, Start().heap), false));
  }
}
