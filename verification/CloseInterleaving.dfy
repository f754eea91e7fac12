/** Closing a request while a device event walks over it (src/client_manager.cpp). CloseRequest cancels what the request
    has recorded, then forgets it, and only then takes the list lock to unlist the request. The queue thread, which
    holds the list lock through a walk, can visit the request in between: looking for a stream, opening one and
    recording it are separate steps, and so are cancelling and forgetting one. Storages, which closing leaves alone,
    are not part of this. */
module CloseInterleaving {
  import opened SdkTypes
  import opened SdkUtils

  /** Where a request records a call: under the key of a device, or in its one place for the frame stream. */
  type Slot = Option<Key>

  /** The queue thread at this request. hand is the call it has opened and not recorded yet. */
  datatype Place = AtCancel | AtForget | AtCheck | AtOpen | AtRecord(hand: nat)

  datatype QueueThread = Idle | Visiting(slot: Slot, isConnected: bool, place: Place)

  /** How far the closing thread is. */
  datatype Closing = Listed | StreamsCancelled | StreamsCleared | Unlisted

  /** calls are the call data of this request that exist, with their listener flags; next numbers them. */
  datatype State = State(request: DataRequest, streamType: DataStreamType, records: map<Slot, nat>,
                         calls: map<nat, bool>, next: nat, queue: QueueThread, closing: Closing)

  datatype Action =
    // the queue thread
    | BeginVisit(device: DeviceId, isConnected: bool) | VisitStep | Fail(call: nat)
    // the closing thread
    | CancelAll | ClearAll | Unlist

  function SlotOf(streamType: DataStreamType, device: DeviceId): Slot {
    match streamType
    case DeviceDataStream => Some(Hash(device))
    case DataFrameStream => None
  }

  /** A connecting device without a stream gets one, a disconnecting one loses it; any event replaces a frame stream. */
  function FirstPlace(streamType: DataStreamType, isConnected: bool): Place {
    if streamType == DeviceDataStream && isConnected then AtCheck else AtCancel
  }

  function Silenced(calls: map<nat, bool>, targets: set<nat>): map<nat, bool> {
    map c | c in calls :: calls[c] && c !in targets
  }

  /** AddDataStream keeps an entry that is there; SetDataFrameStream overwrites it. */
  function Recorded(s: State, slot: Slot, call: nat): map<Slot, nat> {
    if s.streamType == DeviceDataStream && slot in s.records then s.records else s.records[slot := call]
  }

  function Visited(s: State): State
    requires s.queue.Visiting?
  {
    var slot, q := s.queue.slot, s.queue;
    match q.place
    case AtCancel =>
      s.(calls := if slot in s.records then Silenced(s.calls, {s.records[slot]}) else s.calls,
         queue := q.(place := AtForget))
    case AtForget =>
      s.(records := s.records - {slot},
         queue := if s.streamType == DeviceDataStream then Idle else q.(place := AtOpen))
    case AtCheck => s.(queue := if slot in s.records then Idle else q.(place := AtOpen))
    case AtOpen => s.(calls := s.calls[s.next := true], next := s.next + 1, queue := q.(place := AtRecord(s.next)))
    case AtRecord(hand) => s.(records := Recorded(s, slot, hand), queue := Idle)
  }

  /** One atomic step, or None where the action is not enabled. */
  function Step(s: State, a: Action): Option<State> {
    match a
    case BeginVisit(device, isConnected) =>
      // The walk goes over listed requests, and passes those that do not ask for the device.
      if s.queue.Idle? && !s.closing.Unlisted? && Requested(s.request, device)
      then Some(s.(queue := Visiting(SlotOf(s.streamType, device), isConnected, FirstPlace(s.streamType, isConnected))))
      else None
    case VisitStep => if s.queue.Visiting? then Some(Visited(s)) else None
    case Fail(call) =>
      // A failed operation deletes the call, and its destructor takes it out of the records.
      if s.queue.Idle? && call in s.calls
      then Some(s.(calls := s.calls - {call},
                   records := map k | k in s.records && s.records[k] != call :: s.records[k]))
      else None
    case CancelAll =>
      if s.closing.Listed?
      then Some(s.(calls := Silenced(s.calls, s.records.Values), closing := StreamsCancelled))
      else None
    case ClearAll =>
      if s.closing.StreamsCancelled? then Some(s.(records := map[], closing := StreamsCleared)) else None
    case Unlist =>
      // The list lock is free unless a walk is on.
      if s.closing.StreamsCleared? && s.queue.Idle? then Some(s.(closing := Unlisted)) else None
  }

  ghost predicate Reaches(from: State, actions: seq<Action>, target: State)
    decreases |actions|
  {
    if actions == [] then from == target else
    Step(from, actions[0]).Some? && Reaches(Step(from, actions[0]).value, actions[1..], target)
  }

  predicate Active(s: State, call: nat) {
    call in s.calls && s.calls[call]
  }

  /** An open request with no thread at work: its active calls are the recorded ones, each recorded once. */
  ghost predicate Open(s: State) {
    && s.closing.Listed? && s.queue.Idle?
    && (forall c: nat :: Active(s, c) <==> IsRecorded(s, c))
    && Bookkeeping(s)
  }

  predicate InHand(s: State, call: nat) {
    s.queue.Visiting? && s.queue.place == AtRecord(call)
  }

  ghost predicate IsRecorded(s: State, call: nat) {
    exists k :: k in s.records && s.records[k] == call
  }

  /** Calls are numbered below next and recorded at most once; the one in hand is not recorded yet. */
  ghost predicate Bookkeeping(s: State) {
    && (forall c :: c in s.calls ==> c < s.next)
    && (forall k :: k in s.records ==> s.records[k] < s.next)
    && (forall j, k :: j in s.records && k in s.records && s.records[j] == s.records[k] ==> j == k)
    && (s.queue.Visiting? && s.queue.place.AtRecord? ==>
          s.queue.place.hand < s.next && !IsRecorded(s, s.queue.place.hand))
  }

  /** What a visit has already done to the slot: the place is free when it opens a call, and holds no active call when
      it is about to forget. */
  ghost predicate Halfway(s: State) {
    s.queue.Visiting? ==>
      && (s.queue.place.AtOpen? || s.queue.place.AtRecord? ==> s.queue.slot !in s.records)
      && (s.queue.place.AtForget? && s.queue.slot in s.records ==> !Active(s, s.records[s.queue.slot]))
      && !s.closing.Unlisted?
  }

  // ---------------------------------------------------------------------------------------------
  // Which calls survive
  // ---------------------------------------------------------------------------------------------

  /** The queue thread records the call after the closing thread has cancelled what was recorded. */
  predicate RecordsLate(s: State, a: Action, call: nat) {
    a.VisitStep? && InHand(s, call) && !s.closing.Listed?
  }

  /** The queue thread silences or deletes the call. */
  predicate Stops(s: State, a: Action, call: nat) {
    || a == Fail(call)
    || (a.VisitStep? && s.queue.Visiting? && s.queue.place.AtCancel? && s.queue.slot in s.records &&
        s.records[s.queue.slot] == call)
  }

  ghost predicate EverRecordsLate(s: State, actions: seq<Action>, call: nat)
    decreases |actions|
  {
    actions != [] && Step(s, actions[0]).Some? &&
    (RecordsLate(s, actions[0], call) || EverRecordsLate(Step(s, actions[0]).value, actions[1..], call))
  }

  ghost predicate EverStops(s: State, actions: seq<Action>, call: nat)
    decreases |actions|
  {
    actions != [] && Step(s, actions[0]).Some? &&
    (Stops(s, actions[0], call) || EverStops(Step(s, actions[0]).value, actions[1..], call))
  }

  /** The call and its history: late says that it was recorded after the cancelling, stopped that the queue thread
      has silenced or deleted it. */
  ghost predicate Explained(s: State, call: nat, late: bool, stopped: bool) {
    && (late || stopped ==> call < s.next && !InHand(s, call))
    && (late ==> !s.closing.Listed?)
    && (Active(s, call) <==>
          !stopped && (late || InHand(s, call) || (s.closing.Listed? && IsRecorded(s, call))))
  }

  ghost predicate Inv(s: State) {
    Bookkeeping(s) && Halfway(s)
  }

  lemma RecordKeepsInv(s: State)
    requires Inv(s) && s.queue.Visiting? && s.queue.place.AtRecord?
    ensures Inv(Visited(s))
  {
    forall k | k in s.records
      ensures s.records[k] != s.queue.place.hand
    {
      assert IsRecorded(s, s.records[k]);
    }
  }

  lemma OpenKeepsInv(s: State)
    requires Inv(s) && s.queue.Visiting? && s.queue.place.AtOpen?
    ensures Inv(Visited(s))
  {}

  /** The steps that touch the recorded call, and the look for one. */
  lemma StreamKeepsInv(s: State)
    requires Inv(s) && s.queue.Visiting?
    requires s.queue.place.AtCancel? || s.queue.place.AtForget? || s.queue.place.AtCheck?
    ensures Inv(Visited(s))
  {}

  lemma VisitKeepsInv(s: State)
    requires Inv(s) && s.queue.Visiting?
    ensures Inv(Visited(s))
  {
    match s.queue.place
    case AtRecord(_) => RecordKeepsInv(s);
    case AtOpen => OpenKeepsInv(s);
    case _ => StreamKeepsInv(s);
  }

  lemma StepKeepsInv(s: State, a: Action)
    requires Inv(s) && Step(s, a).Some?
    ensures Inv(Step(s, a).value)
  {
    if a.VisitStep? {
      VisitKeepsInv(s);
    }
  }

  lemma RecordsAfterRecord(s: State, call: nat)
    requires Inv(s) && s.queue.Visiting? && s.queue.place.AtRecord?
    ensures IsRecorded(Visited(s), call) <==> IsRecorded(s, call) || call == s.queue.place.hand
  {
    var t := Visited(s);
    assert t.records[s.queue.slot] == s.queue.place.hand;
    if IsRecorded(s, call) {
      var k :| k in s.records && s.records[k] == call;
      assert k in t.records && t.records[k] == call;
    }
  }

  lemma RecordsAfterForget(s: State, call: nat)
    requires Inv(s) && s.queue.Visiting? && s.queue.place.AtForget?
    ensures IsRecorded(Visited(s), call) <==>
            IsRecorded(s, call) && !(s.queue.slot in s.records && s.records[s.queue.slot] == call)
  {
    if IsRecorded(s, call) {
      var k :| k in s.records && s.records[k] == call;
      assert k != s.queue.slot ==> k in Visited(s).records && Visited(s).records[k] == call;
    }
  }

  lemma RecordsAfterFailure(s: State, failed: nat, call: nat)
    requires Step(s, Fail(failed)).Some?
    ensures IsRecorded(Step(s, Fail(failed)).value, call) <==> IsRecorded(s, call) && call != failed
  {
    var t := Step(s, Fail(failed)).value;
    if IsRecorded(s, call) && call != failed {
      var k :| k in s.records && s.records[k] == call;
      assert k in t.records && t.records[k] == call;
    }
  }

  lemma ActiveAfterCancelAll(s: State, call: nat)
    requires Step(s, CancelAll).Some?
    ensures Active(Step(s, CancelAll).value, call) <==> Active(s, call) && !IsRecorded(s, call)
  {}

  lemma VisitExplained(s: State, call: nat, late: bool, stopped: bool)
    requires Inv(s) && s.queue.Visiting? && Explained(s, call, late, stopped)
    ensures Explained(Visited(s), call, late || RecordsLate(s, VisitStep, call), stopped || Stops(s, VisitStep, call))
  {
    match s.queue.place
    case AtForget => RecordsAfterForget(s, call);
    case AtRecord(_) => RecordsAfterRecord(s, call);
    case _ =>
  }

  lemma StepExplained(s: State, a: Action, call: nat, late: bool, stopped: bool)
    requires Inv(s) && Step(s, a).Some? && Explained(s, call, late, stopped)
    ensures Explained(Step(s, a).value, call, late || RecordsLate(s, a, call), stopped || Stops(s, a, call))
  {
    match a
    case VisitStep => VisitExplained(s, call, late, stopped);
    case Fail(failed) => RecordsAfterFailure(s, failed, call);
    case CancelAll => ActiveAfterCancelAll(s, call);
    case _ =>
  }

  lemma {:induction false} RunExplained(s: State, actions: seq<Action>, t: State, call: nat, late: bool, stopped: bool)
    requires Inv(s) && Reaches(s, actions, t) && Explained(s, call, late, stopped)
    ensures Inv(t)
    ensures Explained(t, call, late || EverRecordsLate(s, actions, call), stopped || EverStops(s, actions, call))
    decreases |actions|
  {
    if actions != [] {
      var a := actions[0];
      StepKeepsInv(s, a);
      StepExplained(s, a, call, late, stopped);
      RunExplained(Step(s, a).value, actions[1..], t, call, late || RecordsLate(s, a, call),
                   stopped || Stops(s, a, call));
    }
  }

  /** Main result: a closed request keeps an active call if and only if the queue thread recorded that call after the
      closing thread had cancelled the recorded ones, and has not stopped it itself since. */
  lemma ClosedKeepsCall(s: State, actions: seq<Action>, t: State, call: nat)
    requires Open(s) && Reaches(s, actions, t) && t.closing.Unlisted?
    ensures Active(t, call) <==> EverRecordsLate(s, actions, call) && !EverStops(s, actions, call)
  {
    RunExplained(s, actions, t, call, false, false);
  }

  /** A visit is under way at some time between the cancelling and the unlisting. */
  ghost predicate Disturbed(s: State, actions: seq<Action>)
    decreases |actions|
  {
    || (s.queue.Visiting? && (s.closing.StreamsCancelled? || s.closing.StreamsCleared?))
    || (actions != [] && Step(s, actions[0]).Some? && Disturbed(Step(s, actions[0]).value, actions[1..]))
  }

  lemma {:induction false} LateOnlyIfDisturbed(s: State, actions: seq<Action>, call: nat)
    requires Inv(s) && EverRecordsLate(s, actions, call)
    ensures Disturbed(s, actions)
    decreases |actions|
  {
    if !RecordsLate(s, actions[0], call) {
      StepKeepsInv(s, actions[0]);
      LateOnlyIfDisturbed(Step(s, actions[0]).value, actions[1..], call);
    }
  }

  /** In particular closing leaves no active call when no device event visits the request meanwhile. */
  lemma UndisturbedCloseLeavesNothing(s: State, actions: seq<Action>, t: State, call: nat)
    requires Open(s) && Reaches(s, actions, t) && t.closing.Unlisted? && !Disturbed(s, actions)
    ensures !Active(t, call)
  {
    ClosedKeepsCall(s, actions, t, call);
    if EverRecordsLate(s, actions, call) {
      LateOnlyIfDisturbed(s, actions, call);
    }
  }

  // ---------------------------------------------------------------------------------------------
  // A call that survives
  // ---------------------------------------------------------------------------------------------

  lemma ReachesFirst(s: State, a: Action, u: State, actions: seq<Action>, t: State)
    requires Step(s, a) == Some(u) && Reaches(u, actions, t)
    ensures Reaches(s, [a] + actions, t)
  {
    assert ([a] + actions)[1..] == actions;
  }

  /** What a visit in the cleared request leaves: one more call, recorded. */
  function Revived(s: State, slot: Slot): State {
    s.(calls := s.calls[s.next := true], next := s.next + 1, records := map[slot := s.next], queue := Idle)
  }

  function OpenAndRecord(): seq<Action> {
    [VisitStep] + ([VisitStep] + [Unlist])
  }

  lemma OpensAndRecords(s: State, slot: Slot, isConnected: bool)
    requires s.records == map[] && s.closing.StreamsCleared? && s.queue == Visiting(slot, isConnected, AtOpen)
    ensures Reaches(s, OpenAndRecord(), Revived(s, slot).(closing := Unlisted))
  {
    var s1 := s.(calls := s.calls[s.next := true], next := s.next + 1, queue := s.queue.(place := AtRecord(s.next)));
    var t := Revived(s, slot).(closing := Unlisted);
    assert s.records[slot := s.next] == map[slot := s.next];
    ReachesFirst(Revived(s, slot), Unlist, t, [], t);
    assert [Unlist] + [] == [Unlist];
    ReachesFirst(s1, VisitStep, Revived(s, slot), [Unlist], t);
    ReachesFirst(s, VisitStep, s1, [VisitStep] + [Unlist], t);
  }

  function LateVisit(streamType: DataStreamType, device: DeviceId): seq<Action> {
    [BeginVisit(device, true)] + match streamType
                                 case DeviceDataStream => [VisitStep] + OpenAndRecord()
                                 case DataFrameStream => [VisitStep] + ([VisitStep] + OpenAndRecord())
  }

  lemma VisitsLate(s: State, device: DeviceId)
    requires s.records == map[] && s.closing.StreamsCleared? && s.queue.Idle? && Requested(s.request, device)
    ensures Reaches(s, LateVisit(s.streamType, device),
                    Revived(s, SlotOf(s.streamType, device)).(closing := Unlisted))
  {
    var slot := SlotOf(s.streamType, device);
    var s1 := s.(queue := Visiting(slot, true, FirstPlace(s.streamType, true)));
    var s2 := s.(queue := Visiting(slot, true, AtForget));
    var s3 := s.(queue := Visiting(slot, true, AtOpen));
    var t := Revived(s, slot).(closing := Unlisted);
    assert s.records - {slot} == map[];
    OpensAndRecords(s3, slot, true);
    match s.streamType {
      case DeviceDataStream =>
        ReachesFirst(s1, VisitStep, s3, OpenAndRecord(), t);
        ReachesFirst(s, BeginVisit(device, true), s1, [VisitStep] + OpenAndRecord(), t);
      case DataFrameStream =>
        ReachesFirst(s2, VisitStep, s3, OpenAndRecord(), t);
        ReachesFirst(s1, VisitStep, s2, [VisitStep] + OpenAndRecord(), t);
        ReachesFirst(s, BeginVisit(device, true), s1, [VisitStep] + ([VisitStep] + OpenAndRecord()), t);
    }
  }

  /** Such a run exists for every open request and every device it asks for: a connect event visits the request after
      its streams have been cleared. */
  lemma SurvivingCallIsReachable(s: State, device: DeviceId)
    requires Open(s) && Requested(s.request, device)
    ensures exists actions, t :: Reaches(s, actions, t) && t.closing.Unlisted? && Active(t, s.next)
  {
    var s1 := s.(calls := Silenced(s.calls, s.records.Values), closing := StreamsCancelled);
    var s2 := s1.(records := map[], closing := StreamsCleared);
    var t := Revived(s2, SlotOf(s.streamType, device)).(closing := Unlisted);
    var late := LateVisit(s.streamType, device);
    VisitsLate(s2, device);
    ReachesFirst(s1, ClearAll, s2, late, t);
    ReachesFirst(s, CancelAll, s1, [ClearAll] + late, t);
  }

  /** No thread is ever stuck: a visit goes on, and between visits any call can fail and a requested device can be
      visited until the request is unlisted; closing waits only at the unlisting, for a visit. */
  lemma NeverStuck(s: State, device: DeviceId, isConnected: bool)
    requires Requested(s.request, device)
    ensures s.queue.Visiting? <==> Step(s, VisitStep).Some?
    ensures s.queue.Idle? ==> forall call :: call in s.calls ==> Step(s, Fail(call)).Some?
    ensures s.queue.Idle? && !s.closing.Unlisted? <==> Step(s, BeginVisit(device, isConnected)).Some?
    ensures match s.closing
            case Listed => Step(s, CancelAll).Some?
            case StreamsCancelled => Step(s, ClearAll).Some?
            case StreamsCleared => Step(s, Unlist).Some? <==> s.queue.Idle?
            case Unlisted => true
  {}
}
