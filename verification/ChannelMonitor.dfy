/** The thread that polls the channel and keeps the device event stream open while the channel is ready
    (ClientManager::ChannelMonitor, src/client_manager.cpp). */
module ChannelMonitors {
  import opened SdkTypes

  /** A connectivity state of the channel, as the integer the library reports. */
  type ChannelState = x: int | 0 <= x <= 4

  const NEVER_POLLED := -1
  const GRPC_CHANNEL_READY: ChannelState := 2

  /** What one turn of the loop finds: the state that the channel reports, and for every listed base-station storage and
      wireless manager whether it has a stream at that moment. */
  datatype Look = Look(state: ChannelState, holders: seq<bool>)

  /** What the monitor has done so far: streams are numbered in the order in which they were opened. reopened has an
      entry for each of them, the positions of the holders that were given a new stream with it. */
  datatype Monitor = Monitor(previous: int, stream: Option<nat>, opens: nat, cancels: nat, clears: nat,
                             heard: seq<ChannelState>, reopened: seq<set<nat>>)

  function FirstStart(): Monitor {
    Monitor(NEVER_POLLED, None, 0, 0, 0, [], [])
  }

  function StopStream(m: Monitor): Monitor {
    if m.stream.Some? then m.(stream := None, cancels := m.cancels + 1) else m
  }

  /** The holders without a stream. */
  function Lacking(holders: seq<bool>): set<nat> {
    if holders == [] then {}
    else
      var last := |holders| - 1;
      Lacking(holders[..last]) + if holders[last] then {} else {last}
  }

  lemma {:induction false} LackingHolders(holders: seq<bool>)
    ensures forall j: nat :: j in Lacking(holders) <==> j < |holders| && !holders[j]
    decreases |holders|
  {
    if holders != [] {
      LackingHolders(holders[..|holders| - 1]);
    }
  }

  /** One turn of the loop. */
  function Poll(m: Monitor, look: Look): Monitor {
    var state := look.state;
    if state == m.previous then m
    else
      var acted :=
        if state == GRPC_CHANNEL_READY then
          m.(stream := Some(m.opens), opens := m.opens + 1, reopened := m.reopened + [Lacking(look.holders)])
        else if m.previous == GRPC_CHANNEL_READY then StopStream(m).(clears := m.clears + 1)
        else StopStream(m);
      acted.(previous := state, heard := m.heard + [state])
  }

  function PollAll(m: Monitor, polled: seq<Look>): Monitor {
    if polled == [] then m else Poll(PollAll(m, polled[..|polled| - 1]), polled[|polled| - 1])
  }

  class ChannelMonitor {
    const hasChannel: bool
    var previousChannelState: int
    var deviceEventStream: Option<nat>
    var opens: nat
    var cancels: nat
    var clears: nat
    var heard: seq<ChannelState>
    var reopened: seq<set<nat>>

    ghost function State(): Monitor
      reads this
    {
      Monitor(previousChannelState, deviceEventStream, opens, cancels, clears, heard, reopened)
    }

    constructor (hasChannel: bool)
      ensures this.hasChannel == hasChannel && State() == FirstStart()
    {
      this.hasChannel := hasChannel;
      previousChannelState, deviceEventStream := NEVER_POLLED, None;
      opens, cancels, clears, heard, reopened := 0, 0, 0, [], [];
    }

    method StopEventStream()
      modifies this`deviceEventStream, this`cancels
      ensures State() == StopStream(old(State()))
    {
      if deviceEventStream.Some? {
        cancels := cancels + 1;
        deviceEventStream := None;
      }
    }

    /** The loops over the two lists: a stream for every holder that has none. */
    method Reopen(holders: seq<bool>)
      modifies this`reopened
      ensures reopened == old(reopened) + [Lacking(holders)]
    {
      var given: set<nat> := {};
      for j := 0 to |holders|
        invariant given == Lacking(holders[..j])
      {
        assert holders[..j + 1][..j] == holders[..j];
        if !holders[j] {
          given := given + {j};
        }
      }
      assert holders[..|holders|] == holders;
      reopened := reopened + [given];
    }

    /** Runs until the stop flag is seen; polled is what it finds until then. */
    method Run(polled: seq<Look>)
      modifies this
      ensures State() == if hasChannel then StopStream(PollAll(old(State()), polled)) else old(State())
    {
      if !hasChannel {
        return;
      }
      for i := 0 to |polled|
        invariant State() == PollAll(old(State()), polled[..i])
      {
        assert polled[..i + 1][..i] == polled[..i];
        var state := polled[i].state;
        if previousChannelState == NEVER_POLLED || state != previousChannelState {
          if state == GRPC_CHANNEL_READY {
            deviceEventStream := Some(opens);
            opens := opens + 1;
            Reopen(polled[i].holders);
          } else {
            StopEventStream();
            if previousChannelState == GRPC_CHANNEL_READY {
              clears := clears + 1;
            }
          }
          previousChannelState := state;
          heard := heard + [state];
        }
      }
      assert polled[..|polled|] == polled;
      StopEventStream();
    }
  }

  // ---------------------------------------------------------------------------------------------
  // What the polled states say
  // ---------------------------------------------------------------------------------------------

  /** Position i is the first of a stretch of equal states. */
  predicate Changes(states: seq<ChannelState>, i: nat)
    requires i < |states|
  {
    i == 0 || states[i] != states[i - 1]
  }

  /** The states without consecutive repeats. */
  function WithoutRepeats(states: seq<ChannelState>): seq<ChannelState> {
    if states == [] then []
    else
      var last := |states| - 1;
      WithoutRepeats(states[..last]) + if Changes(states, last) then [states[last]] else []
  }

  lemma {:induction false} NoConsecutiveRepeats(states: seq<ChannelState>)
    ensures var r := WithoutRepeats(states);
            && (r == [] <==> states == [])
            && (states != [] ==> r[|r| - 1] == states[|states| - 1] && r[0] == states[0])
            && (forall i :: 0 < i < |r| ==> r[i] != r[i - 1])
  {
    if states != [] {
      NoConsecutiveRepeats(states[..|states| - 1]);
    }
  }

  lemma WithoutRepeatsAppend(states: seq<ChannelState>, state: ChannelState)
    ensures WithoutRepeats(states + [state]) ==
            if states == [] || states[|states| - 1] != state then WithoutRepeats(states) + [state]
            else WithoutRepeats(states)
  {
    var all := states + [state];
    assert all[..|states|] == states && all[|all| - 1] == state;
    assert WithoutRepeats(states) + [] == WithoutRepeats(states);
  }

  function ReadyCount(states: seq<ChannelState>): nat {
    if states == [] then 0
    else ReadyCount(states[..|states| - 1]) + if states[|states| - 1] == GRPC_CHANNEL_READY then 1 else 0
  }

  lemma ReadyCountAppend(states: seq<ChannelState>, state: ChannelState)
    ensures ReadyCount(states + [state]) == ReadyCount(states) + if state == GRPC_CHANNEL_READY then 1 else 0
  {
    assert (states + [state])[..|states|] == states;
  }

  ghost predicate EndsReady(states: seq<ChannelState>) {
    states != [] && states[|states| - 1] == GRPC_CHANNEL_READY
  }

  function StatesOf(polled: seq<Look>): (states: seq<ChannelState>)
    ensures |states| == |polled|
    ensures forall i :: 0 <= i < |polled| ==> states[i] == polled[i].state
  {
    seq(|polled|, i requires 0 <= i < |polled| => polled[i].state)
  }

  lemma StatesOfFront(polled: seq<Look>)
    requires polled != []
    ensures StatesOf(polled) == StatesOf(polled[..|polled| - 1]) + [polled[|polled| - 1].state]
    ensures StatesOf(polled)[..|polled| - 1] == StatesOf(polled[..|polled| - 1])
  {}

  /** The holders without a stream at each poll that begins a stretch of READY. */
  function LackingAtReady(polled: seq<Look>): seq<set<nat>> {
    if polled == [] then []
    else
      var last := |polled| - 1;
      var begins := Changes(StatesOf(polled), last) && polled[last].state == GRPC_CHANNEL_READY;
      LackingAtReady(polled[..last]) + if begins then [Lacking(polled[last].holders)] else []
  }

  lemma LackingAtReadyLast(polled: seq<Look>)
    requires polled != []
    ensures var front, last := StatesOf(polled[..|polled| - 1]), polled[|polled| - 1];
            LackingAtReady(polled) == LackingAtReady(polled[..|polled| - 1]) +
              if last.state == GRPC_CHANNEL_READY && !EndsReady(front) then [Lacking(last.holders)] else []
  {}

  lemma {:induction false} StreamFollows(polled: seq<Look>)
    ensures var m := PollAll(FirstStart(), polled);
            var states := StatesOf(polled);
            && m.previous == (if states == [] then NEVER_POLLED else states[|states| - 1])
            && (m.stream.Some? <==> EndsReady(states))
            && m.opens == m.cancels + (if EndsReady(states) then 1 else 0)
            && m.clears == m.cancels
  {
    if polled != [] {
      StreamFollows(polled[..|polled| - 1]);
      StatesOfFront(polled);
    }
  }

  lemma {:induction false} HeardFollows(polled: seq<Look>)
    ensures var m := PollAll(FirstStart(), polled);
            m.heard == WithoutRepeats(StatesOf(polled)) && m.opens == ReadyCount(m.heard)
  {
    if polled != [] {
      var front, last := polled[..|polled| - 1], polled[|polled| - 1];
      var m := PollAll(FirstStart(), front);
      HeardFollows(front);
      StreamFollows(front);
      HeardOnce(m, StatesOf(front), last);
      StatesOfFront(polled);
    }
  }

  /** A poll that finds a new state is heard, and READY opens a stream. */
  lemma PollHeard(m: Monitor, look: Look)
    ensures var r, changed := Poll(m, look), m.previous == NEVER_POLLED || look.state != m.previous;
            && r.heard == (if changed then m.heard + [look.state] else m.heard)
            && r.opens == m.opens + if changed && look.state == GRPC_CHANNEL_READY then 1 else 0
  {}

  lemma HeardOnce(m: Monitor, states: seq<ChannelState>, look: Look)
    requires m.previous == if states == [] then NEVER_POLLED else states[|states| - 1]
    requires m.heard == WithoutRepeats(states) && m.opens == ReadyCount(m.heard)
    ensures var r := Poll(m, look); r.heard == WithoutRepeats(states + [look.state]) && r.opens == ReadyCount(r.heard)
  {
    PollHeard(m, look);
    WithoutRepeatsAppend(states, look.state);
    ReadyCountAppend(m.heard, look.state);
  }

  lemma {:induction false} ReopenedFollows(polled: seq<Look>)
    ensures var m := PollAll(FirstStart(), polled); m.reopened == LackingAtReady(polled) && |m.reopened| == m.opens
  {
    if polled != [] {
      var front := polled[..|polled| - 1];
      ReopenedFollows(front);
      StreamFollows(front);
      LackingAtReadyLast(polled);
    }
  }

  /** After any number of polls from the first start: a stream is open exactly if the last state was READY, every other
      stream has been cancelled, one was opened per stretch of READY states and with it one for each holder that had
      none, the callback saw the polled states without consecutive repeats, and the connected devices were cleared once
      per stream that was cancelled. */
  lemma EveryPoll(polled: seq<Look>)
    ensures var m := PollAll(FirstStart(), polled);
            var states := StatesOf(polled);
            && m.previous == (if states == [] then NEVER_POLLED else states[|states| - 1])
            && (m.stream.Some? <==> EndsReady(states))
            && m.opens == m.cancels + (if EndsReady(states) then 1 else 0)
            && m.heard == WithoutRepeats(states)
            && m.opens == ReadyCount(WithoutRepeats(states)) == |m.reopened|
            && m.reopened == LackingAtReady(polled)
            && m.clears == m.cancels
  {
    StreamFollows(polled);
    HeardFollows(polled);
    ReopenedFollows(polled);
  }

  /** Once the monitor has stopped, every stream it opened has been cancelled. */
  lemma NothingLeftOpen(polled: seq<Look>)
    ensures var m := StopStream(PollAll(FirstStart(), polled)); m.stream == None && m.opens == m.cancels
  {
    EveryPoll(polled);
  }

  /** The monitor keeps the state it saw last when it is stopped and started again. From then on a stream is open
      exactly if the last state is READY and either the state before the stop was another one or the channel has left
      READY since: a restart while the channel stays READY opens nothing. */
  lemma {:induction false} Restarted(m: Monitor, polled: seq<Look>)
    requires m.stream == None
    ensures var r := PollAll(m, polled);
            var states := StatesOf(polled);
            && r.previous == (if states == [] then m.previous else states[|states| - 1])
            && (r.stream.Some? <==>
                  EndsReady(states) &&
                  (m.previous != GRPC_CHANNEL_READY ||
                   exists j :: 0 <= j < |states| && states[j] != GRPC_CHANNEL_READY))
  {
    if polled != [] {
      var last := |polled| - 1;
      Restarted(m, polled[..last]);
      StatesOfFront(polled);
      var states := StatesOf(polled);
      assert forall j :: 0 <= j < last ==> StatesOf(polled[..last])[j] == states[j];
    }
  }

  lemma RestartInReadyOpensNothing(before: seq<Look>, after: seq<Look>)
    requires EndsReady(StatesOf(before)) && forall j :: 0 <= j < |after| ==> after[j].state == GRPC_CHANNEL_READY
    ensures PollAll(StopStream(PollAll(FirstStart(), before)), after).stream == None
  {
    EveryPoll(before);
    Restarted(StopStream(PollAll(FirstStart(), before)), after);
  }
}
