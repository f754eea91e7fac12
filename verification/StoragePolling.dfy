/** A client that keeps asking a store for everything after the last index it saw, interleaved with
    arriving messages. The store's two operations are taken by their contracts: pushing appends to the
    log, and a query answers Since (see DeviceDataStorages). */
module StoragePolling {
  import opened SdkTypes
  import opened PacketLog

  datatype Event<D> = Push(data: D) | Poll

  /** next is the index the client asks for; missed collects the indices that had left the store when it asked. */
  datatype Client<D> = Client(log: seq<Packet<D>>, next: nat, received: seq<Packet<D>>, missed: set<nat>)

  function Start<D>(): Client<D> {
    Client([], 0, [], {})
  }

  /** The numbers from `from` up to but not including `to`. */
  function Span(from: nat, to: nat): (span: set<nat>)
    decreases to
    ensures forall i :: i in span <==> (from <= i < to)
  {
    if to <= from then {} else Span(from, to - 1) + {to - 1}
  }

  function FirstRetained(total: nat, n: nat): (first: nat)
    requires 0 < n
  {
    total - Retained(total, n)
  }

  function Step<D>(c: Client<D>, n: nat, e: Event<D>): Client<D>
    requires 0 < n
  {
    match e
    case Push(data) => c.(log := Append(c.log, data))
    case Poll =>
      var response := Since(c.log, Retained(|c.log|, n), c.next);
      if response.packetCount == 0 then c else
      Client(c.log,
             response.packets[|response.packets| - 1].packetIdx + 1,
             c.received + response.packets,
             c.missed + Span(c.next, FirstRetained(|c.log|, n)))
  }

  function Run<D>(c: Client<D>, n: nat, events: seq<Event<D>>): Client<D>
    requires 0 < n
    decreases |events|
  {
    if events == [] then c else Run(Step(c, n, events[0]), n, events[1..])
  }

  ghost predicate Increasing<D>(packets: seq<Packet<D>>) {
    forall i, j :: 0 <= i < j < |packets| ==> packets[i].packetIdx < packets[j].packetIdx
  }

  /** The indices that occur among the packets. */
  ghost function Indices<D>(packets: seq<Packet<D>>): set<nat> {
    set k | 0 <= k < |packets| :: packets[k].packetIdx
  }

  ghost predicate Genuine<D>(packets: seq<Packet<D>>, log: seq<Packet<D>>, next: nat) {
    forall k :: 0 <= k < |packets| ==>
      packets[k].packetIdx < next && packets[k].packetIdx < |log| && packets[k] == log[packets[k].packetIdx]
  }

  /** Everything received is genuine, in order and without repeats, and each index the client has
      passed was either received or missed, never both. */
  ghost predicate Accounted<D>(c: Client<D>) {
    && Numbered(c.log)
    && c.next <= |c.log|
    && Increasing(c.received)
    && Genuine(c.received, c.log, c.next)
    && Indices(c.received) + c.missed == Span(0, c.next)
    && Indices(c.received) !! c.missed
  }

  lemma IndicesAppend<D>(a: seq<Packet<D>>, b: seq<Packet<D>>)
    ensures Indices(a + b) == Indices(a) + Indices(b)
  {
    forall idx | idx in Indices(a) + Indices(b)
      ensures idx in Indices(a + b)
    {
      if idx in Indices(a) {
        var k :| 0 <= k < |a| && a[k].packetIdx == idx;
        assert (a + b)[k] == a[k];
      } else {
        var k :| 0 <= k < |b| && b[k].packetIdx == idx;
        assert (a + b)[|a| + k] == b[k];
      }
    }
  }

  lemma IndicesOfSuffix<D>(log: seq<Packet<D>>, from: nat)
    requires Numbered(log) && from <= |log|
    ensures Indices(log[from..]) == Span(from, |log|)
  {
    forall idx | idx in Span(from, |log|)
      ensures idx in Indices(log[from..])
    {
      assert log[from..][idx - from] == log[idx];
    }
  }

  /** Where the answer to a poll starts. */
  function From<D>(c: Client<D>, n: nat): nat
    requires 0 < n
  {
    var first := FirstRetained(|c.log|, n);
    if c.next < first then first else c.next
  }

  /** One poll: the response runs from the first index still available to the end of the log. */
  lemma PollOutcome<D>(c: Client<D>, n: nat)
    requires 0 < n && Numbered(c.log) && c.next <= |c.log|
    ensures From(c, n) <= |c.log|
    ensures Step(c, n, Poll) ==
            Client(c.log, |c.log|, c.received + c.log[From(c, n)..], c.missed + Span(c.next, From(c, n)))
  {
    RetainedBounds(|c.log|, n);
    var from := From(c, n);
    var response := Since(c.log, Retained(|c.log|, n), c.next);
    if c.next < |c.log| {
      assert response.packets == c.log[from..] && response.packetCount == |c.log| - from;
      assert c.log[from..][|c.log| - from - 1] == c.log[|c.log| - 1];
      assert Span(c.next, from) == Span(c.next, FirstRetained(|c.log|, n));
    } else {
      assert c.log[from..] == [] && c.received + [] == c.received;
      assert c.missed + Span(c.next, from) == c.missed;
    }
  }

  lemma StepAccounted<D>(c: Client<D>, n: nat, e: Event<D>)
    requires 0 < n && Accounted(c)
    ensures Accounted(Step(c, n, e))
  {
    if e.Poll? {
      PollOutcome(c, n);
      var from := From(c, n);
      IndicesAppend(c.received, c.log[from..]);
      IndicesOfSuffix(c.log, from);
      assert Span(0, c.next) + Span(c.next, from) + Span(from, |c.log|) == Span(0, |c.log|);
      AppendSuffix(c.received, c.log, c.next, from);
    }
  }

  lemma AppendSuffix<D>(packets: seq<Packet<D>>, log: seq<Packet<D>>, next: nat, from: nat)
    requires Numbered(log) && next <= from <= |log|
    requires Increasing(packets) && Genuine(packets, log, next)
    ensures Increasing(packets + log[from..]) && Genuine(packets + log[from..], log, |log|)
  {
    var all := packets + log[from..];
    assert forall k :: |packets| <= k < |all| ==> all[k] == log[from + k - |packets|];
  }

  /** Main result: for every interleaving of messages and polls the client's packets are genuine, strictly
      increasing, and account for every passed index together with the recorded misses. */
  lemma {:induction false} RunAccounted<D>(c: Client<D>, n: nat, events: seq<Event<D>>)
    requires 0 < n && Accounted(c)
    ensures Accounted(Run(c, n, events))
    decreases |events|
  {
    if events != [] {
      StepAccounted(c, n, events[0]);
      RunAccounted(Step(c, n, events[0]), n, events[1..]);
    }
  }

  /** The messages that have arrived, in order. */
  function Arrived<D>(events: seq<Event<D>>): seq<D> {
    if events == [] then []
    else
      var front, last := events[..|events| - 1], events[|events| - 1];
      if last.Push? then Arrived(front) + [last.data] else Arrived(front)
  }

  /** How many of them had arrived when the client last asked. */
  function ArrivedAtPoll<D>(events: seq<Event<D>>): nat {
    if events == [] then 0
    else
      var front, last := events[..|events| - 1], events[|events| - 1];
      if last.Poll? then |Arrived(front)| else ArrivedAtPoll(front)
  }

  lemma {:induction false} RunLast<D>(c: Client<D>, n: nat, events: seq<Event<D>>)
    requires 0 < n && events != []
    ensures Run(c, n, events) == Step(Run(c, n, events[..|events| - 1]), n, events[|events| - 1])
    decreases |events|
  {
    if |events| > 1 {
      RunLast(Step(c, n, events[0]), n, events[1..]);
      assert events[1..][..|events| - 2] == events[..|events| - 1][1..];
    }
  }

  /** The log numbers the messages that have arrived, and the client asks next for the first one after its last poll. */
  lemma {:induction false} PollingByEvents<D>(n: nat, events: seq<Event<D>>)
    requires 0 < n
    ensures var c := Run(Start(), n, events); c.log == Stamped(Arrived(events)) && c.next == ArrivedAtPoll(events)
    decreases |events|
  {
    if events != [] {
      var front, last := events[..|events| - 1], events[|events| - 1];
      PollingByEvents(n, front);
      RunAccounted(Start(), n, front);
      RunLast(Start(), n, events);
      match last
      case Push(data) => StampedAppend(Arrived(front), data);
      case Poll => PollOutcome(Run(Start(), n, front), n);
    }
  }

  /** A client that missed nothing holds exactly the log up to the index it asks for next. */
  lemma NothingMissedMeansPrefix<D>(c: Client<D>)
    requires Accounted(c)
    ensures c.missed == {} <==> c.received == c.log[..c.next]
  {
    if c.missed == {} {
      IncreasingCoversPrefix(c.received, c.log, c.next);
    }
    if c.received == c.log[..c.next] {
      forall idx | 0 <= idx < c.next
        ensures idx in Indices(c.received)
      {
        assert c.received[idx].packetIdx == idx;
      }
    }
  }

  lemma NoIndices<D>(packets: seq<Packet<D>>)
    ensures Indices(packets) == {} <==> packets == []
  {
    if packets != [] {
      assert packets[0].packetIdx in Indices(packets);
    }
  }

  lemma {:induction false} IncreasingCoversPrefix<D>(packets: seq<Packet<D>>, log: seq<Packet<D>>, next: nat)
    requires Numbered(log) && next <= |log| && Increasing(packets) && Genuine(packets, log, next)
    requires Indices(packets) == Span(0, next)
    ensures packets == log[..next]
    decreases next
  {
    if next == 0 {
      NoIndices(packets);
    } else {
      DropLast(packets, next);
      var front, last := packets[..|packets| - 1], packets[|packets| - 1];
      FrontStillGenuine(packets, log, next);
      IncreasingCoversPrefix(front, log, next - 1);
      assert packets == front + [last] && last == log[next - 1];
      assert log[..next] == log[..next - 1] + [log[next - 1]];
    }
  }

  lemma FrontStillGenuine<D>(packets: seq<Packet<D>>, log: seq<Packet<D>>, next: nat)
    requires packets != [] && Increasing(packets) && Genuine(packets, log, next)
    requires packets[|packets| - 1].packetIdx == next - 1
    ensures Increasing(packets[..|packets| - 1]) && Genuine(packets[..|packets| - 1], log, next - 1)
  {}

  lemma DropLast<D>(packets: seq<Packet<D>>, next: nat)
    requires 0 < next && Increasing(packets) && Indices(packets) == Span(0, next)
    ensures packets != [] && packets[|packets| - 1].packetIdx == next - 1
    ensures Indices(packets[..|packets| - 1]) == Span(0, next - 1)
  {
    assert next - 1 in Indices(packets);
    var last := |packets| - 1;
    assert packets[last].packetIdx in Indices(packets);
    assert packets == packets[..last] + packets[last..];
    IndicesAppend(packets[..last], packets[last..]);
    assert Indices(packets[last..]) == {next - 1} by {
      assert packets[last..][0] == packets[last];
    }
    assert next - 1 !in Indices(packets[..last]);
  }

  /** A poll misses something exactly when more messages arrived since the last one than the full read buffer
      and the write buffer hold together, and then misses exactly the indices from next up to the first retained. */
  lemma PollMissesExactly<D>(c: Client<D>, n: nat)
    requires 0 < n && Accounted(c) && c.missed == {}
    ensures var d := Step(c, n, Poll);
            && d.missed == Span(c.next, FirstRetained(|c.log|, n))
            && (d.missed != {} <==> n <= |c.log| && n + |c.log| % n < |c.log| - c.next)
  {
    PollOutcome(c, n);
    WriteCountIsRemainder(|c.log|, n);
    var d := Step(c, n, Poll);
    var first := FirstRetained(|c.log|, n);
    assert d.missed == Span(c.next, first);
    if c.next < first {
      assert c.next in d.missed;
    }
  }

  /** Messages since the last poll, starting from `since` of them, never exceed n when a poll comes. */
  predicate Paced<D>(events: seq<Event<D>>, n: nat, since: nat)
    decreases |events|
  {
    events == [] ||
    match events[0]
    case Push(_) => Paced(events[1..], n, since + 1)
    case Poll => since <= n && Paced(events[1..], n, 0)
  }

  /** With at most n messages between polls nothing is ever missed, in every run. */
  lemma {:induction false} PacedRunMissesNothing<D>(c: Client<D>, n: nat, events: seq<Event<D>>, since: nat)
    requires 0 < n && Accounted(c) && c.missed == {}
    requires |c.log| - c.next == since && Paced(events, n, since)
    ensures var d := Run(c, n, events); Accounted(d) && d.missed == {} && d.received == d.log[..d.next]
    decreases |events|
  {
    RunAccounted(c, n, events);
    if events == [] {
      NothingMissedMeansPrefix(c);
    } else {
      var d := Step(c, n, events[0]);
      StepAccounted(c, n, events[0]);
      match events[0]
      case Push(_) =>
        PacedRunMissesNothing(d, n, events[1..], since + 1);
      case Poll =>
        PollOutcome(c, n);
        PollMissesExactly(c, n);
        PacedRunMissesNothing(d, n, events[1..], 0);
    }
  }

  function Pushes<D>(data: D, count: nat): seq<Event<D>> {
    if count == 0 then [] else [Push(data)] + Pushes(data, count - 1)
  }

  function Grow<D>(log: seq<Packet<D>>, data: D, count: nat): (grown: seq<Packet<D>>)
    ensures |grown| == |log| + count && log <= grown
    ensures Numbered(log) ==> Numbered(grown)
    decreases count
  {
    if count == 0 then log else Grow(Append(log, data), data, count - 1)
  }

  lemma {:induction false} RunPushes<D>(c: Client<D>, n: nat, data: D, count: nat, rest: seq<Event<D>>)
    requires 0 < n
    ensures Run(c, n, Pushes(data, count) + rest) == Run(c.(log := Grow(c.log, data, count)), n, rest)
    decreases count
  {
    var events := Pushes(data, count) + rest;
    if count == 0 {
      assert events == rest && c.(log := c.log) == c;
    } else {
      assert events[0] == Push(data) && events[1..] == Pushes(data, count - 1) + rest;
      RunPushes(Step(c, n, Push(data)), n, data, count - 1, rest);
    }
  }

  lemma PollFirst<D>(c: Client<D>, n: nat, rest: seq<Event<D>>)
    requires 0 < n
    ensures Run(c, n, [Poll] + rest) == Run(Step(c, n, Poll), n, rest)
  {
    assert ([Poll] + rest)[1..] == rest;
  }

  /** A client that polls after n - 1 messages has them all. */
  lemma FirstPoll<D>(data: D, n: nat)
    requires 0 < n
    ensures var c := Step(Start().(log := Grow([], data, n - 1)), n, Poll);
            Numbered(c.log) && c.missed == {} && c.next == n - 1 && |c.log| == n - 1
  {
    var c: Client<D> := Start().(log := Grow([], data, n - 1));
    PollOutcome(c, n);
  }

  /** n + 1 messages later one of them is gone. */
  lemma SecondPoll<D>(c: Client<D>, data: D, n: nat)
    requires 0 < n && Numbered(c.log) && c.missed == {} && c.next == n - 1 && |c.log| == n - 1
    ensures Step(c.(log := Grow(c.log, data, n + 1)), n, Poll).missed == {n - 1}
  {
    var d := c.(log := Grow(c.log, data, n + 1));
    PollOutcome(d, n);
    assert WriteCount(2 * n, n) == WriteCount(n, n) == 0;
    assert From(d, n) == n;
    assert Span(n - 1, n) == {n - 1};
  }

  /** The pace is tight: for every buffer size one message more than n between two polls can lose a message. */
  lemma OneMoreCanMiss<D>(data: D, n: nat)
    requires 0 < n
    ensures var events := Pushes(data, n - 1) + ([Poll] + (Pushes(data, n + 1) + [Poll]));
            Run(Start(), n, events).missed == {n - 1}
  {
    var start: Client<D> := Start();
    var poll: seq<Event<D>> := [Poll];
    assert poll + [] == poll;
    var after := Pushes(data, n + 1) + poll;
    RunPushes(start, n, data, n - 1, [Poll] + after);
    var c1 := start.(log := Grow([], data, n - 1));
    PollFirst(c1, n, after);
    FirstPoll(data, n);
    var c2 := Step(c1, n, Poll);
    RunPushes(c2, n, data, n + 1, poll);
    PollFirst(c2.(log := Grow(c2.log, data, n + 1)), n, []);
    SecondPoll(c2, data, n);
  }
}
