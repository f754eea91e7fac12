/** What the two double-buffered stores are for, said without buffers: an unbounded log of the
    accepted messages, numbered from zero, of which a suffix is still retained. */
module PacketLog {
  import opened SdkTypes

  /** Every entry of a log carries its own position as its index. */
  ghost predicate Numbered<D>(log: seq<Packet<D>>) {
    forall i :: 0 <= i < |log| ==> log[i].packetIdx == i
  }

  /** Accepting one more message. */
  function Append<D>(log: seq<Packet<D>>, data: D): seq<Packet<D>> {
    log + [Packet(|log|, data)]
  }

  /** The log that numbers the given messages from zero. */
  function Stamped<D>(data: seq<D>): (log: seq<Packet<D>>)
    ensures |log| == |data|
    ensures forall i :: 0 <= i < |data| ==> log[i] == Packet(i, data[i])
  {
    seq(|data|, i requires 0 <= i < |data| => Packet(i, data[i]))
  }

  lemma StampedAppend<D>(data: seq<D>, packet: D)
    ensures Stamped(data + [packet]) == Append(Stamped(data), packet)
  {}

  /** How many of `total` messages sit in the write buffer of a store of size n: what is left after
      taking out full buffers. */
  function WriteCount(total: nat, n: nat): (w: nat)
    requires 0 < n
    ensures w < n && w <= total
  {
    if total < n then total else WriteCount(total - n, n)
  }

  /** How many sit in the read buffer: none until the first switch, then always a full buffer. */
  function ReadCount(total: nat, n: nat): nat {
    if total < n then 0 else n
  }

  function Retained(total: nat, n: nat): (retained: nat)
    requires 0 < n
    ensures retained <= total
  {
    ReadCount(total, n) + WriteCount(total, n)
  }

  /** The write count is the remainder of the number of messages. */
  lemma {:induction false} WriteCountIsRemainder(total: nat, n: nat)
    requires 0 < n
    ensures WriteCount(total, n) == total % n
  {
    if total < n {
      QuotientUnique(total, n, 0, total);
    } else {
      WriteCountIsRemainder(total - n, n);
      var q := (total - n) / n;
      assert total == n * (q + 1) + (total - n) % n;
      QuotientUnique(total, n, q + 1, (total - n) % n);
    }
  }

  lemma QuotientUnique(x: nat, n: nat, q: int, rest: nat)
    requires 0 < n && rest < n && x == n * q + rest
    ensures x / n == q && x % n == rest
  {
    var d := x / n - q;
    assert n * d == rest - x % n;
    MultipleIsFar(n, d);
  }

  lemma MultipleIsFar(n: nat, d: int)
    ensures 1 <= d ==> n <= n * d
    ensures d <= -1 ==> n * d + n <= 0
  {}

  /** One more message: the write count grows by one and returns to zero when it reaches n. */
  lemma {:induction false} CountsAfterPush(total: nat, n: nat)
    requires 0 < n
    ensures WriteCount(total + 1, n) == if WriteCount(total, n) + 1 == n then 0 else WriteCount(total, n) + 1
    ensures ReadCount(total + 1, n) == if WriteCount(total, n) + 1 == n then n else ReadCount(total, n)
  {
    if n <= total {
      CountsAfterPush(total - n, n);
    }
  }

  /** The retained window always holds at least the last n messages and never as many as 2n. */
  lemma RetainedBounds(total: nat, n: nat)
    requires 0 < n
    ensures (if total < n then total else n) <= Retained(total, n) < 2 * n
  {}

  function NoPackets<D>(): DataResponse<D> {
    DataResponse(NoData, [], 0)
  }

  /** Reference answer for "the most recent k packets" when the last `retained` entries are still held. */
  function Latest<D>(log: seq<Packet<D>>, retained: nat, k: nat): DataResponse<D>
    requires retained <= |log|
  {
    if k == 0 || retained == 0 then NoPackets()
    else if k <= retained then DataResponse(Success, log[|log| - k..], k)
    else DataResponse(PartialData, log[|log| - retained..], retained)
  }

  /** Reference answer for "every packet from index s on". */
  function Since<D>(log: seq<Packet<D>>, retained: nat, s: nat): DataResponse<D>
    requires retained <= |log|
  {
    if |log| <= s then NoPackets()
    else if |log| - retained <= s then DataResponse(Success, log[s..], |log| - s)
    else DataResponse(PartialData, log[|log| - retained..], retained)
  }

  /** The response has that state and exactly the given stretch of the log. */
  ghost predicate Gives<D>(response: DataResponse<D>, state: DataResponseState, log: seq<Packet<D>>, first: int,
                           count: nat)
  {
    && response.state == state
    && response.packetCount == |response.packets| == count
    && forall i :: 0 <= i < count ==> 0 <= first + i < |log| && response.packets[i] == log[first + i]
  }

  /** The most recent k packets: the last k in order if so many are held, or else all that are held. */
  ghost predicate GivesLatest<D>(response: DataResponse<D>, log: seq<Packet<D>>, held: nat, k: nat) {
    if k == 0 || held == 0 then Gives(response, NoData, log, 0, 0)
    else if k <= held then Gives(response, Success, log, |log| - k, k)
    else Gives(response, PartialData, log, |log| - held, held)
  }

  /** Every packet from index s on: just those if they are all held, or else all that are held. */
  ghost predicate GivesSince<D>(response: DataResponse<D>, log: seq<Packet<D>>, held: nat, s: nat) {
    if s >= |log| then Gives(response, NoData, log, 0, 0)
    else if s >= |log| - held then Gives(response, Success, log, s, |log| - s)
    else Gives(response, PartialData, log, |log| - held, held)
  }

  /** The reference answers are what they are for, and nothing else is. */
  lemma LatestGives<D>(log: seq<Packet<D>>, held: nat, k: nat, response: DataResponse<D>)
    requires held <= |log|
    ensures response == Latest(log, held, k) <==> GivesLatest(response, log, held, k)
  {
    var latest := Latest(log, held, k);
    assert GivesLatest(latest, log, held, k);
    if GivesLatest(response, log, held, k) {
      assert response.packets == latest.packets;
    }
  }

  lemma SinceGives<D>(log: seq<Packet<D>>, held: nat, s: nat, response: DataResponse<D>)
    requires held <= |log|
    ensures response == Since(log, held, s) <==> GivesSince(response, log, held, s)
  {
    var since := Since(log, held, s);
    assert GivesSince(since, log, held, s);
    if GivesSince(response, log, held, s) {
      assert response.packets == since.packets;
    }
  }

  /** A negative packet count reaches the store as a huge unsigned one and asks for everything that is retained. */
  lemma NegativeCount<D>(log: seq<Packet<D>>, n: nat, count: int32)
    requires 0 < n <= MAX_BUFFER_SIZE && count < 0
    ensures var retained := Retained(|log|, n);
            Latest(log, retained, ToUint32(count)) ==
            if log == [] then NoPackets() else DataResponse(PartialData, log[|log| - retained..], retained)
  {
    RetainedBounds(|log|, n);
  }

  /** A negative start index reaches the store as an index from the upper half of the range, and finds nothing exactly
      until the store has given out that many. */
  lemma NegativeIndex<D>(log: seq<Packet<D>>, n: nat, start: int32)
    requires 0 < n && start < 0
    ensures Since(log, Retained(|log|, n), ToUint32(start)) == NoPackets() <==> |log| <= UINT32_MODULUS + start
  {
    RetainedBounds(|log|, n);
  }
}
