/** Who owns the arrays behind the packets (src/sdk_types.cpp; src/device_data_storage.cpp). A packet's data consist of
    four arrays on the heap, which buffer slots and responses hold by pointer. */
module PacketMemory {
  import opened SdkTypes

  /** Blocks are numbered in the order of their allocation, so a number never comes back. */
  type Block = nat

  type Content = seq<int>

  /** fault records the deletion of a block that is not live. */
  datatype Heap = Heap(live: map<Block, Content>, next: Block, fault: bool)

  /** The pointers inside a TrackingDeviceData; None is the null pointer. */
  datatype Members = Members(rawSensorData: Option<Block>, poses: Option<Block>, buttons: Option<Block>,
                             timestamps: Option<Block>)

  const NULL_MEMBERS := Members(None, None, None, None)

  /** What a client reads through them. */
  datatype Data = Data(rawSensorData: Content, poses: Content, buttons: Content, timestamps: Content)

  function New(h: Heap, content: Content): Heap {
    h.(live := h.live[h.next := content], next := h.next + 1)
  }

  function Delete(h: Heap, p: Option<Block>): Heap {
    if p.None? then h
    else if p.value in h.live then h.(live := h.live - {p.value})
    else h.(fault := true)
  }

  function ReadArray(h: Heap, p: Option<Block>): Content {
    if p.Some? && p.value in h.live then h.live[p.value] else []
  }

  function Read(h: Heap, m: Members): Data {
    Data(ReadArray(h, m.rawSensorData), ReadArray(h, m.poses), ReadArray(h, m.buttons), ReadArray(h, m.timestamps))
  }

  /** The four arrays of a new TrackingDeviceData. */
  function NewMembers(h: Heap, data: Data): (Heap, Members) {
    (New(New(New(New(h, data.rawSensorData), data.poses), data.buttons), data.timestamps),
     Members(Some(h.next), Some(h.next + 1), Some(h.next + 2), Some(h.next + 3)))
  }

  /** DestroyTrackingDeviceDataMembers. */
  function DestroyMembers(h: Heap, m: Members): Heap {
    Delete(Delete(Delete(Delete(h, m.rawSensorData), m.poses), m.buttons), m.timestamps)
  }

  /** A TrackingDeviceData on the heap, moved out of by value, whose struct is then deleted. */
  function MovedData(h: Heap, data: Data): (Heap, Members) {
    var (h1, m) := NewMembers(New(h, []), data);
    (Delete(h1, Some(h.next)), m)
  }

  /** CopyDevicePacket, moved into its destination: a packet struct around the copy of its data. */
  function CopyPacket(h: Heap, source: Members): (Heap, Members) {
    var (h1, m) := MovedData(New(h, []), Read(h, source));
    (Delete(h1, Some(h.next)), m)
  }

  function CopyPackets(h: Heap, sources: seq<Members>): (result: (Heap, seq<Members>))
    ensures |result.1| == |sources|
  {
    if sources == [] then (h, [])
    else
      var last := |sources| - 1;
      var (h1, copies) := CopyPackets(h, sources[..last]);
      var (h2, copy) := CopyPacket(h1, sources[last]);
      (h2, copies + [copy])
  }

  function DestroyAll(h: Heap, packets: seq<Members>): Heap {
    if packets == [] then h else DestroyMembers(DestroyAll(h, packets[..|packets| - 1]), packets[|packets| - 1])
  }

  // ---------------------------------------------------------------------------------------------
  // One store and the responses its clients hold
  // ---------------------------------------------------------------------------------------------

  /** A DataResponse on the heap: its own struct, its packet array if there is one, and the packets in it. */
  datatype Response = Response(self: Block, packetArray: Option<Block>, packets: seq<Members>)

  /** slots are those of both buffers in the order in which the destructor visits them: slots 2i and 2i + 1 are the i-th
      of either buffer. */
  datatype Memory = Memory(heap: Heap, buffers: seq<Block>, slots: seq<Members>, responses: seq<Response>)

  datatype Event =
    | Push(slot: nat, data: Data)
    | Query(from: seq<nat>)
    | DestroyResponse(i: nat)
    | DestroyStorage

  /** The event refers to slots and responses that exist. */
  predicate Fits(m: Memory, e: Event) {
    match e
    case Push(slot, _) => slot < |m.slots|
    case Query(from) => forall i :: 0 <= i < |from| ==> from[i] < |m.slots|
    case DestroyResponse(i) => i < |m.responses|
    case DestroyStorage => true
  }

  function Picked(slots: seq<Members>, from: seq<nat>): seq<Members>
    requires forall i :: 0 <= i < |from| ==> from[i] < |slots|
  {
    seq(|from|, i requires 0 <= i < |from| => slots[from[i]])
  }

  /** The constructor: two packet arrays whose slots are all null. */
  function Created(h: Heap, bufferSize: nat): Memory {
    Memory(New(New(h, []), []), [h.next, h.next + 1], seq(2 * bufferSize, i => NULL_MEMBERS), [])
  }

  /** A response with copies of the given packets. */
  function Answered(h: Heap, sources: seq<Members>): (Heap, Response) {
    var h1 := New(h, []);
    var h2 := if sources == [] then h1 else New(h1, []);
    var (h3, copies) := CopyPackets(h2, sources);
    (h3, Response(h.next, if sources == [] then None else Some(h1.next), copies))
  }

  function Destroyed(h: Heap, r: Response): Heap {
    Delete(Delete(DestroyAll(h, r.packets), r.packetArray), Some(r.self))
  }

  function DeleteBlocks(h: Heap, blocks: seq<Block>): Heap {
    if blocks == [] then h else Delete(DeleteBlocks(h, blocks[..|blocks| - 1]), Some(blocks[|blocks| - 1]))
  }

  function Step(m: Memory, e: Event): Memory
    requires Fits(m, e)
  {
    match e
    case Push(slot, data) =>
      var (h, members) := MovedData(DestroyMembers(m.heap, m.slots[slot]), data);
      m.(heap := h, slots := m.slots[slot := members])
    case Query(from) =>
      var (h, r) := Answered(m.heap, Picked(m.slots, from));
      m.(heap := h, responses := m.responses + [r])
    case DestroyResponse(i) =>
      m.(heap := Destroyed(m.heap, m.responses[i]), responses := m.responses[..i] + m.responses[i + 1..])
    case DestroyStorage =>
      m.(heap := DeleteBlocks(DestroyAll(m.heap, m.slots), m.buffers), buffers := [], slots := [])
  }

  // ---------------------------------------------------------------------------------------------
  // Ownership
  // ---------------------------------------------------------------------------------------------

  function Target(p: Option<Block>): multiset<Block> {
    if p.Some? then multiset{p.value} else multiset{}
  }

  function MemberBlocks(m: Members): multiset<Block> {
    Target(m.rawSensorData) + Target(m.poses) + Target(m.buttons) + Target(m.timestamps)
  }

  function Sum(parts: seq<multiset<Block>>): multiset<Block> {
    if parts == [] then multiset{} else Sum(parts[..|parts| - 1]) + parts[|parts| - 1]
  }

  function Parts(packets: seq<Members>): (parts: seq<multiset<Block>>)
    ensures |parts| == |packets|
    ensures forall i :: 0 <= i < |packets| ==> parts[i] == MemberBlocks(packets[i])
  {
    seq(|packets|, i requires 0 <= i < |packets| => MemberBlocks(packets[i]))
  }

  function Blocks(packets: seq<Members>): multiset<Block> {
    Sum(Parts(packets))
  }

  function ResponseBlocks(r: Response): multiset<Block> {
    multiset{r.self} + Target(r.packetArray) + Blocks(r.packets)
  }

  function ResponseParts(responses: seq<Response>): (parts: seq<multiset<Block>>)
    ensures |parts| == |responses|
    ensures forall i :: 0 <= i < |responses| ==> parts[i] == ResponseBlocks(responses[i])
  {
    seq(|responses|, i requires 0 <= i < |responses| => ResponseBlocks(responses[i]))
  }

  function AllResponses(responses: seq<Response>): multiset<Block> {
    Sum(ResponseParts(responses))
  }

  function Owned(m: Memory): multiset<Block> {
    multiset(m.buffers) + Blocks(m.slots) + AllResponses(m.responses)
  }

  /** The live blocks are exactly the given ones, each with one owner, and no deletion has gone wrong. */
  ghost predicate Holds(h: Heap, owned: multiset<Block>) {
    && multiset(h.live.Keys) == owned
    && (forall b :: b in h.live ==> b < h.next)
    && !h.fault
  }

  /** A live block has one owner. */
  lemma OwnedOnce(h: Heap, owned: multiset<Block>, b: Block)
    requires Holds(h, owned)
    ensures owned[b] <= 1 && (b in owned <==> b in h.live)
  {
    assert multiset(h.live.Keys)[b] == owned[b];
  }

  /** The given blocks are live in both heaps with the same contents. */
  ghost predicate Same(h: Heap, g: Heap, kept: multiset<Block>) {
    forall b :: b in kept ==> b in h.live && b in g.live && g.live[b] == h.live[b]
  }

  lemma NewHolds(h: Heap, owned: multiset<Block>, content: Content)
    requires Holds(h, owned)
    ensures Holds(New(h, content), owned + multiset{h.next})
    ensures Same(h, New(h, content), owned)
  {
    assert h.next !in h.live.Keys;
    assert New(h, content).live.Keys == h.live.Keys + {h.next};
  }

  lemma DeleteHolds(h: Heap, kept: multiset<Block>, p: Option<Block>)
    requires Holds(h, kept + Target(p))
    ensures Holds(Delete(h, p), kept) && Same(h, Delete(h, p), kept)
  {
    if p.Some? {
      OwnedOnce(h, kept + Target(p), p.value);
      forall b
        ensures multiset(h.live.Keys - {p.value})[b] == kept[b]
      {
        OwnedOnce(h, kept + Target(p), b);
      }
      assert Delete(h, p).live.Keys == h.live.Keys - {p.value};
      assert multiset(h.live.Keys - {p.value}) == kept;
    } else {
      assert kept + Target(p) == kept;
    }
    forall b | b in kept
      ensures b in h.live && (p.Some? ==> b != p.value)
    {
      OwnedOnce(h, kept + Target(p), b);
    }
  }

  /** The same two facts in a chain of steps that all keep `kept` as it was in heap o. */
  lemma NewKeeps(o: Heap, kept: multiset<Block>, h: Heap, owned: multiset<Block>, content: Content)
    requires Same(o, h, kept) && kept <= owned && Holds(h, owned)
    ensures Holds(New(h, content), owned + multiset{h.next}) && Same(o, New(h, content), kept)
  {
    NewHolds(h, owned, content);
  }

  lemma NewTwoKeep(o: Heap, kept: multiset<Block>, h: Heap, owned: multiset<Block>, first: Content, second: Content,
                   all: multiset<Block>)
    requires Same(o, h, kept) && kept <= owned && Holds(h, owned)
    requires all == owned + Target(Some(h.next)) + Target(Some(h.next + 1))
    ensures Holds(New(New(h, first), second), all) && Same(o, New(New(h, first), second), kept) && kept <= all
  {
    NewKeeps(o, kept, h, owned, first);
    NewKeeps(o, kept, New(h, first), owned + Target(Some(h.next)), second);
  }

  lemma SameStart(h: Heap, owned: multiset<Block>, kept: multiset<Block>)
    requires Holds(h, owned) && kept <= owned
    ensures Same(h, h, kept)
  {
    forall b | b in kept
      ensures b in h.live
    {
      OwnedOnce(h, owned, b);
    }
  }

  lemma SameThrough(h: Heap, g: Heap, k: Heap, kept: multiset<Block>, first: multiset<Block>, second: multiset<Block>)
    requires Same(h, g, first) && Same(g, k, second) && kept <= first && kept <= second
    ensures Same(h, k, kept)
  {}

  lemma SameRead(h: Heap, g: Heap, kept: multiset<Block>, m: Members)
    requires Same(h, g, kept) && MemberBlocks(m) <= kept
    ensures Read(g, m) == Read(h, m)
  {
    forall p | p in {m.rawSensorData, m.poses, m.buttons, m.timestamps}
      ensures ReadArray(g, p) == ReadArray(h, p)
    {
      if p.Some? {
        assert MemberBlocks(m)[p.value] > 0;
        assert p.value in kept;
      }
    }
  }

  lemma NewMembersRead(h: Heap, data: Data)
    ensures var (g, m) := NewMembers(h, data); Read(g, m) == data
  {}

  lemma Gather(a: multiset<Block>, b: multiset<Block>, c: multiset<Block>, d: multiset<Block>, e: multiset<Block>)
    ensures a + b + c + d + e == a + (b + c + d + e)
  {}

  lemma NewMembersBlocks(h: Heap, data: Data, owned: multiset<Block>)
    ensures var h2 := New(New(h, data.rawSensorData), data.poses);
            owned + MemberBlocks(NewMembers(h, data).1) ==
            owned + Target(Some(h.next)) + Target(Some(h.next + 1)) + Target(Some(h2.next)) + Target(Some(h2.next + 1))
  {
    Gather(owned, Target(Some(h.next)), Target(Some(h.next + 1)), Target(Some(h.next + 2)), Target(Some(h.next + 3)));
  }

  lemma NewMembersHolds(h: Heap, owned: multiset<Block>, data: Data)
    requires Holds(h, owned)
    ensures var (g, m) := NewMembers(h, data); Holds(g, owned + MemberBlocks(m)) && Same(h, g, owned)
  {
    var half := owned + Target(Some(h.next)) + Target(Some(h.next + 1));
    var h2 := New(New(h, data.rawSensorData), data.poses);
    assert Holds(h2, half) && Same(h, h2, owned) && owned <= half by {
      SameStart(h, owned, owned);
      NewTwoKeep(h, owned, h, owned, data.rawSensorData, data.poses, half);
    }
    NewMembersBlocks(h, data, owned);
    NewTwoKeep(h, owned, h2, half, data.buttons, data.timestamps, owned + MemberBlocks(NewMembers(h, data).1));
  }

  lemma DestroyMembersHolds(h: Heap, kept: multiset<Block>, m: Members)
    requires Holds(h, kept + MemberBlocks(m))
    ensures Holds(DestroyMembers(h, m), kept) && Same(h, DestroyMembers(h, m), kept)
  {
    var kept3 := kept + Target(m.timestamps);
    var kept2 := kept3 + Target(m.buttons);
    var kept1 := kept2 + Target(m.poses);
    assert kept + MemberBlocks(m) == kept1 + Target(m.rawSensorData);
    var h1 := Delete(h, m.rawSensorData);
    DeleteHolds(h, kept1, m.rawSensorData);
    var h2 := Delete(h1, m.poses);
    DeleteHolds(h1, kept2, m.poses);
    var h3 := Delete(h2, m.buttons);
    DeleteHolds(h2, kept3, m.buttons);
    DeleteHolds(h3, kept, m.timestamps);
    assert forall b :: b in kept ==> b in kept1 && b in kept2 && b in kept3;
  }

  lemma MovedDataHolds(h: Heap, owned: multiset<Block>, data: Data)
    requires Holds(h, owned)
    ensures var (g, m) := MovedData(h, data);
            Holds(g, owned + MemberBlocks(m)) && Same(h, g, owned) && Read(g, m) == data
  {
    var h0 := New(h, []);
    NewHolds(h, owned, []);
    var (h1, m) := NewMembers(h0, data);
    NewMembersHolds(h0, owned + multiset{h.next}, data);
    NewMembersRead(h0, data);
    assert owned + multiset{h.next} + MemberBlocks(m) == owned + MemberBlocks(m) + Target(Some(h.next));
    DeleteHolds(h1, owned + MemberBlocks(m), Some(h.next));
    SameRead(h1, Delete(h1, Some(h.next)), owned + MemberBlocks(m), m);
    assert forall b :: b in owned ==> b in owned + multiset{h.next} && b in owned + MemberBlocks(m);
  }

  lemma CopyPacketHolds(h: Heap, owned: multiset<Block>, source: Members)
    requires Holds(h, owned)
    ensures var (g, m) := CopyPacket(h, source);
            Holds(g, owned + MemberBlocks(m)) && Same(h, g, owned) && Read(g, m) == Read(h, source)
  {
    var h0 := New(h, []);
    NewHolds(h, owned, []);
    var (h1, m) := MovedData(h0, Read(h, source));
    MovedDataHolds(h0, owned + multiset{h.next}, Read(h, source));
    assert owned + multiset{h.next} + MemberBlocks(m) == owned + MemberBlocks(m) + Target(Some(h.next));
    DeleteHolds(h1, owned + MemberBlocks(m), Some(h.next));
    SameRead(h1, Delete(h1, Some(h.next)), owned + MemberBlocks(m), m);
    assert forall b :: b in owned ==> b in owned + multiset{h.next} && b in owned + MemberBlocks(m);
  }

  function Values(h: Heap, packets: seq<Members>): (values: seq<Data>)
    ensures |values| == |packets|
    ensures forall i :: 0 <= i < |packets| ==> values[i] == Read(h, packets[i])
  {
    seq(|packets|, i requires 0 <= i < |packets| => Read(h, packets[i]))
  }

  lemma ValuesAppend(h: Heap, packets: seq<Members>, m: Members)
    ensures Values(h, packets + [m]) == Values(h, packets) + [Read(h, m)]
  {}

  lemma SumAppend(parts: seq<multiset<Block>>, part: multiset<Block>)
    ensures Sum(parts + [part]) == Sum(parts) + part
  {
    assert (parts + [part])[..|parts|] == parts;
  }

  lemma {:induction false} SumConcat(a: seq<multiset<Block>>, b: seq<multiset<Block>>)
    ensures Sum(a + b) == Sum(a) + Sum(b)
    decreases |b|
  {
    if b == [] {
      assert a + b == a;
    } else {
      var front, last := b[..|b| - 1], b[|b| - 1];
      SumConcat(a, front);
      SumAppend(a + front, last);
      assert a + b == a + front + [last];
    }
  }

  lemma SplitAround<T>(s: seq<T>, i: nat)
    requires i < |s|
    ensures s == s[..i] + [s[i]] + s[i + 1..]
  {}

  /** One part and the others. */
  lemma SumSplit(parts: seq<multiset<Block>>, i: nat)
    requires i < |parts|
    ensures Sum(parts) == Sum(parts[..i] + parts[i + 1..]) + parts[i]
  {
    var front, back := parts[..i], parts[i + 1..];
    SplitAround(parts, i);
    SumConcat(front + [parts[i]], back);
    SumAppend(front, parts[i]);
    SumConcat(front, back);
  }

  lemma BlocksAppend(packets: seq<Members>, m: Members)
    ensures Blocks(packets + [m]) == Blocks(packets) + MemberBlocks(m)
  {
    assert Parts(packets + [m]) == Parts(packets) + [MemberBlocks(m)];
    SumAppend(Parts(packets), MemberBlocks(m));
  }

  lemma FrontAndLast<T>(s: seq<T>)
    requires s != []
    ensures s == s[..|s| - 1] + [s[|s| - 1]]
  {}

  lemma {:induction false} SameValues(h: Heap, g: Heap, kept: multiset<Block>, packets: seq<Members>)
    requires Same(h, g, kept) && Blocks(packets) <= kept
    ensures Values(g, packets) == Values(h, packets)
    decreases |packets|
  {
    if packets != [] {
      var front, last := packets[..|packets| - 1], packets[|packets| - 1];
      FrontAndLast(packets);
      BlocksAppend(front, last);
      SameValues(h, g, kept, front);
      SameRead(h, g, kept, last);
      ValuesAppend(h, front, last);
      ValuesAppend(g, front, last);
    }
  }

  lemma {:induction false} CopyPacketsHolds(h: Heap, owned: multiset<Block>, sources: seq<Members>)
    requires Holds(h, owned)
    requires forall m :: m in sources ==> MemberBlocks(m) <= owned
    ensures var (g, copies) := CopyPackets(h, sources);
            Holds(g, owned + Blocks(copies)) && Same(h, g, owned) && Values(g, copies) == Values(h, sources)
    decreases |sources|
  {
    if sources == [] {
      assert owned + multiset{} == owned;
      SameStart(h, owned, owned);
    } else {
      var front, last := sources[..|sources| - 1], sources[|sources| - 1];
      FrontAndLast(sources);
      CopyPacketsHolds(h, owned, front);
      var (h1, copies) := CopyPackets(h, front);
      var more := owned + Blocks(copies);
      CopyPacketHolds(h1, more, last);
      var (g, copy) := CopyPacket(h1, last);
      CopyPacketsAppend(h, front, last);
      Pair(owned, Blocks(copies), MemberBlocks(copy));
      assert Same(h, g, owned) by {
        SameThrough(h, h1, g, owned, owned, more);
      }
      EarlierCopiesStay(h1, g, copies, copy, owned);
      SameRead(h, h1, owned, last);
      ValuesAppend(h, front, last);
    }
  }

  /** A further copy leaves the earlier ones readable as they were. */
  lemma EarlierCopiesStay(h1: Heap, g: Heap, copies: seq<Members>, copy: Members, owned: multiset<Block>)
    requires Same(h1, g, owned + Blocks(copies))
    ensures Values(g, copies + [copy]) == Values(h1, copies) + [Read(g, copy)]
  {
    SameValues(h1, g, owned + Blocks(copies), copies);
    ValuesAppend(g, copies, copy);
  }

  lemma CopyPacketsAppend(h: Heap, front: seq<Members>, last: Members)
    ensures var (h1, copies) := CopyPackets(h, front);
            var (g, copy) := CopyPacket(h1, last);
            CopyPackets(h, front + [last]) == (g, copies + [copy]) &&
              Blocks(copies + [copy]) == Blocks(copies) + MemberBlocks(copy)
  {
    assert (front + [last])[..|front|] == front;
    var (h1, copies) := CopyPackets(h, front);
    BlocksAppend(copies, CopyPacket(h1, last).1);
  }

  lemma Pair(a: multiset<Block>, b: multiset<Block>, c: multiset<Block>)
    ensures a + b + c == a + (b + c)
  {}

  lemma {:induction false} DestroyAllHolds(h: Heap, kept: multiset<Block>, packets: seq<Members>)
    requires Holds(h, kept + Blocks(packets))
    ensures Holds(DestroyAll(h, packets), kept) && Same(h, DestroyAll(h, packets), kept)
    decreases |packets|
  {
    if packets == [] {
      assert kept + multiset{} == kept;
      SameStart(h, kept, kept);
    } else {
      var front, last := packets[..|packets| - 1], packets[|packets| - 1];
      FrontAndLast(packets);
      BlocksAppend(front, last);
      var more := kept + MemberBlocks(last);
      assert kept + (Blocks(front) + MemberBlocks(last)) == more + Blocks(front);
      DestroyAllHolds(h, more, front);
      DestroyMembersHolds(DestroyAll(h, front), kept, last);
      SameThrough(h, DestroyAll(h, front), DestroyAll(h, packets), kept, more, kept);
    }
  }

  lemma {:induction false} DeleteBlocksHolds(h: Heap, kept: multiset<Block>, blocks: seq<Block>)
    requires Holds(h, kept + multiset(blocks))
    ensures Holds(DeleteBlocks(h, blocks), kept) && Same(h, DeleteBlocks(h, blocks), kept)
    decreases |blocks|
  {
    if blocks == [] {
      assert kept + multiset(blocks) == kept;
      SameStart(h, kept, kept);
    } else {
      var front, last := blocks[..|blocks| - 1], blocks[|blocks| - 1];
      FrontAndLast(blocks);
      var more := kept + Target(Some(last));
      assert kept + multiset(blocks) == more + multiset(front);
      DeleteBlocksHolds(h, more, front);
      DeleteHolds(DeleteBlocks(h, front), kept, Some(last));
      SameThrough(h, DeleteBlocks(h, front), DeleteBlocks(h, blocks), kept, more, kept);
    }
  }

  /** What the slots other than i own. */
  function Others(slots: seq<Members>, i: nat): multiset<Block>
    requires i < |slots|
  {
    Sum(Parts(slots)[..i] + Parts(slots)[i + 1..])
  }

  lemma OwnedBySlot(slots: seq<Members>, i: nat)
    requires i < |slots|
    ensures Blocks(slots) == Others(slots, i) + MemberBlocks(slots[i])
  {
    SumSplit(Parts(slots), i);
  }

  lemma SumUpdate(parts: seq<multiset<Block>>, i: nat, part: multiset<Block>)
    requires i < |parts|
    ensures Sum(parts[i := part]) == Sum(parts[..i] + parts[i + 1..]) + part
  {
    SumSplit(parts[i := part], i);
    assert parts[i := part][..i] == parts[..i] && parts[i := part][i + 1..] == parts[i + 1..];
  }

  lemma SumOfOthers(parts: seq<multiset<Block>>, i: nat, j: nat)
    requires i < |parts| && j < |parts| && i != j
    ensures parts[j] <= Sum(parts[..i] + parts[i + 1..])
  {
    var k := if j < i then j else j - 1;
    SumSplit(parts[..i] + parts[i + 1..], k);
    assert (parts[..i] + parts[i + 1..])[k] == parts[j];
  }

  lemma Replaced(slots: seq<Members>, i: nat, m: Members)
    requires i < |slots|
    ensures Blocks(slots[i := m]) == Others(slots, i) + MemberBlocks(m)
  {
    SumUpdate(Parts(slots), i, MemberBlocks(m));
    assert Parts(slots[i := m]) == Parts(slots)[i := MemberBlocks(m)];
  }

  lemma OwnedByOther(slots: seq<Members>, i: nat, j: nat)
    requires i < |slots| && j < |slots| && i != j
    ensures MemberBlocks(slots[j]) <= Others(slots, i)
  {
    SumOfOthers(Parts(slots), i, j);
  }

  // ---------------------------------------------------------------------------------------------
  // Value semantics
  // ---------------------------------------------------------------------------------------------

  /** The same store as if packets were values. */
  datatype View = View(slots: seq<Data>, responses: seq<seq<Data>>)

  function AllValues(h: Heap, responses: seq<Response>): (values: seq<seq<Data>>)
    ensures |values| == |responses|
    ensures forall i :: 0 <= i < |responses| ==> values[i] == Values(h, responses[i].packets)
  {
    seq(|responses|, i requires 0 <= i < |responses| => Values(h, responses[i].packets))
  }

  function ViewOf(m: Memory): View {
    View(Values(m.heap, m.slots), AllValues(m.heap, m.responses))
  }

  function PickedData(slots: seq<Data>, from: seq<nat>): seq<Data>
    requires forall i :: 0 <= i < |from| ==> from[i] < |slots|
  {
    seq(|from|, i requires 0 <= i < |from| => slots[from[i]])
  }

  lemma PickedValues(h: Heap, slots: seq<Members>, from: seq<nat>)
    requires forall i :: 0 <= i < |from| ==> from[i] < |slots|
    ensures Values(h, Picked(slots, from)) == PickedData(Values(h, slots), from)
  {}

  function ViewStep(v: View, e: Event): View {
    match e
    case Push(slot, data) => if slot < |v.slots| then v.(slots := v.slots[slot := data]) else v
    case Query(from) =>
      if forall i :: 0 <= i < |from| ==> from[i] < |v.slots| then
        v.(responses := v.responses + [PickedData(v.slots, from)])
      else v
    case DestroyResponse(i) => if i < |v.responses| then v.(responses := v.responses[..i] + v.responses[i + 1..]) else v
    case DestroyStorage => v.(slots := [])
  }

  ghost predicate Sound(m: Memory) {
    Holds(m.heap, Owned(m))
  }

  lemma ResponsesAppend(responses: seq<Response>, r: Response)
    ensures AllResponses(responses + [r]) == AllResponses(responses) + ResponseBlocks(r)
  {
    assert ResponseParts(responses + [r]) == ResponseParts(responses) + [ResponseBlocks(r)];
    SumAppend(ResponseParts(responses), ResponseBlocks(r));
  }

  lemma ResponseOut(responses: seq<Response>, i: nat)
    requires i < |responses|
    ensures AllResponses(responses) == AllResponses(responses[..i] + responses[i + 1..]) + ResponseBlocks(responses[i])
  {
    SumSplit(ResponseParts(responses), i);
    PartsOut(responses, i);
  }

  lemma PartsOut(responses: seq<Response>, i: nat)
    requires i < |responses|
    ensures ResponseParts(responses[..i] + responses[i + 1..]) ==
            ResponseParts(responses)[..i] + ResponseParts(responses)[i + 1..]
  {}

  lemma AllValuesAppend(h: Heap, responses: seq<Response>, r: Response)
    ensures AllValues(h, responses + [r]) == AllValues(h, responses) + [Values(h, r.packets)]
  {}

  lemma AllValuesOut(h: Heap, responses: seq<Response>, i: nat)
    requires i < |responses|
    ensures AllValues(h, responses[..i] + responses[i + 1..]) ==
            AllValues(h, responses)[..i] + AllValues(h, responses)[i + 1..]
  {}

  lemma {:induction false} SameAllValues(h: Heap, g: Heap, kept: multiset<Block>, responses: seq<Response>)
    requires Same(h, g, kept) && AllResponses(responses) <= kept
    ensures AllValues(g, responses) == AllValues(h, responses)
    decreases |responses|
  {
    if responses != [] {
      var front, last := responses[..|responses| - 1], responses[|responses| - 1];
      FrontAndLast(responses);
      ResponsesAppend(front, last);
      SameAllValues(h, g, kept, front);
      SameValues(h, g, kept, last.packets);
      AllValuesAppend(h, front, last);
      AllValuesAppend(g, front, last);
    }
  }

  lemma PushHolds(m: Memory, slot: nat, data: Data)
    requires Sound(m) && slot < |m.slots|
    ensures var (g, members) := MovedData(DestroyMembers(m.heap, m.slots[slot]), data);
            var rest := multiset(m.buffers) + AllResponses(m.responses) + Others(m.slots, slot);
            Holds(g, rest + MemberBlocks(members)) && Same(m.heap, g, rest) && Read(g, members) == data
  {
    var rest := multiset(m.buffers) + AllResponses(m.responses) + Others(m.slots, slot);
    OwnedBySlot(m.slots, slot);
    assert Owned(m) == rest + MemberBlocks(m.slots[slot]);
    var h1 := DestroyMembers(m.heap, m.slots[slot]);
    DestroyMembersHolds(m.heap, rest, m.slots[slot]);
    MovedDataHolds(h1, rest, data);
    SameThrough(m.heap, h1, MovedData(h1, data).0, rest, rest, rest);
  }

  lemma PushSound(m: Memory, slot: nat, data: Data)
    requires Sound(m) && slot < |m.slots|
    ensures Sound(Step(m, Push(slot, data)))
  {
    PushHolds(m, slot, data);
    var members := MovedData(DestroyMembers(m.heap, m.slots[slot]), data).1;
    Replaced(m.slots, slot, members);
    Shift(multiset(m.buffers), AllResponses(m.responses), Others(m.slots, slot), MemberBlocks(members));
  }

  lemma Shift(a: multiset<Block>, b: multiset<Block>, c: multiset<Block>, d: multiset<Block>)
    ensures a + b + c + d == a + (c + d) + b
  {}

  lemma PushedSlots(h: Heap, g: Heap, rest: multiset<Block>, slots: seq<Members>, slot: nat, members: Members,
                    data: Data)
    requires slot < |slots| && Others(slots, slot) <= rest && Same(h, g, rest) && Read(g, members) == data
    ensures Values(g, slots[slot := members]) == Values(h, slots)[slot := data]
  {
    var after := slots[slot := members];
    forall j | 0 <= j < |after|
      ensures Read(g, after[j]) == Values(h, slots)[slot := data][j]
    {
      if j != slot {
        OwnedByOther(slots, slot, j);
        SameRead(h, g, rest, slots[j]);
      }
    }
  }

  lemma PushView(m: Memory, slot: nat, data: Data)
    requires Sound(m) && slot < |m.slots|
    ensures ViewOf(Step(m, Push(slot, data))) == ViewStep(ViewOf(m), Push(slot, data))
  {
    var rest := multiset(m.buffers) + AllResponses(m.responses) + Others(m.slots, slot);
    PushHolds(m, slot, data);
    var (g, members) := MovedData(DestroyMembers(m.heap, m.slots[slot]), data);
    SameAllValues(m.heap, g, rest, m.responses);
    PushedSlots(m.heap, g, rest, m.slots, slot, members, data);
  }

  /** A new response's own struct and its packet array. */
  lemma HeaderHolds(h: Heap, owned: multiset<Block>, isEmpty: bool)
    requires Holds(h, owned)
    ensures var h1 := New(h, []);
            var h2 := if isEmpty then h1 else New(h1, []);
            var packetArray := if isEmpty then None else Some(h1.next);
            Holds(h2, owned + multiset{h.next} + Target(packetArray)) && Same(h, h2, owned)
  {
    SameStart(h, owned, owned);
    NewKeeps(h, owned, h, owned, []);
    if isEmpty {
      assert owned + multiset{h.next} + multiset{} == owned + multiset{h.next};
    } else {
      NewKeeps(h, owned, New(h, []), owned + multiset{h.next}, []);
    }
  }

  lemma AnsweredHolds(h: Heap, owned: multiset<Block>, sources: seq<Members>)
    requires Holds(h, owned)
    requires forall m :: m in sources ==> MemberBlocks(m) <= owned
    ensures var (g, r) := Answered(h, sources);
            Holds(g, owned + ResponseBlocks(r)) && Same(h, g, owned) && Values(g, r.packets) == Values(h, sources)
  {
    var (g, r) := Answered(h, sources);
    var h1 := New(h, []);
    var h2 := if sources == [] then h1 else New(h1, []);
    var more := owned + multiset{h.next} + Target(r.packetArray);
    assert Holds(h2, more) && Same(h, h2, owned) by {
      HeaderHolds(h, owned, sources == []);
    }
    CopyPacketsHolds(h2, more, sources);
    assert Same(h, g, owned) by {
      SameThrough(h, h2, g, owned, owned, more);
    }
    Regroup(owned, multiset{h.next}, Target(r.packetArray), Blocks(r.packets));
    SameSources(h, h2, owned, sources);
  }

  lemma Regroup(a: multiset<Block>, b: multiset<Block>, c: multiset<Block>, d: multiset<Block>)
    ensures a + b + c + d == a + (b + c + d)
  {}

  lemma SameSources(h: Heap, g: Heap, kept: multiset<Block>, sources: seq<Members>)
    requires Same(h, g, kept) && forall m :: m in sources ==> MemberBlocks(m) <= kept
    ensures Values(g, sources) == Values(h, sources)
  {
    forall i | 0 <= i < |sources|
      ensures Read(g, sources[i]) == Read(h, sources[i])
    {
      SameRead(h, g, kept, sources[i]);
    }
  }

  lemma PickedOwned(slots: seq<Members>, from: seq<nat>, owned: multiset<Block>)
    requires forall i :: 0 <= i < |from| ==> from[i] < |slots|
    requires Blocks(slots) <= owned
    ensures forall s :: s in Picked(slots, from) ==> MemberBlocks(s) <= owned
  {
    forall s | s in Picked(slots, from)
      ensures MemberBlocks(s) <= owned
    {
      var i :| 0 <= i < |from| && Picked(slots, from)[i] == s;
      OwnedBySlot(slots, from[i]);
    }
  }

  lemma QuerySound(m: Memory, from: seq<nat>)
    requires Sound(m) && Fits(m, Query(from))
    ensures Sound(Step(m, Query(from)))
  {
    PickedOwned(m.slots, from, Owned(m));
    var r := Answered(m.heap, Picked(m.slots, from)).1;
    AnsweredHolds(m.heap, Owned(m), Picked(m.slots, from));
    ResponsesAppend(m.responses, r);
    Later(multiset(m.buffers), Blocks(m.slots), AllResponses(m.responses), ResponseBlocks(r));
  }

  lemma Later(a: multiset<Block>, b: multiset<Block>, c: multiset<Block>, d: multiset<Block>)
    ensures a + b + c + d == a + b + (c + d)
  {}

  lemma QueryView(m: Memory, from: seq<nat>)
    requires Sound(m) && Fits(m, Query(from))
    ensures ViewOf(Step(m, Query(from))) == ViewStep(ViewOf(m), Query(from))
  {
    var picked := Picked(m.slots, from);
    PickedOwned(m.slots, from, Owned(m));
    var (g, r) := Answered(m.heap, picked);
    AnsweredHolds(m.heap, Owned(m), picked);
    SameValues(m.heap, g, Owned(m), m.slots);
    SameAllValues(m.heap, g, Owned(m), m.responses);
    AllValuesAppend(g, m.responses, r);
    PickedValues(m.heap, m.slots, from);
  }

  lemma DestroyedHolds(h: Heap, kept: multiset<Block>, r: Response)
    requires Holds(h, kept + ResponseBlocks(r))
    ensures Holds(Destroyed(h, r), kept) && Same(h, Destroyed(h, r), kept)
  {
    var kept1 := kept + Target(Some(r.self));
    var kept2 := kept1 + Target(r.packetArray);
    Regroup(kept, multiset{r.self}, Target(r.packetArray), Blocks(r.packets));
    var h1 := DestroyAll(h, r.packets);
    DestroyAllHolds(h, kept2, r.packets);
    var h2 := Delete(h1, r.packetArray);
    DeleteHolds(h1, kept1, r.packetArray);
    DeleteHolds(h2, kept, Some(r.self));
    SameThrough(h, h1, h2, kept1, kept2, kept1);
    SameThrough(h, h2, Destroyed(h, r), kept, kept1, kept);
  }

  lemma DestroyResponseHolds(m: Memory, i: nat)
    requires Sound(m) && i < |m.responses|
    ensures var rest := multiset(m.buffers) + Blocks(m.slots) + AllResponses(m.responses[..i] + m.responses[i + 1..]);
            var g := Destroyed(m.heap, m.responses[i]);
            Holds(g, rest) && Same(m.heap, g, rest)
  {
    var left := AllResponses(m.responses[..i] + m.responses[i + 1..]);
    ResponseOut(m.responses, i);
    Later(multiset(m.buffers), Blocks(m.slots), left, ResponseBlocks(m.responses[i]));
    DestroyedHolds(m.heap, multiset(m.buffers) + Blocks(m.slots) + left, m.responses[i]);
  }

  lemma DestroyResponseSound(m: Memory, i: nat)
    requires Sound(m) && i < |m.responses|
    ensures Sound(Step(m, DestroyResponse(i)))
  {
    DestroyResponseHolds(m, i);
  }

  lemma DestroyResponseView(m: Memory, i: nat)
    requires Sound(m) && i < |m.responses|
    ensures ViewOf(Step(m, DestroyResponse(i))) == ViewStep(ViewOf(m), DestroyResponse(i))
  {
    DestroyResponseHolds(m, i);
    var left := m.responses[..i] + m.responses[i + 1..];
    var g := Destroyed(m.heap, m.responses[i]);
    KeptReads(m.heap, g, m.buffers, m.slots, left);
    AllValuesOut(m.heap, m.responses, i);
  }

  lemma KeptReads(h: Heap, g: Heap, buffers: seq<Block>, slots: seq<Members>, responses: seq<Response>)
    requires Same(h, g, multiset(buffers) + Blocks(slots) + AllResponses(responses))
    ensures Values(g, slots) == Values(h, slots) && AllValues(g, responses) == AllValues(h, responses)
  {
    SameValues(h, g, multiset(buffers) + Blocks(slots) + AllResponses(responses), slots);
    SameAllValues(h, g, multiset(buffers) + Blocks(slots) + AllResponses(responses), responses);
  }

  lemma DestroyStorageHolds(m: Memory)
    requires Sound(m)
    ensures var g := DeleteBlocks(DestroyAll(m.heap, m.slots), m.buffers);
            Holds(g, AllResponses(m.responses)) && Same(m.heap, g, AllResponses(m.responses))
  {
    var responses := AllResponses(m.responses);
    var more := responses + multiset(m.buffers);
    Rotate(multiset(m.buffers), Blocks(m.slots), responses);
    var h1 := DestroyAll(m.heap, m.slots);
    DestroyAllHolds(m.heap, more, m.slots);
    DeleteBlocksHolds(h1, responses, m.buffers);
    SameThrough(m.heap, h1, DeleteBlocks(h1, m.buffers), responses, more, responses);
  }

  lemma Rotate(a: multiset<Block>, b: multiset<Block>, c: multiset<Block>)
    ensures a + b + c == c + a + b
  {}

  lemma DestroyStorageSound(m: Memory)
    requires Sound(m)
    ensures Sound(Step(m, DestroyStorage))
  {
    DestroyStorageHolds(m);
    assert Owned(Step(m, DestroyStorage)) == AllResponses(m.responses);
  }

  lemma DestroyStorageView(m: Memory)
    requires Sound(m)
    ensures ViewOf(Step(m, DestroyStorage)) == ViewStep(ViewOf(m), DestroyStorage)
  {
    DestroyStorageHolds(m);
    SameAllValues(m.heap, DeleteBlocks(DestroyAll(m.heap, m.slots), m.buffers), AllResponses(m.responses), m.responses);
  }

  predicate AllFit(m: Memory, events: seq<Event>)
    decreases |events|
  {
    events == [] || (Fits(m, events[0]) && AllFit(Step(m, events[0]), events[1..]))
  }

  function Run(m: Memory, events: seq<Event>): Memory
    requires AllFit(m, events)
    decreases |events|
  {
    if events == [] then m else Run(Step(m, events[0]), events[1..])
  }

  function ViewRun(v: View, events: seq<Event>): View
    decreases |events|
  {
    if events == [] then v else ViewRun(ViewStep(v, events[0]), events[1..])
  }

  /** Main result: over any sequence of pushes, queries, response destructions and the destruction of the store, every
      live block has exactly one owner among the slots and the outstanding responses, nothing is deleted twice, and
      clients read from slots and responses what they would if every packet were a value: a response keeps what it was
      answered with, whatever is pushed or destroyed later. */
  lemma {:induction false} RunSound(m: Memory, events: seq<Event>)
    requires Sound(m) && AllFit(m, events)
    ensures Sound(Run(m, events)) && ViewOf(Run(m, events)) == ViewRun(ViewOf(m), events)
    decreases |events|
  {
    if events != [] {
      match events[0] {
        case Push(slot, data) =>
          PushSound(m, slot, data);
          PushView(m, slot, data);
        case Query(from) =>
          QuerySound(m, from);
          QueryView(m, from);
        case DestroyResponse(i) =>
          DestroyResponseSound(m, i);
          DestroyResponseView(m, i);
        case DestroyStorage =>
          DestroyStorageSound(m);
          DestroyStorageView(m);
      }
      RunSound(Step(m, events[0]), events[1..]);
    }
  }

  // ---------------------------------------------------------------------------------------------
  // What clients read, from the events alone
  // ---------------------------------------------------------------------------------------------

  /** The last message pushed into a slot; a slot that has had none reads as four empty arrays. */
  function LastPushed(events: seq<Event>, slot: nat): Data {
    if events == [] then Data([], [], [], [])
    else
      var last := events[|events| - 1];
      if last.Push? && last.slot == slot then last.data else LastPushed(events[..|events| - 1], slot)
  }

  /** What each response that has not been destroyed was answered with, in the order of the queries. */
  function AnsweredWith(events: seq<Event>): seq<seq<Data>> {
    if events == [] then []
    else
      var front, last := events[..|events| - 1], events[|events| - 1];
      var before := AnsweredWith(front);
      match last
      case Query(from) => before + [seq(|from|, j requires 0 <= j < |from| => LastPushed(front, from[j]))]
      case DestroyResponse(i) => if i < |before| then before[..i] + before[i + 1..] else before
      case _ => before
  }

  predicate StoreGone(events: seq<Event>) {
    events != [] && (events[|events| - 1].DestroyStorage? || StoreGone(events[..|events| - 1]))
  }

  ghost predicate ReadsAs(v: View, events: seq<Event>, slots: nat) {
    && v.responses == AnsweredWith(events)
    && |v.slots| == (if StoreGone(events) then 0 else slots)
    && forall i :: 0 <= i < |v.slots| ==> v.slots[i] == LastPushed(events, i)
  }

  lemma PushReadsAs(v: View, front: seq<Event>, slot: nat, data: Data, slots: nat)
    requires slot < |v.slots| && ReadsAs(v, front, slots)
    ensures ReadsAs(ViewStep(v, Push(slot, data)), front + [Push(slot, data)], slots)
  {
    assert (front + [Push(slot, data)])[..|front|] == front;
  }

  lemma QueryReadsAs(v: View, front: seq<Event>, from: seq<nat>, slots: nat)
    requires (forall i :: 0 <= i < |from| ==> from[i] < |v.slots|) && ReadsAs(v, front, slots)
    ensures ReadsAs(ViewStep(v, Query(from)), front + [Query(from)], slots)
  {
    assert (front + [Query(from)])[..|front|] == front;
    assert PickedData(v.slots, from) == seq(|from|, j requires 0 <= j < |from| => LastPushed(front, from[j]));
  }

  lemma DestroyReadsAs(v: View, front: seq<Event>, e: Event, slots: nat)
    requires (e.DestroyResponse? || e.DestroyStorage?) && ReadsAs(v, front, slots)
    ensures ReadsAs(ViewStep(v, e), front + [e], slots)
  {
    assert (front + [e])[..|front|] == front;
  }

  lemma StepReadsAs(m: Memory, front: seq<Event>, e: Event, slots: nat)
    requires Sound(m) && Fits(m, e) && ReadsAs(ViewOf(m), front, slots)
    ensures ReadsAs(ViewOf(Step(m, e)), front + [e], slots)
  {
    match e
    case Push(slot, data) =>
      PushView(m, slot, data);
      PushReadsAs(ViewOf(m), front, slot, data, slots);
    case Query(from) =>
      QueryView(m, from);
      QueryReadsAs(ViewOf(m), front, from, slots);
    case DestroyResponse(i) =>
      DestroyResponseView(m, i);
      DestroyReadsAs(ViewOf(m), front, e, slots);
    case DestroyStorage =>
      DestroyStorageView(m);
      DestroyReadsAs(ViewOf(m), front, e, slots);
  }

  lemma CreatedReads(bufferSize: nat)
    ensures ReadsAs(ViewOf(Created(Heap(map[], 0, false), bufferSize)), [], 2 * bufferSize)
  {}

  lemma FirstMoves(before: seq<Event>, events: seq<Event>)
    ensures events == [] ==> before + events == before
    ensures events != [] ==> before + events == before + [events[0]] + events[1..]
  {}

  /** From any state of which clients read what the events so far say. */
  lemma {:induction false} RunReadsAs(m: Memory, before: seq<Event>, events: seq<Event>, all: seq<Event>, slots: nat)
    requires Sound(m) && ReadsAs(ViewOf(m), before, slots) && AllFit(m, events) && all == before + events
    ensures ReadsAs(ViewOf(Run(m, events)), all, slots)
    decreases |events|
  {
    FirstMoves(before, events);
    if events != [] {
      StepReadsAs(m, before, events[0], slots);
      StepSoundOnce(m, events[0]);
      RunReadsAs(Step(m, events[0]), before + [events[0]], events[1..], all, slots);
    }
  }

  lemma StepSoundOnce(m: Memory, e: Event)
    requires Sound(m) && Fits(m, e)
    ensures Sound(Step(m, e))
  {
    match e
    case Push(slot, data) => PushSound(m, slot, data);
    case Query(from) => QuerySound(m, from);
    case DestroyResponse(i) => DestroyResponseSound(m, i);
    case DestroyStorage => DestroyStorageSound(m);
  }

  /** After every run of a new store each slot reads as the last message pushed into it, and each response that is left
      as the last messages that had been pushed into its slots when it was made. */
  lemma ReadsByEvents(bufferSize: nat, events: seq<Event>)
    requires AllFit(Created(Heap(map[], 0, false), bufferSize), events)
    ensures ReadsAs(ViewOf(Run(Created(Heap(map[], 0, false), bufferSize), events)), events, 2 * bufferSize)
  {
    CreatedSound(bufferSize);
    CreatedReads(bufferSize);
    RunReadsAs(Created(Heap(map[], 0, false), bufferSize), [], events, events, 2 * bufferSize);
  }

  lemma {:induction false} NothingOwned(parts: seq<multiset<Block>>)
    requires forall i :: 0 <= i < |parts| ==> parts[i] == multiset{}
    ensures Sum(parts) == multiset{}
    decreases |parts|
  {
    if parts != [] {
      NothingOwned(parts[..|parts| - 1]);
    }
  }

  lemma CreatedSound(bufferSize: nat)
    ensures Sound(Created(Heap(map[], 0, false), bufferSize))
  {
    var empty := Heap(map[], 0, false);
    var owned := multiset{} + Target(Some(0)) + Target(Some(1));
    assert Holds(New(New(empty, []), []), owned) by {
      assert multiset(empty.live.Keys) == multiset{};
      NewTwoKeep(empty, multiset{}, empty, multiset{}, [], [], owned);
    }
    var m := Created(empty, bufferSize);
    NothingOwned(Parts(m.slots));
    assert multiset(m.buffers) == owned;
    assert Owned(m) == owned + multiset{} + multiset{};
  }

  /** Once the store and every response have been destroyed, nothing is live: each block was freed, once. */
  lemma NothingLeaks(bufferSize: nat, events: seq<Event>)
    requires AllFit(Created(Heap(map[], 0, false), bufferSize), events)
    ensures var m := Run(Created(Heap(map[], 0, false), bufferSize), events);
            !m.heap.fault && (m.buffers == [] && m.slots == [] && m.responses == [] ==> m.heap.live == map[])
  {
    CreatedSound(bufferSize);
    RunSound(Created(Heap(map[], 0, false), bufferSize), events);
    var m := Run(Created(Heap(map[], 0, false), bufferSize), events);
    if m.buffers == [] && m.slots == [] && m.responses == [] {
      assert Owned(m) == multiset{};
      forall b
        ensures b !in m.heap.live
      {
        OwnedOnce(m.heap, Owned(m), b);
      }
    }
  }

  // ---------------------------------------------------------------------------------------------
  // The objects
  // ---------------------------------------------------------------------------------------------

  class Allocator {
    var live: map<Block, Content>
    var next: Block
    var fault: bool

    ghost function State(): Heap
      reads this
    {
      Heap(live, next, fault)
    }

    constructor ()
      ensures State() == Heap(map[], 0, false)
    {
      live, next, fault := map[], 0, false;
    }

    /** new; an array gets its elements later. */
    method NewBlock(content: Content := []) returns (block: Block)
      modifies this
      ensures State() == New(old(State()), content) && block == old(next)
    {
      block := next;
      live := live[block := content];
      next := next + 1;
    }

    /** delete and delete[]; on the null pointer they do nothing. */
    method DeleteBlock(p: Option<Block>)
      modifies this
      ensures State() == Delete(old(State()), p)
    {
      if p.Some? {
        if p.value in live {
          live := live - {p.value};
        } else {
          fault := true;
        }
      }
    }

    /** A new array filled element by element from an existing one. */
    method CopyArray(source: Content) returns (copy: Option<Block>)
      modifies this
      ensures State() == New(old(State()), source) && copy == Some(old(next))
    {
      var block := NewBlock(seq(|source|, i => 0));
      for i := 0 to |source|
        invariant next == block + 1 && fault == old(fault)
        invariant block in live && |live[block]| == |source| && live[block][..i] == source[..i]
        invariant live == old(live)[block := live[block]]
      {
        live := live[block := live[block][i := source[i]]];
      }
      assert live[block] == source;
      copy := Some(block);
    }

    method CopyTrackingDeviceData(source: Data) returns (self: Block, copy: Members)
      modifies this
      ensures self == old(next)
      ensures (State(), copy) == NewMembers(New(old(State()), []), source)
    {
      self := NewBlock();
      var rawSensorData := CopyArray(source.rawSensorData);
      var poses := CopyArray(source.poses);
      var buttons := CopyArray(source.buttons);
      var timestamps := CopyArray(source.timestamps);
      copy := Members(rawSensorData, poses, buttons, timestamps);
    }

    /** The packet is moved into its destination and its structs are deleted. */
    method CopyDevicePacket(source: Members) returns (copy: Members)
      modifies this
      ensures (State(), copy) == CopyPacket(old(State()), source)
    {
      var data := Data(Elements(source.rawSensorData), Elements(source.poses), Elements(source.buttons),
                       Elements(source.timestamps));
      var packet := NewBlock();
      var self: Block;
      self, copy := CopyTrackingDeviceData(data);
      DeleteBlock(Some(self));
      DeleteBlock(Some(packet));
    }

    function Elements(p: Option<Block>): Content
      reads this
      ensures Elements(p) == ReadArray(State(), p)
    {
      if p.Some? && p.value in live then live[p.value] else []
    }

    method DestroyTrackingDeviceDataMembers(m: Members)
      modifies this
      ensures State() == DestroyMembers(old(State()), m)
    {
      DeleteBlock(m.rawSensorData);
      DeleteBlock(m.poses);
      DeleteBlock(m.buttons);
      DeleteBlock(m.timestamps);
    }

    method DestroyPackets(packets: seq<Members>)
      modifies this
      ensures State() == DestroyAll(old(State()), packets)
    {
      for i := 0 to |packets|
        invariant State() == DestroyAll(old(State()), packets[..i])
      {
        assert packets[..i + 1][..i] == packets[..i];
        DestroyTrackingDeviceDataMembers(packets[i]);
      }
      assert packets[..|packets|] == packets;
    }

    method DestroyDataResponse(r: Response)
      modifies this
      ensures State() == Destroyed(old(State()), r)
    {
      DestroyPackets(r.packets);
      DeleteBlock(r.packetArray);
      DeleteBlock(Some(r.self));
    }
  }

  /** The slots of a device store, and the responses that its clients have not destroyed yet. */
  class StoreMemory {
    const allocator: Allocator
    var buffers: seq<Block>
    var slots: array<Members>
    var responses: seq<Response>

    ghost function State(): Memory
      reads this, allocator, slots
    {
      Memory(allocator.State(), buffers, slots[..], responses)
    }

    constructor (bufferSize: nat)
      ensures State() == Created(Heap(map[], 0, false), bufferSize) && Sound(State())
      ensures fresh(allocator) && fresh(slots)
    {
      allocator := new Allocator();
      slots := new Members[2 * bufferSize](i => NULL_MEMBERS);
      buffers, responses := [], [];
      new;
      var buffer1 := allocator.NewBlock();
      var buffer2 := allocator.NewBlock();
      buffers := [buffer1, buffer2];
      assert slots[..] == Created(Heap(map[], 0, false), bufferSize).slots;
      CreatedSound(bufferSize);
    }

    /** The memory side of PushData: the slot's old arrays are deleted, the message's are taken over. */
    method PushData(slot: nat, data: Data)
      requires Sound(State()) && slot < slots.Length
      modifies allocator, slots
      ensures State() == Step(old(State()), Push(slot, data)) && Sound(State())
    {
      PushSound(State(), slot, data);
      Replace(slot, data);
    }

    method Replace(slot: nat, data: Data)
      requires slot < slots.Length
      modifies allocator, slots
      ensures State() == Step(old(State()), Push(slot, data))
    {
      allocator.DestroyTrackingDeviceDataMembers(slots[slot]);
      slots[slot] := NULL_MEMBERS;
      var self, members := allocator.CopyTrackingDeviceData(data);
      slots[slot] := members;
      allocator.DeleteBlock(Some(self));
    }

    /** The memory side of the queries: a response with copies of the packets in the given slots. */
    method Answer(from: seq<nat>)
      requires Sound(State()) && forall i :: 0 <= i < |from| ==> from[i] < slots.Length
      modifies this`responses, allocator
      ensures State() == Step(old(State()), Query(from)) && Sound(State())
    {
      QuerySound(State(), from);
      AddResponse(from);
    }

    method AddResponse(from: seq<nat>)
      requires forall i :: 0 <= i < |from| ==> from[i] < slots.Length
      modifies this`responses, allocator
      ensures State() == Step(old(State()), Query(from))
    {
      var r := NewResponse(from);
      responses := responses + [r];
    }

    method NewResponse(from: seq<nat>) returns (r: Response)
      requires forall i :: 0 <= i < |from| ==> from[i] < slots.Length
      modifies allocator
      ensures (allocator.State(), r) == Answered(old(allocator.State()), Picked(slots[..], from))
    {
      var self := allocator.NewBlock();
      var packetArray: Option<Block> := None;
      if |from| > 0 {
        var block := allocator.NewBlock();
        packetArray := Some(block);
      }
      var packets := CopyFrom(from);
      r := Response(self, packetArray, packets);
    }

    method CopyFrom(from: seq<nat>) returns (packets: seq<Members>)
      requires forall i :: 0 <= i < |from| ==> from[i] < slots.Length
      modifies allocator
      ensures (allocator.State(), packets) == CopyPackets(old(allocator.State()), Picked(slots[..], from))
    {
      ghost var picked := Picked(slots[..], from);
      packets := [];
      for i := 0 to |from|
        invariant (allocator.State(), packets) == CopyPackets(old(allocator.State()), picked[..i])
      {
        CopyNext(old(allocator.State()), picked, i);
        var copy := allocator.CopyDevicePacket(slots[from[i]]);
        packets := packets + [copy];
      }
      assert picked[..|from|] == picked;
    }

    method DestroyDataResponse(i: nat)
      requires Sound(State()) && i < |responses|
      modifies this`responses, allocator
      ensures State() == Step(old(State()), DestroyResponse(i)) && Sound(State())
    {
      DestroyResponseSound(State(), i);
      Release(i);
    }

    method Release(i: nat)
      requires i < |responses|
      modifies this`responses, allocator
      ensures State() == Step(old(State()), DestroyResponse(i))
    {
      allocator.DestroyDataResponse(responses[i]);
      responses := responses[..i] + responses[i + 1..];
    }

    /** The destructor. */
    method Destroy()
      requires Sound(State()) && |buffers| == 2
      modifies this, allocator
      ensures State() == Step(old(State()), DestroyStorage) && Sound(State())
    {
      DestroyStorageSound(State());
      DeleteAndForget();
    }

    method DeleteAndForget()
      requires |buffers| == 2
      modifies this, allocator
      ensures State() == Step(old(State()), DestroyStorage)
    {
      DeleteEverything();
      buffers, slots := [], new Members[0];
    }

    method DeleteEverything()
      requires |buffers| == 2
      modifies allocator
      ensures allocator.State() == DeleteBlocks(DestroyAll(old(allocator.State()), slots[..]), buffers)
    {
      allocator.DestroyPackets(slots[..]);
      DeleteBoth(allocator.State(), buffers);
      allocator.DeleteBlock(Some(buffers[0]));
      allocator.DeleteBlock(Some(buffers[1]));
    }
  }

  lemma DeleteBoth(h: Heap, blocks: seq<Block>)
    requires |blocks| == 2
    ensures DeleteBlocks(h, blocks) == Delete(Delete(h, Some(blocks[0])), Some(blocks[1]))
  {
    assert blocks[..1] == [blocks[0]] && blocks[..1][..0] == [];
    assert DeleteBlocks(h, blocks[..1]) == Delete(h, Some(blocks[0]));
  }

  lemma CopyNext(h: Heap, sources: seq<Members>, i: nat)
    requires i < |sources|
    ensures var (h1, copies) := CopyPackets(h, sources[..i]);
            var (h2, copy) := CopyPacket(h1, sources[i]);
            CopyPackets(h, sources[..i + 1]) == (h2, copies + [copy])
  {
    assert sources[..i + 1][..i] == sources[..i];
  }
}
