/** DeviceDataStorage under concurrency: one thread pushes, any number of threads query
    (src/device_data_storage.cpp). A push is split at every point where a reader can look: the slot is
    torn down, numbered and refilled without the lock, the count is raised without the lock, the switch
    happens under the exclusive lock, and the reset of the write count happens after that lock is released.
    Readers hold the shared lock from their first look to their last copy. */
module StorageConcurrency {
  import opened SdkTypes
  import opened PacketLog

  /** A slot of a buffer. Torn is a slot that is being rewritten. */
  datatype Cell<D> = Empty | Torn | Full(packet: Packet<D>)

  datatype Writer<D> = Idle | Cleared(data: D) | Indexed(data: D) | Stored(data: D) | WantsSwitch | MustReset

  datatype Query = LatestCount(count: nat) | SinceIndex(start: nat)

  /** What a query's case analysis settles: nothing to return, or a copy from a position to the end.
      Positions run through the read buffer and on into the write buffer. */
  datatype Plan = Nothing | CopyFrom(state: DataResponseState, from: nat)

  datatype Phase = Locked | GotWrite | GotBoth | Copying

  /** One thread inside a query. w and r are the counts it sampled; at is how many messages had been
      accepted when it sampled w; clean says that it did not sample w in the stale gap. */
  datatype Reader<D> = Reader(query: Query, phase: Phase, w: nat, r: nat, at: nat, clean: bool,
                              plan: Plan, out: seq<Cell<D>>)

  datatype State<D> = State(
    size: nat, readCells: seq<Cell<D>>, readNum: nat, writeCells: seq<Cell<D>>, writeNum: nat,
    received: nat, writer: Writer<D>, readers: map<nat, Reader<D>>, log: seq<Packet<D>>)

  datatype Action<D> =
    // the writer
    | Begin(data: D) | TakeIndex | StoreData | Count | Switch | Reset
    // a reader
    | Lock(id: nat, query: Query) | SampleWrite(id: nat) | SampleRead(id: nat)
    | Decide(id: nat, plan: Plan) | Copy(id: nat) | Unlock(id: nat)

  function Init<D>(n: nat): State<D> {
    var cells: seq<Cell<D>> := seq(n, _ => Empty);
    State(n, cells, 0, cells, 0, 0, Idle, map[], [])
  }

  /** The gap between the switch and the reset, when the old read buffer was full: the write count still
      shows the old read count. */
  predicate InStaleGap<D>(s: State<D>) {
    s.writer.MustReset? && s.writeNum > 0
  }

  function CellAt<D>(s: State<D>, r: nat, position: nat): Cell<D> {
    if position < r then
      if position < |s.readCells| then s.readCells[position] else Empty
    else
      if position - r < |s.writeCells| then s.writeCells[position - r] else Empty
  }

  /** The case analysis of GetLatestData(count). */
  function LatestPlan(w: nat, r: nat, count: nat): Plan {
    if count == 0 then Nothing
    else if count <= w then CopyFrom(Success, r + w - count)
    else if count <= r + w then CopyFrom(Success, r + w - count)
    else if r + w > 0 then CopyFrom(PartialData, 0)
    else Nothing
  }

  /** The case analysis of GetDataSinceIndex, given the indices of the last and first packets of the two buffers. */
  function SincePlan(w: nat, r: nat, start: nat, lastWrite: nat, firstWrite: nat, lastRead: nat, firstRead: nat): Plan {
    if w > 0 && lastWrite < start then Nothing
    else if w > 0 && firstWrite <= start then CopyFrom(Success, r + (start - firstWrite))
    else if w == 0 && r > 0 && lastRead < start then Nothing
    else if r > 0 && firstRead <= start then CopyFrom(Success, start - firstRead)
    else if r > 0 && firstRead > start then CopyFrom(PartialData, 0)
    else Nothing
  }

  function IndexOf<D>(c: Cell<D>): nat {
    if c.Full? then c.packet.packetIdx else 0
  }

  ghost predicate AllFull<D>(s: State<D>, reader: Reader<D>) {
    forall p :: 0 <= p < reader.r + reader.w ==> CellAt(s, reader.r, p).Full?
  }

  function PlanOf<D>(s: State<D>, reader: Reader<D>): Plan {
    var w, r := reader.w, reader.r;
    match reader.query
    case LatestCount(count) => LatestPlan(w, r, count)
    case SinceIndex(start) =>
      SincePlan(w, r, start,
                if w > 0 then IndexOf(CellAt(s, r, r + w - 1)) else 0,
                if w > 0 then IndexOf(CellAt(s, r, r)) else 0,
                if r > 0 then IndexOf(CellAt(s, r, r - 1)) else 0,
                if r > 0 then IndexOf(CellAt(s, r, 0)) else 0)
  }

  /** The plan a reader may settle on. A reader that can meet a torn or empty slot may settle on anything. */
  ghost predicate MayDecide<D>(s: State<D>, reader: Reader<D>, plan: Plan) {
    AllFull(s, reader) ==> plan == PlanOf(s, reader)
  }

  predicate Finished<D>(reader: Reader<D>) {
    reader.phase.Copying? && (reader.plan.CopyFrom? ==> reader.plan.from + |reader.out| >= reader.r + reader.w)
  }

  /** One atomic step, or None where the action is not enabled. */
  ghost function Step<D>(s: State<D>, a: Action<D>): Option<State<D>> {
    match a
    case Begin(data) =>
      if s.writer.Idle? && s.writeNum < |s.writeCells|
      then Some(s.(writer := Cleared(data), writeCells := s.writeCells[s.writeNum := Torn]))
      else None
    case TakeIndex =>
      if s.writer.Cleared? then Some(s.(writer := Indexed(s.writer.data), received := s.received + 1)) else None
    case StoreData =>
      if s.writer.Indexed? && s.writeNum < |s.writeCells| && s.received > 0
      then Some(s.(writer := Stored(s.writer.data),
                   writeCells := s.writeCells[s.writeNum := Full(Packet(s.received - 1, s.writer.data))]))
      else None
    case Count =>
      if s.writer.Stored?
      then Some(s.(writer := if s.writeNum + 1 == s.size then WantsSwitch else Idle,
                   writeNum := s.writeNum + 1, log := Append(s.log, s.writer.data)))
      else None
    case Switch =>
      // The exclusive lock is granted only while no reader holds the shared one.
      if s.writer.WantsSwitch? && s.readers == map[]
      then Some(s.(writer := MustReset, readCells := s.writeCells, readNum := s.writeNum,
                   writeCells := s.readCells, writeNum := s.readNum))
      else None
    case Reset =>
      if s.writer.MustReset? then Some(s.(writer := Idle, writeNum := 0)) else None
    case Lock(id, query) =>
      if id !in s.readers
      then Some(s.(readers := s.readers[id := Reader(query, Locked, 0, 0, 0, true, Nothing, [])]))
      else None
    case SampleWrite(id) =>
      if id in s.readers && s.readers[id].phase.Locked?
      then Some(SetReader(s, id,
                          s.readers[id].(phase := GotWrite, w := s.writeNum, at := |s.log|, clean := !InStaleGap(s))))
      else None
    case SampleRead(id) =>
      if id in s.readers && s.readers[id].phase.GotWrite?
      then Some(SetReader(s, id, s.readers[id].(phase := GotBoth, r := s.readNum)))
      else None
    case Decide(id, plan) =>
      if id in s.readers && s.readers[id].phase.GotBoth? && MayDecide(s, s.readers[id], plan)
      then Some(SetReader(s, id, s.readers[id].(phase := Copying, plan := plan, out := [])))
      else None
    case Copy(id) =>
      if id in s.readers && s.readers[id].phase.Copying? && !Finished(s.readers[id])
      then var reader := s.readers[id];
           Some(SetReader(s, id, reader.(out := reader.out + [CellAt(s, reader.r, reader.plan.from + |reader.out|)])))
      else None
    case Unlock(id) =>
      if id in s.readers && Finished(s.readers[id]) then Some(s.(readers := s.readers - {id})) else None
  }

  function SetReader<D>(s: State<D>, id: nat, reader: Reader<D>): State<D> {
    s.(readers := s.readers[id := reader])
  }

  /** s can be reached by the given actions, each enabled in turn. */
  ghost predicate Reaches<D>(from: State<D>, actions: seq<Action<D>>, to_: State<D>)
    decreases |actions|
  {
    if actions == [] then from == to_ else
    Step(from, actions[0]).Some? && Reaches(Step(from, actions[0]).value, actions[1..], to_)
  }

  /** The counted slots, read buffer first, are the last readNum + writeNum entries of the log. */
  ghost predicate ShowsSuffix<D>(s: State<D>) {
    && s.readNum + s.writeNum <= |s.log|
    && forall p {:trigger CellAt(s, s.readNum, p)} :: 0 <= p < s.readNum + s.writeNum ==>
         CellAt(s, s.readNum, p) == Full(s.log[|s.log| - s.readNum - s.writeNum + p])
  }

  // ---------------------------------------------------------------------------------------------
  // The invariant
  // ---------------------------------------------------------------------------------------------

  ghost predicate Frame<D>(s: State<D>) {
    && 0 < s.size && |s.readCells| == |s.writeCells| == s.size
    && s.readNum <= s.size && s.writeNum <= s.size
    && s.readNum + s.writeNum <= |s.log|
    && Numbered(s.log)
  }

  /** The counts and the next index in each phase of a push. */
  ghost predicate Counts<D>(s: State<D>)
    requires 0 < s.size
  {
    var total := |s.log|;
    match s.writer
    case WantsSwitch =>
      && s.received == total && s.size <= total && WriteCount(total, s.size) == 0
      && s.writeNum == s.size && s.readNum == ReadCount(total - s.size, s.size)
    case MustReset =>
      && s.received == total && s.size <= total && WriteCount(total, s.size) == 0
      && s.readNum == s.size && s.writeNum == ReadCount(total - s.size, s.size)
    case _ =>
      && s.received == (if s.writer.Indexed? || s.writer.Stored? then total + 1 else total)
      && s.writeNum == WriteCount(total, s.size) && s.readNum == ReadCount(total, s.size)
  }

  function ReadBase<D>(s: State<D>): int {
    if s.writer.MustReset? then |s.log| - s.readNum else |s.log| - s.readNum - s.writeNum
  }

  function WriteBase<D>(s: State<D>): int {
    if s.writer.MustReset? then |s.log| - s.readNum - s.writeNum else |s.log| - s.writeNum
  }

  ghost predicate Content<D>(s: State<D>)
    requires Frame(s)
  {
    && (forall i :: 0 <= i < s.readNum ==> s.readCells[i] == Full(s.log[ReadBase(s) + i]))
    && (forall i :: 0 <= i < s.writeNum ==> s.writeCells[i] == Full(s.log[WriteBase(s) + i]))
    && (s.writer.Stored? ==> s.writeNum < s.size && s.writeCells[s.writeNum] == Full(Packet(|s.log|, s.writer.data)))
  }

  /** The case analysis a reader should reach, computed from the log alone. */
  function TruePlan(query: Query, w: nat, r: nat, at: nat): Plan
    requires r + w <= at
  {
    match query
    case LatestCount(count) => LatestPlan(w, r, count)
    case SinceIndex(start) =>
      SincePlan(w, r, start, if w > 0 then at - 1 else 0, if w > 0 then at - w else 0,
                if r > 0 then at - w - 1 else 0, if r > 0 then at - w - r else 0)
  }

  /** A clean reader that has sampled the write count still sees the same epoch of the two buffers. */
  ghost predicate ReaderOk<D>(s: State<D>, reader: Reader<D>)
    requires Frame(s)
  {
    (reader.clean && !reader.phase.Locked?) ==>
      && !InStaleGap(s)
      && reader.at <= |s.log| && reader.w <= s.writeNum && reader.at - reader.w == |s.log| - s.writeNum
      && Retained(reader.at, s.size) <= reader.w + s.readNum <= 2 * s.size
      && (s.readNum == 0 ==> reader.w == reader.at)
      && (!reader.phase.GotWrite? ==> reader.r == s.readNum)
      && (reader.phase.Copying? ==>
            && reader.plan == TruePlan(reader.query, reader.w, reader.r, reader.at)
            && (reader.plan.CopyFrom? ==> reader.plan.from + |reader.out| <= reader.r + reader.w)
            && Copied(reader, s.log))
  }

  ghost predicate Copied<D>(reader: Reader<D>, log: seq<Packet<D>>) {
    && (reader.plan.Nothing? ==> reader.out == [])
    && (reader.plan.CopyFrom? ==>
          && 0 <= reader.at - reader.w - reader.r
          && reader.at - reader.w - reader.r + reader.plan.from + |reader.out| <= |log|
          && forall i :: 0 <= i < |reader.out| ==>
               reader.out[i] == Full(log[reader.at - reader.w - reader.r + reader.plan.from + i]))
  }

  ghost predicate Inv<D>(s: State<D>) {
    && Frame(s) && Counts(s) && Content(s)
    && forall id :: id in s.readers ==> ReaderOk(s, s.readers[id])
  }

  lemma InitInv<D>(n: nat)
    requires 0 < n
    ensures Inv(Init<D>(n))
  {}

  predicate IsWriterAction<D>(a: Action<D>) {
    a.Begin? || a.TakeIndex? || a.StoreData? || a.Count? || a.Switch? || a.Reset?
  }

  lemma WriterKeepsCounts<D>(s: State<D>, a: Action<D>)
    requires Inv(s) && IsWriterAction(a) && Step(s, a).Some?
    ensures var t := Step(s, a).value; Frame(t) && Counts(t)
  {
    if a.Count? {
      CountsAfterPush(|s.log|, s.size);
      if s.size <= |s.log| {
        CountsAfterPush(|s.log| - s.size, s.size);
      }
    }
  }

  lemma CountKeepsContent<D>(s: State<D>)
    requires Inv(s) && s.writer.Stored? && Frame(Step(s, Count).value)
    ensures Content(Step(s, Count).value)
  {
    var t := Step(s, Count).value;
    assert ReadBase(t) == ReadBase(s) && WriteBase(t) == WriteBase(s);
    assert t.log[|s.log|] == Packet(|s.log|, s.writer.data);
  }

  lemma SwitchKeepsContent<D>(s: State<D>)
    requires Inv(s) && s.writer.WantsSwitch? && s.readers == map[]
    ensures Content(Step(s, Switch).value)
  {}

  lemma BeginKeepsContent<D>(s: State<D>, data: D)
    requires Frame(s) && Content(s) && Step(s, Begin(data)).Some?
    ensures Content(Step(s, Begin(data)).value)
  {}

  lemma StoreKeepsContent<D>(s: State<D>)
    requires Frame(s) && Counts(s) && Content(s) && Step(s, StoreData).Some?
    ensures Content(Step(s, StoreData).value)
  {}

  lemma ResetKeepsContent<D>(s: State<D>)
    requires Frame(s) && Content(s) && s.writer.MustReset?
    ensures Content(Step(s, Reset).value)
  {}

  lemma WriterKeepsContent<D>(s: State<D>, a: Action<D>)
    requires Inv(s) && IsWriterAction(a) && Step(s, a).Some?
    requires Frame(Step(s, a).value)
    ensures Content(Step(s, a).value)
  {
    match a
    case Begin(data) => BeginKeepsContent(s, data);
    case TakeIndex =>
    case StoreData => StoreKeepsContent(s);
    case Count => CountKeepsContent(s);
    case Switch => SwitchKeepsContent(s);
    case Reset => ResetKeepsContent(s);
  }

  /** Before the switch the writer only touches slots beyond the sampled counts; the switch itself waits
      for the readers to leave. */
  lemma WriterKeepsReader<D>(s: State<D>, a: Action<D>, reader: Reader<D>)
    requires Inv(s) && IsWriterAction(a) && Step(s, a).Some? && !a.Switch?
    requires Frame(Step(s, a).value) && ReaderOk(s, reader)
    ensures ReaderOk(Step(s, a).value, reader)
  {}

  lemma WriterStepKeepsInv<D>(s: State<D>, a: Action<D>)
    requires Inv(s) && IsWriterAction(a) && Step(s, a).Some?
    ensures Inv(Step(s, a).value)
  {
    var t := Step(s, a).value;
    WriterKeepsCounts(s, a);
    WriterKeepsContent(s, a);
    forall id | id in t.readers
      ensures ReaderOk(t, t.readers[id])
    {
      assert !a.Switch?;
      WriterKeepsReader(s, a, s.readers[id]);
    }
  }

  /** In a state without the stale gap the counted cells are full and carry the log's indices. */
  lemma CleanReaderSees<D>(s: State<D>, reader: Reader<D>, p: nat)
    requires Frame(s) && Content(s) && ReaderOk(s, reader)
    requires reader.clean && (reader.phase.GotBoth? || reader.phase.Copying?)
    requires p < reader.r + reader.w
    ensures reader.r + reader.w <= reader.at
    ensures CellAt(s, reader.r, p) == Full(s.log[reader.at - reader.w - reader.r + p])
  {}

  lemma CleanReaderFull<D>(s: State<D>, reader: Reader<D>)
    requires Frame(s) && Content(s) && ReaderOk(s, reader)
    requires reader.clean && reader.phase.GotBoth?
    ensures AllFull(s, reader)
  {
    forall p | 0 <= p < reader.r + reader.w
      ensures CellAt(s, reader.r, p).Full?
    {
      CleanReaderSees(s, reader, p);
    }
  }

  /** Such a reader finds the packets that the log has there. */
  lemma CleanPlanOf<D>(s: State<D>, reader: Reader<D>)
    requires Frame(s) && Content(s) && ReaderOk(s, reader) && reader.clean && reader.phase.GotBoth?
    ensures reader.r + reader.w <= reader.at
    ensures PlanOf(s, reader) == TruePlan(reader.query, reader.w, reader.r, reader.at)
  {
    if reader.w > 0 {
      CleanReaderSees(s, reader, reader.r);
      CleanReaderSees(s, reader, reader.r + reader.w - 1);
    }
    if reader.r > 0 {
      CleanReaderSees(s, reader, 0);
      CleanReaderSees(s, reader, reader.r - 1);
    }
  }

  lemma CleanPlan<D>(s: State<D>, reader: Reader<D>, plan: Plan)
    requires Frame(s) && Content(s) && ReaderOk(s, reader)
    requires reader.clean && reader.phase.GotBoth? && MayDecide(s, reader, plan)
    ensures reader.r + reader.w <= reader.at
    ensures plan == TruePlan(reader.query, reader.w, reader.r, reader.at)
    ensures plan.CopyFrom? ==> plan.from <= reader.r + reader.w
  {
    CleanReaderFull(s, reader);
    CleanPlanOf(s, reader);
  }

  /** The buffers are consistent whoever reads them. */
  lemma CountsWithReaders<D>(s: State<D>, readers: map<nat, Reader<D>>)
    requires Frame(s) && Counts(s)
    ensures var t := s.(readers := readers); Frame(t) && Counts(t)
  {}

  lemma ContentWithReaders<D>(s: State<D>, readers: map<nat, Reader<D>>)
    requires Frame(s) && Content(s) && Frame(s.(readers := readers))
    ensures Content(s.(readers := readers))
  {}

  lemma ReaderOkAmongOthers<D>(s: State<D>, readers: map<nat, Reader<D>>, reader: Reader<D>)
    requires Frame(s) && ReaderOk(s, reader)
    ensures Frame(s.(readers := readers)) && ReaderOk(s.(readers := readers), reader)
  {}

  lemma ReadersKeepInv<D>(s: State<D>, readers: map<nat, Reader<D>>)
    requires Inv(s) && forall id :: id in readers ==> ReaderOk(s, readers[id])
    ensures Inv(s.(readers := readers))
  {
    CountsWithReaders(s, readers);
    ContentWithReaders(s, readers);
    forall id | id in readers
      ensures ReaderOk(s.(readers := readers), readers[id])
    {
      ReaderOkAmongOthers(s, readers, readers[id]);
    }
  }

  lemma DecideOk<D>(s: State<D>, id: nat, plan: Plan)
    requires Inv(s) && Step(s, Decide(id, plan)).Some?
    ensures ReaderOk(s, Step(s, Decide(id, plan)).value.readers[id])
  {
    if s.readers[id].clean {
      CleanPlan(s, s.readers[id], plan);
    }
  }

  /** What a reader's step does to its own entry is consistent with the buffers. */
  lemma ReaderStepOk<D>(s: State<D>, a: Action<D>)
    requires Inv(s) && !IsWriterAction(a) && !a.Unlock? && Step(s, a).Some?
    ensures ReaderOk(s, Step(s, a).value.readers[a.id])
    ensures Step(s, a).value == SetReader(s, a.id, Step(s, a).value.readers[a.id])
  {
    match a
    case SampleWrite(id) => SampleOk(s, id);
    case Decide(id, plan) => DecideOk(s, id, plan);
    case Copy(id) => CopyOk(s, id);
    case Lock(_, _) =>
    case SampleRead(id) => assert ReaderOk(s, s.readers[id]);
  }

  lemma ReaderStepKeepsInv<D>(s: State<D>, a: Action<D>)
    requires Inv(s) && !IsWriterAction(a) && Step(s, a).Some?
    ensures Inv(Step(s, a).value)
  {
    if a.Unlock? {
      ReadersKeepInv(s, s.readers - {a.id});
    } else {
      ReaderStepOk(s, a);
      ReadersKeepInv(s, s.readers[a.id := Step(s, a).value.readers[a.id]]);
    }
  }

  lemma CopyOk<D>(s: State<D>, id: nat)
    requires Inv(s) && Step(s, Copy(id)).Some?
    ensures ReaderOk(s, Step(s, Copy(id)).value.readers[id])
  {
    var reader := s.readers[id];
    var next := reader.(out := reader.out + [CellAt(s, reader.r, reader.plan.from + |reader.out|)]);
    assert Step(s, Copy(id)).value.readers[id] == next;
    assert ReaderOk(s, next) by {
      if reader.clean {
        CleanCopyOk(s, reader);
      }
    }
  }

  lemma CleanCopyOk<D>(s: State<D>, reader: Reader<D>)
    requires Frame(s) && Content(s) && ReaderOk(s, reader) && reader.clean && reader.phase.Copying? && !Finished(reader)
    ensures ReaderOk(s, reader.(out := reader.out + [CellAt(s, reader.r, reader.plan.from + |reader.out|)]))
  {
    CleanReaderSees(s, reader, reader.plan.from + |reader.out|);
    OneMoreCopied(reader, s.log, CellAt(s, reader.r, reader.plan.from + |reader.out|));
  }

  lemma OneMoreCopied<D>(reader: Reader<D>, log: seq<Packet<D>>, cell: Cell<D>)
    requires reader.plan.CopyFrom? && Copied(reader, log) && reader.at <= |log|
    requires reader.plan.from + |reader.out| < reader.r + reader.w <= reader.at
    requires cell == Full(log[reader.at - reader.w - reader.r + reader.plan.from + |reader.out|])
    ensures Copied(reader.(out := reader.out + [cell]), log)
  {}

  lemma SampleOk<D>(s: State<D>, id: nat)
    requires Inv(s) && Step(s, SampleWrite(id)).Some?
    ensures ReaderOk(s, Step(s, SampleWrite(id)).value.readers[id])
  {
    RetainedBounds(|s.log|, s.size);
    if s.writer.WantsSwitch? && s.readNum == 0 {
      assert WriteCount(|s.log| - s.size, s.size) == |s.log| - s.size;
    }
  }

  /** The invariant holds after every run, whatever the interleaving of the writer and the readers. */
  lemma {:induction false} RunKeepsInv<D>(s: State<D>, actions: seq<Action<D>>, t: State<D>)
    requires Inv(s) && Reaches(s, actions, t)
    ensures Inv(t)
    decreases |actions|
  {
    if actions != [] {
      var a := actions[0];
      if IsWriterAction(a) {
        WriterStepKeepsInv(s, a);
      } else {
        ReaderStepKeepsInv(s, a);
      }
      RunKeepsInv(Step(s, a).value, actions[1..], t);
    }
  }

  // ---------------------------------------------------------------------------------------------
  // Main results
  // ---------------------------------------------------------------------------------------------

  /** What the query should answer on the log as it stood when the write count was sampled. */
  function Reference<D>(query: Query, log: seq<Packet<D>>, retained: nat): DataResponse<D>
    requires retained <= |log|
  {
    match query
    case LatestCount(count) => Latest(log, retained, count)
    case SinceIndex(start) => Since(log, retained, start)
  }

  ghost predicate Delivers<D>(reader: Reader<D>, response: DataResponse<D>) {
    match reader.plan
    case Nothing => response == NoPackets() && reader.out == []
    case CopyFrom(state, _) =>
      && response.state == state
      && |reader.out| == |response.packets| == response.packetCount
      && forall i :: 0 <= i < |reader.out| ==> reader.out[i] == Full(response.packets[i])
  }

  lemma TruePlanIsReference<D>(query: Query, w: nat, r: nat, log: seq<Packet<D>>)
    requires Numbered(log) && r + w <= |log| && (r == 0 ==> w == |log|)
    ensures var plan := TruePlan(query, w, r, |log|);
            var response := Reference(query, log, r + w);
            match plan
            case Nothing => response == NoPackets()
            case CopyFrom(state, from) =>
              from <= r + w && response == DataResponse(state, log[|log| - r - w + from..], r + w - from)
  {}

  /** The reader has copied exactly that stretch of the log. */
  ghost predicate CopiedStretch<D>(reader: Reader<D>, state: DataResponseState, log: seq<Packet<D>>, first: int,
                                   count: nat)
  {
    && reader.plan.CopyFrom? && reader.plan.state == state && |reader.out| == count
    && forall i :: 0 <= i < count ==> 0 <= first + i < |log| && reader.out[i] == Full(log[first + i])
  }

  /** The reader has what its query asks for, from the last `held` packets of the log. */
  ghost predicate Answered<D>(reader: Reader<D>, log: seq<Packet<D>>, held: nat) {
    match reader.query
    case LatestCount(count) =>
      if count == 0 || held == 0 then reader.plan.Nothing? && reader.out == []
      else if count <= held then CopiedStretch(reader, Success, log, |log| - count, count)
      else CopiedStretch(reader, PartialData, log, |log| - held, held)
    case SinceIndex(start) =>
      if start >= |log| then reader.plan.Nothing? && reader.out == []
      else if start >= |log| - held then CopiedStretch(reader, Success, log, start, |log| - start)
      else CopiedStretch(reader, PartialData, log, |log| - held, held)
  }

  lemma LatestAnswered<D>(reader: Reader<D>, log: seq<Packet<D>>)
    requires reader.query.LatestCount? && reader.r + reader.w <= |log|
    requires reader.plan == LatestPlan(reader.w, reader.r, reader.query.count)
    requires Delivers(reader, Latest(log, reader.w + reader.r, reader.query.count))
    ensures Answered(reader, log, reader.w + reader.r)
  {
    var held := reader.w + reader.r;
    LatestGives(log, held, reader.query.count, Latest(log, held, reader.query.count));
  }

  lemma SinceAnswered<D>(reader: Reader<D>, log: seq<Packet<D>>)
    requires reader.query.SinceIndex? && reader.r + reader.w <= |log| && (reader.r == 0 ==> reader.w == |log|)
    requires reader.plan == TruePlan(reader.query, reader.w, reader.r, |log|)
    requires Delivers(reader, Since(log, reader.w + reader.r, reader.query.start))
    ensures Answered(reader, log, reader.w + reader.r)
  {
    var held := reader.w + reader.r;
    SinceGives(log, held, reader.query.start, Since(log, held, reader.query.start));
  }

  lemma DeliversAnswered<D>(reader: Reader<D>, log: seq<Packet<D>>)
    requires reader.r + reader.w <= |log| && (reader.r == 0 ==> reader.w == |log|)
    requires reader.plan == TruePlan(reader.query, reader.w, reader.r, |log|)
    requires Delivers(reader, Reference(reader.query, log, reader.w + reader.r))
    ensures Answered(reader, log, reader.w + reader.r)
  {
    match reader.query
    case LatestCount(_) => LatestAnswered(reader, log);
    case SinceIndex(_) => SinceAnswered(reader, log);
  }

  /** However many pushes run meanwhile, a finished query that sampled outside the stale gap returns exactly the
      reference answer on the log at its sampling point, for a window at least as large as the sequential one. */
  lemma ConcurrentSnapshot<D>(n: nat, actions: seq<Action<D>>, t: State<D>, id: nat)
    requires 0 < n && Reaches(Init(n), actions, t)
    requires id in t.readers && Finished(t.readers[id]) && t.readers[id].clean
    ensures var reader := t.readers[id];
            && reader.at <= |t.log|
            && Retained(reader.at, n) <= reader.w + reader.r <= reader.at
            && reader.w + reader.r <= 2 * n
            && (n < MAX_BUFFER_SIZE ==> reader.w + reader.r < 0x8000_0000)
            && Delivers(reader, Reference(reader.query, t.log[..reader.at], reader.w + reader.r))
            && Answered(reader, t.log[..reader.at], reader.w + reader.r)
  {
    InitInv<D>(n);
    RunKeepsInv(Init(n), actions, t);
    RunKeepsSize(Init(n), actions, t);
    FinishedDelivers(t, t.readers[id]);
    FinishedAnswered(t, t.readers[id]);
  }

  lemma FinishedDelivers<D>(t: State<D>, reader: Reader<D>)
    requires Frame(t) && ReaderOk(t, reader) && Finished(reader) && reader.clean
    ensures reader.at <= |t.log|
    ensures Retained(reader.at, t.size) <= reader.w + reader.r <= reader.at
    ensures reader.w + reader.r <= 2 * t.size
    ensures Delivers(reader, Reference(reader.query, t.log[..reader.at], reader.w + reader.r))
  {
    FinishedWindow(t, reader);
    CopiedWindow(reader, t.log, t.log[..reader.at]);
  }

  lemma FinishedAnswered<D>(t: State<D>, reader: Reader<D>)
    requires Frame(t) && ReaderOk(t, reader) && Finished(reader) && reader.clean
    ensures reader.at <= |t.log| && Answered(reader, t.log[..reader.at], reader.w + reader.r)
  {
    FinishedDelivers(t, reader);
    FinishedWindow(t, reader);
    DeliversAnswered(reader, t.log[..reader.at]);
  }

  lemma FinishedWindow<D>(t: State<D>, reader: Reader<D>)
    requires Frame(t) && ReaderOk(t, reader) && Finished(reader) && reader.clean
    ensures Retained(reader.at, t.size) <= reader.w + reader.r <= reader.at <= |t.log|
    ensures reader.w + reader.r <= 2 * t.size && (reader.r == 0 ==> reader.w == reader.at)
    ensures reader.plan == TruePlan(reader.query, reader.w, reader.r, reader.at) && Copied(reader, t.log)
    ensures reader.plan.CopyFrom? ==> reader.plan.from + |reader.out| == reader.r + reader.w
  {}

  /** A reader that has copied the window it saw delivers the reference answer. */
  lemma CopiedWindow<D>(reader: Reader<D>, log: seq<Packet<D>>, seen: seq<Packet<D>>)
    requires Numbered(seen) && Copied(reader, log) && reader.w + reader.r <= reader.at <= |log| &&
             seen == log[..reader.at]
    requires reader.r == 0 ==> reader.w == reader.at
    requires reader.plan == TruePlan(reader.query, reader.w, reader.r, reader.at)
    requires reader.plan.CopyFrom? ==> reader.plan.from + |reader.out| == reader.r + reader.w
    ensures Delivers(reader, Reference(reader.query, seen, reader.w + reader.r))
  {
    TruePlanIsReference(reader.query, reader.w, reader.r, seen);
    match reader.plan
    case Nothing =>
    case CopyFrom(state, from) =>
      SliceMatches(reader.out, log, reader.at, |seen| - reader.r - reader.w + from);
  }

  lemma SliceMatches<D>(out: seq<Cell<D>>, log: seq<Packet<D>>, at: nat, first: nat)
    requires first + |out| == at <= |log|
    requires forall i :: 0 <= i < |out| ==> out[i] == Full(log[first + i])
    ensures |log[..at][first..]| == |out| && forall i :: 0 <= i < |out| ==> out[i] == Full(log[..at][first..][i])
  {}

  lemma {:induction false} RunKeepsSize<D>(s: State<D>, actions: seq<Action<D>>, t: State<D>)
    requires Reaches(s, actions, t)
    ensures t.size == s.size
    decreases |actions|
  {
    if actions != [] {
      RunKeepsSize(Step(s, actions[0]).value, actions[1..], t);
    }
  }

  /** What the pushing thread does next, with the message of its next push. */
  function WriterTurn<D>(s: State<D>, data: D): Action<D> {
    match s.writer
    case Idle => Begin(data)
    case Cleared(_) => TakeIndex
    case Indexed(_) => StoreData
    case Stored(_) => Count
    case WantsSwitch => Switch
    case MustReset => Reset
  }

  /** What a thread inside a query does next. */
  ghost function ReaderTurn<D>(s: State<D>, id: nat): Action<D>
    requires id in s.readers
  {
    match s.readers[id].phase
    case Locked => SampleWrite(id)
    case GotWrite => SampleRead(id)
    case GotBoth => Decide(id, PlanOf(s, s.readers[id]))
    case Copying => if Finished(s.readers[id]) then Unlock(id) else Copy(id)
  }

  /** No thread is ever stuck: a query can always be started and go on, and a push waits only at its switch, for the
      queries that hold the lock. */
  lemma NeverStuck<D>(n: nat, actions: seq<Action<D>>, t: State<D>, data: D, id: nat)
    requires 0 < n && Reaches(Init(n), actions, t)
    ensures Step(t, WriterTurn(t, data)).Some? <==> !t.writer.WantsSwitch? || t.readers == map[]
    ensures id in t.readers ==> Step(t, ReaderTurn(t, id)).Some?
    ensures id !in t.readers ==> forall query :: Step(t, Lock(id, query)).Some?
  {
    InitInv<D>(n);
    RunKeepsInv(Init(n), actions, t);
  }

  // ---------------------------------------------------------------------------------------------
  // The same from the actions
  // ---------------------------------------------------------------------------------------------

  /** The messages whose pushing has begun. */
  function Begun<D>(actions: seq<Action<D>>): seq<D> {
    if actions == [] then []
    else (if actions[0].Begin? then [actions[0].data] else []) + Begun(actions[1..])
  }

  /** The messages accepted so far, and the one that is being pushed. */
  ghost function Taken<D>(s: State<D>): seq<D> {
    Contents(s.log) + if s.writer.Cleared? || s.writer.Indexed? || s.writer.Stored? then [s.writer.data] else []
  }

  function Contents<D>(log: seq<Packet<D>>): (contents: seq<D>)
    ensures |contents| == |log|
    ensures forall i :: 0 <= i < |log| ==> contents[i] == log[i].data
  {
    seq(|log|, i requires 0 <= i < |log| => log[i].data)
  }

  lemma StepTakes<D>(s: State<D>, a: Action<D>)
    requires Step(s, a).Some?
    ensures Taken(Step(s, a).value) == if a.Begin? then Taken(s) + [a.data] else Taken(s)
  {
    if a.Begin? {
      assert Contents(s.log) + [] == Contents(s.log);
    } else if a.Count? {
      assert Contents(Append(s.log, s.writer.data)) == Contents(s.log) + [s.writer.data];
    }
  }

  lemma BegunFirst<D>(taken: seq<D>, actions: seq<Action<D>>)
    ensures actions == [] ==> taken + Begun(actions) == taken
    ensures actions != [] ==>
              taken + Begun(actions) == (if actions[0].Begin? then taken + [actions[0].data] else taken) +
                                        Begun(actions[1..])
  {}

  lemma {:induction false} RunTakes<D>(s: State<D>, actions: seq<Action<D>>, t: State<D>, all: seq<D>)
    requires Reaches(s, actions, t) && all == Taken(s) + Begun(actions)
    ensures Taken(t) == all
    decreases |actions|
  {
    BegunFirst(Taken(s), actions);
    if actions != [] {
      StepTakes(s, actions[0]);
      RunTakes(Step(s, actions[0]).value, actions[1..], t, all);
    }
  }

  /** The log numbers the messages whose pushing has begun, in that order, without the one that is still on its way. */
  lemma LogByActions<D>(n: nat, actions: seq<Action<D>>, t: State<D>)
    requires 0 < n && Reaches(Init(n), actions, t)
    ensures Taken(t) == Begun(actions) && Numbered(t.log)
  {
    InitInv<D>(n);
    RunKeepsInv(Init(n), actions, t);
    assert Taken(Init<D>(n)) == [];
    RunTakes(Init(n), actions, t, Begun(actions));
  }

  /** The state in which a reader last looked at the write count. */
  ghost function SampledIn<D>(s: State<D>, actions: seq<Action<D>>, id: nat, before: Option<State<D>>): Option<State<D>>
    decreases |actions|
  {
    if actions == [] || Step(s, actions[0]).None? then before
    else
      SampledIn(Step(s, actions[0]).value, actions[1..], id,
                if actions[0] == SampleWrite(id) then Some(s) else before)
  }

  /** A reader that has sampled the write count did so in that state. */
  ghost predicate Remembers<D>(s: State<D>, id: nat, sampled: Option<State<D>>) {
    id in s.readers && !s.readers[id].phase.Locked? ==>
      && sampled.Some? && s.readers[id].w == sampled.value.writeNum && s.readers[id].at == |sampled.value.log|
      && s.readers[id].clean == !InStaleGap(sampled.value)
      && sampled.value.log <= s.log
  }

  lemma StepLogGrows<D>(s: State<D>, a: Action<D>)
    requires Step(s, a).Some?
    ensures s.log <= Step(s, a).value.log
  {}

  lemma StepKeepsSample<D>(s: State<D>, a: Action<D>, id: nat)
    requires Step(s, a).Some? && a != SampleWrite(id)
    requires id in Step(s, a).value.readers && !Step(s, a).value.readers[id].phase.Locked?
    ensures var t := Step(s, a).value;
            && id in s.readers && !s.readers[id].phase.Locked? && t.readers[id].w == s.readers[id].w
            && t.readers[id].at == s.readers[id].at && t.readers[id].clean == s.readers[id].clean
  {}

  lemma StepRemembers<D>(s: State<D>, a: Action<D>, id: nat, before: Option<State<D>>)
    requires Step(s, a).Some? && Remembers(s, id, before)
    ensures Remembers(Step(s, a).value, id, if a == SampleWrite(id) then Some(s) else before)
  {
    var t := Step(s, a).value;
    StepLogGrows(s, a);
    if a != SampleWrite(id) && id in t.readers && !t.readers[id].phase.Locked? {
      StepKeepsSample(s, a, id);
    }
  }

  lemma {:induction false} RunRemembers<D>(s: State<D>, actions: seq<Action<D>>, t: State<D>, id: nat,
                                           before: Option<State<D>>)
    requires Reaches(s, actions, t) && Remembers(s, id, before)
    ensures Remembers(t, id, SampledIn(s, actions, id, before))
    decreases |actions|
  {
    if actions != [] {
      StepRemembers(s, actions[0], id, before);
      RunRemembers(Step(s, actions[0]).value, actions[1..], t, id,
                   if actions[0] == SampleWrite(id) then Some(s) else before);
    }
  }

  /** The reader has what its query asks for, from at least as many packets as the sequential store would hold. */
  ghost predicate AnsweredFrom<D>(reader: Reader<D>, log: seq<Packet<D>>, n: nat)
    requires 0 < n
  {
    exists held :: Retained(|log|, n) <= held <= |log| && Answered(reader, log, held)
  }

  lemma SnapshotIsPrefix<D>(reader: Reader<D>, seen: seq<Packet<D>>, log: seq<Packet<D>>, n: nat)
    requires 0 < n && seen <= log && reader.at == |seen| && Retained(reader.at, n) <= reader.w + reader.r <= reader.at
    requires Answered(reader, log[..reader.at], reader.w + reader.r)
    ensures AnsweredFrom(reader, seen, n)
  {
    assert log[..reader.at] == seen;
  }

  /** Main result on concurrent queries, in terms of the run: a finished query is answered exactly as asked from the log
      as it stood when the query looked at the write count, unless it looked in the gap. */
  lemma AnsweredAsSampled<D>(n: nat, actions: seq<Action<D>>, t: State<D>, id: nat)
    requires 0 < n && Reaches(Init(n), actions, t) && id in t.readers && Finished(t.readers[id])
    ensures var sampled := SampledIn(Init(n), actions, id, None);
            && sampled.Some? && sampled.value.log <= t.log
            && (!InStaleGap(sampled.value) ==> AnsweredFrom(t.readers[id], sampled.value.log, n))
  {
    RunRemembers(Init(n), actions, t, id, None);
    var seen := SampledIn(Init(n), actions, id, None).value;
    if !InStaleGap(seen) {
      ConcurrentSnapshot(n, actions, t, id);
      SnapshotIsPrefix(t.readers[id], seen.log, t.log, n);
    }
  }

  /** The stale gap is the only defect: in every reachable state the counted slots show the end of the log
      if and only if the state is not in the gap. */
  lemma OnlyTheGapShowsWrongSlots<D>(n: nat, actions: seq<Action<D>>, t: State<D>)
    requires 0 < n && Reaches(Init(n), actions, t)
    ensures ShowsSuffix(t) <==> !InStaleGap(t)
    ensures InStaleGap(t) <==> t.writer.MustReset? && 2 * n <= |t.log|
    ensures InStaleGap(t) ==> t.writeNum == t.readNum == n
  {
    InitInv<D>(n);
    RunKeepsInv(Init(n), actions, t);
    RunKeepsSize(Init(n), actions, t);
    if InStaleGap(t) {
      GapShowsWrongSlot(t);
    }
  }

  lemma GapShowsWrongSlot<D>(s: State<D>)
    requires Inv(s) && InStaleGap(s)
    ensures s.writeNum == s.readNum == s.size && 2 * s.size <= |s.log|
    ensures CellAt(s, s.readNum, 0) != Full(s.log[|s.log| - s.readNum - s.writeNum])
  {
    assert CellAt(s, s.readNum, 0) == Full(s.log[|s.log| - s.size]);
    assert s.log[|s.log| - s.size].packetIdx == |s.log| - s.size;
    assert s.log[|s.log| - 2 * s.size].packetIdx == |s.log| - 2 * s.size;
  }

  // ---------------------------------------------------------------------------------------------
  // Queries inside the gap
  // ---------------------------------------------------------------------------------------------

  /** The reader after a query that runs entirely in one state. */
  ghost function ServedIn<D>(s: State<D>, query: Query): Reader<D> {
    var sampled := Reader(query, GotBoth, s.writeNum, s.readNum, |s.log|, !InStaleGap(s), Nothing, []);
    var plan := PlanOf(s, sampled);
    sampled.(phase := Copying, plan := plan, out := Cells(s, plan))
  }

  function Cells<D>(s: State<D>, plan: Plan): seq<Cell<D>> {
    if plan.Nothing? || s.readNum + s.writeNum < plan.from then []
    else seq(s.readNum + s.writeNum - plan.from, i requires 0 <= i => CellAt(s, s.readNum, plan.from + i))
  }

  /** Queries with nothing to return: no packets asked for, or none given out yet from the start index on. */
  predicate AsksForNothing(query: Query, total: nat) {
    match query
    case LatestCount(count) => count == 0
    case SinceIndex(start) => total <= start
  }

  /** In the gap the cells show the newest n packets first and the n before them after that. */
  lemma GapCells<D>(s: State<D>)
    requires Inv(s) && InStaleGap(s)
    ensures s.writeNum == s.readNum == s.size && 2 * s.size <= |s.log|
    ensures forall p {:trigger CellAt(s, s.size, p)} :: 0 <= p < s.size ==>
              CellAt(s, s.size, p) == Full(s.log[|s.log| - s.size + p])
    ensures forall p {:trigger CellAt(s, s.size, p)} :: s.size <= p < 2 * s.size ==>
              CellAt(s, s.size, p) == Full(s.log[|s.log| - 3 * s.size + p])
  {}

  /** What a query in the gap settles on. */
  lemma GapPlan<D>(s: State<D>, query: Query)
    requires Inv(s) && InStaleGap(s)
    ensures var plan := ServedIn(s, query).plan;
            match query
            case LatestCount(count) => plan.Nothing? <==> count == 0
            case SinceIndex(start) => plan.Nothing? <==> |s.log| - s.size <= start
    ensures var plan := ServedIn(s, query).plan; plan.CopyFrom? ==> plan.from < 2 * s.size
  {
    GapCells(s);
    assert IndexOf(CellAt(s, s.size, 2 * s.size - 1)) == |s.log| - s.size - 1;
    assert IndexOf(CellAt(s, s.size, s.size)) == |s.log| - 2 * s.size;
  }

  /** Every answer with packets ends with the newest one. */
  lemma ReferenceEndsWithNewest<D>(query: Query, log: seq<Packet<D>>, retained: nat)
    requires 0 < retained <= |log|
    ensures var response := Reference(query, log, retained);
            if AsksForNothing(query, |log|) then response == NoPackets()
            else |response.packets| > 0 && response.packets[|response.packets| - 1] == log[|log| - 1]
  {}

  /** A query in the gap that copies anything ends with the packet before the newest buffer. */
  lemma GapEndsTooEarly<D>(s: State<D>, query: Query)
    requires Inv(s) && InStaleGap(s) && ServedIn(s, query).plan.CopyFrom?
    ensures s.size < |s.log|
    ensures var out := ServedIn(s, query).out; |out| > 0 && out[|out| - 1] == Full(s.log[|s.log| - s.size - 1])
    ensures s.log[|s.log| - s.size - 1] != s.log[|s.log| - 1]
  {
    GapPlan(s, query);
    GapCells(s);
    var out := ServedIn(s, query).out;
    assert out[|out| - 1] == CellAt(s, s.size, 2 * s.size - 1);
    assert s.log[|s.log| - s.size - 1].packetIdx != s.log[|s.log| - 1].packetIdx;
  }

  /** Which queries the gap spoils: exactly those that ask for something, whatever part of the log they might be
      answered from. */
  lemma GapSpoilsEveryAnswer<D>(n: nat, actions: seq<Action<D>>, t: State<D>, query: Query, retained: nat)
    requires 0 < n && Reaches(Init(n), actions, t) && InStaleGap(t) && 0 < retained <= |t.log|
    ensures Delivers(ServedIn(t, query), Reference(query, t.log, retained)) <==> AsksForNothing(query, |t.log|)
  {
    InitInv<D>(n);
    RunKeepsInv(Init(n), actions, t);
    SpoiledInGap(t, query, retained);
  }

  lemma SpoiledInGap<D>(s: State<D>, query: Query, retained: nat)
    requires Inv(s) && InStaleGap(s) && 0 < retained <= |s.log|
    ensures Delivers(ServedIn(s, query), Reference(query, s.log, retained)) <==> AsksForNothing(query, |s.log|)
  {
    ReferenceEndsWithNewest(query, s.log, retained);
    if ServedIn(s, query).plan.CopyFrom? {
      GapEndsTooEarly(s, query);
    }
    GapPlan(s, query);
  }

  lemma ReachesFirst<D>(s: State<D>, a: Action<D>, u: State<D>, actions: seq<Action<D>>, t: State<D>)
    requires Step(s, a) == Some(u) && Reaches(u, actions, t)
    ensures Reaches(s, [a] + actions, t)
  {
    assert ([a] + actions)[1..] == actions;
  }

  lemma SetReaderTwice<D>(s: State<D>, id: nat, first: Reader<D>, second: Reader<D>)
    ensures SetReader(SetReader(s, id, first), id, second) == SetReader(s, id, second)
  {
    assert s.readers[id := first][id := second] == s.readers[id := second];
  }

  function Copies<D>(id: nat, count: nat): seq<Action<D>> {
    if count == 0 then [] else [Copy(id)] + Copies(id, count - 1)
  }

  /** The steps of a query that nobody interrupts. */
  ghost function ServeActions<D>(s: State<D>, id: nat, query: Query): seq<Action<D>> {
    var reader := ServedIn(s, query);
    [Lock(id, query)] +
      ([SampleWrite(id)] + ([SampleRead(id)] + ([Decide(id, reader.plan)] + Copies(id, |reader.out|))))
  }

  lemma CopyRuns<D>(s: State<D>, id: nat, reader: Reader<D>)
    requires reader.phase.Copying? && !Finished(reader)
    ensures var next := reader.(out := reader.out + [CellAt(s, reader.r, reader.plan.from + |reader.out|)]);
            Step(SetReader(s, id, reader), Copy(id)) == Some(SetReader(s, id, next))
  {
    SetReaderTwice(s, id, reader,
                   reader.(out := reader.out + [CellAt(s, reader.r, reader.plan.from + |reader.out|)]));
  }

  lemma OneMoreCell<D>(s: State<D>, plan: Plan, i: nat)
    requires i < |Cells(s, plan)|
    ensures plan.CopyFrom? && plan.from + i < s.readNum + s.writeNum
    ensures Cells(s, plan)[..i + 1] == Cells(s, plan)[..i] + [CellAt(s, s.readNum, plan.from + i)]
  {}

  /** What the copy loop still has to do. */
  lemma {:induction false} CopiesRun<D>(s: State<D>, id: nat, reader: Reader<D>, count: nat)
    requires reader.phase.Copying? && reader.r == s.readNum && reader.w == s.writeNum && count <= |reader.out|
    requires reader.out == Cells(s, reader.plan)
    ensures Reaches(SetReader(s, id, reader.(out := reader.out[..|reader.out| - count])), Copies(id, count),
                    SetReader(s, id, reader))
    decreases count
  {
    var done := reader.out[..|reader.out| - count];
    if count == 0 {
      assert done == reader.out;
    } else {
      var next := reader.out[..|reader.out| - (count - 1)];
      CopiesRun(s, id, reader, count - 1);
      assert Step(SetReader(s, id, reader.(out := done)), Copy(id)) == Some(SetReader(s, id, reader.(out := next))) by {
        OneMoreCell(s, reader.plan, |done|);
        CopyRuns(s, id, reader.(out := done));
      }
      ReachesFirst(SetReader(s, id, reader.(out := done)), Copy(id), SetReader(s, id, reader.(out := next)),
                   Copies(id, count - 1), SetReader(s, id, reader));
    }
  }

  /** A query that no other step interrupts serves its caller from the state it started in. */
  lemma QueryRunsIn<D>(s: State<D>, id: nat, query: Query)
    requires id !in s.readers
    ensures Reaches(s, ServeActions(s, id, query), SetReader(s, id, ServedIn(s, query)))
    ensures Finished(ServedIn(s, query))
  {
    var served := ServedIn(s, query);
    var locked := Reader(query, Locked, 0, 0, 0, true, Nothing, []);
    var half := locked.(phase := GotWrite, w := s.writeNum, at := |s.log|, clean := !InStaleGap(s));
    var sampled := half.(phase := GotBoth, r := s.readNum);
    var t := SetReader(s, id, served);
    var copies: seq<Action<D>> := Copies(id, |served.out|);
    CopiesRun(s, id, served, |served.out|);
    assert served.out[..0] == [];
    SamplingRuns(s, id, locked, half, sampled);
    DecidingRuns(s, id, sampled, served.plan);
    ReachesFirst(SetReader(s, id, sampled), Decide(id, served.plan), SetReader(s, id, served.(out := [])), copies, t);
    ReachesFirst(SetReader(s, id, half), SampleRead(id), SetReader(s, id, sampled),
                 [Decide(id, served.plan)] + copies, t);
    ReachesFirst(SetReader(s, id, locked), SampleWrite(id), SetReader(s, id, half),
                 [SampleRead(id)] + ([Decide(id, served.plan)] + copies), t);
    ReachesFirst(s, Lock(id, query), SetReader(s, id, locked),
                 [SampleWrite(id)] + ([SampleRead(id)] + ([Decide(id, served.plan)] + copies)), t);
  }

  lemma SamplingRuns<D>(s: State<D>, id: nat, locked: Reader<D>, half: Reader<D>, sampled: Reader<D>)
    requires locked.phase.Locked? && sampled == half.(phase := GotBoth, r := s.readNum)
    requires half == locked.(phase := GotWrite, w := s.writeNum, at := |s.log|, clean := !InStaleGap(s))
    ensures Step(SetReader(s, id, locked), SampleWrite(id)) == Some(SetReader(s, id, half))
    ensures Step(SetReader(s, id, half), SampleRead(id)) == Some(SetReader(s, id, sampled))
  {
    SetReaderTwice(s, id, locked, half);
    SetReaderTwice(s, id, half, sampled);
  }

  lemma DecidingRuns<D>(s: State<D>, id: nat, sampled: Reader<D>, plan: Plan)
    requires sampled.phase.GotBoth? && plan == PlanOf(s, sampled)
    ensures Step(SetReader(s, id, sampled), Decide(id, plan)) ==
            Some(SetReader(s, id, sampled.(phase := Copying, plan := plan, out := [])))
  {
    SetReaderTwice(s, id, sampled, sampled.(phase := Copying, plan := plan, out := []));
    assert PlanOf(SetReader(s, id, sampled), sampled) == PlanOf(s, sampled);
  }

  lemma {:induction false} ReachesThen<D>(s: State<D>, first: seq<Action<D>>, u: State<D>, second: seq<Action<D>>,
                                          t: State<D>)
    requires Reaches(s, first, u) && Reaches(u, second, t)
    ensures Reaches(s, first + second, t)
    decreases |first|
  {
    if first == [] {
      assert first + second == second;
    } else {
      assert (first + second)[1..] == first[1..] + second;
      ReachesThen(Step(s, first[0]).value, first[1..], u, second, t);
    }
  }

  /** In a reachable gap any thread can run any query to its end, and gets the reference answer exactly if it asks for
      nothing. */
  lemma GapQueryRuns<D>(n: nat, actions: seq<Action<D>>, t: State<D>, id: nat, query: Query, retained: nat)
    requires 0 < n && Reaches(Init(n), actions, t) && InStaleGap(t) && id !in t.readers && 0 < retained <= |t.log|
    ensures var reader := ServedIn(t, query);
            && Reaches(Init(n), actions + ServeActions(t, id, query), SetReader(t, id, reader)) && Finished(reader)
            && (Delivers(reader, Reference(query, t.log, retained)) <==> AsksForNothing(query, |t.log|))
  {
    QueryRunsIn(t, id, query);
    ReachesThen(Init(n), actions, t, ServeActions(t, id, query), SetReader(t, id, ServedIn(t, query)));
    GapSpoilsEveryAnswer(n, actions, t, query, retained);
  }

  function PushActions<D>(data: D, rest: seq<Action<D>>): seq<Action<D>> {
    [Begin(data)] + ([TakeIndex] + ([StoreData] + ([Count] + ([Switch] + rest))))
  }

  /** With one slot per buffer every push ends in a switch. */
  lemma PushWithOneSlot<D>(s: State<D>, data: D, rest: seq<Action<D>>, t: State<D>)
    requires s.size == 1 && |s.writeCells| == 1 && s.writeNum == 0 && s.writer.Idle? && s.readers == map[]
    requires Reaches(State(1, [Full(Packet(s.received, data))], 1, s.readCells, s.readNum,
                           s.received + 1, MustReset, map[], Append(s.log, data)), rest, t)
    ensures Reaches(s, PushActions(data, rest), t)
  {
    var s1 := s.(writer := Cleared(data), writeCells := [Torn]);
    var s2 := s1.(writer := Indexed(data), received := s.received + 1);
    var s3 := s2.(writer := Stored(data), writeCells := [Full(Packet(s.received, data))]);
    var s4 := s3.(writer := WantsSwitch, writeNum := 1, log := Append(s.log, data));
    var s5 := State(1, s4.writeCells, 1, s.readCells, s.readNum, s.received + 1, MustReset, map[], s4.log);
    assert s.writeCells[0 := Torn] == [Torn];
    assert s2.writeCells[0 := Full(Packet(s.received, data))] == [Full(Packet(s.received, data))];
    ReachesFirst(s4, Switch, s5, rest, t);
    ReachesFirst(s3, Count, s4, [Switch] + rest, t);
    ReachesFirst(s2, StoreData, s3, [Count] + ([Switch] + rest), t);
    ReachesFirst(s1, TakeIndex, s2, [StoreData] + ([Count] + ([Switch] + rest)), t);
    ReachesFirst(s, Begin(data), s1, [TakeIndex] + ([StoreData] + ([Count] + ([Switch] + rest))), t);
  }

  /** The state between the second switch and its reset, with one slot per buffer. */
  function GapState<D>(older: D, newer: D): State<D> {
    State(1, [Full(Packet(1, newer))], 1, [Full(Packet(0, older))], 1, 2, MustReset, map[],
          [Packet(0, older), Packet(1, newer)])
  }

  /** A query for the newest packet that runs entirely in that state. */
  lemma LookInGap<D>(older: D, newer: D)
    ensures var reader := ServedIn(GapState(older, newer), LatestCount(1));
            reader.plan == CopyFrom(Success, 1) && reader.out == [Full(Packet(0, older))]
  {
    var gap := GapState(older, newer);
    assert CellAt(gap, 1, 1) == Full(Packet(0, older));
    assert Cells(gap, CopyFrom(Success, 1)) == [CellAt(gap, 1, 1)];
  }

  /** The store after the first of the two pushes. */
  function AfterFirst<D>(older: D): State<D> {
    State(1, [Full(Packet(0, older))], 1, [Empty], 0, 1, Idle, map[], [Packet(0, older)])
  }

  lemma SecondPush<D>(older: D, newer: D, rest: seq<Action<D>>, t: State<D>)
    requires Reaches(GapState(older, newer), rest, t)
    ensures Reaches(AfterFirst(older), PushActions(newer, rest), t)
  {
    assert Append(AfterFirst(older).log, newer) == GapState(older, newer).log;
    PushWithOneSlot(AfterFirst(older), newer, rest, t);
  }

  lemma FirstPush<D>(older: D, rest: seq<Action<D>>, t: State<D>)
    requires Reaches(AfterFirst(older), rest, t)
    ensures Reaches(Init(1), PushActions(older, [Reset] + rest), t)
  {
    ReachesFirst(AfterFirst(older).(writer := MustReset), Reset, AfterFirst(older), rest, t);
    var init := Init<D>(1);
    assert init.readCells == init.writeCells == [Empty];
    assert Append(init.log, older) == [Packet(0, older)];
    PushWithOneSlot(init, older, [Reset] + rest, t);
  }

  lemma OlderIsNotLatest<D>(reader: Reader<D>, older: D, newer: D)
    requires reader.plan.CopyFrom? && reader.out == [Full(Packet(0, older))]
    ensures !Delivers(reader, Latest([Packet(0, older), Packet(1, newer)], 1, 1))
  {
    var log := [Packet(0, older), Packet(1, newer)];
    assert log[|log| - 1..] == [Packet(1, newer)];
    assert reader.out[0] == Full(Packet(0, older));
  }

  /** The stale gap is real: after two pushes into one-slot buffers a query for the newest packet can return the older
      one. */
  lemma StaleGapReturnsOldPacket<D>(older: D, newer: D)
    ensures exists actions, t: State<D> :: Reaches(Init(1), actions, t) && ReturnedOld(t, older, newer)
  {
    var gap := GapState(older, newer);
    var look := ServeActions(gap, 0, LatestCount(1));
    var t := SetReader(gap, 0, ServedIn(gap, LatestCount(1)));
    QueryRunsIn(gap, 0, LatestCount(1));
    SecondPush(older, newer, look, t);
    FirstPush(older, PushActions(newer, look), t);
    assert ReturnedOld(t, older, newer) by {
      LookInGap(older, newer);
      OlderIsNotLatest(t.readers[0], older, newer);
    }
  }

  /** A finished query for the newest of two packets has copied the older one. */
  ghost predicate ReturnedOld<D>(t: State<D>, older: D, newer: D) {
    && 0 in t.readers && Finished(t.readers[0]) && t.readers[0].query == LatestCount(1)
    && t.log == [Packet(0, older), Packet(1, newer)]
    && t.readers[0].out == [Full(Packet(0, older))]
    && !Delivers(t.readers[0], Latest(t.log, 1, 1))
  }
}
