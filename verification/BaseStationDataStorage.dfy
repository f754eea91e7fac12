/** The double-buffered store of base station packets (src/basestation_data_storage.cpp). It is the
    device store again except in two places, and the contracts say exactly where those show. */
module BaseStationDataStorages {
  import opened SdkTypes
  import opened PacketLog

  type BaseStationPacket = Packet<BaseStationData>

  const EMPTY_SLOT: BaseStationPacket := Packet(0, ZERO_BASE_STATION_DATA)

  /** What the query for an index past the newest packet gives when a full read buffer, whose oldest packet has index
      `first`, is all there is: success with nothing, or what the missing guard leads to. */
  function PastTheEnd(startIdx: uint32, first: nat, bufferSize: nat): Outcome<DataResponse<BaseStationData>> {
    if startIdx == first + bufferSize then Returned(DataResponse(Success, [], 0))
    else if startIdx - first < 0x8000_0000 then BadArrayLength
    else if startIdx - first <= 0x8000_0000 + bufferSize then SignedOverflow
    else OutOfBounds(bufferSize + UINT32_MODULUS - (startIdx - first))
  }

  /** Why: the position in the read buffer is the difference of the two indices as an int32_t, and the size of the
      response array is the buffer size less that. A negative size cannot be allocated, one beyond an int32_t overflows,
      and a negative position is read from, outside the buffer, if the array can be had. */
  lemma PastTheEndBySize(startIdx: uint32, first: nat, bufferSize: nat, position: int32)
    requires first + bufferSize <= startIdx && bufferSize <= MAX_BUFFER_SIZE
    requires (startIdx - first - position) % UINT32_MODULUS == 0
    ensures var size := bufferSize - position;
            PastTheEnd(startIdx, first, bufferSize) ==
            if size < 0 then BadArrayLength
            else if size >= 0x8000_0000 then SignedOverflow
            else if position < 0 then OutOfBounds(size)
            else Returned(DataResponse(Success, [], 0))
  {
    assert position == startIdx - first || position == startIdx - first - UINT32_MODULUS;
  }

  class BaseStationDataStorage {
    const bufferSize: nat

    var packetReceivedNum: uint32

    var readBuffer: array<BaseStationPacket>
    var readNum: int32
    var writeBuffer: array<BaseStationPacket>
    var writeNum: int32

    /** Every message this store has accepted, oldest first, with the index it was given. */
    ghost var log: seq<BaseStationPacket>

    /** The two buffers are different arrays of the full size and hold the last readNum + writeNum
        entries of the log, the older ones in the read buffer. */
    ghost predicate Holding()
      reads this, readBuffer, writeBuffer
    {
      && 0 < bufferSize <= MAX_BUFFER_SIZE
      && readBuffer != writeBuffer
      && readBuffer.Length == writeBuffer.Length == bufferSize
      && 0 <= writeNum <= bufferSize && 0 <= readNum <= bufferSize
      && readNum + writeNum <= |log|
      && (forall i :: 0 <= i < writeNum ==> writeBuffer[i] == log[|log| - writeNum + i])
      && (forall i :: 0 <= i < readNum ==> readBuffer[i] == log[|log| - writeNum - readNum + i])
    }

    ghost predicate Valid()
      reads this, readBuffer, writeBuffer
    {
      && Holding()
      && packetReceivedNum == |log| && Numbered(log)
      && writeNum == WriteCount(|log|, bufferSize)
      && readNum == ReadCount(|log|, bufferSize)
      && (forall i :: writeNum <= i < bufferSize ==> writeBuffer[i] == Leftover(i))
      && (readNum == 0 ==> forall i :: 0 <= i < bufferSize ==> readBuffer[i] == EMPTY_SLOT)
    }

    /** What slot i of the write buffer still holds beyond the write count: the packet written there two
        switches ago, or the initial slot when there was none. */
    ghost function Leftover(i: int): BaseStationPacket
      reads this
    {
      var at := |log| - writeNum - 2 * bufferSize + i;
      if |log| - writeNum < 2 * bufferSize || !(0 <= at < |log|) then EMPTY_SLOT else log[at]
    }

    constructor (bufferSize: uint32)
      requires 0 < bufferSize <= MAX_BUFFER_SIZE
      ensures Valid() && log == []
      ensures this.bufferSize == bufferSize
      ensures fresh(readBuffer) && fresh(writeBuffer)
    {
      this.bufferSize := bufferSize;
      packetReceivedNum := 0;
      var buffer1 := new BaseStationPacket[bufferSize];
      var buffer2 := new BaseStationPacket[bufferSize];
      for i := 0 to bufferSize
        invariant forall j :: 0 <= j < i ==> buffer1[j] == EMPTY_SLOT && buffer2[j] == EMPTY_SLOT
      {
        buffer1[i] := EMPTY_SLOT;
        buffer2[i] := EMPTY_SLOT;
      }
      readBuffer := buffer1;
      readNum := 0;
      writeBuffer := buffer2;
      writeNum := 0;
      log := [];
    }

    /** Exchanges the two buffers together with their counts. */
    method SwitchBufferPointer()
      modifies this`readBuffer, this`readNum, this`writeBuffer, this`writeNum
      ensures readBuffer == old(writeBuffer) && writeBuffer == old(readBuffer)
      ensures readNum == old(writeNum) && writeNum == old(readNum)
    {
      var temp := writeBuffer;
      writeBuffer := readBuffer;
      readBuffer := temp;
      var oldRead := readNum;
      var oldWrite := writeNum;
      writeNum := oldRead;
      readNum := oldWrite;
    }

    /** Stores a message in the next free slot of the write buffer and counts it. */
    method Fill(writeIdx: int32, packet: BaseStationData)
      requires Holding() && packetReceivedNum == |log| && |log| + 1 < UINT32_MODULUS
      requires writeIdx == writeNum < bufferSize
      requires forall i :: writeIdx <= i < bufferSize ==> writeBuffer[i] == Leftover(i)
      modifies this`packetReceivedNum, this`writeNum, this`log, writeBuffer
      ensures Holding() && packetReceivedNum == |log|
      ensures log == Append(old(log), packet) && writeNum == old(writeNum) + 1
      ensures forall i :: writeNum <= i < bufferSize ==> writeBuffer[i] == Leftover(i)
    {
      writeBuffer[writeIdx] := Packet(packetReceivedNum, packet);
      packetReceivedNum := packetReceivedNum + 1;
      writeNum := writeNum + 1;
      log := Append(log, packet);
    }

    /** Switches a full write buffer into the read position and starts the other one afresh. */
    method SwitchWhenFull()
      requires Holding() && writeNum == bufferSize && (readNum == 0 || readNum == bufferSize)
      requires |log| >= 2 * bufferSize <==> readNum == bufferSize
      requires readNum == 0 ==> forall i :: 0 <= i < bufferSize ==> readBuffer[i] == EMPTY_SLOT
      modifies this`readBuffer, this`readNum, this`writeBuffer, this`writeNum
      ensures Holding() && writeNum == 0 && readNum == bufferSize
      ensures forall i :: 0 <= i < bufferSize ==> writeBuffer[i] == Leftover(i)
      ensures readBuffer == old(writeBuffer) && writeBuffer == old(readBuffer)
    {
      SwitchBufferPointer();
      writeNum := 0;
    }

    method PushData(packet: BaseStationData) returns (accepted: bool)
      requires Valid()
      requires |log| + 1 < UINT32_MODULUS
      modifies this`packetReceivedNum, this`readBuffer, this`readNum, this`writeBuffer, this`writeNum, this`log
      modifies readBuffer, writeBuffer
      ensures Valid()
      ensures (readBuffer == old(readBuffer) && writeBuffer == old(writeBuffer)) ||
              (readBuffer == old(writeBuffer) && writeBuffer == old(readBuffer))
      ensures accepted
      ensures log == Append(old(log), packet)
    {
      CountsAfterPush(|log|, bufferSize);
      var writeIdx := writeNum;
      if writeIdx < bufferSize {
        Fill(writeIdx, packet);
        if writeNum == bufferSize {
          SwitchWhenFull();
        }
      } else {
        // The overflow branch of the source: the write count is below the buffer size between calls.
        assert false;
      }
      return true;
    }

    method GetLatestData() returns (result: DataResponse<BaseStationData>)
      requires Valid()
      ensures result == Latest(log, Retained(|log|, bufferSize), 1) <==>
              (writeNum > 0 || readNum == 0 || (|log| == 1 && log[0].data == ZERO_BASE_STATION_DATA))
      ensures writeNum > 0 ==> Gives(result, Success, log, |log| - 1, 1)
      ensures log == [] ==> Gives(result, NoData, log, 0, 0)
      ensures writeNum == 0 && readNum > 0 ==> result == DataResponse(Success, [Leftover(bufferSize - 1)], 1)
    {
      result := NoPackets();
      if |log| > 0 {
        // The slot read when the write buffer is empty carries an older index than the newest packet.
        assert log[|log| - 1..] == [log[|log| - 1]] && log[|log| - 1].packetIdx == |log| - 1;
        if writeNum == 0 && |log| >= 2 * bufferSize {
          assert Leftover(bufferSize - 1) == log[|log| - bufferSize - 1];
        } else if writeNum == 0 {
          assert WriteCount(|log| - bufferSize, bufferSize) == |log| - bufferSize;
        }
      }
      var idx: int32 := writeNum - 1;
      if idx >= 0 {
        result := DataResponse(Success, [writeBuffer[idx]], 1);
      } else {
        idx := readNum - 1;
        if idx >= 0 {
          result := DataResponse(Success, [writeBuffer[idx]], 1);
        }
      }
    }

    method GetLatestDataCount(requestCount: uint32) returns (result: DataResponse<BaseStationData>)
      requires Valid()
      ensures result == Latest(log, Retained(|log|, bufferSize), requestCount)
      ensures GivesLatest(result, log, readNum + writeNum, requestCount)
    {
      result := CopyLatest(requestCount);
      LatestGives(log, readNum + writeNum, requestCount, result);
    }

    method CopyLatest(requestCount: uint32) returns (result: DataResponse<BaseStationData>)
      requires Valid()
      ensures result == Latest(log, Retained(|log|, bufferSize), requestCount)
    {
      result := NoPackets();
      var writePacketNum := writeNum;
      var readPacketNum := readNum;
      if requestCount > 0 {
        if requestCount <= writePacketNum {
          var startIdx: uint32 := writePacketNum - requestCount;
          var packets := CopyWrite(startIdx, requestCount);
          result := DataResponse(Success, packets, requestCount);
        } else if requestCount <= readPacketNum + writePacketNum {
          var idx: int32 := readPacketNum + writePacketNum - requestCount;
          var packets := CopyReadThenWrite(idx, requestCount);
          result := DataResponse(Success, packets, requestCount);
        } else if readPacketNum + writePacketNum > 0 {
          var packets := CopyReadThenWrite(0, readPacketNum + writePacketNum);
          result := DataResponse(PartialData, packets, readPacketNum + writePacketNum);
        }
      }
    }

    /** The copy loop of the queries that the write buffer alone can answer. */
    method CopyWrite(from: int32, size: int32) returns (copied: seq<BaseStationPacket>)
      requires Holding() && 0 <= from <= writeNum
      requires size == writeNum - from
      ensures copied == log[|log| - size..]
    {
      var packets := new BaseStationPacket[size];
      var i: int32 := 0;
      while i < packets.Length
        invariant 0 <= i <= packets.Length
        invariant forall j :: 0 <= j < i ==> packets[j] == log[|log| - packets.Length + j]
      {
        packets[i] := writeBuffer[from + i];
        i := i + 1;
      }
      copied := packets[..];
    }

    /** The two copy loops shared by the queries: the read buffer from idx on, then the whole write buffer.
        The array is exactly filled. */
    method CopyReadThenWrite(from: int32, size: int32) returns (copied: seq<BaseStationPacket>)
      requires Holding() && 0 <= from <= readNum
      requires size == readNum - from + writeNum
      ensures copied == log[|log| - size..]
    {
      var packets := new BaseStationPacket[size];
      var idx := from;
      var i: int32 := 0;
      while idx < readNum
        invariant from <= idx <= readNum && i == idx - from
        invariant forall j :: 0 <= j < i ==> packets[j] == log[|log| - packets.Length + j]
      {
        packets[i] := readBuffer[idx];
        i := i + 1;
        idx := idx + 1;
      }
      idx := 0;
      while idx < writeNum
        invariant 0 <= idx <= writeNum && i == readNum - from + idx
        invariant forall j :: 0 <= j < i ==> packets[j] == log[|log| - packets.Length + j]
      {
        packets[i] := writeBuffer[idx];
        i := i + 1;
        idx := idx + 1;
      }
      copied := packets[..];
    }

    method GetDataSinceIndex(startIdx: uint32) returns (outcome: Outcome<DataResponse<BaseStationData>>)
      requires Valid()
      ensures outcome == Returned(Since(log, Retained(|log|, bufferSize), startIdx)) <==>
              !(writeNum == 0 && readNum > 0 && startIdx >= |log|)
      ensures !(writeNum == 0 && readNum > 0 && startIdx >= |log|) ==>
                outcome.Returned? && GivesSince(outcome.value, log, readNum + writeNum, startIdx)
      ensures writeNum == 0 && readNum > 0 && startIdx >= |log| ==>
                outcome == PastTheEnd(startIdx, |log| - bufferSize, bufferSize)
    {
      outcome := CopySince(startIdx);
      if outcome.Returned? {
        SinceGives(log, readNum + writeNum, startIdx, outcome.value);
      }
    }

    method CopySince(startIdx: uint32) returns (outcome: Outcome<DataResponse<BaseStationData>>)
      requires Valid()
      ensures outcome == if writeNum == 0 && readNum > 0 && startIdx >= |log|
                         then PastTheEnd(startIdx, |log| - bufferSize, bufferSize)
                         else Returned(Since(log, Retained(|log|, bufferSize), startIdx))
    {
      outcome := Returned(NoPackets());
      var writePacketNum := writeNum;
      var readPacketNum := readNum;
      assert Retained(|log|, bufferSize) == readPacketNum + writePacketNum;
      if writePacketNum > 0 && writeBuffer[writePacketNum - 1].packetIdx < startIdx {
        return;
      } else if writePacketNum > 0 && writeBuffer[0].packetIdx <= startIdx {
        var idx: int32 := startIdx - writeBuffer[0].packetIdx;
        var packetCount: uint32 := writePacketNum - idx;
        assert packetCount == |log| - startIdx;
        var packets := CopyWrite(idx, packetCount);
        outcome := Returned(DataResponse(Success, packets, packetCount));
      } else if readPacketNum > 0 && readBuffer[0].packetIdx <= startIdx {
        outcome := FromReadBuffer(startIdx);
      } else if readPacketNum > 0 && readBuffer[0].packetIdx > startIdx {
        var packets := CopyReadThenWrite(0, readPacketNum + writePacketNum);
        outcome := Returned(DataResponse(PartialData, packets, writePacketNum + readPacketNum));
      }
    }

    /** The branch of that query that starts in the read buffer. Nothing keeps an index past the newest packet out. */
    method FromReadBuffer(startIdx: uint32) returns (outcome: Outcome<DataResponse<BaseStationData>>)
      requires Valid() && readNum > 0 && |log| - writeNum - readNum <= startIdx
      requires writeNum > 0 ==> startIdx < |log| - writeNum
      ensures outcome == if startIdx < |log| then Returned(DataResponse(Success, log[startIdx..], |log| - startIdx))
                         else PastTheEnd(startIdx, |log| - bufferSize, bufferSize)
    {
      var idx: int32 := ToInt32(startIdx - readBuffer[0].packetIdx);
      var size := readNum - idx + writeNum;
      if size >= 0x8000_0000 {
        return SignedOverflow;
      } else if size < 0 {
        return BadArrayLength;
      } else if idx < 0 {
        return OutOfBounds(size);
      }
      var packets := CopyReadThenWrite(idx, size);
      var packetCount: uint32 := readNum + writeNum + readBuffer[0].packetIdx - startIdx;
      outcome := Returned(DataResponse(Success, packets, packetCount));
    }

    /** The two exceptions show whenever the number of accepted packets is a positive multiple of the buffer size. */
    lemma EmptyAfterSwitch()
      requires Valid()
      ensures writeNum == 0 && readNum > 0 <==> 0 < |log| && |log| % bufferSize == 0
    {
      WriteCountIsRemainder(|log|, bufferSize);
    }
  }

  /** Every store meets both after one full buffer. The query for the newest packet then gives the default packet, which
      is wrong unless that is what a one-packet buffer was sent; the query for what comes next gives success with
      nothing in it. */
  method AfterOneBuffer(bufferSize: uint32, packets: seq<BaseStationData>)
    returns (newest: DataResponse<BaseStationData>, since: Outcome<DataResponse<BaseStationData>>)
    requires 0 < bufferSize <= MAX_BUFFER_SIZE && |packets| == bufferSize
    ensures newest == DataResponse(Success, [EMPTY_SLOT], 1)
    ensures newest != Latest(Stamped(packets), Retained(bufferSize, bufferSize), 1) <==>
            packets != [ZERO_BASE_STATION_DATA]
    ensures since == Returned(DataResponse(Success, [], 0))
    ensures Since(Stamped(packets), Retained(bufferSize, bufferSize), bufferSize) == NoPackets()
  {
    var store := FillOneBuffer(bufferSize, packets);
    newest := store.GetLatestData();
    since := AskForNext(store, bufferSize);
    DefaultIsNotNewest(packets, bufferSize);
  }

  method AskForNext(store: BaseStationDataStorage, next: uint32)
    returns (since: Outcome<DataResponse<BaseStationData>>)
    requires store.Valid() && store.writeNum == 0 && store.readNum > 0 && |store.log| == next
    ensures since == Returned(DataResponse(Success, [], 0))
  {
    since := store.GetDataSinceIndex(next);
  }

  method FillOneBuffer(bufferSize: uint32, packets: seq<BaseStationData>) returns (store: BaseStationDataStorage)
    requires 0 < bufferSize <= MAX_BUFFER_SIZE && |packets| == bufferSize
    ensures store.Valid() && store.bufferSize == bufferSize && store.log == Stamped(packets)
    ensures store.writeNum == 0 && store.readNum == bufferSize
  {
    store := new BaseStationDataStorage(bufferSize);
    for i := 0 to bufferSize
      invariant store.Valid() && store.bufferSize == bufferSize && fresh(store)
      invariant fresh(store.readBuffer) && fresh(store.writeBuffer)
      invariant store.log == Stamped(packets[..i])
    {
      assert packets[..i + 1] == packets[..i] + [packets[i]];
      StampedAppend(packets[..i], packets[i]);
      var _ := store.PushData(packets[i]);
    }
    assert packets[..bufferSize] == packets;
  }

  lemma DefaultIsNotNewest(packets: seq<BaseStationData>, n: nat)
    requires 0 < n == |packets|
    ensures DataResponse(Success, [EMPTY_SLOT], 1) == Latest(Stamped(packets), Retained(n, n), 1) <==>
            packets == [ZERO_BASE_STATION_DATA]
  {
    var log := Stamped(packets);
    assert WriteCount(n, n) == 0;
    assert log[n - 1..] == [Packet(n - 1, packets[n - 1])];
    if n == 1 {
      assert packets == [packets[0]];
    }
  }
}
