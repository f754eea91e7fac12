/** The double-buffered packet store of one tracking device (src/device_data_storage.cpp). */
module DeviceDataStorages {
  import opened SdkTypes
  import opened PacketLog

  type DevicePacket = Packet<TrackingDeviceData>

  const EMPTY_SLOT: DevicePacket := Packet(0, ZERO_DEVICE_DATA)

  class DeviceDataStorage {
    const device: DeviceId
    const bufferSize: nat

    var packetReceivedNum: uint32

    var readBuffer: array<DevicePacket>
    var readNum: int32
    var writeBuffer: array<DevicePacket>
    var writeNum: int32

    /** Every message this store has accepted, oldest first, with the index it was given. */
    ghost var log: seq<DevicePacket>

    /** The two buffers are different arrays of the full size and hold the last readNum + writeNum
        entries of the log, the older ones in the read buffer. */
    ghost predicate Holding()
      reads this, readBuffer, writeBuffer
    {
      && 0 < bufferSize <= MAX_BUFFER_SIZE
      && readBuffer != writeBuffer
      && readBuffer.Length == writeBuffer.Length == bufferSize
      && 0 <= writeNum <= bufferSize && 0 <= readNum <= bufferSize
      && readNum + writeNum <= |log|
      && (forall i :: 0 <= i < writeNum ==> writeBuffer[i] == log[|log| - writeNum + i])
      && (forall i :: 0 <= i < readNum ==> readBuffer[i] == log[|log| - writeNum - readNum + i])
    }

    ghost predicate Valid()
      reads this, readBuffer, writeBuffer
    {
      && Holding()
      && packetReceivedNum == |log| && Numbered(log)
      && writeNum == WriteCount(|log|, bufferSize)
      && readNum == ReadCount(|log|, bufferSize)
      && (forall i :: 0 <= i < |log| ==> log[i].data.device == device)
    }

    constructor (device: DeviceId, bufferSize: uint32)
      requires 0 < bufferSize <= MAX_BUFFER_SIZE
      ensures Valid() && log == []
      ensures this.device == device && this.bufferSize == bufferSize
      ensures fresh(readBuffer) && fresh(writeBuffer)
    {
      this.device := device;
      this.bufferSize := bufferSize;
      packetReceivedNum := 0;
      var buffer1 := new DevicePacket[bufferSize];
      var buffer2 := new DevicePacket[bufferSize];
      for i := 0 to bufferSize {
        buffer1[i] := EMPTY_SLOT;
        buffer2[i] := EMPTY_SLOT;
      }
      readBuffer := buffer1;
      readNum := 0;
      writeBuffer := buffer2;
      writeNum := 0;
      log := [];
    }

    /** Exchanges the two buffers together with their counts. */
    method SwitchBufferPointer()
      modifies this`readBuffer, this`readNum, this`writeBuffer, this`writeNum
      ensures readBuffer == old(writeBuffer) && writeBuffer == old(readBuffer)
      ensures readNum == old(writeNum) && writeNum == old(readNum)
    {
      var temp := writeBuffer;
      writeBuffer := readBuffer;
      readBuffer := temp;
      var oldRead := readNum;
      var oldWrite := writeNum;
      writeNum := oldRead;
      readNum := oldWrite;
    }

    /** Stores a message in the next free slot of the write buffer and counts it. */
    method Fill(writeIdx: int32, packet: TrackingDeviceData)
      requires Holding() && packetReceivedNum == |log| && |log| + 1 < UINT32_MODULUS
      requires writeIdx == writeNum < bufferSize
      modifies this`packetReceivedNum, this`writeNum, this`log, writeBuffer
      ensures Holding() && packetReceivedNum == |log|
      ensures log == Append(old(log), packet) && writeNum == old(writeNum) + 1
    {
      writeBuffer[writeIdx] := Packet(packetReceivedNum, packet);
      packetReceivedNum := packetReceivedNum + 1;
      writeNum := writeNum + 1;
      log := Append(log, packet);
    }

    /** Switches a full write buffer into the read position and starts the other one afresh. */
    method SwitchWhenFull()
      requires Holding() && writeNum == bufferSize && (readNum == 0 || readNum == bufferSize)
      modifies this`readBuffer, this`readNum, this`writeBuffer, this`writeNum
      ensures Holding() && writeNum == 0 && readNum == bufferSize
      ensures readBuffer == old(writeBuffer) && writeBuffer == old(readBuffer)
    {
      SwitchBufferPointer();
      writeNum := 0;
    }

    method PushData(packet: TrackingDeviceData) returns (accepted: bool)
      requires Valid()
      requires |log| + 1 < UINT32_MODULUS
      modifies this`packetReceivedNum, this`readBuffer, this`readNum, this`writeBuffer, this`writeNum, this`log
      modifies readBuffer, writeBuffer
      ensures Valid()
      ensures (readBuffer == old(readBuffer) && writeBuffer == old(writeBuffer)) ||
              (readBuffer == old(writeBuffer) && writeBuffer == old(readBuffer))
      ensures accepted <==> packet.device == device
      ensures log == if accepted then Append(old(log), packet) else old(log)
      ensures !accepted ==> unchanged(this) && unchanged(readBuffer) && unchanged(writeBuffer)
    {
      if packet.device != device {
        return false;
      }
      CountsAfterPush(|log|, bufferSize);
      var writeIdx := writeNum;
      if writeIdx < bufferSize {
        Fill(writeIdx, packet);
        if writeNum == bufferSize {
          SwitchWhenFull();
        }
      } else {
        // The overflow branch of the source: the write count is below the buffer size between calls.
        assert false;
      }
      return true;
    }

    method GetLatestData() returns (result: DataResponse<TrackingDeviceData>)
      requires Valid()
      ensures result == Latest(log, Retained(|log|, bufferSize), 1)
      ensures if log == [] then Gives(result, NoData, log, 0, 0) else Gives(result, Success, log, |log| - 1, 1)
    {
      result := NoPackets();
      var idx: int32 := writeNum - 1;
      if idx >= 0 {
        result := DataResponse(Success, [writeBuffer[idx]], 1);
      } else {
        idx := readNum - 1;
        if idx >= 0 {
          result := DataResponse(Success, [readBuffer[idx]], 1);
        }
      }
    }

    method GetLatestDataCount(requestCount: uint32) returns (result: DataResponse<TrackingDeviceData>)
      requires Valid()
      ensures result == Latest(log, Retained(|log|, bufferSize), requestCount)
      ensures GivesLatest(result, log, readNum + writeNum, requestCount)
    {
      result := CopyLatest(requestCount);
      LatestGives(log, readNum + writeNum, requestCount, result);
    }

    method CopyLatest(requestCount: uint32) returns (result: DataResponse<TrackingDeviceData>)
      requires Valid()
      ensures result == Latest(log, Retained(|log|, bufferSize), requestCount)
    {
      result := NoPackets();
      var writePacketNum := writeNum;
      var readPacketNum := readNum;
      if requestCount > 0 {
        if requestCount <= writePacketNum {
          var startIdx: uint32 := writePacketNum - requestCount;
          var packets := CopyWrite(startIdx, requestCount);
          result := DataResponse(Success, packets, requestCount);
        } else if requestCount <= readPacketNum + writePacketNum {
          var idx: int32 := readPacketNum + writePacketNum - requestCount;
          var packets := CopyReadThenWrite(idx, requestCount);
          result := DataResponse(Success, packets, requestCount);
        } else if readPacketNum + writePacketNum > 0 {
          var packets := CopyReadThenWrite(0, readPacketNum + writePacketNum);
          result := DataResponse(PartialData, packets, readPacketNum + writePacketNum);
        }
      }
    }

    /** The copy loop of the queries that the write buffer alone can answer. */
    method CopyWrite(from: int32, size: int32) returns (copied: seq<DevicePacket>)
      requires Holding() && 0 <= from <= writeNum
      requires size == writeNum - from
      ensures copied == log[|log| - size..]
    {
      var packets := new DevicePacket[size];
      var i: int32 := 0;
      while i < packets.Length
        invariant 0 <= i <= packets.Length
        invariant forall j :: 0 <= j < i ==> packets[j] == log[|log| - packets.Length + j]
      {
        packets[i] := writeBuffer[from + i];
        i := i + 1;
      }
      copied := packets[..];
    }

    /** The two copy loops shared by the queries: the read buffer from idx on, then the whole write buffer.
        The array is exactly filled. */
    method CopyReadThenWrite(from: int32, size: int32) returns (copied: seq<DevicePacket>)
      requires Holding() && 0 <= from <= readNum
      requires size == readNum - from + writeNum
      ensures copied == log[|log| - size..]
    {
      var packets := new DevicePacket[size];
      var idx := from;
      var i: int32 := 0;
      while idx < readNum
        invariant from <= idx <= readNum && i == idx - from
        invariant forall j :: 0 <= j < i ==> packets[j] == log[|log| - packets.Length + j]
      {
        packets[i] := readBuffer[idx];
        i := i + 1;
        idx := idx + 1;
      }
      idx := 0;
      while idx < writeNum
        invariant 0 <= idx <= writeNum && i == readNum - from + idx
        invariant forall j :: 0 <= j < i ==> packets[j] == log[|log| - packets.Length + j]
      {
        packets[i] := writeBuffer[idx];
        i := i + 1;
        idx := idx + 1;
      }
      copied := packets[..];
    }

    method GetDataSinceIndex(startIdx: uint32) returns (result: DataResponse<TrackingDeviceData>)
      requires Valid()
      ensures result == Since(log, Retained(|log|, bufferSize), startIdx)
      ensures GivesSince(result, log, readNum + writeNum, startIdx)
    {
      result := CopySince(startIdx);
      SinceGives(log, readNum + writeNum, startIdx, result);
    }

    method CopySince(startIdx: uint32) returns (result: DataResponse<TrackingDeviceData>)
      requires Valid()
      ensures result == Since(log, Retained(|log|, bufferSize), startIdx)
    {
      result := NoPackets();
      if writeNum > 0 && writeBuffer[writeNum - 1].packetIdx < startIdx {
        return;
      } else if writeNum > 0 && writeBuffer[0].packetIdx <= startIdx {
        var idx: int32 := startIdx - writeBuffer[0].packetIdx;
        var packetCount: uint32 := writeNum - idx;
        assert packetCount == |log| - startIdx;
        var packets := CopyWrite(idx, packetCount);
        result := DataResponse(Success, packets, packetCount);
      } else {
        result := FromReadBuffer(startIdx);
      }
    }

    /** The branches of that query that start in the read buffer. */
    method FromReadBuffer(startIdx: uint32) returns (result: DataResponse<TrackingDeviceData>)
      requires Valid()
      requires writeNum > 0 ==> startIdx < |log| - writeNum
      ensures result == Since(log, Retained(|log|, bufferSize), startIdx)
    {
      result := NoPackets();
      if writeNum == 0 && readNum > 0 && readBuffer[readNum - 1].packetIdx < startIdx {
        return;
      } else if readNum > 0 && readBuffer[0].packetIdx <= startIdx {
        var idx: int32 := startIdx - readBuffer[0].packetIdx;
        var packets := CopyReadThenWrite(idx, readNum - idx + writeNum);
        var packetCount: uint32 := readNum + writeNum + readBuffer[0].packetIdx - startIdx;
        assert packetCount == |log| - startIdx;
        result := DataResponse(Success, packets, packetCount);
      } else if readNum > 0 && readBuffer[0].packetIdx > startIdx {
        var packets := CopyReadThenWrite(0, readNum + writeNum);
        result := DataResponse(PartialData, packets, writeNum + readNum);
      }
    }
  }
}
