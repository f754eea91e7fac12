/** The plain values of the SDK (include/sdk_types.h): fixed-width integers, device
    identities, packets and query responses. */
module SdkTypes {

  // The source's fixed-width integers. A value assigned to one of these types is checked
  // to be in range, so an unsigned subtraction that would wrap does not verify.
  type uint32 = x: int | 0 <= x < 0x1_0000_0000
  type int32 = x: int | -0x8000_0000 <= x < 0x8000_0000

  const UINT32_MODULUS: nat := 0x1_0000_0000

  /** The largest buffer whose two counts still add up inside an int32_t. */
  const MAX_BUFFER_SIZE: nat := 0x4000_0000

  /** Conversion of an int32_t argument to a uint32_t parameter. */
  function ToUint32(x: int32): (r: uint32)
    ensures 0 <= x ==> r == x
    ensures x < 0 ==> r >= 0x8000_0000
  {
    if 0 <= x then x else x + UINT32_MODULUS
  }

  /** Conversion of a uint32_t value to an int32_t variable, two's complement. */
  function ToInt32(x: uint32): (r: int32)
    ensures r == x <==> x < 0x8000_0000
    ensures r < 0 <==> 0x8000_0000 <= x
  {
    if x < 0x8000_0000 then x else x - UINT32_MODULUS
  }

  datatype Option<+T> = None | Some(value: T)

  datatype DeviceId = DeviceId(siuUuid: uint32, portId: uint32)

  /** Everything in a TrackingDeviceData other than its device; no code modelled here looks inside. */
  type Payload = seq<int>

  datatype TrackingDeviceData = TrackingDeviceData(device: DeviceId, payload: Payload)

  datatype SpecParam = SpecParam(value: real, outOfSpec: bool)

  datatype BaseStationData = BaseStationData(
    accelFigureOfMerit: SpecParam, maxPhaseStd: SpecParam, maxPhaseDrift: SpecParam,
    tempDiffFromCalib: SpecParam, meanRotationRate: SpecParam, tiltAngle: SpecParam,
    maxMagRmsRes: SpecParam, accelDcMagnitude: SpecParam)

  const ZERO_PARAM := SpecParam(0.0, false)
  const ZERO_BASE_STATION_DATA :=
    BaseStationData(ZERO_PARAM, ZERO_PARAM, ZERO_PARAM, ZERO_PARAM, ZERO_PARAM, ZERO_PARAM, ZERO_PARAM, ZERO_PARAM)
  const ZERO_DEVICE_DATA := TrackingDeviceData(DeviceId(0, 0), [])

  /** A stored message together with the index that the store gave it. */
  datatype Packet<+D> = Packet(packetIdx: nat, data: D)

  datatype DataResponseState = NoData | PartialData | Success

  /** packets lists what was written to the response's array; packetCount is the separate field a client reads. */
  datatype DataResponse<+D> = DataResponse(state: DataResponseState, packets: seq<Packet<D>>, packetCount: nat)

  /** How a C++ call ends: it returns; it asks for an array of negative length; it computes an int32_t beyond its range;
      or it asks for an array of so many packets and, if it gets one, goes on to read outside a buffer. */
  datatype Outcome<+T> = Returned(value: T) | BadArrayLength | SignedOverflow | OutOfBounds(asked: nat)

  datatype DataStreamType = DeviceDataStream | DataFrameStream

  /** The part of a DataRequest that decides which devices it covers. */
  type DataRequest = seq<DeviceId>

  /** An empty request list asks for every device. */
  predicate Requested(request: DataRequest, device: DeviceId) {
    request == [] || device in request
  }

  // The states of an asynchronous call and the tags of its operations (include/rpcClientCallData.h).
  datatype ClientCallState = Connecting | Processing | Waiting | Finish

  datatype OperationType = ReadOp | WriteOp | FinishOp
}
