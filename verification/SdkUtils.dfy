/** The map keys of the SDK (src/sdk_utils.cpp): the device uuid shifted left by eight bits, or-ed with the port.
    All four Hash overloads read these same two fields. */
module SdkUtils {
  import opened SdkTypes

  type Key = nat

  /** Bit i of x. */
  predicate Bit(x: nat, i: nat) {
    if i == 0 then x % 2 == 1 else Bit(x / 2, i - 1)
  }

  /** The bitwise or of two numbers. */
  function BitOr(x: nat, y: nat): nat {
    if x == 0 then y
    else if y == 0 then x
    else 2 * BitOr(x / 2, y / 2) + (if x % 2 == 1 || y % 2 == 1 then 1 else 0)
  }

  /** The low byte of the key is the low byte of the port; the rest is the uuid or-ed with the rest of the port. */
  function Hash(device: DeviceId): Key {
    256 * BitOr(device.siuUuid, device.portId / 256) + device.portId % 256
  }

  lemma {:induction false} BitOfZero(i: nat)
    ensures !Bit(0, i)
    decreases i
  {
    if i != 0 {
      BitOfZero(i - 1);
    }
  }

  lemma {:induction false} BitOrBits(x: nat, y: nat, i: nat)
    ensures Bit(BitOr(x, y), i) <==> Bit(x, i) || Bit(y, i)
    decreases i
  {
    if x == 0 || y == 0 {
      BitOfZero(i);
    } else {
      BitOrHalves(x, y);
      if i != 0 {
        BitOrBits(x / 2, y / 2, i - 1);
      }
    }
  }

  lemma BitOrHalves(x: nat, y: nat)
    requires x != 0 && y != 0
    ensures BitOr(x, y) / 2 == BitOr(x / 2, y / 2)
    ensures BitOr(x, y) % 2 == 1 <==> x % 2 == 1 || y % 2 == 1
  {
    var half := BitOr(x / 2, y / 2);
    assert (2 * half) / 2 == half && (2 * half + 1) / 2 == half;
  }

  lemma {:induction false} LowBits(high: nat, low: nat, width: nat, i: nat)
    requires low < Power2(width)
    ensures Bit(Power2(width) * high + low, i) <==> if i < width then Bit(low, i) else Bit(high, i - width)
    decreases width
  {
    if width == 0 {
      assert Power2(width) * high + low == high;
    } else {
      var x := Power2(width) * high + low;
      assert x == 2 * (Power2(width - 1) * high) + low;
      assert x / 2 == Power2(width - 1) * high + low / 2 && x % 2 == low % 2;
      if i != 0 {
        LowBits(high, low / 2, width - 1, i - 1);
      }
    }
  }

  function Power2(n: nat): nat {
    if n == 0 then 1 else 2 * Power2(n - 1)
  }

  /** Bit by bit the key is (siuUuid << 8) | portId. */
  lemma HashIsShiftOr(device: DeviceId, i: nat)
    ensures Bit(Hash(device), i) <==> (8 <= i && Bit(device.siuUuid, i - 8)) || Bit(device.portId, i)
  {
    assert Power2(8) == 256 by {
      assert Power2(4) == 16;
    }
    var low, high := device.portId % 256, device.portId / 256;
    LowBits(BitOr(device.siuUuid, high), low, 8, i);
    LowBits(high, low, 8, i);
    if 8 <= i {
      BitOrBits(device.siuUuid, high, i - 8);
    }
  }

  /** Ports below 256 fit in the eight bits the key leaves for them. */
  predicate SmallPort(device: DeviceId) {
    device.portId < 256
  }

  /** Two devices share a key exactly when their ports agree in the low byte, and their uuids agree once the
      rest of the port is or-ed in. */
  lemma HashCollides(a: DeviceId, b: DeviceId)
    ensures Hash(a) == Hash(b) <==>
            a.portId % 256 == b.portId % 256 && BitOr(a.siuUuid, a.portId / 256) == BitOr(b.siuUuid, b.portId / 256)
  {
    Base256(BitOr(a.siuUuid, a.portId / 256), a.portId % 256, BitOr(b.siuUuid, b.portId / 256), b.portId % 256);
  }

  lemma Base256(high1: nat, low1: nat, high2: nat, low2: nat)
    requires low1 < 256 && low2 < 256
    ensures 256 * high1 + low1 == 256 * high2 + low2 <==> high1 == high2 && low1 == low2
  {}

  /** Below port 256 the key determines the device. */
  lemma HashInjective(a: DeviceId, b: DeviceId)
    requires SmallPort(a) && SmallPort(b) && Hash(a) == Hash(b)
    ensures a == b
  {
    HashCollides(a, b);
    assert BitOr(a.siuUuid, 0) == a.siuUuid && BitOr(b.siuUuid, 0) == b.siuUuid;
  }

  /** No two of these devices share a key. */
  ghost predicate KeysApart(devices: iset<DeviceId>) {
    forall a, b {:trigger Hash(a), Hash(b)} :: a in devices && b in devices && Hash(a) == Hash(b) ==> a == b
  }

  lemma {:induction false} BitOrBelow(x: nat, y: nat, n: nat)
    requires x < Power2(n) && y < Power2(n)
    ensures BitOr(x, y) < Power2(n)
    decreases n
  {
    if x != 0 && y != 0 {
      BitOrBelow(x / 2, y / 2, n - 1);
    }
  }

  lemma Power32()
    ensures Power2(32) == UINT32_MODULUS
  {
    assert Power2(4) == 16;
    assert Power2(8) == 256;
    assert Power2(12) == 4096;
    assert Power2(16) == 65536;
    assert Power2(20) == 1048576;
    assert Power2(24) == 16777216;
    assert Power2(28) == 268435456;
  }

  lemma SmallPortsApart()
    ensures KeysApart(iset device | SmallPort(device))
  {
    forall a, b | SmallPort(a) && SmallPort(b) && Hash(a) == Hash(b)
      ensures a == b
    {
      HashInjective(a, b);
    }
  }

  /** The device on a small port whose key equals that of the given device. */
  function SmallPortTwin(device: DeviceId): (twin: DeviceId) {
    Power32();
    BitOrBelow(device.siuUuid, device.portId / 256, 32);
    DeviceId(BitOr(device.siuUuid, device.portId / 256), device.portId % 256)
  }

  /** From port 256 on the key does not determine the device: it always belongs to a device on a small port too. */
  lemma LargePortCollides(device: DeviceId)
    ensures Hash(SmallPortTwin(device)) == Hash(device) && SmallPort(SmallPortTwin(device))
    ensures SmallPortTwin(device) == device <==> SmallPort(device)
  {
    var twin := SmallPortTwin(device);
    assert BitOr(twin.siuUuid, 0) == twin.siuUuid && BitOr(device.siuUuid, 0) == device.siuUuid;
  }
}
