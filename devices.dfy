/**
 * Device enumeration: the driver's device records mapped to the tool's
 * devices, and the optional filter by direction.
 */
module Devices {
  import opened Native
  import opened Wrappers

  /** The driver's direction (`portmidi::Direction`). */
  datatype DriverDirection = DriverInput | DriverOutput

  /** The driver's device record (`portmidi::DeviceInfo`), as the tool reads it. */
  datatype DeviceInfo = DeviceInfo(id: i32, name: string, direction: DriverDirection)

  /** The tool's direction (`DeviceDirection`). */
  datatype DeviceDirection = Input | Output

  /** The tool's device (`Device`). */
  datatype Device = Device(id: i32, name: string, direction: DeviceDirection)

  /** `Device::new`: a driver input is an input, anything else is an output. */
  function NewDevice(di: DeviceInfo): (d: Device)
    ensures d.id == di.id && d.name == di.name
    ensures d.direction == Input <==> di.direction == DriverInput
    ensures d.direction == Output <==> di.direction != DriverInput
  {
    var direction :=
      match di.direction
      case DriverInput => Input
      case _ => Output;
    Device(di.id, di.name, direction)
  }

  /** The driver's device list mapped through `NewDevice`, in driver order. */
  function MapNew(infos: seq<DeviceInfo>): (ds: seq<Device>)
    ensures |ds| == |infos|
    ensures forall i :: 0 <= i < |infos| ==> ds[i] == NewDevice(infos[i])
  {
    if infos == [] then [] else [NewDevice(infos[0])] + MapNew(infos[1..])
  }

  /** The devices of `ds` whose direction is `dir`, in their order. */
  function Filter(ds: seq<Device>, dir: DeviceDirection): (r: seq<Device>)
    ensures |r| <= |ds|
    ensures forall k :: 0 <= k < |r| ==> r[k].direction == dir
  {
    if ds == [] then []
    else if ds[0].direction == dir then [ds[0]] + Filter(ds[1..], dir)
    else Filter(ds[1..], dir)
  }

  /** `Mutil::devices`: every device when no direction is given, else those of that direction. */
  function ListDevices(infos: seq<DeviceInfo>, direction: Option<DeviceDirection>): (r: seq<Device>)
    ensures direction.None? ==>
      |r| == |infos| && forall i :: 0 <= i < |infos| ==> r[i] == NewDevice(infos[i])
    ensures direction.Some? ==>
      |r| <= |infos| && forall k :: 0 <= k < |r| ==> r[k].direction == direction.value
  {
    var devices := MapNew(infos);
    if direction.None? then devices else Filter(devices, direction.value)
  }

  /** `idx` lists positions of a sequence of length `n` in strictly increasing order. */
  ghost predicate StrictlyIncreasing(idx: seq<nat>, n: nat) {
    (forall k :: 0 <= k < |idx| ==> idx[k] < n)
    && (forall k, l :: 0 <= k < l < |idx| ==> idx[k] < idx[l])
  }

  /** The positions of `ds` whose device has direction `dir`, in increasing order. */
  function Positions(ds: seq<Device>, dir: DeviceDirection): (idx: seq<nat>)
    ensures |idx| == |Filter(ds, dir)|
  {
    if ds == [] then []
    else if ds[0].direction == dir then [0] + Shift(Positions(ds[1..], dir))
    else Shift(Positions(ds[1..], dir))
  }

  /** Every position moved one place up. */
  function Shift(idx: seq<nat>): (r: seq<nat>)
    ensures |r| == |idx|
    ensures forall k :: 0 <= k < |idx| ==> r[k] == idx[k] + 1
  {
    if idx == [] then [] else [idx[0] + 1] + Shift(idx[1..])
  }

  /** A position is in the shifted list exactly when the position below it is in the original. */
  lemma {:induction false} ShiftMembers(idx: seq<nat>, i: nat)
    ensures i in Shift(idx) <==> i > 0 && i - 1 in idx
  {
    var r := Shift(idx);
    if i in r {
      var k :| 0 <= k < |r| && r[k] == i;
      assert idx[k] == i - 1;
    }
    if i > 0 && i - 1 in idx {
      var k :| 0 <= k < |idx| && idx[k] == i - 1;
      assert r[k] == i;
    }
  }

  /** The kept positions are in range and strictly increasing. */
  lemma {:induction false} PositionsIncreasing(ds: seq<Device>, dir: DeviceDirection)
    ensures StrictlyIncreasing(Positions(ds, dir), |ds|)
  {
    if ds != [] {
      var tail := ds[1..];
      PositionsIncreasing(tail, dir);
      var shifted := Shift(Positions(tail, dir));
      ShiftIncreasing(Positions(tail, dir), |tail|);
      if ds[0].direction == dir {
        assert Positions(ds, dir) == [0] + shifted;
        PrependZero(shifted, |ds|);
      } else {
        assert Positions(ds, dir) == shifted;
      }
    }
  }

  /** Shifting keeps the positions strictly increasing and makes every one of them positive. */
  lemma ShiftIncreasing(idx: seq<nat>, n: nat)
    requires StrictlyIncreasing(idx, n)
    ensures StrictlyIncreasing(Shift(idx), n + 1)
    ensures forall k :: 0 <= k < |idx| ==> 0 < Shift(idx)[k]
  {
  }

  /** Putting position 0 before positive increasing positions keeps them increasing. */
  lemma PrependZero(idx: seq<nat>, n: nat)
    requires 0 < n && StrictlyIncreasing(idx, n)
    requires forall k :: 0 <= k < |idx| ==> 0 < idx[k]
    ensures StrictlyIncreasing([0] + idx, n)
  {
    var s := [0] + idx;
    assert forall k :: 1 <= k < |s| ==> s[k] == idx[k - 1];
  }

  /** The `k`-th device the filter keeps is the device at the `k`-th kept position. */
  lemma {:induction false} PositionsSelect(ds: seq<Device>, dir: DeviceDirection, k: nat)
    requires k < |Positions(ds, dir)|
    ensures Positions(ds, dir)[k] < |ds| && Filter(ds, dir)[k] == ds[Positions(ds, dir)[k]]
    decreases |ds|, 1
  {
    assert ds != [];
    if ds[0].direction == dir {
      PositionsSelectKept(ds, dir, k);
    } else {
      PositionsSelectSkipped(ds, dir, k);
    }
  }

  /** `PositionsSelect` when the first device is kept. */
  lemma {:induction false} PositionsSelectKept(ds: seq<Device>, dir: DeviceDirection, k: nat)
    requires ds != [] && ds[0].direction == dir && k < |Positions(ds, dir)|
    ensures Positions(ds, dir)[k] < |ds| && Filter(ds, dir)[k] == ds[Positions(ds, dir)[k]]
    decreases |ds|, 0
  {
    var tail := ds[1..];
    var rest := Positions(tail, dir);
    assert Positions(ds, dir) == [0] + Shift(rest);
    assert Filter(ds, dir) == [ds[0]] + Filter(tail, dir);
    if k > 0 {
      PositionsSelect(tail, dir, k - 1);
      assert Positions(ds, dir)[k] == rest[k - 1] + 1;
      assert tail[rest[k - 1]] == ds[rest[k - 1] + 1];
    }
  }

  /** `PositionsSelect` when the first device is dropped. */
  lemma {:induction false} PositionsSelectSkipped(ds: seq<Device>, dir: DeviceDirection, k: nat)
    requires ds != [] && ds[0].direction != dir && k < |Positions(ds, dir)|
    ensures Positions(ds, dir)[k] < |ds| && Filter(ds, dir)[k] == ds[Positions(ds, dir)[k]]
    decreases |ds|, 0
  {
    var tail := ds[1..];
    var rest := Positions(tail, dir);
    assert Positions(ds, dir) == Shift(rest);
    assert Filter(ds, dir) == Filter(tail, dir);
    PositionsSelect(tail, dir, k);
    assert tail[rest[k]] == ds[rest[k] + 1];
  }

  /** A position is kept exactly when its device has the direction asked for. */
  lemma {:induction false} PositionsMembers(ds: seq<Device>, dir: DeviceDirection, i: nat)
    requires i < |ds|
    ensures i in Positions(ds, dir) <==> ds[i].direction == dir
  {
    ShiftMembers(Positions(ds[1..], dir), i);
    if i > 0 {
      PositionsMembers(ds[1..], dir, i - 1);
    }
  }

  /**
   * `devices(Some(dir))` returns exactly the driver's devices of direction
   * `dir`, in driver order: position `k` of the result is the device at
   * position `idx[k]` of the driver list, the positions increase, and they
   * are all the positions whose device maps to direction `dir`.
   */
  lemma ListDevicesFiltered(infos: seq<DeviceInfo>, dir: DeviceDirection)
    ensures var idx := Positions(MapNew(infos), dir);
      && StrictlyIncreasing(idx, |infos|)
      && |idx| == |ListDevices(infos, Some(dir))|
      && (forall k :: 0 <= k < |idx| ==> ListDevices(infos, Some(dir))[k] == NewDevice(infos[idx[k]]))
      && (forall i :: 0 <= i < |infos| ==> (i in idx <==> NewDevice(infos[i]).direction == dir))
  {
    var ds := MapNew(infos);
    PositionsIncreasing(ds, dir);
    forall k | 0 <= k < |Positions(ds, dir)| {
      PositionsSelect(ds, dir, k);
    }
    forall i | 0 <= i < |infos| {
      PositionsMembers(ds, dir, i);
    }
  }

  /** A device is kept by the filter exactly when it is listed and has the direction asked for. */
  lemma {:induction false} FilterMembers(ds: seq<Device>, dir: DeviceDirection, d: Device)
    ensures d in Filter(ds, dir) <==> d in ds && d.direction == dir
  {
    if ds != [] {
      FilterMembers(ds[1..], dir, d);
      assert ds == [ds[0]] + ds[1..];
    }
  }

  /** Listing inputs and listing outputs splits the device list between them. */
  lemma {:induction false} InputsAndOutputsPartition(infos: seq<DeviceInfo>)
    ensures |ListDevices(infos, Some(Input))| + |ListDevices(infos, Some(Output))| == |infos|
  {
    PartitionCount(MapNew(infos));
  }

  /** Every device is either an input or an output, so the two filters split the list. */
  lemma {:induction false} PartitionCount(ds: seq<Device>)
    ensures |Filter(ds, Input)| + |Filter(ds, Output)| == |ds|
  {
    if ds != [] {
      PartitionCount(ds[1..]);
    }
  }
}
