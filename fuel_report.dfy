/** The fuel report: for each device, one item summarising the odometer,
    the fuel level and the fuel spent over the requested period. Doubles are
    modelled as reals. */
module FuelReport {
  import opened Wrappers
  import opened Telemetry
  import opened ReportStorage

  /** FuelReportItem with the base-item fields this report sets; a number
      that is never set keeps Java's default 0. */
  datatype FuelReportItem = FuelReportItem(
    deviceId: int,
    deviceName: string,
    startTime: int,
    endTime: int,
    startOdometer: real,
    endOdometer: real,
    distance: real,
    startFuelLevel: real,
    endFuelLevel: real,
    fuelConsumed: real,
    spentFuel: real,
    fuelConsumptionRate: real)

  function Odometer(p: Position): Option<real>
  {
    GetDouble(p.attributes, KEY_ODOMETER)
  }

  function FuelLevel(p: Position): Option<real>
  {
    GetDouble(p.attributes, KEY_FUEL_LEVEL)
  }

  /** The fall in fuel level from one sample to the next; a rise, a steady
      level or a missing reading on either side counts nothing. */
  function Drop(prev: Position, curr: Position): (d: real)
    ensures d >= 0.0
    ensures d > 0.0 <==> FuelLevel(prev).Some? && FuelLevel(curr).Some? && FuelLevel(prev).value > FuelLevel(curr).value
  {
    match (FuelLevel(prev), FuelLevel(curr))
    case (Some(a), Some(b)) => if a > b then a - b else 0.0
    case _ => 0.0
  }

  /** The fuel consumed over a run of samples: the sum of the drops between
      consecutive samples. */
  function FuelConsumed(ps: seq<Position>): (r: real)
    ensures r >= 0.0
  {
    if |ps| < 2 then 0.0 else FuelConsumed(ps[..|ps| - 1]) + Drop(ps[|ps| - 2], ps[|ps| - 1])
  }

  predicate AllLevels(ps: seq<Position>)
  {
    forall i :: 0 <= i < |ps| ==> FuelLevel(ps[i]).Some?
  }

  /** Every sample carries a fuel level no higher than the one before. */
  predicate NeverRises(ps: seq<Position>)
  {
    AllLevels(ps) && forall i :: 1 <= i < |ps| ==> FuelLevel(ps[i]).value <= FuelLevel(ps[i - 1]).value
  }

  function NetDrop(ps: seq<Position>): real
    requires |ps| >= 1 && AllLevels(ps)
  {
    FuelLevel(ps[0]).value - FuelLevel(ps[|ps| - 1]).value
  }

  /** Refuelling never lowers the total: when every sample has a level, the
      fuel consumed is at least the net fall from the first to the last. */
  lemma {:induction false} FuelConsumedAtLeastNetDrop(ps: seq<Position>)
    requires |ps| >= 1 && AllLevels(ps)
    ensures FuelConsumed(ps) >= NetDrop(ps)
  {
    if |ps| >= 2 {
      var front := ps[..|ps| - 1];
      assert AllLevels(front);
      FuelConsumedAtLeastNetDrop(front);
      assert front[|front| - 1] == ps[|ps| - 2];
    }
  }

  /** Without refuelling the drops telescope: the fuel consumed is exactly
      the first level minus the last. */
  lemma {:induction false} FuelConsumedTelescopes(ps: seq<Position>)
    requires |ps| >= 1 && NeverRises(ps)
    ensures FuelConsumed(ps) == NetDrop(ps)
  {
    if |ps| >= 2 {
      var front := ps[..|ps| - 1];
      assert NeverRises(front);
      FuelConsumedTelescopes(front);
      assert front[|front| - 1] == ps[|ps| - 2];
      assert FuelLevel(ps[|ps| - 1]).value <= FuelLevel(ps[|ps| - 2]).value;
    }
  }

  /** The report's single item for a device that reported `ps` (non-empty). */
  function FuelItem(device: Device, from: int, to: int, ps: seq<Position>): FuelReportItem
    requires ps != []
  {
    var first := ps[0];
    var last := ps[|ps| - 1];
    var startOdometer := Odometer(first).GetOr(0.0);
    var endOdometer := Odometer(last).GetOr(0.0);
    var distance := endOdometer - startOdometer;
    var consumed := FuelConsumed(ps);
    FuelReportItem(
      device.id, device.name, from, to,
      startOdometer, endOdometer, distance,
      FuelLevel(first).GetOr(0.0), FuelLevel(last).GetOr(0.0),
      consumed, consumed,
      Rate(consumed, distance))
  }

  /** What calculateFuelData returns for one device: nothing when it has no
      position in the window, else one item. */
  function FuelData(device: Device, table: seq<Position>, from: int, to: int): seq<FuelReportItem>
  {
    var ps := PositionsBetween(table, device.id, from, to);
    if ps == [] then [] else [FuelItem(device, from, to, ps)]
  }

  /** A rate scaled by 100 over a positive distance gives back 100 times
      the amount over that distance. */
  lemma RatePerHundred(amount: real, distance: real)
    requires distance > 0.0
    ensures (amount * 100.0 / distance) * distance == 100.0 * amount
  {
    var q := amount * 100.0 / distance;
    assert q * distance == amount * 100.0;
  }

  /** Consumption per 100 distance units; 0 unless the distance is positive. */
  function Rate(consumed: real, distance: real): (r: real)
    ensures distance > 0.0 ==> r * distance == 100.0 * consumed
    ensures distance <= 0.0 ==> r == 0.0
  {
    if distance > 0.0 then RatePerHundred(consumed, distance); consumed * 100.0 / distance else 0.0
  }

  /** The meaning of a fuel item: identity and period copied, odometer and
      level readings from the first and last samples (0 when absent),
      distance as their difference, spent fuel equal to fuel consumed, and
      the rate per 100 distance units (see `Rate`). */
  lemma FuelItemMeaning(device: Device, from: int, to: int, ps: seq<Position>)
    requires ps != []
    ensures var item := FuelItem(device, from, to, ps);
      && item.deviceId == device.id && item.deviceName == device.name
      && item.startTime == from && item.endTime == to
      && (Odometer(ps[0]).Some? ==> item.startOdometer == Odometer(ps[0]).value)
      && (Odometer(ps[0]).None? ==> item.startOdometer == 0.0)
      && (Odometer(ps[|ps| - 1]).Some? ==> item.endOdometer == Odometer(ps[|ps| - 1]).value)
      && (Odometer(ps[|ps| - 1]).None? ==> item.endOdometer == 0.0)
      && item.distance == item.endOdometer - item.startOdometer
      && item.fuelConsumed == FuelConsumed(ps) >= 0.0
      && item.spentFuel == item.fuelConsumed
      && item.fuelConsumptionRate == Rate(item.fuelConsumed, item.distance)
  {
  }

  /** The loop of calculateFuelData that adds up the level drops between
      consecutive samples. */
  method SumDrops(positions: seq<Position>) returns (fuelConsumed: real)
    requires positions != []
    ensures fuelConsumed == FuelConsumed(positions)
  {
    fuelConsumed := 0.0;
    var i := 1;
    while i < |positions|
      invariant 1 <= i <= |positions|
      invariant fuelConsumed == FuelConsumed(positions[..i])
    {
      var prevFuel := FuelLevel(positions[i - 1]);
      var currFuel := FuelLevel(positions[i]);
      if prevFuel.Some? && currFuel.Some? && prevFuel.value > currFuel.value {
        fuelConsumed := fuelConsumed + (prevFuel.value - currFuel.value);
      }
      assert positions[..i + 1][..i] == positions[..i];
      i := i + 1;
    }
    assert positions[..i] == positions;
  }

  /** calculateFuelData: the storage query, then one item whose fuel
      consumption is summed pair by pair over the samples. */
  method CalculateFuelData(device: Device, table: seq<Position>, from: int, to: int)
    returns (result: seq<FuelReportItem>)
    ensures result == FuelData(device, table, from, to)
    ensures |result| <= 1
    ensures result == [] <==> PositionsBetween(table, device.id, from, to) == []
  {
    var positions := PositionsBetween(table, device.id, from, to);
    if positions == [] {
      return [];
    }
    var first := positions[0];
    var last := positions[|positions| - 1];
    var startOdometer := 0.0;
    if Odometer(first).Some? {
      startOdometer := Odometer(first).value;
    }
    var endOdometer := 0.0;
    if Odometer(last).Some? {
      endOdometer := Odometer(last).value;
    }
    var distance := endOdometer - startOdometer;
    var startFuelLevel := 0.0;
    if FuelLevel(first).Some? {
      startFuelLevel := FuelLevel(first).value;
    }
    var endFuelLevel := 0.0;
    if FuelLevel(last).Some? {
      endFuelLevel := FuelLevel(last).value;
    }
    var fuelConsumed := SumDrops(positions);
    var rate := Rate(fuelConsumed, distance);
    result := [FuelReportItem(
      device.id, device.name, from, to,
      startOdometer, endOdometer, distance,
      startFuelLevel, endFuelLevel,
      fuelConsumed, fuelConsumed, rate)];
  }

  /** The whole report: the per-device results concatenated in device order. */
  function FuelReport(devices: seq<Device>, table: seq<Position>, from: int, to: int): seq<FuelReportItem>
  {
    if devices == [] then []
    else FuelReport(devices[..|devices| - 1], table, from, to) + FuelData(devices[|devices| - 1], table, from, to)
  }

  /** Every item belongs to an accessible device that reported in the
      window, at most one item per listed device. */
  lemma {:induction false} FuelReportItems(devices: seq<Device>, table: seq<Position>, from: int, to: int)
    ensures |FuelReport(devices, table, from, to)| <= |devices|
    ensures forall item :: item in FuelReport(devices, table, from, to) ==>
      item.startTime == from && item.endTime == to
      && exists d :: d in devices && d.id == item.deviceId && PositionsBetween(table, d.id, from, to) != []
  {
    if devices != [] {
      var front := devices[..|devices| - 1];
      var d := devices[|devices| - 1];
      FuelReportItems(front, table, from, to);
      assert forall x :: x in front ==> x in devices;
      assert forall item :: item in FuelData(d, table, from, to) ==> item.deviceId == d.id;
    }
  }

  /** getObjects: the period-limit check (its verdict is a parameter), then
      calculateFuelData for every accessible device. `None` is the
      exception the period check throws. */
  method GetObjects(periodAllowed: bool, devices: seq<Device>, table: seq<Position>, from: int, to: int)
    returns (r: Option<seq<FuelReportItem>>)
    ensures r.Some? <==> periodAllowed
    ensures r.Some? ==> r.value == FuelReport(devices, table, from, to)
  {
    if !periodAllowed {
      return None;
    }
    var result := [];
    for i := 0 to |devices|
      invariant result == FuelReport(devices[..i], table, from, to)
    {
      var items := CalculateFuelData(devices[i], table, from, to);
      assert devices[..i + 1][..i] == devices[..i];
      result := result + items;
    }
    assert devices[..|devices|] == devices;
    return Some(result);
  }

  function Sample(deviceId: int, time: int, odometer: real, fuel: real): Position
  {
    var p := NewPosition("osmand").(deviceId := deviceId);
    SetTime(p, time).(attributes := map[KEY_ODOMETER := Num(odometer), KEY_FUEL_LEVEL := Num(fuel)])
  }

  /** Three samples at 80, 70 and 60 over 100 distance units: 20 consumed,
      a rate of 20 per 100. */
  lemma FuelExample()
    ensures var ps := [Sample(1, 10, 1000.0, 80.0), Sample(1, 20, 1050.0, 70.0), Sample(1, 30, 1100.0, 60.0)];
      var item := FuelItem(Device(1, "Test Device"), 0, 100, ps);
      && item.distance == 100.0 && item.startFuelLevel == 80.0 && item.endFuelLevel == 60.0
      && item.fuelConsumed == 20.0 && item.fuelConsumptionRate == 20.0
  {
    var ps := [Sample(1, 10, 1000.0, 80.0), Sample(1, 20, 1050.0, 70.0), Sample(1, 30, 1100.0, 60.0)];
    assert FuelLevel(ps[0]) == Some(80.0);
    assert FuelLevel(ps[1]) == Some(70.0);
    assert FuelLevel(ps[2]) == Some(60.0);
    assert ps[..2][..1] == ps[..1];
    assert FuelConsumed(ps[..2]) == 10.0;
    assert ps[..2] == ps[..|ps| - 1];
  }
}
