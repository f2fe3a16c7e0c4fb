/** The electric-vehicle metrics report: one item per position that carries
    at least one EV attribute, in position order, with the metrics present
    on that position copied over and the others left unset. */
module EvMetricsReport {
  import opened Wrappers
  import opened Telemetry
  import opened ReportStorage

  const KEY_MOTOR_TEMPERATURE := "motorTemperature"
  const KEY_POWER := "power"
  const KEY_RANGE := "range"
  const KEY_CHARGING_RATE := "chargingRate"
  const KEY_CHARGING := "charging"

  /** The eight attribute keys that make a position an EV sample. */
  const EV_KEYS: set<string> := {KEY_BATTERY_LEVEL, KEY_MOTOR_TEMPERATURE, KEY_RPM, KEY_DTCS,
    KEY_POWER, KEY_RANGE, KEY_CHARGING_RATE, KEY_CHARGING}

  /** EvMetricsReportItem: the unset optional metrics are Java nulls. */
  datatype EvMetricsReportItem = EvMetricsReportItem(
    deviceId: int,
    deviceName: string,
    time: Option<int>,
    latitude: real,
    longitude: real,
    batteryLevel: Option<real>,
    motorTemperature: Option<real>,
    rpm: Option<real>,
    dtcs: Option<string>,
    power: Option<real>,
    range: Option<real>,
    chargingRate: Option<real>,
    charging: Option<bool>)

  predicate HasEvAttributes(p: Position)
  {
    KEY_BATTERY_LEVEL in p.attributes
    || KEY_MOTOR_TEMPERATURE in p.attributes
    || KEY_RPM in p.attributes
    || KEY_DTCS in p.attributes
    || KEY_POWER in p.attributes
    || KEY_RANGE in p.attributes
    || KEY_CHARGING_RATE in p.attributes
    || KEY_CHARGING in p.attributes
  }

  /** The test is exactly "some EV key is present". */
  lemma HasEvAttributesIffKey(p: Position)
    ensures HasEvAttributes(p) <==> exists k :: k in EV_KEYS && k in p.attributes
  {
  }

  /** The item built for one position of `device`. */
  function EvItem(device: Device, p: Position): EvMetricsReportItem
  {
    EvMetricsReportItem(
      device.id, device.name, p.fix.fixTime,
      p.fix.latitude.GetOr(0.0), p.fix.longitude.GetOr(0.0),
      GetDouble(p.attributes, KEY_BATTERY_LEVEL),
      GetDouble(p.attributes, KEY_MOTOR_TEMPERATURE),
      GetDouble(p.attributes, KEY_RPM),
      GetString(p.attributes, KEY_DTCS),
      GetDouble(p.attributes, KEY_POWER),
      GetDouble(p.attributes, KEY_RANGE),
      GetDouble(p.attributes, KEY_CHARGING_RATE),
      GetBoolean(p.attributes, KEY_CHARGING))
  }

  /** A numeric metric read from `key`: set exactly when the attribute holds
      a number, and then to that number. */
  predicate NumericReading(r: Option<real>, attributes: Attributes, key: string)
  {
    && (r.Some? <==> key in attributes && (attributes[key].Num? || attributes[key].Int?))
    && (r.Some? && attributes[key].Num? ==> r.value == attributes[key].x)
    && (r.Some? && attributes[key].Int? ==> r.value == attributes[key].i as real)
  }

  /** An item carries the device, the fix time, the coordinates (zero when
      absent) and each metric read from its attribute: a numeric metric from
      a number, the trouble codes from a string, the charging flag from a
      boolean, and nothing from a missing attribute. */
  lemma EvItemMetrics(device: Device, p: Position)
    ensures var item := EvItem(device, p);
      && item.deviceId == device.id && item.deviceName == device.name
      && item.time == p.fix.fixTime
      && item.latitude == p.fix.latitude.GetOr(0.0)
      && item.longitude == p.fix.longitude.GetOr(0.0)
      && NumericReading(item.batteryLevel, p.attributes, KEY_BATTERY_LEVEL)
      && NumericReading(item.motorTemperature, p.attributes, KEY_MOTOR_TEMPERATURE)
      && NumericReading(item.rpm, p.attributes, KEY_RPM)
      && NumericReading(item.power, p.attributes, KEY_POWER)
      && NumericReading(item.range, p.attributes, KEY_RANGE)
      && NumericReading(item.chargingRate, p.attributes, KEY_CHARGING_RATE)
      && (item.dtcs.Some? <==> KEY_DTCS in p.attributes && p.attributes[KEY_DTCS].Str?)
      && (item.dtcs.Some? ==> item.dtcs.value == p.attributes[KEY_DTCS].s)
      && (item.charging.Some? <==> KEY_CHARGING in p.attributes && p.attributes[KEY_CHARGING].Bool?)
      && (item.charging.Some? ==> item.charging.value == p.attributes[KEY_CHARGING].b)
  {
  }

  /** The items for a run of positions: the EV samples projected, in order. */
  function EvItems(device: Device, ps: seq<Position>): seq<EvMetricsReportItem>
  {
    if ps == [] then []
    else
      var rest := EvItems(device, ps[..|ps| - 1]);
      var p := ps[|ps| - 1];
      if HasEvAttributes(p) then rest + [EvItem(device, p)] else rest
  }

  /** The indexes of the EV samples among `ps`, ascending. */
  function EvIndexes(ps: seq<Position>): (r: seq<nat>)
    ensures |r| <= |ps|
    ensures forall k :: 0 <= k < |r| ==> r[k] < |ps| && HasEvAttributes(ps[r[k]])
    ensures forall k, l :: 0 <= k < l < |r| ==> r[k] < r[l]
    ensures forall i :: 0 <= i < |ps| && HasEvAttributes(ps[i]) ==> i in r
  {
    if ps == [] then []
    else
      var rest := EvIndexes(ps[..|ps| - 1]);
      if HasEvAttributes(ps[|ps| - 1]) then rest + [|ps| - 1] else rest
  }

  /** The EV samples among `ps`, in order. */
  function EvSamples(ps: seq<Position>): seq<Position>
  {
    if ps == [] then []
    else
      var rest := EvSamples(ps[..|ps| - 1]);
      if HasEvAttributes(ps[|ps| - 1]) then rest + [ps[|ps| - 1]] else rest
  }

  /** The k-th EV sample is the position at the k-th EV index. */
  lemma {:induction false} EvSamplesAtIndexes(ps: seq<Position>)
    ensures |EvSamples(ps)| == |EvIndexes(ps)|
    ensures forall k :: 0 <= k < |EvIndexes(ps)| ==> EvSamples(ps)[k] == ps[EvIndexes(ps)[k]]
  {
    if ps != [] {
      var front := ps[..|ps| - 1];
      EvSamplesAtIndexes(front);
      var samples, indexes := EvSamples(front), EvIndexes(front);
      assert forall k :: 0 <= k < |indexes| ==> ps[indexes[k]] == front[indexes[k]];
      if HasEvAttributes(ps[|ps| - 1]) {
        assert EvSamples(ps) == samples + [ps[|ps| - 1]];
        assert EvIndexes(ps) == indexes + [|ps| - 1];
      } else {
        assert EvSamples(ps) == samples;
        assert EvIndexes(ps) == indexes;
      }
    }
  }

  /** The k-th item is the projection of the k-th EV sample. */
  lemma {:induction false} EvItemsProjectSamples(device: Device, ps: seq<Position>)
    ensures |EvItems(device, ps)| == |EvSamples(ps)|
    ensures forall k :: 0 <= k < |EvSamples(ps)| ==> EvItems(device, ps)[k] == EvItem(device, EvSamples(ps)[k])
  {
    if ps != [] {
      EvItemsProjectSamples(device, ps[..|ps| - 1]);
    }
  }

  /** Filter and projection: the k-th item is the projection of the k-th EV
      sample, so the items keep the positions' order, there is one for every
      EV sample and none for any other position. */
  lemma EvItemsSelectEvSamples(device: Device, ps: seq<Position>)
    ensures |EvItems(device, ps)| == |EvIndexes(ps)| <= |ps|
    ensures forall k :: 0 <= k < |EvIndexes(ps)| ==> EvItems(device, ps)[k] == EvItem(device, ps[EvIndexes(ps)[k]])
  {
    EvSamplesAtIndexes(ps);
    EvItemsProjectSamples(device, ps);
  }

  /** What getEvMetrics returns for one device. */
  function EvMetrics(device: Device, table: seq<Position>, from: int, to: int): seq<EvMetricsReportItem>
  {
    EvItems(device, PositionsBetween(table, device.id, from, to))
  }

  /** getEvMetrics: the storage query, then one item per EV sample. */
  method GetEvMetrics(device: Device, table: seq<Position>, from: int, to: int)
    returns (result: seq<EvMetricsReportItem>)
    ensures result == EvMetrics(device, table, from, to)
  {
    var positions := PositionsBetween(table, device.id, from, to);
    if positions == [] {
      return [];
    }
    result := [];
    for i := 0 to |positions|
      invariant result == EvItems(device, positions[..i])
    {
      var position := positions[i];
      assert positions[..i + 1][..i] == positions[..i];
      if HasEvAttributes(position) {
        var item := EvItem(device, position);
        result := result + [item];
      }
    }
    assert positions[..|positions|] == positions;
  }

  /** The whole report: the per-device results concatenated in device order. */
  function EvReport(devices: seq<Device>, table: seq<Position>, from: int, to: int): seq<EvMetricsReportItem>
  {
    if devices == [] then []
    else EvReport(devices[..|devices| - 1], table, from, to) + EvMetrics(devices[|devices| - 1], table, from, to)
  }

  /** Every item comes from an accessible device and from one of that
      device's positions inside the window that carries an EV attribute. */
  lemma {:induction false} EvReportItems(devices: seq<Device>, table: seq<Position>, from: int, to: int)
    ensures forall item :: item in EvReport(devices, table, from, to) ==>
      exists d, p :: d in devices && p in table && InWindow(p, d.id, from, to) && HasEvAttributes(p)
        && item == EvItem(d, p)
  {
    if devices != [] {
      var front := devices[..|devices| - 1];
      var d := devices[|devices| - 1];
      EvReportItems(front, table, from, to);
      assert forall x :: x in front ==> x in devices;
      var ps := PositionsBetween(table, d.id, from, to);
      EvItemsFromSamples(d, ps);
      forall item | item in EvMetrics(d, table, from, to)
        ensures exists p :: p in table && InWindow(p, d.id, from, to) && HasEvAttributes(p) && item == EvItem(d, p)
      {
        var p :| p in ps && HasEvAttributes(p) && item == EvItem(d, p);
        PositionsBetweenFromTable(table, d.id, from, to, p);
      }
    }
  }

  lemma {:induction false} EvItemsFromSamples(device: Device, ps: seq<Position>)
    ensures forall item :: item in EvItems(device, ps) ==>
      exists p :: p in ps && HasEvAttributes(p) && item == EvItem(device, p)
  {
    if ps != [] {
      EvItemsFromSamples(device, ps[..|ps| - 1]);
      assert forall p :: p in ps[..|ps| - 1] ==> p in ps;
    }
  }

  lemma {:induction false} PositionsBetweenFromTable(table: seq<Position>, deviceId: int, from: int, to: int, p: Position)
    requires p in PositionsBetween(table, deviceId, from, to)
    ensures p in table && InWindow(p, deviceId, from, to)
  {
    if table != [] {
      var front := table[..|table| - 1];
      if p in PositionsBetween(front, deviceId, from, to) {
        PositionsBetweenFromTable(front, deviceId, from, to, p);
      }
    }
  }

  /** getObjects: getEvMetrics for every accessible device, concatenated. */
  method GetObjects(devices: seq<Device>, table: seq<Position>, from: int, to: int)
    returns (result: seq<EvMetricsReportItem>)
    ensures result == EvReport(devices, table, from, to)
  {
    result := [];
    for i := 0 to |devices|
      invariant result == EvReport(devices[..i], table, from, to)
    {
      var items := GetEvMetrics(devices[i], table, from, to);
      assert devices[..i + 1][..i] == devices[..i];
      result := result + items;
    }
    assert devices[..|devices|] == devices;
  }
}
