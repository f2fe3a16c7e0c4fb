/** The protocol-agnostic record a decoder produces and the reports read:
    a position with its optional radio-network aid and its open attribute bag.
    Java's nullable or not-yet-set fields are `Option`s; times are
    milliseconds since the epoch. */
module Telemetry {
  import opened Wrappers

  /** One value of the attribute bag, tagged with the Java type it was stored as. */
  datatype AttrValue = Num(x: real) | Int(i: int) | Bool(b: bool) | Str(s: string)

  type Attributes = map<string, AttrValue>

  /** A cell tower; the signal strength is present only for the five-field form. */
  datatype CellTower = CellTower(
    mobileCountryCode: int,
    mobileNetworkCode: int,
    locationAreaCode: int,
    cellId: int,
    signalStrength: Option<int>)

  datatype WifiAccessPoint = WifiAccessPoint(macAddress: string, signalStrength: int)

  /** The network aid; an empty sequence stands for a list that was never created. */
  datatype Network = Network(cellTowers: seq<CellTower>, wifiAccessPoints: seq<WifiAccessPoint>)

  /** The location part of a position: what a last-known-location lookup supplies. */
  datatype Fix = Fix(
    fixTime: Option<int>,
    valid: bool,
    latitude: Option<real>,
    longitude: Option<real>,
    speed: Option<real>,
    course: Option<real>,
    altitude: Option<real>,
    accuracy: Option<real>)

  datatype Position = Position(
    protocol: string,
    deviceId: int,
    deviceTime: Option<int>,
    fix: Fix,
    attributes: Attributes,
    network: Option<Network>)

  /** A fresh position: nothing set, identity 0, not valid. */
  function NewPosition(protocol: string): (p: Position)
    ensures p.deviceId == 0 && !p.fix.valid && p.attributes == map[] && p.network.None?
  {
    Position(protocol, 0, None, Fix(None, false, None, None, None, None, None, None), map[], None)
  }

  /** Position.setTime: device time and fix time together. */
  function SetTime(p: Position, t: int): (q: Position)
    ensures q.deviceTime == Some(t) && q.fix.fixTime == Some(t)
    ensures q.deviceId == p.deviceId && q.attributes == p.attributes && q.network == p.network
  {
    p.(deviceTime := Some(t), fix := p.fix.(fixTime := Some(t)))
  }

  // Well-known attribute keys.
  const KEY_HDOP := "hdop"
  const KEY_BATTERY_LEVEL := "batteryLevel"
  const KEY_DRIVER_UNIQUE_ID := "driverUniqueId"
  const KEY_CHARGE := "charge"
  const KEY_EVENT := "event"
  const KEY_MOTION := "motion"
  const KEY_ODOMETER := "odometer"
  const KEY_ALARM := "alarm"
  const KEY_RPM := "rpm"
  const KEY_DTCS := "dtcs"
  const KEY_FUEL_LEVEL := "fuel"

  /** Position.set: a string value is stored only when it is not empty; a
      number or a boolean is always stored. */
  function Store(attributes: Attributes, key: string, v: AttrValue): Attributes
  {
    if v == Str("") then attributes else attributes[key := v]
  }

  /** The numeric reading of an attribute: a number stored as a double or
      an integer; absent for a missing key or a value of another type. */
  function GetDouble(attributes: Attributes, key: string): (r: Option<real>)
    ensures r.Some? ==> key in attributes && (attributes[key].Num? || attributes[key].Int?)
    ensures key in attributes && attributes[key].Num? ==> r == Some(attributes[key].x)
    ensures key in attributes && attributes[key].Int? ==> r == Some(attributes[key].i as real)
  {
    if key !in attributes then None
    else match attributes[key]
      case Num(x) => Some(x)
      case Int(i) => Some(i as real)
      case _ => None
  }

  /** The text of an attribute stored as a string. */
  function GetString(attributes: Attributes, key: string): (r: Option<string>)
    ensures r.Some? <==> key in attributes && attributes[key].Str?
    ensures r.Some? ==> r.value == attributes[key].s
  {
    if key in attributes && attributes[key].Str? then Some(attributes[key].s) else None
  }

  /** The flag of an attribute stored as a boolean. */
  function GetBoolean(attributes: Attributes, key: string): (r: Option<bool>)
    ensures r.Some? <==> key in attributes && attributes[key].Bool?
    ensures r.Some? ==> r.value == attributes[key].b
  {
    if key in attributes && attributes[key].Bool? then Some(attributes[key].b) else None
  }
}
