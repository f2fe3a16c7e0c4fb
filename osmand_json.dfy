/** The structured (JSON) wire format, and the dispatch between the two
    formats on the request's content type. */
module OsmAndJson {
  import opened Wrappers
  import opened JavaText
  import opened Telemetry
  import opened OsmAndCommon
  import opened OsmAndQuery

  // -----------------------------------------------------------------------
  // Reference definition, stage by stage

  /** The fix a "coords" object yields on top of `f`, or None when a member
      the decoder reads is missing. Speed and course are stored only when
      non-negative, accuracy only when one of them is, altitude always. */
  function CoordsFix(env: Env, f: Fix, c: JsonCoords): Option<Fix>
  {
    if c.latitude.None? || c.longitude.None? || c.speed.None? || c.heading.None? || c.altitude.None? then None
    else
      var speed, heading := c.speed.value, c.heading.value;
      if (speed >= 0.0 || heading >= 0.0) && c.accuracy.None? then None
      else Some(f.(
        valid := true,
        latitude := c.latitude,
        longitude := c.longitude,
        speed := if speed >= 0.0 then Some(env.knotsFromMps(speed)) else f.speed,
        course := if heading >= 0.0 then c.heading else f.course,
        accuracy := if speed >= 0.0 || heading >= 0.0 then c.accuracy else f.accuracy,
        altitude := c.altitude))
  }

  /** The alarm: the location's own, else the one in its extras. */
  function AlarmOf(loc: JsonLocation): Option<string>
  {
    if loc.alarm.Some? then loc.alarm
    else if loc.extras.Some? then loc.extras.value.alarm
    else None
  }

  /** Position.set for a value that may be absent. */
  function Put(a: Attributes, key: string, v: Option<AttrValue>): Attributes
  {
    if v.Some? then Store(a, key, v.value) else a
  }

  function BatteryLevelOf(b: JsonBattery): Option<AttrValue>
    requires b.level.Some?
  {
    if b.level.value >= 0.0 then Some(Int(DoubleToInt(b.level.value * 100.0))) else None
  }

  /** The battery block on top of `a`: the level, when non-negative, and
      the charge flag, when charging; None when either member is missing. */
  function BatteryAttributes(a: Attributes, b: JsonBattery): Option<Attributes>
  {
    if b.level.None? || b.isCharging.None? then None
    else
      var withLevel := Put(a, KEY_BATTERY_LEVEL, BatteryLevelOf(b));
      Some(Put(withLevel, KEY_CHARGE, if b.isCharging.value then Some(Bool(true)) else None))
  }

  /** The attributes a location yields, or None when a member the decoder
      reads is missing (an activity without a type, a battery without a
      level or a charging flag). */
  function LocationAttributes(loc: JsonLocation): Option<Attributes>
  {
    if loc.activity.Some? && loc.activity.value.activityType.None? then None
    else
      var a0: Attributes := map[];
      var a1 := Put(a0, KEY_EVENT, if loc.event.Some? then Some(Str(loc.event.value)) else None);
      var a2 := Put(a1, KEY_MOTION, if loc.isMoving.Some? then Some(Bool(loc.isMoving.value)) else None);
      var a3 := Put(a2, KEY_ODOMETER, if loc.odometer.Some? then Some(Int(loc.odometer.value)) else None);
      var a4 := Put(a3, "mock", if loc.mock.Some? then Some(Bool(loc.mock.value)) else None);
      var a5 := Put(a4, "activity", if loc.activity.Some? then Some(Str(loc.activity.value.activityType.value)) else None);
      var a7 := if loc.battery.Some? then BatteryAttributes(a5, loc.battery.value) else Some(a5);
      if a7.None? then None
      else Some(Put(a7.value, KEY_ALARM, if AlarmOf(loc).Some? then Some(Str(AlarmOf(loc).value)) else None))
  }

  /** The position before coordinates and attributes: identity and time. */
  function Stamped(env: Env, deviceId: int, time: int): Position
  {
    SetTime(NewPosition(env.protocol).(deviceId := deviceId), time)
  }

  /** What the JSON path produces for a body. */
  function JsonSpec(env: Env, body: string): Outcome
  {
    match env.parseJson(body)
    case None => Failed(MalformedJson)
    case Some(root) =>
      if root.deviceId.None? then Failed(MalformedJson)
      else match env.resolve(root.deviceId.value)
        case None => Rejected(Response(NotFound, None))
        case Some(id) =>
          if root.location.None? || root.location.value.timestamp.None? then Failed(MalformedJson)
          else
            var loc := root.location.value;
            match env.parseIsoDate(loc.timestamp.value)
            case None => Failed(DateFormat)
            case Some(t) =>
              var base := Stamped(env, id, t);
              var located :=
                if loc.coords.Some? then
                  var fix := CoordsFix(env, base.fix, loc.coords.value);
                  if fix.None? then None else Some(base.(fix := fix.value))
                else Some(WithLastKnown(base, env.lastLocation(base, None)));
              var attributes := LocationAttributes(loc);
              if located.None? || attributes.None? then Failed(MalformedJson)
              else Accepted(located.value.(attributes := attributes.value), BareOk)
  }

  // -----------------------------------------------------------------------
  // The decoder as the original writes it

  /** The JSON path: look the device up, then set the position's fields one
      after another. */
  method DecodeJson(env: Env, body: string) returns (o: Outcome)
    ensures o == JsonSpec(env, body)
  {
    var parsed := env.parseJson(body);
    if parsed.None? {
      return Failed(MalformedJson);
    }
    var root := parsed.value;
    if root.deviceId.None? {
      return Failed(MalformedJson);
    }
    var session := env.resolve(root.deviceId.value);
    if session.None? {
      return Rejected(Response(NotFound, None));
    }

    var position := NewPosition(env.protocol);
    position := position.(deviceId := session.value);

    if root.location.None? || root.location.value.timestamp.None? {
      return Failed(MalformedJson);
    }
    var location := root.location.value;
    var time := env.parseIsoDate(location.timestamp.value);
    if time.None? {
      return Failed(DateFormat);
    }
    position := SetTime(position, time.value);

    if location.coords.Some? {
      var fix := ReadCoordinates(env, position.fix, location.coords.value);
      if fix.None? {
        return Failed(MalformedJson);
      }
      position := position.(fix := fix.value);
    } else {
      position := WithLastKnown(position, env.lastLocation(position, None));
    }

    var attributes := ReadAttributes(location);
    if attributes.None? {
      return Failed(MalformedJson);
    }
    position := position.(attributes := attributes.value);
    o := Accepted(position, BareOk);
  }

  /** The "coords" block: setters on the fix, None where a read member is missing. */
  method ReadCoordinates(env: Env, fix: Fix, c: JsonCoords) returns (r: Option<Fix>)
    ensures r == CoordsFix(env, fix, c)
  {
    var f := fix;
    if c.latitude.None? || c.longitude.None? || c.speed.None? {
      return None;
    }
    f := f.(valid := true, latitude := c.latitude, longitude := c.longitude);
    var speed := c.speed.value;
    if speed >= 0.0 {
      f := f.(speed := Some(env.knotsFromMps(speed)));
    }
    if c.heading.None? {
      return None;
    }
    var heading := c.heading.value;
    if heading >= 0.0 {
      f := f.(course := Some(heading));
    }
    if speed >= 0.0 || heading >= 0.0 {
      if c.accuracy.None? {
        return None;
      }
      f := f.(accuracy := c.accuracy);
    }
    if c.altitude.None? {
      return None;
    }
    f := f.(altitude := c.altitude);
    r := Some(f);
  }

  /** The optional members of the location, stored one after another into a
      fresh attribute map; None where a read member is missing. */
  method ReadAttributes(location: JsonLocation) returns (r: Option<Attributes>)
    ensures r == LocationAttributes(location)
  {
    var attributes: Attributes := map[];
    if location.event.Some? {
      attributes := Store(attributes, KEY_EVENT, Str(location.event.value));
    }
    if location.isMoving.Some? {
      attributes := attributes[KEY_MOTION := Bool(location.isMoving.value)];
    }
    if location.odometer.Some? {
      attributes := attributes[KEY_ODOMETER := Int(location.odometer.value)];
    }
    if location.mock.Some? {
      attributes := attributes["mock" := Bool(location.mock.value)];
    }
    assert attributes == Put(Put(Put(Put(map[],
      KEY_EVENT, if location.event.Some? then Some(Str(location.event.value)) else None),
      KEY_MOTION, if location.isMoving.Some? then Some(Bool(location.isMoving.value)) else None),
      KEY_ODOMETER, if location.odometer.Some? then Some(Int(location.odometer.value)) else None),
      "mock", if location.mock.Some? then Some(Bool(location.mock.value)) else None);
    if location.activity.Some? {
      if location.activity.value.activityType.None? {
        return None;
      }
      attributes := Store(attributes, "activity", Str(location.activity.value.activityType.value));
    }
    if location.battery.Some? {
      var withBattery := ReadBattery(attributes, location.battery.value);
      if withBattery.None? {
        return None;
      }
      attributes := withBattery.value;
    }
    if location.alarm.Some? {
      attributes := Store(attributes, KEY_ALARM, Str(location.alarm.value));
    } else if location.extras.Some? {
      var extras := location.extras.value;
      if extras.alarm.Some? {
        attributes := Store(attributes, KEY_ALARM, Str(extras.alarm.value));
      }
    }
    r := Some(attributes);
  }

  method ReadBattery(attributes: Attributes, battery: JsonBattery) returns (r: Option<Attributes>)
    ensures r == BatteryAttributes(attributes, battery)
  {
    if battery.level.None? {
      return None;
    }
    var result := attributes;
    var level := battery.level.value;
    if level >= 0.0 {
      result := result[KEY_BATTERY_LEVEL := Int(DoubleToInt(level * 100.0))];
    }
    if battery.isCharging.None? {
      return None;
    }
    if battery.isCharging.value {
      result := result[KEY_CHARGE := Bool(true)];
    }
    r := Some(result);
  }

  // -----------------------------------------------------------------------
  // Rules of the JSON path

  /** Everything the decoder reads unconditionally is there. */
  predicate Complete(loc: JsonLocation)
  {
    && loc.timestamp.Some?
    && (loc.coords.Some? ==>
          var c := loc.coords.value;
          && c.latitude.Some? && c.longitude.Some? && c.speed.Some? && c.heading.Some? && c.altitude.Some?
          && (c.speed.value >= 0.0 || c.heading.value >= 0.0 ==> c.accuracy.Some?))
    && (loc.activity.Some? ==> loc.activity.value.activityType.Some?)
    && (loc.battery.Some? ==> loc.battery.value.level.Some? && loc.battery.value.isCharging.Some?)
  }

  /** A position is produced exactly for a parsed document whose device
      resolves, whose location is complete and whose timestamp parses; it
      carries the resolved id and the timestamp, and the reply is a bare OK. */
  lemma JsonAccepted(env: Env, body: string)
    ensures JsonSpec(env, body).Accepted? <==>
      && env.parseJson(body).Some?
      && var root := env.parseJson(body).value;
      && root.deviceId.Some? && env.resolve(root.deviceId.value).Some?
      && root.location.Some? && Complete(root.location.value)
      && env.parseIsoDate(root.location.value.timestamp.value).Some?
    ensures JsonSpec(env, body).Accepted? ==>
      var root := env.parseJson(body).value;
      var p := JsonSpec(env, body).position;
      && JsonSpec(env, body).response == BareOk
      && p.deviceId == env.resolve(root.deviceId.value).value
      && (root.location.value.coords.Some? ==>
            p.deviceTime == env.parseIsoDate(root.location.value.timestamp.value))
  {
  }

  /** An unknown device is answered NOT_FOUND, whatever the location holds. */
  lemma JsonUnknownDevice(env: Env, body: string, root: JsonRoot)
    requires env.parseJson(body) == Some(root)
    requires root.deviceId.Some? && env.resolve(root.deviceId.value).None?
    ensures JsonSpec(env, body) == Rejected(Response(NotFound, None))
  {
  }

  /** With coordinates: the fix is valid, takes latitude, longitude and
      altitude as given, speed (in knots) and course only when non-negative,
      and accuracy only when one of them is. */
  lemma JsonCoordinates(env: Env, body: string, root: JsonRoot, c: JsonCoords)
    requires env.parseJson(body) == Some(root)
    requires root.location.Some? && root.location.value.coords == Some(c)
    requires JsonSpec(env, body).Accepted?
    ensures var f := JsonSpec(env, body).position.fix;
      && f.valid
      && f.latitude == c.latitude && f.longitude == c.longitude && f.altitude == c.altitude
      && f.speed == (if c.speed.value >= 0.0 then Some(env.knotsFromMps(c.speed.value)) else None)
      && f.course == (if c.heading.value >= 0.0 then c.heading else None)
      && f.accuracy == (if c.speed.value >= 0.0 || c.heading.value >= 0.0 then c.accuracy else None)
      && f.fixTime == JsonSpec(env, body).position.deviceTime
  {
  }

  /** Without coordinates the fix and the device time are what the
      last-location lookup returns for the identified, time-stamped
      position, asked with no device time. */
  lemma JsonNoCoordinates(env: Env, body: string, root: JsonRoot)
    requires env.parseJson(body) == Some(root)
    requires root.location.Some? && root.location.value.coords.None?
    requires JsonSpec(env, body).Accepted?
    ensures var p := JsonSpec(env, body).position;
      var t := env.parseIsoDate(root.location.value.timestamp.value).value;
      LastKnown(p.fix, p.deviceTime) == env.lastLocation(Stamped(env, p.deviceId, t), None)
  {
  }

  /** A returned position's attributes are those of its location. */
  lemma JsonAttributesOfLocation(env: Env, body: string, root: JsonRoot, loc: JsonLocation)
    requires env.parseJson(body) == Some(root) && root.location == Some(loc)
    requires JsonSpec(env, body).Accepted?
    ensures LocationAttributes(loc).Some?
    ensures JsonSpec(env, body).position.attributes == LocationAttributes(loc).value
  {
  }

  /** Only the eight keys of the structured format are ever set. */
  lemma LocationAttributeKeys(loc: JsonLocation)
    requires LocationAttributes(loc).Some?
    ensures LocationAttributes(loc).value.Keys
         <= {KEY_EVENT, KEY_MOTION, KEY_ODOMETER, "mock", "activity", KEY_BATTERY_LEVEL, KEY_CHARGE, KEY_ALARM}
  {
  }

  /** Each optional member is stored under its key exactly when present (a
      string only when it is not empty): the event, ... */
  lemma LocationEvent(loc: JsonLocation)
    requires LocationAttributes(loc).Some?
    ensures var a := LocationAttributes(loc).value;
      && (KEY_EVENT in a <==> loc.event.Some? && loc.event.value != "")
      && (KEY_EVENT in a ==> a[KEY_EVENT] == Str(loc.event.value))
  {
  }

  /** ... the motion flag, ... */
  lemma LocationMotion(loc: JsonLocation)
    requires LocationAttributes(loc).Some?
    ensures var a := LocationAttributes(loc).value;
      && (KEY_MOTION in a <==> loc.isMoving.Some?)
      && (loc.isMoving.Some? ==> a[KEY_MOTION] == Bool(loc.isMoving.value))
  {
  }

  /** ... the odometer, ... */
  lemma LocationOdometer(loc: JsonLocation)
    requires LocationAttributes(loc).Some?
    ensures var a := LocationAttributes(loc).value;
      && (KEY_ODOMETER in a <==> loc.odometer.Some?)
      && (loc.odometer.Some? ==> a[KEY_ODOMETER] == Int(loc.odometer.value))
  {
  }

  /** ... the mock flag ... */
  lemma LocationMock(loc: JsonLocation)
    requires LocationAttributes(loc).Some?
    ensures var a := LocationAttributes(loc).value;
      && ("mock" in a <==> loc.mock.Some?)
      && (loc.mock.Some? ==> a["mock"] == Bool(loc.mock.value))
  {
  }

  /** ... and the activity type. */
  lemma LocationActivity(loc: JsonLocation)
    requires LocationAttributes(loc).Some?
    ensures var a := LocationAttributes(loc).value;
      && ("activity" in a <==> loc.activity.Some? && loc.activity.value.activityType.value != "")
      && ("activity" in a ==> a["activity"] == Str(loc.activity.value.activityType.value))
  {
  }

  /** The battery level is stored, as (int)(level * 100), only when it is
      non-negative; the charge flag only when the device is charging. */
  lemma LocationBattery(loc: JsonLocation)
    requires LocationAttributes(loc).Some?
    ensures var a := LocationAttributes(loc).value;
      && (KEY_BATTERY_LEVEL in a <==> loc.battery.Some? && loc.battery.value.level.value >= 0.0)
      && (KEY_BATTERY_LEVEL in a ==> a[KEY_BATTERY_LEVEL] == Int(DoubleToInt(loc.battery.value.level.value * 100.0)))
      && (KEY_CHARGE in a <==> loc.battery.Some? && loc.battery.value.isCharging.value)
      && (KEY_CHARGE in a ==> a[KEY_CHARGE] == Bool(true))
  {
  }

  /** The location's own alarm takes precedence over the one in its extras,
      even when it is empty and so stores nothing. */
  lemma LocationAlarm(loc: JsonLocation)
    requires LocationAttributes(loc).Some?
    ensures var a := LocationAttributes(loc).value;
      && (KEY_ALARM in a <==>
            if loc.alarm.Some? then loc.alarm.value != ""
            else loc.extras.Some? && loc.extras.value.alarm.Some? && loc.extras.value.alarm.value != "")
      && (KEY_ALARM in a && loc.alarm.Some? ==> a[KEY_ALARM] == Str(loc.alarm.value))
      && (KEY_ALARM in a && loc.alarm.None? ==> a[KEY_ALARM] == Str(loc.extras.value.alarm.value))
  {
  }

  // -----------------------------------------------------------------------
  // Dispatch

  const APPLICATION_JSON := "application/json"

  /** Case-sensitive prefix test on the Content-Type header, absent header
      included. */
  predicate IsJsonRequest(contentType: Option<string>)
  {
    contentType.Some? && APPLICATION_JSON <= contentType.value
  }

  lemma DispatchExamples()
    ensures IsJsonRequest(Some("application/json"))
    ensures IsJsonRequest(Some("application/json; charset=UTF-8"))
    ensures !IsJsonRequest(None)
    ensures !IsJsonRequest(Some("application/x-www-form-urlencoded"))
    ensures !IsJsonRequest(Some("Application/JSON"))
    ensures !IsJsonRequest(Some("application/jso"))
  {
    assert "application/x-www-form-urlencoded"[12] != APPLICATION_JSON[12];
  }

  /** An HTTP request as the decoder sees it: the content type, the URI's
      parameters, the form body's parameters, and the raw body. */
  datatype Request = Request(
    contentType: Option<string>,
    uriParams: seq<Param>,
    formParams: seq<Param>,
    body: string)

  /** The decoder's entry point. */
  method Decode(env: Env, request: Request) returns (d: Decoded)
    ensures IsJsonRequest(request.contentType) ==> d == Decoded(JsonSpec(env, request.body), [])
    ensures !IsJsonRequest(request.contentType) ==>
      d == QuerySpec(env, SelectParams(request.uriParams, request.formParams))
  {
    if request.contentType.Some? && APPLICATION_JSON <= request.contentType.value {
      var o := DecodeJson(env, request.body);
      d := Decoded(o, []);
    } else {
      d := DecodeQuery(env, request.uriParams, request.formParams);
    }
  }
}
