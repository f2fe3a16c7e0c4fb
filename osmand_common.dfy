/** What the OsmAnd decoder consumes and produces: the HTTP outcome, the
    side effects it asks of its collaborators, the already-parsed JSON
    document, and the collaborators themselves (device-identity resolution,
    number and date parsers, speed conversion, last-known-location lookup,
    the command queue and the clock), passed in as an environment. */
module OsmAndCommon {
  import opened Wrappers
  import opened Telemetry

  datatype Status = Ok | BadRequest | NotFound

  datatype Response = Response(status: Status, body: Option<string>)

  /** The exception that aborts a decode. */
  datatype DecodeError =
    | NumberFormat       // NumberFormatException from a number parser
    | DateFormat         // a date parser rejected its input
    | IndexOutOfBounds   // a comma-separated tuple had too few fields
    | MalformedJson      // the body is not JSON of the expected shape

  /** Accepted: a position goes downstream and this response is sent.
      Rejected: this response is sent and no position is produced.
      Failed: the decode threw; nothing was sent. */
  datatype Outcome =
    | Accepted(position: Position, response: Response)
    | Rejected(response: Response)
    | Failed(error: DecodeError)

  /** A call to the commands manager's updateNotificationToken. */
  datatype TokenUpdate = TokenUpdate(deviceId: int, token: string)

  /** The outcome together with the token updates made before it. */
  datatype Decoded = Decoded(outcome: Outcome, tokenUpdates: seq<TokenUpdate>)

  /** A queued command; `data` is its KEY_DATA string, if it has one. */
  datatype Command = Command(data: Option<string>)

  // The JSON document of the structured wire format, after parsing. A
  // member that is missing (or has the wrong type) where the decoder reads
  // it unconditionally is `None`.
  datatype JsonCoords = JsonCoords(
    latitude: Option<real>,
    longitude: Option<real>,
    speed: Option<real>,
    heading: Option<real>,
    accuracy: Option<real>,
    altitude: Option<real>)

  datatype JsonBattery = JsonBattery(level: Option<real>, isCharging: Option<bool>)

  datatype JsonActivity = JsonActivity(activityType: Option<string>)

  datatype JsonExtras = JsonExtras(alarm: Option<string>)

  datatype JsonLocation = JsonLocation(
    timestamp: Option<string>,
    coords: Option<JsonCoords>,
    event: Option<string>,
    isMoving: Option<bool>,
    odometer: Option<int>,
    mock: Option<bool>,
    activity: Option<JsonActivity>,
    battery: Option<JsonBattery>,
    alarm: Option<string>,
    extras: Option<JsonExtras>)

  datatype JsonRoot = JsonRoot(deviceId: Option<string>, location: Option<JsonLocation>)

  /** What getLastLocation leaves in a position: the fix it supplies (from
      the device's last known position) and the device time it sets. */
  datatype LastKnown = LastKnown(fix: Fix, deviceTime: Option<int>)

  function WithLastKnown(p: Position, k: LastKnown): Position
  {
    p.(fix := k.fix, deviceTime := k.deviceTime)
  }

  /** The decoder's collaborators. */
  datatype Env = Env(
    protocol: string,
    now: int,                                     // new Date()
    resolve: string -> Option<int>,               // getDeviceSession(...).getDeviceId()
    parseDouble: string -> Option<real>,          // Double.parseDouble
    parseIsoDate: string -> Option<int>,          // DateUtil.parseDate
    parseDateTime: string -> Option<int>,         // "yyyy-MM-dd HH:mm:ss"
    convertSpeed: real -> real,                   // convertSpeed(value, "kn")
    knotsFromMps: real -> real,                   // UnitsConverter.knotsFromMps
    lastLocation: (Position, Option<int>) -> LastKnown, // getLastLocation(position, deviceTime)
    queuedCommands: int -> seq<Command>,          // the device's command queue
    parseJson: string -> Option<JsonRoot>)        // Json.createReader(...).readObject()

  /** readQueuedCommands(deviceId, count): at most `count` commands from the head. */
  function ReadQueued(env: Env, deviceId: int, count: nat): (r: seq<Command>)
    ensures |r| <= count && r <= env.queuedCommands(deviceId)
    ensures |r| == count || r == env.queuedCommands(deviceId)
  {
    var q := env.queuedCommands(deviceId);
    if |q| <= count then q else q[..count]
  }

  const BareOk := Response(Ok, None)
}
