/** The per-field coercions of the query/form wire format: the three-way
    timestamp fallback, the cell and wifi tuples, the "lat,lon" pair, the
    `valid` flag and the number / boolean / string guess for unknown keys. */
module OsmAndFields {
  import opened Wrappers
  import opened JavaText
  import opened Telemetry
  import opened OsmAndCommon

  /** An integer timestamp below Integer.MAX_VALUE counts seconds and is
      scaled (in 64-bit arithmetic) to milliseconds; anything larger already
      counts milliseconds. */
  function ScaleTimestamp(t: int): (ms: int)
    requires IsLong(t)
    ensures IsLong(ms)
    ensures t >= INT_MAX ==> ms == t
    ensures INT_MIN <= t < INT_MAX ==> ms == 1000 * t
  {
    if t < INT_MAX then MulLong(t, 1000) else t
  }

  /** The 64-bit product wraps for the most negative seconds values:
      Long.MIN_VALUE seconds lands on the epoch itself. */
  lemma ScaleTimestampWrapsAtLongMin()
    ensures ScaleTimestamp(LONG_MIN) == 0
    ensures 1000 * LONG_MIN != 0
  {
  }

  /** The timestamp field: integer first, then ISO-8601 when the text holds a
      `T`, else the fixed "yyyy-MM-dd HH:mm:ss" pattern; the first variant
      tried that fails is the error. */
  function ParseTimestamp(env: Env, value: string): (r: Result<int, DecodeError>)
    ensures ParseLong(value).Some? ==> r == Success(ScaleTimestamp(ParseLong(value).value))
    ensures ParseLong(value).None? && 'T' in value ==>
      (r.Success? <==> env.parseIsoDate(value).Some?) && (r.Success? ==> r.value == env.parseIsoDate(value).value)
    ensures ParseLong(value).None? && 'T' !in value ==>
      (r.Success? <==> env.parseDateTime(value).Some?) && (r.Success? ==> r.value == env.parseDateTime(value).value)
    ensures r.Failure? ==> r.error == DateFormat
  {
    match ParseLong(value)
    case Some(t) => Success(ScaleTimestamp(t))
    case None =>
      var parsed := if 'T' in value then env.parseIsoDate(value) else env.parseDateTime(value);
      match parsed
      case Some(d) => Success(d)
      case None => Failure(DateFormat)
  }

  /** Any seconds count written in decimal becomes that many thousand milliseconds. */
  lemma TimestampSeconds(env: Env, n: nat)
    requires n < INT_MAX
    ensures ParseTimestamp(env, DecimalText(n)) == Success(1000 * n)
  {
    ParseLongOfDecimalText(n);
  }

  /** A decimal count at or above Integer.MAX_VALUE is taken as milliseconds. */
  lemma TimestampMillis(env: Env, n: nat)
    requires INT_MAX <= n <= LONG_MAX
    ensures ParseTimestamp(env, DecimalText(n)) == Success(n)
  {
    ParseLongOfDecimalText(n);
  }

  /** Parses f[0], ..., f[n-1] with Integer.parseInt, left to right; reading
      past the end of `f` is an index error. */
  function ParseIntFields(f: seq<string>, n: nat): (r: Result<seq<int>, DecodeError>)
    ensures r.Success? <==> n <= |f| && forall k :: 0 <= k < n ==> ParseInt(f[k]).Some?
    ensures r.Success? ==> |r.value| == n && forall k :: 0 <= k < n ==> ParseInt(f[k]) == Some(r.value[k])
    ensures r.Failure? ==> r.error == IndexOutOfBounds || r.error == NumberFormat
  {
    if n == 0 then Success([])
    else if |f| == 0 then Failure(IndexOutOfBounds)
    else match ParseInt(f[0])
      case None => Failure(NumberFormat)
      case Some(x) =>
        match ParseIntFields(f[1..], n - 1)
        case Failure(e) => Failure(e)
        case Success(rest) => Success([x] + rest)
  }

  /** One `cell` value: more than four fields give a tower with signal
      strength (fields past the fifth are ignored), otherwise exactly four are
      read and the tower has none. */
  function ParseCell(value: string): (r: Result<CellTower, DecodeError>)
    ensures var f := Split(value, ',');
      r.Success? <==> |f| >= 4 && forall k :: 0 <= k < (if |f| > 4 then 5 else 4) ==> ParseInt(f[k]).Some?
    ensures var f := Split(value, ',');
      r.Success? ==>
        && (r.value.signalStrength.Some? <==> |f| > 4)
        && Some(r.value.mobileCountryCode) == ParseInt(f[0])
        && Some(r.value.mobileNetworkCode) == ParseInt(f[1])
        && Some(r.value.locationAreaCode) == ParseInt(f[2])
        && Some(r.value.cellId) == ParseInt(f[3])
        && (|f| > 4 ==> r.value.signalStrength == ParseInt(f[4]))
  {
    var f := Split(value, ',');
    if |f| > 4 then
      match ParseIntFields(f, 5)
      case Failure(e) => Failure(e)
      case Success(v) => Success(CellTower(v[0], v[1], v[2], v[3], Some(v[4])))
    else
      match ParseIntFields(f, 4)
      case Failure(e) => Failure(e)
      case Success(v) => Success(CellTower(v[0], v[1], v[2], v[3], None))
  }

  /** One `wifi` value "mac,signal": the MAC keeps every character except
      that each '-' becomes ':'. */
  function ParseWifi(value: string): (r: Result<WifiAccessPoint, DecodeError>)
    ensures var f := Split(value, ',');
      r.Success? <==> |f| >= 2 && ParseInt(f[1]).Some?
    ensures var f := Split(value, ',');
      r.Success? ==>
        && r.value.macAddress == Replace(f[0], '-', ':')
        && '-' !in r.value.macAddress
        && Some(r.value.signalStrength) == ParseInt(f[1])
  {
    var f := Split(value, ',');
    if |f| == 0 then Failure(IndexOutOfBounds)
    else
      var mac := Replace(f[0], '-', ':');
      if |f| < 2 then Failure(IndexOutOfBounds)
      else match ParseInt(f[1])
        case None => Failure(NumberFormat)
        case Some(signal) => Success(WifiAccessPoint(mac, signal))
  }

  /** One `location` value "lat,lon". */
  function ParseLocation(env: Env, value: string): (r: Result<(real, real), DecodeError>)
    ensures var f := Split(value, ',');
      r.Success? <==> |f| >= 2 && env.parseDouble(f[0]).Some? && env.parseDouble(f[1]).Some?
    ensures var f := Split(value, ',');
      r.Success? ==> Some(r.value.0) == env.parseDouble(f[0]) && Some(r.value.1) == env.parseDouble(f[1])
  {
    var f := Split(value, ',');
    if |f| == 0 then Failure(IndexOutOfBounds)
    else match env.parseDouble(f[0])
      case None => Failure(NumberFormat)
      case Some(lat) =>
        if |f| < 2 then Failure(IndexOutOfBounds)
        else match env.parseDouble(f[1])
          case None => Failure(NumberFormat)
          case Some(lon) => Success((lat, lon))
  }

  /** The `valid` key: Boolean.parseBoolean or the literal "1". */
  predicate ValidFlag(value: string)
  {
    ParseBoolean(value) || value == "1"
  }

  lemma ValidFlagExamples()
    ensures ValidFlag("true") && ValidFlag("TRUE") && ValidFlag("tRuE") && ValidFlag("1")
    ensures !ValidFlag("yes") && !ValidFlag("0") && !ValidFlag("01") && !ValidFlag("") && !ValidFlag("truee")
  {
  }

  /** An unknown key's value: a number when it parses as one, else a boolean
      for the exact literals "true" and "false", else the text itself. */
  function CoerceAttribute(env: Env, value: string): (r: AttrValue)
    ensures r.Num? <==> env.parseDouble(value).Some?
    ensures r.Num? ==> r.x == env.parseDouble(value).value
    ensures r.Bool? <==> env.parseDouble(value).None? && (value == "true" || value == "false")
    ensures r.Bool? ==> (r.b <==> value == "true")
    ensures r.Str? ==> r.s == value
    ensures !r.Int?
  {
    match env.parseDouble(value)
    case Some(x) => Num(x)
    case None =>
      if value == "true" then Bool(true)
      else if value == "false" then Bool(false)
      else Str(value)
  }

  /** The text a non-numeric attribute value stands for. */
  function AttrText(v: AttrValue): string
    requires v.Bool? || v.Str?
  {
    if v.Bool? then (if v.b then "true" else "false") else v.s
  }

  /** Nothing is lost by the guess: a value that is not a number is recovered
      from what was stored. */
  lemma CoerceAttributeLossless(env: Env, value: string)
    requires env.parseDouble(value).None?
    ensures var v := CoerceAttribute(env, value); (v.Bool? || v.Str?) && AttrText(v) == value
  {
  }
}
