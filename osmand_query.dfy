/** The query/form wire format. The request's parameters are the entries of
    the decoder's parameter map, in its iteration order, each key with its
    list of values. DecodeQuery walks them with the nested loop of the
    original, updating a fresh position, the provisional coordinates and the
    network lists; the walk is specified by a fold (Run) over the flattened
    (key, value) pairs, and the end-of-decode steps by Finish. */
module OsmAndQuery {
  import opened Wrappers
  import opened JavaText
  import opened Telemetry
  import opened OsmAndCommon
  import opened OsmAndFields

  datatype Param = Param(key: string, values: seq<string>)

  datatype Pair = Pair(key: string, value: string)

  /** The URI's parameters, or the form body's when the URI has none. */
  function SelectParams(uriParams: seq<Param>, formParams: seq<Param>): seq<Param>
  {
    if |uriParams| > 0 then uriParams else formParams
  }

  function PairsOf(key: string, values: seq<string>): (r: seq<Pair>)
    ensures |r| == |values|
    ensures forall k :: 0 <= k < |values| ==> r[k] == Pair(key, values[k])
  {
    seq(|values|, k requires 0 <= k < |values| => Pair(key, values[k]))
  }

  /** The (key, value) pairs in the order the nested loop visits them. */
  function Flatten(params: seq<Param>): seq<Pair>
  {
    if params == [] then []
    else
      var last := params[|params| - 1];
      Flatten(params[..|params| - 1]) + PairsOf(last.key, last.values)
  }

  /** What the loop carries: the position being built, the network lists,
      the provisional coordinates and the token updates made so far. */
  datatype QueryState = QueryState(
    position: Position,
    cells: seq<CellTower>,
    wifis: seq<WifiAccessPoint>,
    latitude: Option<real>,
    longitude: Option<real>,
    tokens: seq<TokenUpdate>)

  /** Either the walk goes on, or it has stopped with a final outcome. */
  datatype Walk = Going(st: QueryState) | Halted(outcome: Outcome, tokens: seq<TokenUpdate>)

  const Refused := Rejected(Response(BadRequest, None))

  /** The keys with a case of their own; every other key is a generic attribute. */
  const KnownKeys: set<string> := {
    "id", "deviceid", "notificationToken", "valid", "timestamp", "lat", "lon",
    "location", "cell", "wifi", "speed", "bearing", "heading", "altitude",
    "accuracy", "hdop", "batt", "driverUniqueId", "charge"}

  function Initial(env: Env): QueryState
  {
    var p := NewPosition(env.protocol);
    QueryState(p.(fix := p.fix.(valid := true)), [], [], None, None, [])
  }

  function SetFix(st: QueryState, f: Fix): QueryState
  {
    st.(position := st.position.(fix := f))
  }

  function SetAttr(st: QueryState, key: string, v: AttrValue): QueryState
  {
    st.(position := st.position.(attributes := Store(st.position.attributes, key, v)))
  }

  /** One iteration of the inner loop: the `switch` on the key. */
  function Step(env: Env, st: QueryState, key: string, value: string): Walk
  {
    var fix := st.position.fix;
    if key == "id" || key == "deviceid" then
      match env.resolve(value)
      case None => Halted(Refused, st.tokens)
      case Some(d) => Going(st.(position := st.position.(deviceId := d)))
    else if key == "notificationToken" then
      if st.position.deviceId > 0
      then Going(st.(tokens := st.tokens + [TokenUpdate(st.position.deviceId, value)]))
      else Going(st)
    else if key == "valid" then
      Going(SetFix(st, fix.(valid := ValidFlag(value))))
    else if key == "timestamp" then
      match ParseTimestamp(env, value)
      case Failure(e) => Halted(Failed(e), st.tokens)
      case Success(t) => Going(st.(position := SetTime(st.position, t)))
    else if key == "lat" then
      match env.parseDouble(value)
      case None => Halted(Failed(NumberFormat), st.tokens)
      case Some(x) => Going(st.(latitude := Some(x)))
    else if key == "lon" then
      match env.parseDouble(value)
      case None => Halted(Failed(NumberFormat), st.tokens)
      case Some(x) => Going(st.(longitude := Some(x)))
    else if key == "location" then
      match ParseLocation(env, value)
      case Failure(e) => Halted(Failed(e), st.tokens)
      case Success(c) => Going(st.(latitude := Some(c.0), longitude := Some(c.1)))
    else if key == "cell" then
      match ParseCell(value)
      case Failure(e) => Halted(Failed(e), st.tokens)
      case Success(c) => Going(st.(cells := st.cells + [c]))
    else if key == "wifi" then
      match ParseWifi(value)
      case Failure(e) => Halted(Failed(e), st.tokens)
      case Success(w) => Going(st.(wifis := st.wifis + [w]))
    else if key in KnownKeys - {"driverUniqueId", "charge"} then
      // the keys whose value is a double
      match env.parseDouble(value)
      case None => Halted(Failed(NumberFormat), st.tokens)
      case Some(x) =>
        if key == "speed" then Going(SetFix(st, fix.(speed := Some(env.convertSpeed(x)))))
        else if key == "bearing" || key == "heading" then Going(SetFix(st, fix.(course := Some(x))))
        else if key == "altitude" then Going(SetFix(st, fix.(altitude := Some(x))))
        else if key == "accuracy" then Going(SetFix(st, fix.(accuracy := Some(x))))
        else if key == "hdop" then Going(SetAttr(st, KEY_HDOP, Num(x)))
        else Going(SetAttr(st, KEY_BATTERY_LEVEL, Num(x)))
    else if key == "driverUniqueId" then
      Going(SetAttr(st, KEY_DRIVER_UNIQUE_ID, Str(value)))
    else if key == "charge" then
      Going(SetAttr(st, KEY_CHARGE, Bool(ParseBoolean(value))))
    else
      Going(SetAttr(st, key, CoerceAttribute(env, value)))
  }

  /** The walk over a sequence of pairs, stopping at the first halt. */
  function Run(env: Env, pairs: seq<Pair>): Walk
  {
    if pairs == [] then Going(Initial(env))
    else
      var last := pairs[|pairs| - 1];
      match Run(env, pairs[..|pairs| - 1])
      case Halted(o, t) => Halted(o, t)
      case Going(st) => Step(env, st, last.key, last.value)
  }

  /** End-of-decode steps 1 and 2: default the time to now, attach the
      network only when something was added to it. */
  function Prepare(env: Env, st: QueryState): Position
  {
    var p := if st.position.fix.fixTime.None? then SetTime(st.position, env.now) else st.position;
    if |st.cells| > 0 || |st.wifis| > 0 then p.(network := Some(Network(st.cells, st.wifis))) else p
  }

  /** Step 3: commit both coordinates, or ask for the last known location. */
  function Locate(env: Env, st: QueryState, p: Position): Position
  {
    if st.latitude.Some? && st.longitude.Some?
    then p.(fix := p.fix.(latitude := st.latitude, longitude := st.longitude))
    else WithLastKnown(p, env.lastLocation(p, p.deviceTime))
  }

  /** The data of the last command read, if any. */
  function LastData(commands: seq<Command>): Option<string>
  {
    if commands == [] then None else commands[|commands| - 1].data
  }

  /** Steps 4 and 5: reject an unidentified device, otherwise answer with the
      data of at most one queued command. */
  function Finish(env: Env, st: QueryState): Decoded
  {
    var p := Locate(env, st, Prepare(env, st));
    if p.deviceId != 0
    then Decoded(Accepted(p, Response(Ok, LastData(ReadQueued(env, p.deviceId, 1)))), st.tokens)
    else Decoded(Refused, st.tokens)
  }

  function DecodePairs(env: Env, pairs: seq<Pair>): Decoded
  {
    match Run(env, pairs)
    case Halted(o, t) => Decoded(o, t)
    case Going(st) => Finish(env, st)
  }

  function QuerySpec(env: Env, params: seq<Param>): Decoded
  {
    DecodePairs(env, Flatten(params))
  }

  // -----------------------------------------------------------------------
  // The decoder as the original writes it.

  /** One pass of the inner loop's body: the `switch` on the key, with its
      early returns as a halted walk. */
  method DecodeParameter(env: Env, st: QueryState, key: string, value: string) returns (w: Walk)
    ensures w == Step(env, st, key, value)
    ensures w.Halted? ==> w.tokens == st.tokens
    ensures w.Going? ==> st.tokens <= w.st.tokens
  {
    var position, cells, wifis := st.position, st.cells, st.wifis;
    var latitude, longitude, tokens := st.latitude, st.longitude, st.tokens;
    if key == "id" || key == "deviceid" {
      var session := env.resolve(value);
      if session.None? {
        return Halted(Refused, tokens);
      }
      position := position.(deviceId := session.value);
    } else if key == "notificationToken" {
      if position.deviceId > 0 {
        tokens := tokens + [TokenUpdate(position.deviceId, value)];
      }
    } else if key == "valid" {
      position := position.(fix := position.fix.(valid := ValidFlag(value)));
    } else if key == "timestamp" {
      var time := ParseTimestamp(env, value);
      if time.Failure? {
        return Halted(Failed(time.error), tokens);
      }
      position := SetTime(position, time.value);
    } else if key == "lat" {
      latitude := env.parseDouble(value);
      if latitude.None? {
        return Halted(Failed(NumberFormat), tokens);
      }
    } else if key == "lon" {
      longitude := env.parseDouble(value);
      if longitude.None? {
        return Halted(Failed(NumberFormat), tokens);
      }
    } else if key == "location" {
      var location := ParseLocation(env, value);
      if location.Failure? {
        return Halted(Failed(location.error), tokens);
      }
      latitude := Some(location.value.0);
      longitude := Some(location.value.1);
    } else if key == "cell" {
      var cell := ParseCell(value);
      if cell.Failure? {
        return Halted(Failed(cell.error), tokens);
      }
      cells := cells + [cell.value];
    } else if key == "wifi" {
      var wifi := ParseWifi(value);
      if wifi.Failure? {
        return Halted(Failed(wifi.error), tokens);
      }
      wifis := wifis + [wifi.value];
    } else if key in KnownKeys - {"driverUniqueId", "charge"} {
      var x := env.parseDouble(value);
      if x.None? {
        return Halted(Failed(NumberFormat), tokens);
      }
      if key == "speed" {
        position := position.(fix := position.fix.(speed := Some(env.convertSpeed(x.value))));
      } else if key == "bearing" || key == "heading" {
        position := position.(fix := position.fix.(course := x));
      } else if key == "altitude" {
        position := position.(fix := position.fix.(altitude := x));
      } else if key == "accuracy" {
        position := position.(fix := position.fix.(accuracy := x));
      } else if key == "hdop" {
        position := position.(attributes := Store(position.attributes, KEY_HDOP, Num(x.value)));
      } else {
        position := position.(attributes := Store(position.attributes, KEY_BATTERY_LEVEL, Num(x.value)));
      }
    } else if key == "driverUniqueId" {
      position := position.(attributes := Store(position.attributes, KEY_DRIVER_UNIQUE_ID, Str(value)));
    } else if key == "charge" {
      position := position.(attributes := Store(position.attributes, KEY_CHARGE, Bool(ParseBoolean(value))));
    } else {
      position := position.(attributes := Store(position.attributes, key, CoerceAttribute(env, value)));
    }
    w := Going(QueryState(position, cells, wifis, latitude, longitude, tokens));
  }

  /** The decoder's query/form path: walk every value of every parameter,
      stop at the first rejection or failure, then finish the position. */
  method DecodeQuery(env: Env, uriParams: seq<Param>, formParams: seq<Param>) returns (d: Decoded)
    ensures d == QuerySpec(env, SelectParams(uriParams, formParams))
  {
    var params := uriParams;
    if |params| == 0 {
      params := formParams;
    }

    var st := Initial(env);
    var i := 0;
    while i < |params|
      invariant 0 <= i <= |params|
      invariant Run(env, Flatten(params[..i])) == Going(st)
    {
      assert params[..i + 1][..i] == params[..i];
      var w := DecodeValues(env, Flatten(params[..i]), st, params[i].key, params[i].values);
      if w.Halted? {
        HaltedAfter(env, params, i);
        return Decoded(w.outcome, w.tokens);
      }
      st := w.st;
      i := i + 1;
    }
    assert params[..i] == params;

    d := FinishQuery(env, st);
  }

  /** The inner loop: every value of one parameter, in order, stopping at
      the first rejection or failure. */
  method DecodeValues(env: Env, ghost prefix: seq<Pair>, st0: QueryState, key: string, values: seq<string>)
    returns (w: Walk)
    requires Run(env, prefix) == Going(st0)
    ensures w == Run(env, prefix + PairsOf(key, values))
  {
    var st := st0;
    assert prefix + PairsOf(key, values[..0]) == prefix;
    var j := 0;
    while j < |values|
      invariant 0 <= j <= |values|
      invariant Run(env, prefix + PairsOf(key, values[..j])) == Going(st)
    {
      RunNext(env, prefix, key, values, j);
      w := DecodeParameter(env, st, key, values[j]);
      if w.Halted? {
        HaltedWithin(env, prefix, key, values, j);
        return;
      }
      st := w.st;
      j := j + 1;
    }
    assert values[..j] == values;
    w := Going(st);
  }

  /** The steps after the loop: time, network, location, identification and
      the reply to the device. */
  method FinishQuery(env: Env, st: QueryState) returns (d: Decoded)
    ensures d == Finish(env, st)
  {
    var position := st.position;
    if position.fix.fixTime.None? {
      position := SetTime(position, env.now);
    }
    if |st.cells| > 0 || |st.wifis| > 0 {
      position := position.(network := Some(Network(st.cells, st.wifis)));
    }
    if st.latitude.Some? && st.longitude.Some? {
      position := position.(fix := position.fix.(latitude := st.latitude, longitude := st.longitude));
    } else {
      position := WithLastKnown(position, env.lastLocation(position, position.deviceTime));
    }

    if position.deviceId != 0 {
      var response: Option<string> := None;
      var commands := ReadQueued(env, position.deviceId, 1);
      for k := 0 to |commands|
        invariant response == LastData(commands[..k])
      {
        response := commands[k].data;
      }
      assert commands[..|commands|] == commands;
      d := Decoded(Accepted(position, Response(Ok, response)), st.tokens);
    } else {
      d := Decoded(Refused, st.tokens);
    }
  }

  // -----------------------------------------------------------------------
  // Structure of the walk

  lemma RunSnoc(env: Env, xs: seq<Pair>, p: Pair)
    ensures Run(env, xs + [p]) == if Run(env, xs).Halted? then Run(env, xs) else Step(env, Run(env, xs).st, p.key, p.value)
  {
    assert (xs + [p])[..|xs|] == xs;
  }

  /** The inner loop's step: one more value of the current parameter. */
  lemma RunNext(env: Env, prefix: seq<Pair>, key: string, values: seq<string>, j: nat)
    requires j < |values|
    requires Run(env, prefix + PairsOf(key, values[..j])).Going?
    ensures Run(env, prefix + PairsOf(key, values[..j + 1]))
         == Step(env, Run(env, prefix + PairsOf(key, values[..j])).st, key, values[j])
  {
    RunSnoc(env, prefix + PairsOf(key, values[..j]), Pair(key, values[j]));
    PairsOfSnoc(key, values, j);
    assert prefix + PairsOf(key, values[..j]) + [Pair(key, values[j])]
        == prefix + PairsOf(key, values[..j + 1]);
  }

  lemma PairsOfSnoc(key: string, values: seq<string>, j: nat)
    requires j < |values|
    ensures PairsOf(key, values[..j + 1]) == PairsOf(key, values[..j]) + [Pair(key, values[j])]
  {
  }

  /** Once the walk has stopped, later pairs change nothing. */
  lemma {:induction false} RunHaltedAbsorbs(env: Env, xs: seq<Pair>, ys: seq<Pair>)
    requires Run(env, xs).Halted?
    ensures Run(env, xs + ys) == Run(env, xs)
    decreases |ys|
  {
    if ys == [] {
      assert xs + ys == xs;
    } else {
      var zs := ys[..|ys| - 1];
      RunHaltedAbsorbs(env, xs, zs);
      assert xs + ys == (xs + zs) + [ys[|ys| - 1]];
      RunSnoc(env, xs + zs, ys[|ys| - 1]);
    }
  }

  lemma {:induction false} FlattenAppend(a: seq<Param>, b: seq<Param>)
    ensures Flatten(a + b) == Flatten(a) + Flatten(b)
    decreases |b|
  {
    if b == [] {
      assert a + b == a;
    } else {
      var c := b[..|b| - 1];
      var last := b[|b| - 1];
      FlattenAppend(a, c);
      assert (a + b)[..|a + b| - 1] == a + c;
      assert (a + b)[|a + b| - 1] == last;
      calc {
        Flatten(a + b);
        Flatten(a + c) + PairsOf(last.key, last.values);
        (Flatten(a) + Flatten(c)) + PairsOf(last.key, last.values);
        Flatten(a) + (Flatten(c) + PairsOf(last.key, last.values));
        Flatten(a) + Flatten(b);
      }
    }
  }

  lemma PairsOfSplit(key: string, values: seq<string>, n: nat)
    requires n <= |values|
    ensures PairsOf(key, values) == PairsOf(key, values[..n]) + PairsOf(key, values[n..])
  {
  }

  /** A walk that stops on the j-th value stops the whole parameter there. */
  lemma HaltedWithin(env: Env, prefix: seq<Pair>, key: string, values: seq<string>, j: nat)
    requires j < |values|
    requires Run(env, prefix + PairsOf(key, values[..j + 1])).Halted?
    ensures Run(env, prefix + PairsOf(key, values)) == Run(env, prefix + PairsOf(key, values[..j + 1]))
  {
    var xs := prefix + PairsOf(key, values[..j + 1]);
    var ys := PairsOf(key, values[j + 1..]);
    PairsOfSplit(key, values, j + 1);
    assert prefix + PairsOf(key, values) == xs + ys;
    RunHaltedAbsorbs(env, xs, ys);
  }

  /** A walk that stops within the i-th parameter decides the outcome. */
  lemma HaltedAfter(env: Env, params: seq<Param>, i: nat)
    requires i < |params|
    requires Run(env, Flatten(params[..i]) + PairsOf(params[i].key, params[i].values)).Halted?
    ensures var w := Run(env, Flatten(params[..i]) + PairsOf(params[i].key, params[i].values));
      QuerySpec(env, params) == Decoded(w.outcome, w.tokens)
  {
    assert params[..i + 1][..i] == params[..i];
    var xs := Flatten(params[..i + 1]);
    assert xs == Flatten(params[..i]) + PairsOf(params[i].key, params[i].values);
    FlattenAppend(params[..i + 1], params[i + 1..]);
    assert params[..i + 1] + params[i + 1..] == params;
    RunHaltedAbsorbs(env, xs, Flatten(params[i + 1..]));
  }
}
