/** What the query/form walk computes, stated against reference definitions
    over the whole pair sequence: "the last pair with one of these keys
    decides the field", "each cell value adds one tower", and the
    end-of-decode rules that follow from them. */
module OsmAndQueryFacts {
  import opened Wrappers
  import opened JavaText
  import opened Telemetry
  import opened OsmAndCommon
  import opened OsmAndFields
  import opened OsmAndQuery

  const IdKeys: set<string> := {"id", "deviceid"}

  /** The index of the last pair whose key is one of `keys`. */
  function LastIndex(pairs: seq<Pair>, keys: set<string>): (r: Option<nat>)
    ensures r.Some? ==> r.value < |pairs| && pairs[r.value].key in keys
    ensures r.Some? ==> forall m :: r.value < m < |pairs| ==> pairs[m].key !in keys
    ensures r.None? <==> forall m :: 0 <= m < |pairs| ==> pairs[m].key !in keys
  {
    if pairs == [] then None
    else if pairs[|pairs| - 1].key in keys then Some(|pairs| - 1)
    else LastIndex(pairs[..|pairs| - 1], keys)
  }

  function CountKey(pairs: seq<Pair>, key: string): (n: nat)
    ensures n <= |pairs|
    ensures n == 0 <==> forall m :: 0 <= m < |pairs| ==> pairs[m].key != key
  {
    if pairs == [] then 0
    else CountKey(pairs[..|pairs| - 1], key) + (if pairs[|pairs| - 1].key == key then 1 else 0)
  }

  // -----------------------------------------------------------------------
  // Reference definitions, one per field

  /** The device id: that of the last id/deviceid pair, 0 without one. */
  function IdOf(env: Env, pairs: seq<Pair>): int
  {
    match LastIndex(pairs, IdKeys)
    case None => 0
    case Some(k) => env.resolve(pairs[k].value).GetOr(0)
  }

  function LatitudeIn(env: Env, p: Pair): Option<real>
  {
    if p.key == "lat" then env.parseDouble(p.value)
    else match ParseLocation(env, p.value)
      case Success(c) => Some(c.0)
      case Failure(_) => None
  }

  function LongitudeIn(env: Env, p: Pair): Option<real>
  {
    if p.key == "lon" then env.parseDouble(p.value)
    else match ParseLocation(env, p.value)
      case Success(c) => Some(c.1)
      case Failure(_) => None
  }

  /** The provisional latitude: from the last "lat" or "location" pair. */
  function LatitudeOf(env: Env, pairs: seq<Pair>): Option<real>
  {
    match LastIndex(pairs, {"lat", "location"})
    case None => None
    case Some(k) => LatitudeIn(env, pairs[k])
  }

  /** The provisional longitude: from the last "lon" or "location" pair. */
  function LongitudeOf(env: Env, pairs: seq<Pair>): Option<real>
  {
    match LastIndex(pairs, {"lon", "location"})
    case None => None
    case Some(k) => LongitudeIn(env, pairs[k])
  }

  /** The time of the last "timestamp" pair. */
  function TimeOf(env: Env, pairs: seq<Pair>): Option<int>
  {
    match LastIndex(pairs, {"timestamp"})
    case None => None
    case Some(k) =>
      match ParseTimestamp(env, pairs[k].value)
      case Success(t) => Some(t)
      case Failure(_) => None
  }

  /** The validity flag: true unless a "valid" pair says otherwise. */
  predicate ValidOf(pairs: seq<Pair>)
  {
    match LastIndex(pairs, {"valid"})
    case None => true
    case Some(k) => ValidFlag(pairs[k].value)
  }

  /** The attribute a key writes, if any: "batt" writes the battery level,
      four named keys write themselves, and so does every key without a
      case of its own. */
  function AttributeName(key: string): Option<string>
  {
    if key == "batt" then Some(KEY_BATTERY_LEVEL)
    else if key in {"hdop", "driverUniqueId", "charge"} || key !in KnownKeys then Some(key)
    else None
  }

  /** The value a pair stores under its attribute. */
  function AttributeIn(env: Env, p: Pair): Option<AttrValue>
  {
    if p.key == "hdop" || p.key == "batt" then
      match env.parseDouble(p.value)
      case Some(x) => Some(Num(x))
      case None => None
    else if p.key == "driverUniqueId" then Some(Str(p.value))
    else if p.key == "charge" then Some(Bool(ParseBoolean(p.value)))
    else Some(CoerceAttribute(env, p.value))
  }

  /** The pair stores a value under attribute `name`: its key writes that
      attribute and the value is not an empty string, which Position.set
      ignores. */
  predicate Writes(env: Env, p: Pair, name: string)
  {
    AttributeName(p.key) == Some(name) && AttributeIn(env, p).Some? && AttributeIn(env, p).value != Str("")
  }

  /** The index of the last pair that writes attribute `name`. */
  function LastWriter(env: Env, pairs: seq<Pair>, name: string): (r: Option<nat>)
    ensures r.Some? ==> r.value < |pairs| && Writes(env, pairs[r.value], name)
    ensures r.Some? ==> forall m :: r.value < m < |pairs| ==> !Writes(env, pairs[m], name)
    ensures r.None? <==> forall m :: 0 <= m < |pairs| ==> !Writes(env, pairs[m], name)
  {
    if pairs == [] then None
    else if Writes(env, pairs[|pairs| - 1], name) then Some(|pairs| - 1)
    else LastWriter(env, pairs[..|pairs| - 1], name)
  }

  /** Attribute `name`: the value stored by the last pair that writes it. */
  function AttributeOf(env: Env, pairs: seq<Pair>, name: string): Option<AttrValue>
  {
    match LastWriter(env, pairs, name)
    case None => None
    case Some(k) => AttributeIn(env, pairs[k])
  }

  function Lookup(attributes: Attributes, name: string): Option<AttrValue>
  {
    if name in attributes then Some(attributes[name]) else None
  }

  /** The towers of the "cell" pairs, in order. */
  function CellsOf(pairs: seq<Pair>): seq<CellTower>
  {
    if pairs == [] then []
    else
      var p := pairs[|pairs| - 1];
      var rest := CellsOf(pairs[..|pairs| - 1]);
      if p.key != "cell" then rest
      else match ParseCell(p.value)
        case Success(c) => rest + [c]
        case Failure(_) => rest
  }

  /** The access points of the "wifi" pairs, in order. */
  function WifisOf(pairs: seq<Pair>): seq<WifiAccessPoint>
  {
    if pairs == [] then []
    else
      var p := pairs[|pairs| - 1];
      var rest := WifisOf(pairs[..|pairs| - 1]);
      if p.key != "wifi" then rest
      else match ParseWifi(p.value)
        case Success(w) => rest + [w]
        case Failure(_) => rest
  }

  /** The token updates: one per "notificationToken" pair seen while the
      device id known so far is positive, carrying that id. */
  function TokensOf(env: Env, pairs: seq<Pair>): seq<TokenUpdate>
  {
    if pairs == [] then []
    else
      var p := pairs[|pairs| - 1];
      var before := pairs[..|pairs| - 1];
      var id := IdOf(env, before);
      if p.key == "notificationToken" && id > 0
      then TokensOf(env, before) + [TokenUpdate(id, p.value)]
      else TokensOf(env, before)
  }

  function WalkTokens(w: Walk): seq<TokenUpdate>
  {
    if w.Going? then w.st.tokens else w.tokens
  }

  // -----------------------------------------------------------------------
  // The walk agrees with the reference definitions

  lemma GoingPrefix(env: Env, pairs: seq<Pair>)
    requires pairs != [] && Run(env, pairs).Going?
    ensures Run(env, pairs[..|pairs| - 1]).Going?
  {
  }

  lemma LastIndexSnoc(pairs: seq<Pair>, keys: set<string>)
    requires pairs != []
    ensures pairs[|pairs| - 1].key !in keys ==> LastIndex(pairs, keys) == LastIndex(pairs[..|pairs| - 1], keys)
    ensures pairs[|pairs| - 1].key in keys ==> LastIndex(pairs, keys) == Some(|pairs| - 1)
  {
  }

  lemma StepIdentity(env: Env, st: QueryState, p: Pair)
    requires Step(env, st, p.key, p.value).Going?
    ensures Step(env, st, p.key, p.value).st.position.deviceId
         == if p.key in IdKeys then env.resolve(p.value).value else st.position.deviceId
  {
  }

  /** The device id is decided by the last id/deviceid pair. */
  lemma {:induction false} RunIdentity(env: Env, pairs: seq<Pair>)
    requires Run(env, pairs).Going?
    ensures Run(env, pairs).st.position.deviceId == IdOf(env, pairs)
  {
    if pairs != [] {
      var before := pairs[..|pairs| - 1];
      GoingPrefix(env, pairs);
      RunIdentity(env, before);
      LastIndexSnoc(pairs, IdKeys);
      StepIdentity(env, Run(env, before).st, pairs[|pairs| - 1]);
    }
  }

  lemma StepLatitude(env: Env, st: QueryState, p: Pair)
    requires Step(env, st, p.key, p.value).Going?
    ensures Step(env, st, p.key, p.value).st.latitude
         == if p.key in {"lat", "location"} then LatitudeIn(env, p) else st.latitude
  {
  }

  lemma StepLongitude(env: Env, st: QueryState, p: Pair)
    requires Step(env, st, p.key, p.value).Going?
    ensures Step(env, st, p.key, p.value).st.longitude
         == if p.key in {"lon", "location"} then LongitudeIn(env, p) else st.longitude
  {
  }

  /** The latitude is decided by the last "lat" or "location" pair. */
  lemma {:induction false} RunLatitude(env: Env, pairs: seq<Pair>)
    requires Run(env, pairs).Going?
    ensures Run(env, pairs).st.latitude == LatitudeOf(env, pairs)
  {
    if pairs != [] {
      var before := pairs[..|pairs| - 1];
      GoingPrefix(env, pairs);
      RunLatitude(env, before);
      LastIndexSnoc(pairs, {"lat", "location"});
      StepLatitude(env, Run(env, before).st, pairs[|pairs| - 1]);
    }
  }

  /** The longitude is decided by the last "lon" or "location" pair. */
  lemma {:induction false} RunLongitude(env: Env, pairs: seq<Pair>)
    requires Run(env, pairs).Going?
    ensures Run(env, pairs).st.longitude == LongitudeOf(env, pairs)
  {
    if pairs != [] {
      var before := pairs[..|pairs| - 1];
      GoingPrefix(env, pairs);
      RunLongitude(env, before);
      LastIndexSnoc(pairs, {"lon", "location"});
      StepLongitude(env, Run(env, before).st, pairs[|pairs| - 1]);
    }
  }

  lemma StepTime(env: Env, st: QueryState, p: Pair)
    requires Step(env, st, p.key, p.value).Going?
    ensures var next := Step(env, st, p.key, p.value).st.position;
      if p.key == "timestamp" then
        && ParseTimestamp(env, p.value).Success?
        && next.deviceTime == Some(ParseTimestamp(env, p.value).value)
        && next.fix.fixTime == Some(ParseTimestamp(env, p.value).value)
      else next.deviceTime == st.position.deviceTime && next.fix.fixTime == st.position.fix.fixTime
  {
  }

  lemma StepValid(env: Env, st: QueryState, p: Pair)
    requires Step(env, st, p.key, p.value).Going?
    ensures Step(env, st, p.key, p.value).st.position.fix.valid
         == if p.key == "valid" then ValidFlag(p.value) else st.position.fix.valid
  {
  }

  /** Device and fix time come from the last "timestamp" pair, if any. */
  lemma {:induction false} RunTime(env: Env, pairs: seq<Pair>)
    requires Run(env, pairs).Going?
    ensures Run(env, pairs).st.position.deviceTime == TimeOf(env, pairs)
    ensures Run(env, pairs).st.position.fix.fixTime == TimeOf(env, pairs)
  {
    if pairs != [] {
      var before := pairs[..|pairs| - 1];
      GoingPrefix(env, pairs);
      RunTime(env, before);
      LastIndexSnoc(pairs, {"timestamp"});
      StepTime(env, Run(env, before).st, pairs[|pairs| - 1]);
    }
  }

  /** The fix is valid unless the last "valid" pair says otherwise. */
  lemma {:induction false} RunValid(env: Env, pairs: seq<Pair>)
    requires Run(env, pairs).Going?
    ensures Run(env, pairs).st.position.fix.valid == ValidOf(pairs)
  {
    if pairs != [] {
      var before := pairs[..|pairs| - 1];
      GoingPrefix(env, pairs);
      RunValid(env, before);
      LastIndexSnoc(pairs, {"valid"});
      StepValid(env, Run(env, before).st, pairs[|pairs| - 1]);
    }
  }

  lemma StepKeepsAttributes(env: Env, st: QueryState, p: Pair)
    requires Step(env, st, p.key, p.value).Going?
    requires AttributeName(p.key).None?
    ensures Step(env, st, p.key, p.value).st.position.attributes == st.position.attributes
  {
  }

  lemma StepWritesAttribute(env: Env, st: QueryState, p: Pair)
    requires Step(env, st, p.key, p.value).Going?
    requires AttributeName(p.key).Some?
    ensures AttributeIn(env, p).Some?
    ensures Step(env, st, p.key, p.value).st.position.attributes
         == Store(st.position.attributes, AttributeName(p.key).value, AttributeIn(env, p).value)
  {
  }

  lemma StepAttribute(env: Env, st: QueryState, p: Pair, name: string)
    requires Step(env, st, p.key, p.value).Going?
    ensures Lookup(Step(env, st, p.key, p.value).st.position.attributes, name)
         == if Writes(env, p, name) then AttributeIn(env, p) else Lookup(st.position.attributes, name)
  {
    if AttributeName(p.key).Some? {
      StepWritesAttribute(env, st, p);
    } else {
      StepKeepsAttributes(env, st, p);
    }
  }

  /** Every attribute holds the value of the last pair that writes it, and
      no other attribute is set. */
  lemma {:induction false} RunAttributes(env: Env, pairs: seq<Pair>, name: string)
    requires Run(env, pairs).Going?
    ensures Lookup(Run(env, pairs).st.position.attributes, name) == AttributeOf(env, pairs, name)
  {
    if pairs != [] {
      var before := pairs[..|pairs| - 1];
      GoingPrefix(env, pairs);
      RunAttributes(env, before, name);
      StepAttribute(env, Run(env, before).st, pairs[|pairs| - 1], name);
    }
  }

  lemma StepCells(env: Env, st: QueryState, p: Pair)
    requires Step(env, st, p.key, p.value).Going?
    ensures Step(env, st, p.key, p.value).st.cells
         == if p.key == "cell" then st.cells + [ParseCell(p.value).value] else st.cells
  {
  }

  lemma StepWifis(env: Env, st: QueryState, p: Pair)
    requires Step(env, st, p.key, p.value).Going?
    ensures Step(env, st, p.key, p.value).st.wifis
         == if p.key == "wifi" then st.wifis + [ParseWifi(p.value).value] else st.wifis
  {
  }

  lemma StepKeepsNetwork(env: Env, st: QueryState, p: Pair)
    requires Step(env, st, p.key, p.value).Going?
    ensures Step(env, st, p.key, p.value).st.position.network == st.position.network
  {
  }

  /** Each "cell" and "wifi" value adds exactly one entry, in order. */
  lemma {:induction false} RunNetwork(env: Env, pairs: seq<Pair>)
    requires Run(env, pairs).Going?
    ensures Run(env, pairs).st.cells == CellsOf(pairs)
    ensures Run(env, pairs).st.wifis == WifisOf(pairs)
    ensures Run(env, pairs).st.position.network.None?
    ensures |CellsOf(pairs)| == CountKey(pairs, "cell")
    ensures |WifisOf(pairs)| == CountKey(pairs, "wifi")
  {
    if pairs != [] {
      var before := pairs[..|pairs| - 1];
      var p := pairs[|pairs| - 1];
      GoingPrefix(env, pairs);
      RunNetwork(env, before);
      StepCells(env, Run(env, before).st, p);
      StepWifis(env, Run(env, before).st, p);
      StepKeepsNetwork(env, Run(env, before).st, p);
    }
  }

  /** A notification token is forwarded with the device id known when it is
      seen, and only when that id is positive. */
  lemma {:induction false} RunTokens(env: Env, pairs: seq<Pair>)
    requires Run(env, pairs).Going?
    ensures Run(env, pairs).st.tokens == TokensOf(env, pairs)
  {
    if pairs != [] {
      var before := pairs[..|pairs| - 1];
      GoingPrefix(env, pairs);
      RunTokens(env, before);
      RunIdentity(env, before);
    }
  }

  /** Whatever the outcome, every forwarded token carries a positive id. */
  lemma {:induction false} TokensHavePositiveIds(env: Env, pairs: seq<Pair>)
    ensures forall t :: t in WalkTokens(Run(env, pairs)) ==> t.deviceId > 0
  {
    if pairs != [] {
      TokensHavePositiveIds(env, pairs[..|pairs| - 1]);
    }
  }

  /** Without an id/deviceid pair no token is forwarded. */
  lemma {:induction false} NoIdentityNoTokens(env: Env, pairs: seq<Pair>)
    requires forall m :: 0 <= m < |pairs| ==> pairs[m].key !in IdKeys
    ensures TokensOf(env, pairs) == []
  {
    if pairs != [] {
      NoIdentityNoTokens(env, pairs[..|pairs| - 1]);
    }
  }

  /** Only a "notificationToken" pair seen under a positive device id adds
      a token, whether the step goes on or halts. */
  lemma StepTokens(env: Env, st: QueryState, p: Pair)
    ensures WalkTokens(Step(env, st, p.key, p.value))
         == if p.key == "notificationToken" && st.position.deviceId > 0
            then st.tokens + [TokenUpdate(st.position.deviceId, p.value)]
            else st.tokens
  {
  }

  /** Without an id/deviceid pair the device id stays 0 and no token is
      forwarded, whether or not the walk completes. */
  lemma {:induction false} NoIdentityWalk(env: Env, pairs: seq<Pair>)
    requires forall m :: 0 <= m < |pairs| ==> pairs[m].key !in IdKeys
    ensures WalkTokens(Run(env, pairs)) == []
    ensures Run(env, pairs).Going? ==> Run(env, pairs).st.position.deviceId == 0
  {
    if pairs != [] {
      var before := pairs[..|pairs| - 1];
      NoIdentityWalk(env, before);
      if Run(env, before).Going? {
        var st := Run(env, before).st;
        var p := pairs[|pairs| - 1];
        StepTokens(env, st, p);
        if Step(env, st, p.key, p.value).Going? {
          StepIdentity(env, st, p);
        }
      }
    }
  }

  /** A walk only ever stops with a refusal or a failure. */
  lemma {:induction false} HaltedOutcomes(env: Env, pairs: seq<Pair>)
    requires Run(env, pairs).Halted?
    ensures Run(env, pairs).outcome == Refused || Run(env, pairs).outcome.Failed?
  {
    if pairs != [] && Run(env, pairs[..|pairs| - 1]).Halted? {
      HaltedOutcomes(env, pairs[..|pairs| - 1]);
    }
  }

  // -----------------------------------------------------------------------
  // End of decode

  /** The first unresolvable id/deviceid answers BAD_REQUEST at once: the
      pairs after it are never looked at, and the tokens forwarded before it
      stand. */
  lemma UnresolvedIdRefuses(env: Env, before: seq<Pair>, key: string, value: string, after: seq<Pair>)
    requires key in IdKeys && env.resolve(value).None?
    requires Run(env, before).Going?
    ensures DecodePairs(env, before + [Pair(key, value)] + after) == Decoded(Refused, TokensOf(env, before))
  {
    RunSnoc(env, before, Pair(key, value));
    RunHaltedAbsorbs(env, before + [Pair(key, value)], after);
    RunTokens(env, before);
  }

  /** A request without any id/deviceid pair never yields a position and
      forwards no token. */
  lemma NoIdentityNoPosition(env: Env, pairs: seq<Pair>)
    requires forall m :: 0 <= m < |pairs| ==> pairs[m].key !in IdKeys
    ensures var d := DecodePairs(env, pairs); d.outcome == Refused || d.outcome.Failed?
    ensures DecodePairs(env, pairs).tokenUpdates == []
  {
    NoIdentityWalk(env, pairs);
    if Run(env, pairs).Halted? {
      HaltedOutcomes(env, pairs);
    }
  }

  /** A position is returned only for a device identified by the last
      id/deviceid pair, with an OK carrying the data of the first queued
      command, or a bare OK when there is none. */
  lemma AcceptedIdentified(env: Env, pairs: seq<Pair>)
    requires DecodePairs(env, pairs).outcome.Accepted?
    ensures Run(env, pairs).Going?
    ensures var o := DecodePairs(env, pairs).outcome;
      && o.position.deviceId == IdOf(env, pairs) != 0
      && LastIndex(pairs, IdKeys).Some?
      && o.response.status == Ok
      && var queued := env.queuedCommands(o.position.deviceId);
         o.response.body == (if queued == [] then None else queued[0].data)
  {
    if Run(env, pairs).Halted? {
      HaltedOutcomes(env, pairs);
    }
    RunIdentity(env, pairs);
  }

  /** The network is attached exactly when some "cell" or "wifi" pair was
      given, and then holds their towers and access points in order. */
  lemma AcceptedNetwork(env: Env, pairs: seq<Pair>)
    requires DecodePairs(env, pairs).outcome.Accepted?
    ensures var p := DecodePairs(env, pairs).outcome.position;
      && (p.network.Some? <==> CountKey(pairs, "cell") + CountKey(pairs, "wifi") > 0)
      && (p.network.Some? ==> p.network.value == Network(CellsOf(pairs), WifisOf(pairs)))
  {
    AcceptedIdentified(env, pairs);
    var st := Run(env, pairs).st;
    RunNetwork(env, pairs);
    FinishNetwork(env, st);
  }

  lemma FinishNetwork(env: Env, st: QueryState)
    requires Finish(env, st).outcome.Accepted? && st.position.network.None?
    ensures var p := Finish(env, st).outcome.position;
      && (p.network.Some? <==> |st.cells| + |st.wifis| > 0)
      && (p.network.Some? ==> p.network.value == Network(st.cells, st.wifis))
  {
  }

  /** When both coordinates were given, the device time is that of the last
      "timestamp" pair, or the time of decoding when there is none. */
  lemma AcceptedTime(env: Env, pairs: seq<Pair>)
    requires DecodePairs(env, pairs).outcome.Accepted?
    requires LatitudeOf(env, pairs).Some? && LongitudeOf(env, pairs).Some?
    ensures DecodePairs(env, pairs).outcome.position.deviceTime == Some(TimeOf(env, pairs).GetOr(env.now))
  {
    AcceptedIdentified(env, pairs);
    RunLatitude(env, pairs);
    RunLongitude(env, pairs);
    RunTime(env, pairs);
  }

  /** Both coordinates are committed, with the last writer of each, when
      both were given; otherwise (a "lat" alone, say) the fix and the device
      time are what the last-location lookup returns for this position,
      asked with the device time the pairs gave (or the time of decoding). */
  lemma AcceptedLocation(env: Env, pairs: seq<Pair>)
    requires DecodePairs(env, pairs).outcome.Accepted?
    ensures var p := DecodePairs(env, pairs).outcome.position;
      var lat, lon := LatitudeOf(env, pairs), LongitudeOf(env, pairs);
      var passed := Some(TimeOf(env, pairs).GetOr(env.now));
      if lat.Some? && lon.Some? then
        && p.fix.latitude == lat && p.fix.longitude == lon
        && p.fix.valid == ValidOf(pairs)
        && p.fix.fixTime == p.deviceTime
      else
        exists f :: LastKnown(p.fix, p.deviceTime) == env.lastLocation(p.(fix := f, deviceTime := passed), passed)
  {
    AcceptedIdentified(env, pairs);
    RunLatitude(env, pairs);
    RunLongitude(env, pairs);
    RunValid(env, pairs);
    RunTime(env, pairs);
    var st := Run(env, pairs).st;
    var q := Prepare(env, st);
    if !(st.latitude.Some? && st.longitude.Some?) {
      var p := DecodePairs(env, pairs).outcome.position;
      var passed := Some(TimeOf(env, pairs).GetOr(env.now));
      assert p.(fix := q.fix, deviceTime := passed) == q;
    }
  }

  /** Every attribute of a returned position holds the value of the last
      pair that writes it; the end-of-decode steps add none. */
  lemma AcceptedAttributes(env: Env, pairs: seq<Pair>, name: string)
    requires DecodePairs(env, pairs).outcome.Accepted?
    ensures Lookup(DecodePairs(env, pairs).outcome.position.attributes, name) == AttributeOf(env, pairs, name)
  {
    AcceptedIdentified(env, pairs);
    RunAttributes(env, pairs, name);
  }
}
