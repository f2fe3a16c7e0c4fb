/** The driver income report: the income records a user may see, filtered
    by driver, date range and pay period, joined with the driver table
    (item list) or summed per driver (summary). Amounts are modelled as
    reals. */
module DriverIncomeReport {
  import opened Wrappers
  import opened Accounts

  datatype DriverIncome = DriverIncome(
    id: int,
    driverId: int,
    companyId: int,
    amount: real,
    description: Option<string>,
    date: Option<int>,
    period: Option<string>)

  datatype Driver = Driver(id: int, name: string)

  datatype DriverIncomeReportItem = DriverIncomeReportItem(
    driverId: int,
    driverName: string,
    amount: real,
    description: Option<string>,
    date: Option<int>,
    period: Option<string>)

  // ---------------------------------------------------------------------
  // Query conditions

  /** The storage conditions the report can combine (all must hold). */
  datatype Condition =
    | DriverIs(driverId: int)
    | DateBetween(from: int, to: int)
    | PeriodIs(period: string)
    | CompanyIs(companyId: int)

  predicate Holds(c: Condition, r: DriverIncome)
  {
    match c
    case DriverIs(d) => r.driverId == d
    case DateBetween(f, t) => r.date.Some? && f <= r.date.value <= t
    case PeriodIs(p) => r.period == Some(p)
    case CompanyIs(id) => r.companyId == id
  }

  /** The report's rule for which conditions a request adds: a driver filter
      for a positive driver id, a date range when both ends are given, a
      period filter for a non-empty period, and a company filter for a
      user who is not a super user and belongs to a company. */
  predicate Wanted(c: Condition, user: User, driverId: int, from: Option<int>, to: Option<int>, period: Option<string>)
  {
    match c
    case DriverIs(d) => driverId > 0 && d == driverId
    case DateBetween(f, t) => from == Some(f) && to == Some(t)
    case PeriodIs(p) => period == Some(p) && p != ""
    case CompanyIs(id) => user.role != SuperUser && user.companyId > 0 && id == user.companyId
  }

  /** The condition list of getObjects (with both dates) and getSummary
      (which passes no dates). */
  method BuildConditions(user: User, driverId: int, from: Option<int>, to: Option<int>, period: Option<string>)
    returns (conditions: seq<Condition>)
    ensures forall c :: c in conditions <==> Wanted(c, user, driverId, from, to, period)
    ensures |conditions| <= 4
  {
    conditions := [];
    if driverId > 0 {
      conditions := conditions + [DriverIs(driverId)];
    }
    if from.Some? && to.Some? {
      conditions := conditions + [DateBetween(from.value, to.value)];
    }
    if period.Some? && period.value != "" {
      conditions := conditions + [PeriodIs(period.value)];
    }
    if user.role != SuperUser && user.companyId > 0 {
      conditions := conditions + [CompanyIs(user.companyId)];
    }
  }

  predicate HoldsAll(conditions: seq<Condition>, r: DriverIncome)
  {
    forall k :: 0 <= k < |conditions| ==> Holds(conditions[k], r)
  }

  /** The records matching every condition, in table order. */
  function Select(table: seq<DriverIncome>, conditions: seq<Condition>): seq<DriverIncome>
  {
    if table == [] then []
    else
      var rest := Select(table[..|table| - 1], conditions);
      var r := table[|table| - 1];
      if HoldsAll(conditions, r) then rest + [r] else rest
  }

  /** What a request admits, stated field by field. */
  predicate Admitted(r: DriverIncome, user: User, driverId: int, from: Option<int>, to: Option<int>, period: Option<string>)
  {
    && (driverId > 0 ==> r.driverId == driverId)
    && (from.Some? && to.Some? ==> r.date.Some? && from.value <= r.date.value <= to.value)
    && (period.Some? && period.value != "" ==> r.period == period)
    && (user.role != SuperUser && user.companyId > 0 ==> r.companyId == user.companyId)
  }

  /** The records a request admits, in table order. */
  function Filtered(table: seq<DriverIncome>, user: User, driverId: int, from: Option<int>, to: Option<int>,
                    period: Option<string>): (r: seq<DriverIncome>)
    ensures |r| <= |table|
  {
    if table == [] then []
    else
      var rest := Filtered(table[..|table| - 1], user, driverId, from, to, period);
      var last := table[|table| - 1];
      if Admitted(last, user, driverId, from, to, period) then rest + [last] else rest
  }

  lemma WantedConditionsAdmit(conditions: seq<Condition>, r: DriverIncome, user: User, driverId: int,
                              from: Option<int>, to: Option<int>, period: Option<string>)
    requires forall c :: c in conditions <==> Wanted(c, user, driverId, from, to, period)
    ensures HoldsAll(conditions, r) <==> Admitted(r, user, driverId, from, to, period)
  {
    if HoldsAll(conditions, r) {
      if driverId > 0 {
        assert DriverIs(driverId) in conditions;
      }
      if from.Some? && to.Some? {
        assert DateBetween(from.value, to.value) in conditions;
      }
      if period.Some? && period.value != "" {
        assert PeriodIs(period.value) in conditions;
      }
      if user.role != SuperUser && user.companyId > 0 {
        assert CompanyIs(user.companyId) in conditions;
      }
      assert Admitted(r, user, driverId, from, to, period);
    }
    if Admitted(r, user, driverId, from, to, period) {
      forall k | 0 <= k < |conditions|
        ensures Holds(conditions[k], r)
      {
        assert Wanted(conditions[k], user, driverId, from, to, period);
      }
    }
  }

  /** The built conditions select exactly the admitted records; in
      particular a company user sees only their company's income. */
  lemma {:induction false} SelectIsFiltered(table: seq<DriverIncome>, conditions: seq<Condition>, user: User,
                                            driverId: int, from: Option<int>, to: Option<int>, period: Option<string>)
    requires forall c :: c in conditions <==> Wanted(c, user, driverId, from, to, period)
    ensures Select(table, conditions) == Filtered(table, user, driverId, from, to, period)
  {
    if table != [] {
      SelectIsFiltered(table[..|table| - 1], conditions, user, driverId, from, to, period);
      WantedConditionsAdmit(conditions, table[|table| - 1], user, driverId, from, to, period);
    }
  }

  lemma {:induction false} FilteredAdmitted(table: seq<DriverIncome>, user: User, driverId: int,
                                            from: Option<int>, to: Option<int>, period: Option<string>)
    ensures forall r :: r in Filtered(table, user, driverId, from, to, period) <==>
      r in table && Admitted(r, user, driverId, from, to, period)
  {
    if table != [] {
      FilteredAdmitted(table[..|table| - 1], user, driverId, from, to, period);
      assert table == table[..|table| - 1] + [table[|table| - 1]];
    }
  }

  // ---------------------------------------------------------------------
  // Driver lookup and cache

  /** storage.getObject(Driver, id = ?): the driver with that id, if any. */
  function FindDriver(drivers: seq<Driver>, id: int): (r: Option<Driver>)
    ensures r.Some? ==> r.value in drivers && r.value.id == id
  {
    if drivers == [] then None
    else if drivers[0].id == id then Some(drivers[0])
    else FindDriver(drivers[1..], id)
  }

  lemma {:induction false} FindDriverMissing(drivers: seq<Driver>, id: int)
    ensures FindDriver(drivers, id).None? <==> forall d :: d in drivers ==> d.id != id
  {
    if drivers != [] && drivers[0].id != id {
      FindDriverMissing(drivers[1..], id);
      assert forall d :: d in drivers ==> d == drivers[0] || d in drivers[1..];
    }
  }

  function DriverIds(records: seq<DriverIncome>): set<int>
  {
    set r | r in records :: r.driverId
  }

  /** The cache after visiting `records`: a lookup happens for every record
      whose driver is not cached yet, and only a found driver is cached. */
  function CacheAfter(records: seq<DriverIncome>, drivers: seq<Driver>): map<int, Driver>
  {
    if records == [] then map[]
    else
      var cache := CacheAfter(records[..|records| - 1], drivers);
      var id := records[|records| - 1].driverId;
      if id in cache then cache
      else match FindDriver(drivers, id)
        case Some(d) => cache[d.id := d]
        case None => cache
  }

  /** The driver ids looked up in storage while visiting `records`, in order. */
  function LookupsAfter(records: seq<DriverIncome>, drivers: seq<Driver>): seq<int>
  {
    if records == [] then []
    else
      var id := records[|records| - 1].driverId;
      var lookups := LookupsAfter(records[..|records| - 1], drivers);
      if id in CacheAfter(records[..|records| - 1], drivers) then lookups else lookups + [id]
  }

  /** How many records name driver `id`. */
  function Count(records: seq<DriverIncome>, id: int): nat
  {
    if records == [] then 0
    else Count(records[..|records| - 1], id) + (if records[|records| - 1].driverId == id then 1 else 0)
  }

  /** The loop that fills the driver cache, with the lookups it makes. */
  method CacheDrivers(records: seq<DriverIncome>, drivers: seq<Driver>)
    returns (cache: map<int, Driver>, lookups: seq<int>)
    ensures cache == CacheAfter(records, drivers)
    ensures lookups == LookupsAfter(records, drivers)
  {
    cache := map[];
    lookups := [];
    for i := 0 to |records|
      invariant cache == CacheAfter(records[..i], drivers)
      invariant lookups == LookupsAfter(records[..i], drivers)
    {
      var id := records[i].driverId;
      assert records[..i + 1][..i] == records[..i];
      if id !in cache {
        lookups := lookups + [id];
        var driver := FindDriver(drivers, id);
        if driver.Some? {
          cache := cache[driver.value.id := driver.value];
        }
      }
    }
    assert records[..|records|] == records;
  }

  /** The cache holds exactly the drivers of the records that exist, each
      under its own id. */
  lemma {:induction false} CacheHoldsFoundDrivers(records: seq<DriverIncome>, drivers: seq<Driver>)
    ensures forall id :: id in CacheAfter(records, drivers) <==>
      id in DriverIds(records) && FindDriver(drivers, id).Some?
    ensures forall id :: id in CacheAfter(records, drivers) ==>
      CacheAfter(records, drivers)[id] == FindDriver(drivers, id).value
  {
    if records != [] {
      var front := records[..|records| - 1];
      CacheHoldsFoundDrivers(front, drivers);
      assert records == front + [records[|records| - 1]];
      assert DriverIds(records) == DriverIds(front) + {records[|records| - 1].driverId};
    }
  }

  /** A driver that exists is looked up once, however many records name it;
      a missing driver is looked up again for every record naming it. */
  lemma LookupCount(records: seq<DriverIncome>, drivers: seq<Driver>, id: int)
    ensures multiset(LookupsAfter(records, drivers))[id] ==
      if FindDriver(drivers, id).Some? then (if id in DriverIds(records) then 1 else 0)
      else Count(records, id)
  {
    if FindDriver(drivers, id).Some? {
      LookupCountFound(records, drivers, id);
    } else {
      LookupCountMissing(records, drivers, id);
    }
  }

  /** One visit appends the record's driver id to the lookups exactly when
      that driver is not cached yet. */
  lemma LookupStep(records: seq<DriverIncome>, drivers: seq<Driver>, id: int)
    requires records != []
    ensures var front := records[..|records| - 1];
      multiset(LookupsAfter(records, drivers))[id] == multiset(LookupsAfter(front, drivers))[id]
        + (if records[|records| - 1].driverId == id && id !in CacheAfter(front, drivers) then 1 else 0)
  {
    var front := records[..|records| - 1];
    var last := records[|records| - 1].driverId;
    var before := LookupsAfter(front, drivers);
    if last !in CacheAfter(front, drivers) {
      assert multiset(before + [last]) == multiset(before) + multiset{last};
    }
  }

  lemma DriverIdsStep(records: seq<DriverIncome>)
    requires records != []
    ensures DriverIds(records) == DriverIds(records[..|records| - 1]) + {records[|records| - 1].driverId}
  {
    assert records == records[..|records| - 1] + [records[|records| - 1]];
  }

  lemma {:induction false} LookupCountFound(records: seq<DriverIncome>, drivers: seq<Driver>, id: int)
    requires FindDriver(drivers, id).Some?
    ensures multiset(LookupsAfter(records, drivers))[id] == if id in DriverIds(records) then 1 else 0
  {
    if records != [] {
      var front := records[..|records| - 1];
      LookupCountFound(front, drivers, id);
      CacheHoldsFoundDrivers(front, drivers);
      LookupStep(records, drivers, id);
      DriverIdsStep(records);
    }
  }

  lemma {:induction false} LookupCountMissing(records: seq<DriverIncome>, drivers: seq<Driver>, id: int)
    requires FindDriver(drivers, id).None?
    ensures multiset(LookupsAfter(records, drivers))[id] == Count(records, id)
  {
    if records != [] {
      var front := records[..|records| - 1];
      LookupCountMissing(front, drivers, id);
      CacheHoldsFoundDrivers(front, drivers);
      LookupStep(records, drivers, id);
    }
  }

  // ---------------------------------------------------------------------
  // getObjects

  function IncomeItem(r: DriverIncome, d: Driver): DriverIncomeReportItem
  {
    DriverIncomeReportItem(d.id, d.name, r.amount, r.description, r.date, r.period)
  }

  /** The items built from the cache: one per record whose driver is cached. */
  function CachedItems(records: seq<DriverIncome>, cache: map<int, Driver>): seq<DriverIncomeReportItem>
  {
    if records == [] then []
    else
      var rest := CachedItems(records[..|records| - 1], cache);
      var r := records[|records| - 1];
      if r.driverId in cache then rest + [IncomeItem(r, cache[r.driverId])] else rest
  }

  /** The inner join of the records with the driver table, in record order. */
  function Joined(records: seq<DriverIncome>, drivers: seq<Driver>): (r: seq<DriverIncomeReportItem>)
    ensures |r| <= |records|
  {
    if records == [] then []
    else
      var rest := Joined(records[..|records| - 1], drivers);
      var r := records[|records| - 1];
      match FindDriver(drivers, r.driverId)
      case Some(d) => rest + [IncomeItem(r, d)]
      case None => rest
  }

  lemma {:induction false} CachedItemsJoin(records: seq<DriverIncome>, cache: map<int, Driver>, drivers: seq<Driver>)
    requires forall k :: 0 <= k < |records| ==>
      (records[k].driverId in cache <==> FindDriver(drivers, records[k].driverId).Some?)
    requires forall id :: id in cache ==> FindDriver(drivers, id).Some? && cache[id] == FindDriver(drivers, id).value
    ensures CachedItems(records, cache) == Joined(records, drivers)
  {
    if records != [] {
      CachedItemsJoin(records[..|records| - 1], cache, drivers);
    }
  }

  /** The items of getObjects are the join of the records with the driver
      table: the cache changes which lookups happen, not the result. */
  lemma ItemsAreJoin(records: seq<DriverIncome>, drivers: seq<Driver>)
    ensures CachedItems(records, CacheAfter(records, drivers)) == Joined(records, drivers)
  {
    CacheHoldsFoundDrivers(records, drivers);
    CachedItemsJoin(records, CacheAfter(records, drivers), drivers);
  }

  /** Each joined item copies its record and names the record's driver; a
      record whose driver does not exist yields nothing. */
  lemma {:induction false} JoinedItems(records: seq<DriverIncome>, drivers: seq<Driver>)
    ensures forall item :: item in Joined(records, drivers) ==>
      exists r :: r in records && FindDriver(drivers, r.driverId) == Some(Driver(item.driverId, item.driverName))
        && item == IncomeItem(r, FindDriver(drivers, r.driverId).value)
    ensures (forall r :: r in records ==> FindDriver(drivers, r.driverId).Some?) ==>
      |Joined(records, drivers)| == |records|
  {
    if records != [] {
      var front := records[..|records| - 1];
      JoinedItems(front, drivers);
      assert forall r :: r in front ==> r in records;
    }
  }

  /** The loop that emits one item per record with a cached driver. */
  method EmitItems(records: seq<DriverIncome>, cache: map<int, Driver>) returns (result: seq<DriverIncomeReportItem>)
    ensures result == CachedItems(records, cache)
  {
    result := [];
    for i := 0 to |records|
      invariant result == CachedItems(records[..i], cache)
    {
      var income := records[i];
      assert records[..i + 1][..i] == records[..i];
      if income.driverId in cache {
        var driver := cache[income.driverId];
        result := result + [IncomeItem(income, driver)];
      }
    }
    assert records[..|records|] == records;
  }

  /** getObjects. The user lookup is a parameter; `None` there is the
      NullPointerException the missing user causes, here `None` too. The
      income table is taken to be in date order already. */
  method GetObjects(user: Option<User>, driverId: int, from: Option<int>, to: Option<int>, period: Option<string>,
                    incomes: seq<DriverIncome>, drivers: seq<Driver>)
    returns (r: Option<seq<DriverIncomeReportItem>>)
    ensures r.Some? <==> user.Some?
    ensures r.Some? ==> r.value == Joined(Filtered(incomes, user.value, driverId, from, to, period), drivers)
  {
    if user.None? {
      return None;
    }
    var conditions := BuildConditions(user.value, driverId, from, to, period);
    var records := Select(incomes, conditions);
    SelectIsFiltered(incomes, conditions, user.value, driverId, from, to, period);
    var cache, _ := CacheDrivers(records, drivers);
    var result := EmitItems(records, cache);
    ItemsAreJoin(records, drivers);
    return Some(result);
  }

  // ---------------------------------------------------------------------
  // getSummary

  /** The total of the amounts of the records naming driver `id`. */
  function Total(records: seq<DriverIncome>, id: int): real
  {
    if records == [] then 0.0
    else
      var r := records[|records| - 1];
      Total(records[..|records| - 1], id) + (if r.driverId == id then r.amount else 0.0)
  }

  /** The totals map after visiting `records` with Map.merge(id, amount, sum). */
  function TotalsAfter(records: seq<DriverIncome>): map<int, real>
  {
    if records == [] then map[]
    else
      var totals := TotalsAfter(records[..|records| - 1]);
      var r := records[|records| - 1];
      totals[r.driverId := if r.driverId in totals then totals[r.driverId] + r.amount else r.amount]
  }

  /** Merging keeps one entry per driver named, holding that driver's total. */
  lemma {:induction false} TotalsAreSums(records: seq<DriverIncome>)
    ensures forall id :: id in TotalsAfter(records) <==> id in DriverIds(records)
    ensures forall id :: id in TotalsAfter(records) ==> TotalsAfter(records)[id] == Total(records, id)
  {
    if records != [] {
      var front := records[..|records| - 1];
      TotalsAreSums(front);
      TotalOfAbsent(front);
      assert records == front + [records[|records| - 1]];
      assert DriverIds(records) == DriverIds(front) + {records[|records| - 1].driverId};
    }
  }

  lemma {:induction false} TotalOfAbsent(records: seq<DriverIncome>)
    ensures forall id :: id !in DriverIds(records) ==> Total(records, id) == 0.0
  {
    if records != [] {
      var front := records[..|records| - 1];
      TotalOfAbsent(front);
      assert records == front + [records[|records| - 1]];
      assert DriverIds(records) == DriverIds(front) + {records[|records| - 1].driverId};
    }
  }

  /** The merge loop of getSummary. */
  method SumByDriver(records: seq<DriverIncome>) returns (totals: map<int, real>)
    ensures totals == TotalsAfter(records)
  {
    totals := map[];
    for i := 0 to |records|
      invariant totals == TotalsAfter(records[..i])
    {
      var income := records[i];
      assert records[..i + 1][..i] == records[..i];
      if income.driverId in totals {
        totals := totals[income.driverId := totals[income.driverId] + income.amount];
      } else {
        totals := totals[income.driverId := income.amount];
      }
    }
    assert records[..|records|] == records;
  }

  function SummaryItem(d: Driver, amount: real, period: Option<string>): DriverIncomeReportItem
  {
    DriverIncomeReportItem(d.id, d.name, amount, None, None, period)
  }

  predicate DistinctDrivers(items: seq<DriverIncomeReportItem>)
  {
    forall k, l :: 0 <= k < l < |items| ==> items[k].driverId != items[l].driverId
  }

  /** Some element of a non-empty set, chosen arbitrarily. */
  method AnyKey(keys: set<int>) returns (id: int)
    requires |keys| > 0
    ensures id in keys
  {
    NonEmptyHasElement(keys);
    id :| id in keys;
  }

  lemma NonEmptyHasElement(keys: set<int>)
    requires |keys| > 0
    ensures exists e :: e in keys
  {
    if forall e :: e !in keys {
      assert false;
    }
  }

  /** The loop over the totals map, visited in an unspecified (hash) order:
      one item per total whose driver is cached. */
  method EmitSummary(totals: map<int, real>, cache: map<int, Driver>, period: Option<string>)
    returns (items: seq<DriverIncomeReportItem>)
    requires forall id :: id in cache ==> cache[id].id == id
    ensures DistinctDrivers(items)
    ensures forall k :: 0 <= k < |items| ==>
      items[k].driverId in totals && items[k].driverId in cache
      && items[k] == SummaryItem(cache[items[k].driverId], totals[items[k].driverId], period)
    ensures forall id :: id in totals && id in cache ==> exists k :: 0 <= k < |items| && items[k].driverId == id
  {
    items := [];
    var remaining := totals.Keys;
    while |remaining| > 0
      invariant remaining <= totals.Keys
      invariant DistinctDrivers(items)
      invariant forall k :: 0 <= k < |items| ==>
        items[k].driverId in totals.Keys - remaining && items[k].driverId in cache
        && items[k] == SummaryItem(cache[items[k].driverId], totals[items[k].driverId], period)
      invariant forall id :: id in totals.Keys - remaining && id in cache ==>
        exists k :: 0 <= k < |items| && items[k].driverId == id
      decreases |remaining|
    {
      var id := AnyKey(remaining);
      ghost var before := items;
      if id in cache {
        var driver := cache[id];
        items := items + [SummaryItem(driver, totals[id], period)];
        assert items[|items| - 1].driverId == id;
      }
      assert forall k :: 0 <= k < |before| ==> items[k] == before[k];
      remaining := remaining - {id};
    }
  }

  /** getSummary: at most one item per driver, one for every driver that
      has admitted income and exists, carrying that driver's total and the
      requested period; none for a driver that does not exist. */
  method GetSummary(user: Option<User>, driverId: int, period: Option<string>,
                    incomes: seq<DriverIncome>, drivers: seq<Driver>)
    returns (r: Option<seq<DriverIncomeReportItem>>)
    ensures r.Some? <==> user.Some?
    ensures r.Some? ==> DistinctDrivers(r.value)
    ensures r.Some? ==> var records := Filtered(incomes, user.value, driverId, None, None, period);
      && (forall k :: 0 <= k < |r.value| ==>
            var id := r.value[k].driverId;
            && id in DriverIds(records) && FindDriver(drivers, id).Some?
            && r.value[k] == SummaryItem(FindDriver(drivers, id).value, Total(records, id), period))
      && (forall id :: id in DriverIds(records) && FindDriver(drivers, id).Some? ==>
            exists k :: 0 <= k < |r.value| && r.value[k].driverId == id)
  {
    if user.None? {
      return None;
    }
    var conditions := BuildConditions(user.value, driverId, None, None, period);
    var records := Select(incomes, conditions);
    SelectIsFiltered(incomes, conditions, user.value, driverId, None, None, period);
    var cache, _ := CacheDrivers(records, drivers);
    CacheHoldsFoundDrivers(records, drivers);
    var totals := SumByDriver(records);
    TotalsAreSums(records);
    var items := EmitSummary(totals, cache, period);
    return Some(items);
  }
}
