/** What the reports read from storage: the devices a user may see and the
    positions one device reported inside a time window. */
module ReportStorage {
  import opened Telemetry

  datatype Device = Device(id: int, name: string)

  /** The condition `deviceId = ? AND fixTime BETWEEN from AND to`, bounds included. */
  predicate InWindow(p: Position, deviceId: int, from: int, to: int)
  {
    p.deviceId == deviceId && p.fix.fixTime.Some? && from <= p.fix.fixTime.value <= to
  }

  /** The positions of one device inside the window, in table order. */
  function PositionsBetween(table: seq<Position>, deviceId: int, from: int, to: int): (r: seq<Position>)
    ensures |r| <= |table|
    ensures forall k :: 0 <= k < |r| ==> InWindow(r[k], deviceId, from, to)
    ensures forall p :: p in table && InWindow(p, deviceId, from, to) ==> p in r
  {
    if table == [] then []
    else
      var rest := PositionsBetween(table[..|table| - 1], deviceId, from, to);
      var last := table[|table| - 1];
      assert forall p :: p in table ==> p in table[..|table| - 1] || p == last;
      if InWindow(last, deviceId, from, to) then rest + [last] else rest
  }
}
