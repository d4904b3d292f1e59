/** The records exchanged between the backend and the dashboard. */
module ParkingTypes {
  import opened Wrappers

  /** One campus facility's accessible-spot counts and position. */
  datatype ParkingLot = ParkingLot(
    lotId: string,
    lotName: string,
    totalSpots: int,
    occupiedSpots: int,
    availableSpots: int,
    latitude: real,
    longitude: real)

  /** The summary figures shown above the map. */
  datatype ParkingStats = ParkingStats(
    totalLots: nat,
    totalAccessibleSpots: int,
    totalOccupied: int,
    totalAvailable: int,
    occupancyRate: real)

  /** The occupancy invariant every lot is meant to keep. */
  predicate Consistent(lot: ParkingLot) {
    0 <= lot.occupiedSpots <= lot.totalSpots
    && lot.availableSpots == lot.totalSpots - lot.occupiedSpots
  }

  predicate AllConsistent(lots: seq<ParkingLot>) {
    forall i :: 0 <= i < |lots| ==> Consistent(lots[i])
  }

  // ----- field sums (the `reduce` calls of both dashboards) -----

  function SumTotal(lots: seq<ParkingLot>): int {
    if lots == [] then 0 else SumTotal(lots[..|lots| - 1]) + lots[|lots| - 1].totalSpots
  }

  function SumOccupied(lots: seq<ParkingLot>): int {
    if lots == [] then 0 else SumOccupied(lots[..|lots| - 1]) + lots[|lots| - 1].occupiedSpots
  }

  function SumAvailable(lots: seq<ParkingLot>): int {
    if lots == [] then 0 else SumAvailable(lots[..|lots| - 1]) + lots[|lots| - 1].availableSpots
  }

  /** Over consistent lots the three totals agree: available = capacity - occupied,
      and 0 <= occupied <= capacity. */
  lemma {:induction false} SumsOfConsistentLots(lots: seq<ParkingLot>)
    requires AllConsistent(lots)
    ensures SumAvailable(lots) == SumTotal(lots) - SumOccupied(lots)
    ensures 0 <= SumOccupied(lots) <= SumTotal(lots)
  {
    if lots != [] {
      SumsOfConsistentLots(lots[..|lots| - 1]);
    }
  }

  /** With no negative capacity, the capacity sum is at least any one lot's. */
  lemma {:induction false} SumTotalAtLeastOne(lots: seq<ParkingLot>, k: nat)
    requires k < |lots|
    requires forall i :: 0 <= i < |lots| ==> lots[i].totalSpots >= 0
    ensures SumTotal(lots) >= lots[k].totalSpots
  {
    var n := |lots| - 1;
    SumTotalNonNegative(lots[..n]);
    if k < n {
      SumTotalAtLeastOne(lots[..n], k);
    }
  }

  lemma {:induction false} SumTotalNonNegative(lots: seq<ParkingLot>)
    requires forall i :: 0 <= i < |lots| ==> lots[i].totalSpots >= 0
    ensures SumTotal(lots) >= 0
  {
    if lots != [] {
      SumTotalNonNegative(lots[..|lots| - 1]);
    }
  }

  /** Lots that agree on capacity have the same capacity sum. */
  lemma {:induction false} SumTotalSameCapacities(a: seq<ParkingLot>, b: seq<ParkingLot>)
    requires |a| == |b|
    requires forall i :: 0 <= i < |a| ==> a[i].totalSpots == b[i].totalSpots
    ensures SumTotal(a) == SumTotal(b)
  {
    if a != [] {
      SumTotalSameCapacities(a[..|a| - 1], b[..|b| - 1]);
    }
  }

  /** `(occupied / capacity) * 100` for a positive capacity: the occupied share
      as a percentage. */
  function Percent(occupied: int, capacity: int): (r: real)
    requires capacity > 0
    ensures r * (capacity as real) == (occupied as real) * 100.0
    ensures 0 <= occupied <= capacity ==> 0.0 <= r <= 100.0
  {
    var c := capacity as real;
    var q := occupied as real / c;
    assert q * c == occupied as real;
    ShareAtMostOne(occupied as real, c, q);
    q * 100.0
  }

  /** A share of a positive whole: between 0 and 1 when the part is. */
  lemma ShareAtMostOne(o: real, c: real, q: real)
    requires c > 0.0 && q * c == o
    ensures 0.0 <= o <= c ==> 0.0 <= q <= 1.0
  {
    if 0.0 <= o <= c {
      assert (1.0 - q) * c == c - o;
      NonNegativeFactor(1.0 - q, c);
      NonNegativeFactor(q, c);
    }
  }

  /** With a positive factor, a non-negative product has a non-negative other factor. */
  lemma NonNegativeFactor(a: real, b: real)
    requires b > 0.0 && a * b >= 0.0
    ensures a >= 0.0
  {
  }

  /** The lot-click rule of both dashboards: clicking the selected lot (same id)
      clears the selection, clicking any other lot selects it. */
  function ToggleSelection(selected: Option<ParkingLot>, clicked: ParkingLot): (r: Option<ParkingLot>)
    ensures r.None? <==> selected.Some? && selected.value.lotId == clicked.lotId
    ensures r.Some? ==> r.value == clicked
  {
    if selected.Some? && selected.value.lotId == clicked.lotId then None else Some(clicked)
  }
}
