/** The static table of the twenty campus garages and the simulated occupancy
    refresh of the older dashboard. The random per-lot change of the source is an
    input: one integer in [-2, 2] per lot. */
module ParkingData {
  import opened ParkingTypes

  /** A simulated change of one lot's occupied count. */
  type Change = d: int | -2 <= d <= 2

  const InitialLots: seq<ParkingLot> := [
    ParkingLot("12th_avenue", "12th Avenue Garage", 15, 8, 7, 40.0067, -83.0305),
    ParkingLot("9th_avenue_east", "9th Avenue East Garage", 12, 10, 2, 40.0015, -83.0145),
    ParkingLot("9th_avenue_west", "9th Avenue West Garage", 10, 5, 5, 40.0018, -83.0195),
    ParkingLot("safeauto", "SAFEAUTO Garage", 18, 12, 6, 40.0012, -83.0168),
    ParkingLot("medical_center", "Medical Center Garage", 25, 22, 3, 40.0009, -83.0321),
    ParkingLot("old_cannon", "Old Cannon Garage", 8, 3, 5, 40.0098, -83.0289),
    ParkingLot("neil_avenue", "Neil Avenue Garage", 14, 9, 5, 40.0076, -83.0145),
    ParkingLot("11th_avenue", "11th Avenue Garage", 11, 7, 4, 40.0087, -83.0278),
    ParkingLot("ohio_union_north", "Ohio Union North Garage", 12, 8, 4, 40.0045, -83.0147),
    ParkingLot("ohio_union_south", "Ohio Union South Garage", 10, 6, 4, 40.0038, -83.0149),
    ParkingLot("gateway", "Gateway Garage", 16, 11, 5, 40.0003, -83.0098),
    ParkingLot("tuttle", "Tuttle Garage", 13, 8, 5, 40.0089, -83.0321),
    ParkingLot("northwest", "Northwest Garage", 9, 4, 5, 40.0112, -83.0334),
    ParkingLot("arps", "Arps Garage", 11, 7, 4, 40.0054, -83.0198),
    ParkingLot("lane_avenue", "Lane Avenue Garage", 14, 10, 4, 40.0098, -83.0254),
    ParkingLot("west_lane_avenue", "West Lane Avenue Garage", 12, 5, 7, 40.0101, -83.0389),
    ParkingLot("james_outpatient", "James Outpatient Care Garage", 20, 16, 4, 40.0003, -83.0356),
    ParkingLot("carmack_2_3", "Carmack Lot 2/3", 8, 3, 5, 40.0123, -83.0301),
    ParkingLot("carmack_4", "Carmack Lot 4", 6, 2, 4, 40.0127, -83.0287),
    ParkingLot("carmack_5", "Carmack Lot 5", 7, 4, 3, 40.0131, -83.0276)
  ]

  predicate DistinctIds(lots: seq<ParkingLot>) {
    forall i, j :: 0 <= i < j < |lots| ==> lots[i].lotId != lots[j].lotId
  }

  /** The table holds twenty lots, each with 0 <= occupied <= total and
      available = total - occupied, so the table's capacity is positive. */
  lemma InitialLotsConsistent()
    ensures |InitialLots| == 20
    ensures AllConsistent(InitialLots)
    ensures SumTotal(InitialLots) > 0
  {
    InitialLotsEachConsistent();
    InitialCapacityPositive();
  }

  lemma InitialLotsEachConsistent()
    ensures |InitialLots| == 20 && AllConsistent(InitialLots)
  {
  }

  lemma InitialCapacityPositive()
    ensures SumTotal(InitialLots) > 0
  {
    SumTotalAtLeastOne(InitialLots, 0);
  }

  /** No two lots of the table share an id. */
  lemma InitialLotsDistinctIds()
    ensures DistinctIds(InitialLots)
  {
    FirstHalfDistinctIds();
    SecondHalfDistinctIds();
    HalvesDistinctIds();
    forall i, j | 0 <= i < j < |InitialLots|
      ensures InitialLots[i].lotId != InitialLots[j].lotId
    {
      if j < 10 {
        assert InitialLots[..10][i] == InitialLots[i] && InitialLots[..10][j] == InitialLots[j];
      } else if 10 <= i {
        assert InitialLots[10..][i - 10] == InitialLots[i] && InitialLots[10..][j - 10] == InitialLots[j];
      }
    }
  }

  // The table is checked in two halves of ten lots, then across the halves.
  lemma FirstHalfDistinctIds()
    ensures DistinctIds(InitialLots[..10])
  {
  }

  lemma SecondHalfDistinctIds()
    ensures DistinctIds(InitialLots[10..])
  {
  }

  lemma HalvesDistinctIds()
    ensures forall i, j :: 0 <= i < 10 <= j < 20 ==> InitialLots[i].lotId != InitialLots[j].lotId
  {
  }

  function Min(a: int, b: int): int { if a <= b then a else b }
  function Max(a: int, b: int): int { if a >= b then a else b }

  /** One lot after a change: the occupied count moved by `change` and clamped
      into [0, total], the available count recomputed. */
  function UpdateLot(lot: ParkingLot, change: Change): (r: ParkingLot)
    ensures r.lotId == lot.lotId && r.lotName == lot.lotName
    ensures r.totalSpots == lot.totalSpots
    ensures r.latitude == lot.latitude && r.longitude == lot.longitude
    ensures r.availableSpots == r.totalSpots - r.occupiedSpots
    ensures lot.totalSpots >= 0 ==> 0 <= r.occupiedSpots <= r.totalSpots
    ensures 0 <= lot.occupiedSpots + change <= lot.totalSpots ==>
              r.occupiedSpots == lot.occupiedSpots + change
    ensures lot.totalSpots >= 0 && lot.occupiedSpots + change > lot.totalSpots ==>
              r.occupiedSpots == lot.totalSpots
    ensures lot.occupiedSpots + change < 0 ==> r.occupiedSpots == 0
  {
    var newOccupied := Max(0, Min(lot.totalSpots, lot.occupiedSpots + change));
    lot.(occupiedSpots := newOccupied, availableSpots := lot.totalSpots - newOccupied)
  }

  /** `updateParkingData`: every lot updated by its own change, in place in the list. */
  function UpdateParkingData(lots: seq<ParkingLot>, changes: seq<Change>): (r: seq<ParkingLot>)
    requires |changes| == |lots|
    ensures |r| == |lots|
    ensures forall i :: 0 <= i < |lots| ==> r[i] == UpdateLot(lots[i], changes[i])
  {
    if lots == [] then [] else [UpdateLot(lots[0], changes[0])] + UpdateParkingData(lots[1..], changes[1..])
  }

  /** The refresh keeps the list's length and order, every lot's id, name,
      capacity and position, and leaves every lot consistent. */
  lemma UpdateParkingDataShape(lots: seq<ParkingLot>, changes: seq<Change>)
    requires |changes| == |lots|
    requires forall i :: 0 <= i < |lots| ==> lots[i].totalSpots >= 0
    ensures var r := UpdateParkingData(lots, changes);
      |r| == |lots|
      && (forall i :: 0 <= i < |lots| ==>
            r[i].lotId == lots[i].lotId && r[i].lotName == lots[i].lotName
            && r[i].totalSpots == lots[i].totalSpots
            && r[i].latitude == lots[i].latitude && r[i].longitude == lots[i].longitude)
      && AllConsistent(r)
  {
  }

  /** A lot whose count was in range moves by at most two. */
  lemma UpdateLotStep(lot: ParkingLot, change: Change)
    requires 0 <= lot.occupiedSpots <= lot.totalSpots
    ensures -2 <= UpdateLot(lot, change).occupiedSpots - lot.occupiedSpots <= 2
  {
  }

  /** With no change, a consistent lot comes back as it was. */
  lemma UpdateLotNoChange(lot: ParkingLot)
    requires Consistent(lot)
    ensures UpdateLot(lot, 0) == lot
  {
  }

  /** Refreshing keeps the ids distinct and the total capacity fixed. */
  lemma UpdateParkingDataKeepsIdsAndCapacity(lots: seq<ParkingLot>, changes: seq<Change>)
    requires |changes| == |lots|
    ensures DistinctIds(lots) ==> DistinctIds(UpdateParkingData(lots, changes))
    ensures SumTotal(UpdateParkingData(lots, changes)) == SumTotal(lots)
  {
    SumTotalSameCapacities(UpdateParkingData(lots, changes), lots);
  }
}
