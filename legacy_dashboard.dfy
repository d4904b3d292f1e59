/** The older dashboard page: starts from the static table, refreshes it with
    simulated changes once a map key has been entered, and computes its
    occupancy rate without a zero-capacity guard. */
module LegacyDashboard {
  import opened Wrappers
  import opened Toasts
  import opened Text
  import opened ParkingTypes
  import opened ParkingData

  /** A JavaScript number as far as a division can make one: finite, or the
      result of dividing by zero. */
  datatype JsNumber = Finite(value: real) | NaN | PlusInfinity | MinusInfinity

  /** `(totalOccupied / totalAccessibleSpots) * 100` with JavaScript's rules for a
      zero divisor. */
  function UnguardedRate(occupied: int, capacity: int): (r: JsNumber)
    ensures r.Finite? <==> capacity != 0
    ensures r.Finite? ==> r.value * (capacity as real) == (occupied as real) * 100.0
    ensures capacity > 0 && 0 <= occupied <= capacity ==> r.Finite? && 0.0 <= r.value <= 100.0
    ensures r == NaN <==> capacity == 0 && occupied == 0
  {
    if capacity > 0 then Finite(Percent(occupied, capacity))
    else if capacity < 0 then Finite(Percent(-occupied, -capacity))
    else if occupied == 0 then NaN
    else if occupied > 0 then PlusInfinity
    else MinusInfinity
  }

  function OccupancyRate(lots: seq<ParkingLot>): JsNumber {
    UnguardedRate(SumOccupied(lots), SumTotal(lots))
  }

  /** The lots keep the table's ids and capacities, in the table's order, and
      every lot is consistent. */
  predicate TableShaped(lots: seq<ParkingLot>) {
    |lots| == |InitialLots|
    && (forall i :: 0 <= i < |lots| ==>
          lots[i].lotId == InitialLots[i].lotId && lots[i].totalSpots == InitialLots[i].totalSpots)
    && AllConsistent(lots)
  }

  /** The list after several refreshes, one change per lot each time. */
  function RefreshMany(lots: seq<ParkingLot>, rounds: seq<seq<Change>>): seq<ParkingLot>
    requires forall k :: 0 <= k < |rounds| ==> |rounds[k]| == |lots|
    decreases |rounds|
  {
    if rounds == [] then lots
    else RefreshMany(UpdateParkingData(lots, rounds[0]), rounds[1..])
  }

  /** One refresh keeps the table's shape. */
  lemma RefreshKeepsShape(lots: seq<ParkingLot>, changes: seq<Change>)
    requires TableShaped(lots) && |changes| == |lots|
    ensures TableShaped(UpdateParkingData(lots, changes))
  {
    InitialLotsConsistent();
    UpdateParkingDataShape(lots, changes);
  }

  /** After any number of refreshes from the table, every lot still has
      0 <= occupied <= total and available = total - occupied, and the capacity
      stays that of the table. */
  lemma {:induction false} RefreshManyKeepsShape(lots: seq<ParkingLot>, rounds: seq<seq<Change>>)
    requires TableShaped(lots)
    requires forall k :: 0 <= k < |rounds| ==> |rounds[k]| == |lots|
    ensures TableShaped(RefreshMany(lots, rounds))
    decreases |rounds|
  {
    if rounds != [] {
      RefreshKeepsShape(lots, rounds[0]);
      RefreshManyKeepsShape(UpdateParkingData(lots, rounds[0]), rounds[1..]);
    }
  }

  /** On any list the page can hold, the unguarded rate is a finite percentage. */
  lemma RateFiniteOnTable(lots: seq<ParkingLot>)
    requires TableShaped(lots)
    ensures OccupancyRate(lots).Finite?
    ensures 0.0 <= OccupancyRate(lots).value <= 100.0
  {
    InitialLotsConsistent();
    SumTotalSameCapacities(lots, InitialLots);
    SumsOfConsistentLots(lots);
  }

  /** The key is accepted when trimming leaves something. */
  predicate KeyAccepted(key: string) {
    Trim(key) != ""
  }

  /** A key is accepted exactly when it has a character that is not white space. */
  lemma KeyAcceptedIff(key: string)
    ensures KeyAccepted(key) <==> exists i :: 0 <= i < |key| && !IsJsWhitespace(key[i])
  {
    TrimEmptyIff(key);
  }

  const KeyLoadedNotice := Toast(Success, "Google Maps loaded successfully!")
  const KeyRejectedNotice := Toast(Error, "Please enter a valid API key")

  class LegacyDashboardPage {
    var lots: seq<ParkingLot>
    var selected: Option<ParkingLot>
    var apiKey: string
    var isApiKeySet: bool
    var lastUpdate: int
    var isRefreshing: bool
    var toasts: seq<Toast>

    predicate Valid()
      reads this
    {
      TableShaped(lots)
    }

    constructor (now: int)
      ensures Valid()
      ensures lots == InitialLots && selected == None && apiKey == "" && !isApiKeySet
      ensures lastUpdate == now && !isRefreshing && toasts == []
    {
      lots := InitialLots;
      selected := None;
      apiKey := "";
      isApiKeySet := false;
      lastUpdate := now;
      isRefreshing := false;
      toasts := [];
      InitialLotsConsistent();
    }

    /** The map and the auto-refresh exist only once a key has been accepted. */
    predicate AutoRefreshScheduled()
      reads this
    {
      isApiKeySet
    }

    /** The key field's `onChange`. */
    method SetApiKey(text: string)
      modifies this`apiKey
      ensures apiKey == text
    {
      apiKey := text;
    }

    method HandleApiKeySubmit()
      modifies this`isApiKeySet, this`toasts
      ensures isApiKeySet == (old(isApiKeySet) || KeyAccepted(apiKey))
      ensures toasts == old(toasts) + [if KeyAccepted(apiKey) then KeyLoadedNotice else KeyRejectedNotice]
    {
      var accepted := KeyAccepted(apiKey);
      if accepted {
        isApiKeySet := true;
        toasts := toasts + [KeyLoadedNotice];
      } else {
        toasts := toasts + [KeyRejectedNotice];
      }
    }

    /** `handleRefresh`: spinner on, every lot updated by its change, time stamped. */
    method HandleRefresh(changes: seq<Change>, now: int)
      requires Valid() && |changes| == |lots|
      modifies this`lots, this`lastUpdate, this`isRefreshing
      ensures Valid()
      ensures lots == UpdateParkingData(old(lots), changes)
      ensures lastUpdate == now && isRefreshing
    {
      isRefreshing := true;
      RefreshKeepsShape(lots, changes);
      lots := UpdateParkingData(lots, changes);
      lastUpdate := now;
    }

    /** The half-second timeout that ends the spinner. */
    method RefreshTimeout()
      modifies this`isRefreshing
      ensures !isRefreshing
    {
      isRefreshing := false;
    }

    /** A tick of the ten-second interval, which exists only once a key is set. */
    method TimerTick(changes: seq<Change>, now: int)
      requires Valid() && AutoRefreshScheduled() && |changes| == |lots|
      modifies this`lots, this`lastUpdate, this`isRefreshing
      ensures Valid()
      ensures lots == UpdateParkingData(old(lots), changes)
      ensures lastUpdate == now && isRefreshing
    {
      HandleRefresh(changes, now);
    }

    method HandleLotClick(lot: ParkingLot)
      modifies this`selected
      ensures selected == ToggleSelection(old(selected), lot)
    {
      selected := ToggleSelection(selected, lot);
    }
  }
}
