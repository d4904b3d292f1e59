/** The current dashboard page: summary statistics over the lots fetched from the
    backend, the configuration gate, fetch and refresh, and the lot selection.
    Network results and clock readings are inputs of the step methods. */
module Dashboard {
  import opened Wrappers
  import opened Toasts
  import opened ParkingTypes

  /** The occupancy rate in percent, 0 when there is no capacity. */
  function OccupancyRate(occupied: int, capacity: int): (r: real)
    ensures capacity <= 0 ==> r == 0.0
    ensures capacity > 0 ==> r * (capacity as real) == (occupied as real) * 100.0
    ensures capacity > 0 && 0 <= occupied <= capacity ==> 0.0 <= r <= 100.0
  {
    if capacity > 0 then Percent(occupied, capacity) else 0.0
  }

  /** The statistics shown above the map, recomputed from the lot list. */
  function ComputeStats(lots: seq<ParkingLot>): ParkingStats {
    ParkingStats(|lots|, SumTotal(lots), SumOccupied(lots), SumAvailable(lots),
                 OccupancyRate(SumOccupied(lots), SumTotal(lots)))
  }

  /** Over consistent lots the figures agree with each other and the rate is a
      percentage; with no capacity the rate is 0. */
  lemma StatsOfConsistentLots(lots: seq<ParkingLot>)
    requires AllConsistent(lots)
    ensures var s := ComputeStats(lots);
      s.totalLots == |lots|
      && s.totalAvailable == s.totalAccessibleSpots - s.totalOccupied
      && 0 <= s.totalOccupied <= s.totalAccessibleSpots
      && 0.0 <= s.occupancyRate <= 100.0
      && (s.totalAccessibleSpots == 0 ==> s.occupancyRate == 0.0)
  {
    SumsOfConsistentLots(lots);
  }

  /** What `GET /config` gave: nothing (network error or unreadable body), or a
      body whose `googleMapsApiKey` may be absent. */
  datatype ConfigResponse = ConfigFailed | ConfigBody(googleMapsApiKey: Option<string>)

  /** What `GET /lots` gave: a thrown error, a non-ok status, or the list. */
  datatype LotsResponse = LotsFailed | LotsNotOk | LotsBody(lots: seq<ParkingLot>)

  /** A usable map key: present and non-empty (JavaScript truthiness). */
  predicate KeyUsable(key: Option<string>) {
    key.Some? && key.value != ""
  }

  /** The three error notices of the page. */
  const FetchFailedNotice := Toast(Error, "Error fetching parking data")
  const BackendDownNotice := Toast(Error, "Failed to connect to backend")
  const KeyMissingNotice := Toast(Error, "Google Maps API key missing from backend")

  class DashboardPage {
    var lots: seq<ParkingLot>
    var selected: Option<ParkingLot>
    var apiKey: string
    var isApiLoaded: bool
    /** The time of the last successful fetch (a clock reading). */
    var lastUpdate: int
    var isRefreshing: bool
    var toasts: seq<Toast>

    constructor (now: int)
      ensures lots == [] && selected == None && apiKey == "" && !isApiLoaded
      ensures lastUpdate == now && !isRefreshing && toasts == []
    {
      lots := [];
      selected := None;
      apiKey := "";
      isApiLoaded := false;
      lastUpdate := now;
      isRefreshing := false;
      toasts := [];
    }

    function Stats(): ParkingStats
      reads this
    {
      ComputeStats(lots)
    }

    /** The map, tables and detector are rendered only once a key is loaded. */
    predicate MainViewShown()
      reads this
    {
      isApiLoaded
    }

    /** The ten-second auto-refresh is scheduled only once a key is loaded. */
    predicate AutoRefreshScheduled()
      reads this
    {
      isApiLoaded
    }

    /** `fetchLots`: a good response replaces the list wholesale and stamps the
        time; a failure only raises a notice. */
    method FetchLots(response: LotsResponse, now: int)
      modifies this`lots, this`lastUpdate, this`toasts
      ensures response.LotsBody? ==>
                lots == response.lots && lastUpdate == now && toasts == old(toasts)
      ensures !response.LotsBody? ==>
                lots == old(lots) && lastUpdate == old(lastUpdate)
                && toasts == old(toasts) + [FetchFailedNotice]
    {
      if response.LotsBody? {
        lots := response.lots;
        lastUpdate := now;
      } else {
        toasts := toasts + [FetchFailedNotice];
      }
    }

    /** `init`: read the map key, then fetch the lots. An unreachable
        configuration endpoint skips the lot fetch. */
    method Init(config: ConfigResponse, lotsResponse: LotsResponse, now: int)
      modifies this
      ensures selected == old(selected) && isRefreshing == old(isRefreshing)
      ensures config.ConfigFailed? ==>
                lots == old(lots) && lastUpdate == old(lastUpdate) && apiKey == old(apiKey)
                && isApiLoaded == old(isApiLoaded)
                && toasts == old(toasts) + [BackendDownNotice]
      ensures config.ConfigBody? && KeyUsable(config.googleMapsApiKey) ==>
                apiKey == config.googleMapsApiKey.value && isApiLoaded
      ensures config.ConfigBody? && !KeyUsable(config.googleMapsApiKey) ==>
                apiKey == old(apiKey) && isApiLoaded == old(isApiLoaded)
      ensures config.ConfigBody? && lotsResponse.LotsBody? ==>
                lots == lotsResponse.lots && lastUpdate == now
      ensures config.ConfigBody? && !lotsResponse.LotsBody? ==>
                lots == old(lots) && lastUpdate == old(lastUpdate)
      ensures config.ConfigBody? ==>
                toasts == old(toasts)
                          + (if KeyUsable(config.googleMapsApiKey) then [] else [KeyMissingNotice])
                          + (if lotsResponse.LotsBody? then [] else [FetchFailedNotice])
    {
      if config.ConfigFailed? {
        toasts := toasts + [BackendDownNotice];
        return;
      }
      if KeyUsable(config.googleMapsApiKey) {
        apiKey := config.googleMapsApiKey.value;
        isApiLoaded := true;
      } else {
        toasts := toasts + [KeyMissingNotice];
      }
      FetchLots(lotsResponse, now);
    }

    /** `handleRefresh` up to its `await`: the spinner turns on. */
    method BeginRefresh()
      modifies this`isRefreshing
      ensures isRefreshing
    {
      isRefreshing := true;
    }

    /** `handleRefresh` after its fetch settles: apply it, spinner off. */
    method CompleteRefresh(response: LotsResponse, now: int)
      modifies this`lots, this`lastUpdate, this`toasts, this`isRefreshing
      ensures !isRefreshing
      ensures response.LotsBody? ==> lots == response.lots && lastUpdate == now
      ensures !response.LotsBody? ==> lots == old(lots) && lastUpdate == old(lastUpdate)
      ensures toasts == old(toasts) + (if response.LotsBody? then [] else [FetchFailedNotice])
    {
      FetchLots(response, now);
      isRefreshing := false;
    }

    /** A tick of the auto-refresh interval, which exists only once a key is loaded. */
    method TimerTick()
      requires AutoRefreshScheduled()
      modifies this`isRefreshing
      ensures isRefreshing
    {
      BeginRefresh();
    }

    method HandleLotClick(lot: ParkingLot)
      modifies this`selected
      ensures selected == ToggleSelection(old(selected), lot)
      ensures selected.None? <==> old(selected).Some? && old(selected).value.lotId == lot.lotId
    {
      selected := ToggleSelection(selected, lot);
    }
  }
}
