/** The campus-calendar alert: a decision table over the day of the week, the
    hour and the month that builds an ordered list of demand events, the choice
    of the current impact, the today/upcoming split and the badge colours.
    Dates are modelled as a day offset from today (0 today, 1 tomorrow, ...). */
module CampusCalendar {
  import opened Wrappers
  import opened Clock

  datatype Impact = High | Medium | Low
  datatype EventType = Game | Class | Event

  datatype CampusEvent = CampusEvent(dayOffset: int, title: string, kind: EventType,
                                     impact: Impact, description: string)

  const StadiumNotice := "Ohio Stadium - Expect very high parking demand. Arrive 3+ hours early."

  const GameDay := CampusEvent(0, "OSU Football Game Day", Game, High, StadiumNotice)
  const EarlyMorning := CampusEvent(0, "Early Morning - Low Demand", Class, Low,
    "Great time to find parking! Most students haven't arrived yet.")
  const MorningRush := CampusEvent(0, "Morning Class Rush", Class, High,
    "Peak class arrival time. Most garages near capacity.")
  const MiddayClasses := CampusEvent(0, "Midday Classes", Class, Medium,
    "Moderate parking demand throughout campus.")
  const AfternoonClasses := CampusEvent(0, "Afternoon Classes", Class, Low,
    "Lower demand as many students are leaving campus.")
  const Weekend := CampusEvent(0, "Weekend - Reduced Demand", Event, Low,
    "Great time for accessible parking! Most campus lots have high availability.")
  const UpcomingGame := CampusEvent(5, "OSU Football Game - Penn State", Game, High, StadiumNotice)
  const CareerFair := CampusEvent(1, "Career Fair - Ohio Union", Event, Medium,
    "High visitor traffic expected in South Campus area.")

  // ----- the decision table, one part per branch group -----

  predicate IsFallSaturday(day: Weekday, month: Month) {
    day == 6 && 8 <= month <= 11
  }

  function GameDayPart(day: Weekday, month: Month): seq<CampusEvent> {
    if IsFallSaturday(day, month) then [GameDay] else []
  }

  function ClassPart(day: Weekday, hour: Hour): seq<CampusEvent> {
    if 1 <= day <= 5 then
      if 6 <= hour < 8 then [EarlyMorning]
      else if 8 <= hour <= 10 then [MorningRush]
      else if 11 <= hour <= 14 then [MiddayClasses]
      else if 15 <= hour <= 17 then [AfternoonClasses]
      else []
    else []
  }

  function WeekendPart(day: Weekday, hour: Hour): seq<CampusEvent> {
    if (day == 0 || day == 6) && 6 <= hour <= 22 then [Weekend] else []
  }

  /** The event list the mount effect stores, in push order. */
  function Events(day: Weekday, hour: Hour, month: Month): seq<CampusEvent> {
    GameDayPart(day, month) + ClassPart(day, hour) + WeekendPart(day, hour)
    + [UpcomingGame, CareerFair]
  }

  // ----- current impact, today / upcoming split -----

  predicate IsToday(e: CampusEvent) {
    e.dayOffset == 0
  }

  /** `find` for the first event dated today. */
  function FirstToday(events: seq<CampusEvent>): (r: Option<CampusEvent>)
    ensures r.Some? ==> r.value in events && IsToday(r.value)
    ensures r.None? <==> forall e :: e in events ==> !IsToday(e)
  {
    if events == [] then None
    else if IsToday(events[0]) then Some(events[0])
    else FirstToday(events[1..])
  }

  function TodayEvents(events: seq<CampusEvent>): (r: seq<CampusEvent>)
    ensures forall e :: e in r <==> e in events && IsToday(e)
    ensures |r| <= |events|
  {
    if events == [] then []
    else (if IsToday(events[0]) then [events[0]] else []) + TodayEvents(events[1..])
  }

  function FutureEvents(events: seq<CampusEvent>): (r: seq<CampusEvent>)
    ensures forall e :: e in r <==> e in events && !IsToday(e)
    ensures |r| <= |events|
  {
    if events == [] then []
    else (if IsToday(events[0]) then [] else [events[0]]) + FutureEvents(events[1..])
  }

  /** The two filters split the list: every event lands in exactly one of them,
      as often as it occurs. */
  lemma {:induction false} SplitIsPartition(events: seq<CampusEvent>)
    ensures multiset(TodayEvents(events)) + multiset(FutureEvents(events)) == multiset(events)
    ensures |TodayEvents(events)| + |FutureEvents(events)| == |events|
  {
    if events != [] {
      SplitIsPartition(events[1..]);
      assert events == [events[0]] + events[1..];
    }
  }

  /** When every event of today comes before every upcoming one, the split keeps
      the list's order: today's events followed by the upcoming ones. */
  lemma {:induction false} SplitKeepsOrder(today: seq<CampusEvent>, future: seq<CampusEvent>)
    requires forall e :: e in today ==> IsToday(e)
    requires forall e :: e in future ==> !IsToday(e)
    ensures TodayEvents(today + future) == today
    ensures FutureEvents(today + future) == future
  {
    if today == [] {
      assert today + future == future;
      FiltersOfUpcoming(future);
    } else {
      assert (today + future)[1..] == today[1..] + future;
      SplitKeepsOrder(today[1..], future);
    }
  }

  lemma {:induction false} FiltersOfUpcoming(future: seq<CampusEvent>)
    requires forall e :: e in future ==> !IsToday(e)
    ensures TodayEvents(future) == []
    ensures FutureEvents(future) == future
  {
    if future != [] {
      FiltersOfUpcoming(future[1..]);
      assert future == [future[0]] + future[1..];
    }
  }

  /** The event `find` picks is the first one in the today list. */
  lemma {:induction false} FirstTodayIsHead(events: seq<CampusEvent>)
    ensures FirstToday(events).None? <==> TodayEvents(events) == []
    ensures FirstToday(events).Some? ==> FirstToday(events).value == TodayEvents(events)[0]
  {
    if events != [] {
      FirstTodayIsHead(events[1..]);
    }
  }

  // ----- the table's promises -----

  function TodayPart(day: Weekday, hour: Hour, month: Month): seq<CampusEvent> {
    GameDayPart(day, month) + ClassPart(day, hour) + WeekendPart(day, hour)
  }

  lemma EventsShape(day: Weekday, hour: Hour, month: Month)
    ensures Events(day, hour, month) == TodayPart(day, hour, month) + [UpcomingGame, CareerFair]
    ensures forall e :: e in TodayPart(day, hour, month) ==> IsToday(e)
    ensures |TodayPart(day, hour, month)| <= 2
  {
  }

  /** The list is never empty and ends with the two upcoming events: a high-impact
      game in five days and a medium-impact career fair tomorrow. */
  lemma UpcomingAlwaysLast(day: Weekday, hour: Hour, month: Month)
    ensures var es := Events(day, hour, month);
      |es| >= 2
      && es[|es| - 2].dayOffset == 5 && es[|es| - 2].kind == Game && es[|es| - 2].impact == High
      && es[|es| - 1].dayOffset == 1 && es[|es| - 1].kind == Event && es[|es| - 1].impact == Medium
  {
  }

  /** The today/upcoming split of the built list is exactly the table's today
      part followed by the two upcoming events. */
  lemma SplitOfEvents(day: Weekday, hour: Hour, month: Month)
    ensures TodayEvents(Events(day, hour, month)) == TodayPart(day, hour, month)
    ensures FutureEvents(Events(day, hour, month)) == [UpcomingGame, CareerFair]
  {
    EventsShape(day, hour, month);
    SplitKeepsOrder(TodayPart(day, hour, month), [UpcomingGame, CareerFair]);
  }

  /** A game happens today exactly on a Saturday from September to December,
      and it is of high impact. */
  lemma GameDayIff(day: Weekday, hour: Hour, month: Month)
    ensures (exists e :: e in Events(day, hour, month) && e.kind == Game && IsToday(e))
            <==> IsFallSaturday(day, month)
    ensures forall e :: e in Events(day, hour, month) && e.kind == Game ==> e.impact == High
  {
    EventsShape(day, hour, month);
    if IsFallSaturday(day, month) {
      assert GameDay in Events(day, hour, month);
    }
  }

  /** The class-schedule impact by hour, as a table over the working-day hours. */
  function ClassImpact(hour: Hour): Option<Impact> {
    if hour < 6 || hour > 17 then None
    else if hour <= 7 || hour >= 15 then Some(Low)
    else if hour <= 10 then Some(High)
    else Some(Medium)
  }

  /** On Monday to Friday there is a class event today exactly when the hour has
      an entry in the table, and then it carries that entry's impact; on the
      weekend there is none. At most one class event is added. */
  lemma ClassRule(day: Weekday, hour: Hour, month: Month)
    ensures (exists e :: e in Events(day, hour, month) && e.kind == Class)
            <==> 1 <= day <= 5 && ClassImpact(hour).Some?
    ensures forall e :: e in Events(day, hour, month) && e.kind == Class ==>
              ClassImpact(hour) == Some(e.impact)
    ensures |ClassPart(day, hour)| <= 1
  {
    var es := Events(day, hour, month);
    EventsShape(day, hour, month);
    if 1 <= day <= 5 && ClassImpact(hour).Some? {
      var c := ClassPart(day, hour);
      assert |c| == 1 && c[0] in es;
    }
  }

  /** The weekend notice is there exactly on Saturday and Sunday from 6:00 to 22:59. */
  lemma WeekendRule(day: Weekday, hour: Hour, month: Month)
    ensures Weekend in Events(day, hour, month) <==> (day == 0 || day == 6) && 6 <= hour <= 22
  {
    EventsShape(day, hour, month);
  }

  /** The current impact: that of the first event dated today, if there is one. */
  function CurrentImpact(events: seq<CampusEvent>): Option<Impact> {
    var found := FirstToday(events);
    if found.Some? then Some(found.value.impact) else None
  }

  /** On a fall Saturday the game-day event is pushed first, so the day is of
      high impact whatever the hour. */
  lemma FallSaturdayIsHigh(day: Weekday, hour: Hour, month: Month)
    requires IsFallSaturday(day, month)
    ensures CurrentImpact(Events(day, hour, month)) == Some(High)
  {
  }

  /** There is no current impact exactly when no row of the table fires today. */
  lemma NoCurrentImpactIff(day: Weekday, hour: Hour, month: Month)
    ensures CurrentImpact(Events(day, hour, month)).None?
            <==> !IsFallSaturday(day, month)
                 && !(1 <= day <= 5 && ClassImpact(hour).Some?)
                 && !((day == 0 || day == 6) && 6 <= hour <= 22)
  {
    SplitOfEvents(day, hour, month);
    FirstTodayIsHead(Events(day, hour, month));
  }

  // ----- colours -----

  /** `getImpactColor`, which takes the impact as text. */
  function ImpactColor(impact: string): string {
    match impact
    case "high" => "bg-red-100 text-red-800 border-red-300"
    case "medium" => "bg-yellow-100 text-yellow-800 border-yellow-300"
    case "low" => "bg-green-100 text-green-800 border-green-300"
    case _ => "bg-gray-100 text-gray-800 border-gray-300"
  }

  function ImpactName(i: Impact): string {
    match i
    case High => "high"
    case Medium => "medium"
    case Low => "low"
  }

  const Gray := "bg-gray-100 text-gray-800 border-gray-300"

  /** The three impacts get three different colours. */
  lemma ImpactColorsDistinct(i: Impact, j: Impact)
    ensures ImpactColor(ImpactName(i)) == ImpactColor(ImpactName(j)) <==> i == j
  {
  }

  /** The gray fallback is used exactly for text that names no impact. */
  lemma GrayIffNoImpact(s: string)
    ensures ImpactColor(s) == Gray <==> forall k: Impact :: s != ImpactName(k)
  {
    if s == "high" {
      assert s == ImpactName(High);
    } else if s == "medium" {
      assert s == ImpactName(Medium);
    } else if s == "low" {
      assert s == ImpactName(Low);
    }
  }

  /** The class names of the today alert's border, chosen by the current impact;
      low and no impact share the blue tone. */
  function AlertTone(current: Option<Impact>): (r: string)
    ensures r == "bg-blue-50 border-blue-300" <==> current != Some(High) && current != Some(Medium)
  {
    if current == Some(High) then "bg-red-50 border-red-300"
    else if current == Some(Medium) then "bg-yellow-50 border-yellow-300"
    else "bg-blue-50 border-blue-300"
  }

  /** The component's state: the stored events and the current impact. */
  class CampusCalendarAlert {
    var upcomingEvents: seq<CampusEvent>
    var currentImpact: Option<Impact>

    constructor ()
      ensures upcomingEvents == [] && currentImpact == None
    {
      upcomingEvents := [];
      currentImpact := None;
    }

    /** The mount effect, with the clock reading as inputs: the list is built by
        pushes, then the impact of the first event of today is stored, if any. */
    method Mount(day: Weekday, hour: Hour, month: Month)
      modifies this
      ensures upcomingEvents == Events(day, hour, month)
      ensures currentImpact ==
                (if CurrentImpact(upcomingEvents).Some? then CurrentImpact(upcomingEvents)
                 else old(currentImpact))
    {
      var mockEvents: seq<CampusEvent> := [];
      if day == 6 && month >= 8 && month <= 11 {
        mockEvents := mockEvents + [GameDay];
      }
      if day >= 1 && day <= 5 {
        if hour >= 6 && hour < 8 {
          mockEvents := mockEvents + [EarlyMorning];
        } else if hour >= 8 && hour <= 10 {
          mockEvents := mockEvents + [MorningRush];
        } else if hour >= 11 && hour <= 14 {
          mockEvents := mockEvents + [MiddayClasses];
        } else if hour >= 15 && hour <= 17 {
          mockEvents := mockEvents + [AfternoonClasses];
        }
      }
      if day == 0 || day == 6 {
        if hour >= 6 && hour <= 22 {
          mockEvents := mockEvents + [Weekend];
        }
      }
      mockEvents := mockEvents + [UpcomingGame];
      mockEvents := mockEvents + [CareerFair];
      upcomingEvents := mockEvents;
      var currentEvent := FirstToday(mockEvents);
      if currentEvent.Some? {
        currentImpact := Some(currentEvent.value.impact);
      }
    }

    /** The component renders at all only with a non-empty list. */
    predicate Renders()
      reads this
    {
      |upcomingEvents| > 0
    }

    /** The today alert is shown when some stored event is dated today. */
    predicate AlertShown()
      reads this
    {
      |TodayEvents(upcomingEvents)| > 0
    }

    /** After mounting on a fresh component, the component renders, the alert is
        shown exactly when there is a current impact, the alert's badge shows that
        impact, and the upcoming card lists the two future events. */
    lemma MountedView(day: Weekday, hour: Hour, month: Month)
      requires upcomingEvents == Events(day, hour, month)
      requires currentImpact == CurrentImpact(upcomingEvents)
      ensures Renders()
      ensures AlertShown() <==> currentImpact.Some?
      ensures AlertShown() ==> currentImpact == Some(TodayEvents(upcomingEvents)[0].impact)
      ensures FutureEvents(upcomingEvents) == [UpcomingGame, CareerFair]
    {
      SplitOfEvents(day, hour, month);
      FirstTodayIsHead(upcomingEvents);
    }
  }
}
